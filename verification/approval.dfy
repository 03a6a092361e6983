/** The approval-link scan that ends each `createPayment*` handler: a loop
    over the links the gateway returned that overwrites `link` on every entry
    whose `rel` is "approval_url", so the last such entry is returned.
    `None` stands for the empty string the handlers start `link` with. */
module Approval {
  import opened Wrappers

  /** One entry of the `links` list of a created payment or billing agreement. */
  datatype Link = Link(href: string, rel: string, httpMethod: string)

  const APPROVAL_URL: string := "approval_url"

  predicate IsApproval(l: Link)
  {
    l.rel == APPROVAL_URL
  }

  /** The last approval link of `links`, if any. */
  function LastApproval(links: seq<Link>): Option<Link>
  {
    if links == [] then None
    else if IsApproval(links[|links| - 1]) then Some(links[|links| - 1])
    else LastApproval(links[..|links| - 1])
  }

  /** `LastApproval` is nothing exactly when no link is an approval link. */
  lemma {:induction false} LastApprovalNoneIffNoMatch(links: seq<Link>)
    ensures LastApproval(links).None? <==> forall i :: 0 <= i < |links| ==> !IsApproval(links[i])
  {
    if links != [] {
      var n := |links| - 1;
      var init := links[..n];
      if !IsApproval(links[n]) {
        LastApprovalNoneIffNoMatch(init);
        assert forall i :: 0 <= i < n ==> init[i] == links[i];
      }
    }
  }

  /** A found approval link is an approval link of the list after which no
      other approval link follows. */
  lemma {:induction false} LastApprovalIsLastMatch(links: seq<Link>)
    requires LastApproval(links).Some?
    ensures exists i :: 0 <= i < |links| && links[i] == LastApproval(links).value && IsApproval(links[i])
                        && forall j :: i < j < |links| ==> !IsApproval(links[j])
  {
    var n := |links| - 1;
    if IsApproval(links[n]) {
      assert links[n] == LastApproval(links).value;
    } else {
      var init := links[..n];
      LastApprovalIsLastMatch(init);
      var i :| 0 <= i < |init| && init[i] == LastApproval(init).value && IsApproval(init[i])
               && forall j :: i < j < |init| ==> !IsApproval(init[j]);
      assert links[i] == init[i];
      assert forall j :: i < j < n ==> links[j] == init[j];
    }
  }

  /** The `for` loop over `links`, keeping the last approval link seen. */
  method FindApprovalLink(links: seq<Link>) returns (link: Option<Link>)
    ensures link == LastApproval(links)
    ensures link.None? <==> forall i :: 0 <= i < |links| ==> !IsApproval(links[i])
    ensures link.Some? ==> IsApproval(link.value) && link.value in links
  {
    link := None;
    for i := 0 to |links|
      invariant link == LastApproval(links[..i])
    {
      assert links[..i + 1][..i] == links[..i];
      if links[i].rel == APPROVAL_URL {
        link := Some(links[i]);
      }
    }
    assert links[..|links|] == links;
    LastApprovalNoneIffNoMatch(links);
    if link.Some? {
      LastApprovalIsLastMatch(links);
    }
  }
}
