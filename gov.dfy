/**
 * The older software-upgrade filter of internal/events/gov.go, over the proposal records
 * of internal/clients/rest.go. Its `break` leaves the message loop, so each fetched
 * proposal is kept at most once.
 */
module Gov {
  import opened Wrappers
  import opened Clients

  const SoftwareUpgradeProposalType: string := "/cosmos.upgrade.v1beta1.MsgSoftwareUpgrade"

  predicate IsSoftwareUpgrade(p: Proposal) {
    exists i :: 0 <= i < |p.messages| && p.messages[i].msgType == SoftwareUpgradeProposalType
  }

  /** The fetched proposals that carry a software-upgrade message, in fetch order. */
  function UpgradeProposals(ps: seq<Proposal>): seq<Proposal>
  {
    if ps == [] then []
    else UpgradeProposals(ps[..|ps| - 1]) + (if IsSoftwareUpgrade(ps[|ps| - 1]) then [ps[|ps| - 1]] else [])
  }

  /** filterSoftwareUpgradeProposals, loop for loop. */
  method FilterSoftwareUpgradeProposals(proposals: seq<Proposal>) returns (filtered: seq<Proposal>)
    ensures filtered == UpgradeProposals(proposals)
  {
    filtered := [];
    var i := 0;
    while i < |proposals|
      invariant 0 <= i <= |proposals|
      invariant filtered == UpgradeProposals(proposals[..i])
    {
      var proposal := proposals[i];
      var j := 0;
      while j < |proposal.messages|
        invariant 0 <= j <= |proposal.messages|
        invariant forall t :: 0 <= t < j ==> proposal.messages[t].msgType != SoftwareUpgradeProposalType
        invariant filtered == UpgradeProposals(proposals[..i])
      {
        if proposal.messages[j].msgType == SoftwareUpgradeProposalType {
          filtered := filtered + [proposal];
          break;
        }
        j := j + 1;
      }
      assert proposals[..i + 1][..i] == proposals[..i];
      i := i + 1;
    }
    assert proposals[..i] == proposals;
  }

  /** getSoftwareUpgradeProposals with the fetch supplied as its outcome: an error yields nil and that error. */
  method GetSoftwareUpgradeProposals(fetched: Result<seq<Proposal>, string>) returns (r: Result<seq<Proposal>, string>)
    ensures fetched.Failure? ==> r == Failure(fetched.error)
    ensures fetched.Success? ==> r == Success(UpgradeProposals(fetched.value))
  {
    if fetched.Failure? {
      return Failure(fetched.error);
    }
    var proposals := FilterSoftwareUpgradeProposals(fetched.value);
    return Success(proposals);
  }

  /** `sub` is `s` with some elements left out, the rest in their original order. */
  predicate IsSubsequence(sub: seq<Proposal>, s: seq<Proposal>)
    decreases |s|
  {
    if sub == [] then true
    else if s == [] then false
    else if sub[|sub| - 1] == s[|s| - 1] && IsSubsequence(sub[..|sub| - 1], s[..|s| - 1]) then true
    else IsSubsequence(sub, s[..|s| - 1])
  }

  lemma {:induction false} SubsequenceShorter(sub: seq<Proposal>, s: seq<Proposal>)
    requires IsSubsequence(sub, s)
    ensures |sub| <= |s|
    decreases |s|
  {
    if sub != [] {
      if sub[|sub| - 1] == s[|s| - 1] && IsSubsequence(sub[..|sub| - 1], s[..|s| - 1]) {
        SubsequenceShorter(sub[..|sub| - 1], s[..|s| - 1]);
      } else {
        SubsequenceShorter(sub, s[..|s| - 1]);
      }
    }
  }

  /** The output is an order-preserving subsequence of the input, hence never longer. */
  lemma {:induction false} UpgradeProposalsSubsequence(ps: seq<Proposal>)
    ensures IsSubsequence(UpgradeProposals(ps), ps)
    ensures |UpgradeProposals(ps)| <= |ps|
  {
    if ps != [] {
      var init, last := ps[..|ps| - 1], ps[|ps| - 1];
      UpgradeProposalsSubsequence(init);
      var out := UpgradeProposals(ps);
      if IsSoftwareUpgrade(last) {
        assert out[..|out| - 1] == UpgradeProposals(init);
      } else {
        assert out == UpgradeProposals(init);
        SubsequenceGrows(out, init, last);
        assert ps == init + [last];
      }
    }
    SubsequenceShorter(UpgradeProposals(ps), ps);
  }

  lemma {:induction false} SubsequenceGrows(sub: seq<Proposal>, s: seq<Proposal>, x: Proposal)
    requires IsSubsequence(sub, s)
    ensures IsSubsequence(sub, s + [x])
  {
    assert (s + [x])[..|s + [x]| - 1] == s;
  }

  /** Multiplicity: a kept proposal appears exactly as often as it was fetched, others never. */
  lemma {:induction false} UpgradeProposalsCount(ps: seq<Proposal>, q: Proposal)
    ensures multiset(UpgradeProposals(ps))[q] == if IsSoftwareUpgrade(q) then multiset(ps)[q] else 0
  {
    if ps != [] {
      var init, last := ps[..|ps| - 1], ps[|ps| - 1];
      UpgradeProposalsCount(init, q);
      assert ps == init + [last];
    }
  }

  /** A proposal is kept exactly when it carries a software-upgrade message. */
  lemma UpgradeProposalsMembership(ps: seq<Proposal>, q: Proposal)
    ensures q in UpgradeProposals(ps) <==> q in ps && IsSoftwareUpgrade(q)
  {
    UpgradeProposalsCount(ps, q);
    assert q in UpgradeProposals(ps) <==> multiset(UpgradeProposals(ps))[q] > 0;
    assert q in ps <==> multiset(ps)[q] > 0;
  }

  /** Filtering twice is filtering once. */
  lemma {:induction false} UpgradeProposalsIdempotent(ps: seq<Proposal>)
    ensures UpgradeProposals(UpgradeProposals(ps)) == UpgradeProposals(ps)
  {
    if ps != [] {
      var init, last := ps[..|ps| - 1], ps[|ps| - 1];
      UpgradeProposalsIdempotent(init);
      var out := UpgradeProposals(ps);
      if IsSoftwareUpgrade(last) {
        assert out[..|out| - 1] == UpgradeProposals(init);
        assert out[|out| - 1] == last;
      } else {
        assert out == UpgradeProposals(init);
      }
    }
  }

  /** Unlike the configurable filter, two upgrade messages still keep the proposal once. */
  lemma TwoUpgradeMessagesOneCopy(p: Proposal)
    requires |p.messages| == 2
    requires p.messages[0].msgType == SoftwareUpgradeProposalType && p.messages[1].msgType == SoftwareUpgradeProposalType
    ensures UpgradeProposals([p]) == [p]
  {
    assert IsSoftwareUpgrade(p);
    assert [p][..0] == [];
  }
}
