/**
 * The configurable proposal filter of internal/events/governance.go. Its `break` leaves only
 * the loop over the configured types, so a proposal is appended once per matching message.
 */
module Governance {
  import opened Wrappers
  import opened Zetachain

  /** How many of the messages carry a type listed in `types`. */
  function MatchCount(msgs: seq<Message>, types: seq<string>): nat
  {
    if msgs == [] then 0
    else MatchCount(msgs[..|msgs| - 1], types) + (if msgs[|msgs| - 1].msgType in types then 1 else 0)
  }

  predicate HasMatch(p: Proposal, types: seq<string>) {
    exists i :: 0 <= i < |p.messages| && p.messages[i].msgType in types
  }

  function Copies(p: Proposal, k: nat): (r: seq<Proposal>)
    ensures |r| == k && forall i :: 0 <= i < k ==> r[i] == p
  {
    if k == 0 then [] else Copies(p, k - 1) + [p]
  }

  /** The filter's result: each proposal, in input order, once per matching message. */
  function Filtered(ps: seq<Proposal>, types: seq<string>): seq<Proposal>
  {
    if ps == [] then []
    else Filtered(ps[..|ps| - 1], types) + Copies(ps[|ps| - 1], MatchCount(ps[|ps| - 1].messages, types))
  }

  /** filterProposals, loop for loop; `types` is the configured MessageTypes list. */
  method FilterProposals(proposals: seq<Proposal>, types: seq<string>) returns (filtered: seq<Proposal>)
    ensures filtered == Filtered(proposals, types)
  {
    filtered := [];
    var i := 0;
    while i < |proposals|
      invariant 0 <= i <= |proposals|
      invariant filtered == Filtered(proposals[..i], types)
    {
      var proposal := proposals[i];
      ghost var before := filtered;
      var j := 0;
      while j < |proposal.messages|
        invariant 0 <= j <= |proposal.messages|
        invariant filtered == before + Copies(proposal, MatchCount(proposal.messages[..j], types))
      {
        var message := proposal.messages[j];
        assert proposal.messages[..j + 1][..j] == proposal.messages[..j];
        var k := 0;
        while k < |types|
          invariant 0 <= k <= |types|
          invariant forall t :: 0 <= t < k ==> types[t] != message.msgType
          invariant filtered == before + Copies(proposal, MatchCount(proposal.messages[..j], types))
        {
          if message.msgType == types[k] {
            filtered := filtered + [proposal];
            break;
          }
          k := k + 1;
        }
        j := j + 1;
      }
      assert proposal.messages[..j] == proposal.messages;
      assert proposals[..i + 1][..i] == proposals[..i];
      i := i + 1;
    }
    assert proposals[..i] == proposals;
  }

  /**
   * getSoftwareUpgradeProposals with the REST fetch supplied as its outcome: a fetch error
   * is returned as it is, without filtering; a fetched list is filtered.
   */
  method GetSoftwareUpgradeProposals(fetched: Result<seq<Proposal>, string>, types: seq<string>)
    returns (r: Result<seq<Proposal>, string>)
    ensures fetched.Failure? ==> r == Failure(fetched.error)
    ensures fetched.Success? ==> r == Success(Filtered(fetched.value, types))
  {
    if fetched.Failure? {
      return Failure(fetched.error);
    }
    var proposals := FilterProposals(fetched.value, types);
    return Success(proposals);
  }

  lemma {:induction false} MatchCountPositive(msgs: seq<Message>, types: seq<string>)
    ensures MatchCount(msgs, types) > 0 <==> exists i :: 0 <= i < |msgs| && msgs[i].msgType in types
  {
    if msgs != [] {
      var init := msgs[..|msgs| - 1];
      MatchCountPositive(init, types);
      if exists i :: 0 <= i < |init| && init[i].msgType in types {
        var i :| 0 <= i < |init| && init[i].msgType in types;
        assert msgs[i] == init[i];
      }
      if exists i :: 0 <= i < |msgs| && msgs[i].msgType in types {
        var i :| 0 <= i < |msgs| && msgs[i].msgType in types;
        if i < |init| {
          assert init[i] == msgs[i];
        }
      }
    }
  }

  /** With no configured types nothing is interesting: the result is always empty. */
  lemma {:induction false} NoTypesNoProposals(ps: seq<Proposal>)
    ensures Filtered(ps, []) == []
  {
    if ps != [] {
      NoTypesNoProposals(ps[..|ps| - 1]);
      MatchCountPositive(ps[|ps| - 1].messages, []);
    }
  }

  /** Order: filtering a concatenation filters each part in turn. */
  lemma {:induction false} FilteredAppend(ps: seq<Proposal>, qs: seq<Proposal>, types: seq<string>)
    ensures Filtered(ps + qs, types) == Filtered(ps, types) + Filtered(qs, types)
  {
    if qs != [] {
      assert (ps + qs)[..|ps + qs| - 1] == ps + qs[..|qs| - 1];
      FilteredAppend(ps, qs[..|qs| - 1], types);
    } else {
      assert ps + qs == ps;
    }
  }

  /** Multiplicity: a proposal appears once per matching message for each time it was fetched. */
  lemma {:induction false} FilteredCount(ps: seq<Proposal>, types: seq<string>, q: Proposal)
    ensures multiset(Filtered(ps, types))[q] == multiset(ps)[q] * MatchCount(q.messages, types)
  {
    if ps != [] {
      var init := ps[..|ps| - 1];
      FilteredCount(init, types, q);
      FilteredCountStep(ps, types, q);
      MulStep(multiset(init)[q], MatchCount(q.messages, types), ps[|ps| - 1] == q,
              multiset(ps)[q], multiset(Filtered(init, types))[q], multiset(Filtered(ps, types))[q]);
    }
  }

  /** The last proposal adds its match count to the multiplicity of its own value and nothing to any other. */
  lemma FilteredCountStep(ps: seq<Proposal>, types: seq<string>, q: Proposal)
    requires ps != []
    ensures var init, last := ps[..|ps| - 1], ps[|ps| - 1];
      && multiset(ps)[q] == multiset(init)[q] + (if last == q then 1 else 0)
      && multiset(Filtered(ps, types))[q]
         == multiset(Filtered(init, types))[q] + (if last == q then MatchCount(q.messages, types) else 0)
  {
    var init, last := ps[..|ps| - 1], ps[|ps| - 1];
    var f, c := Filtered(init, types), Copies(last, MatchCount(last.messages, types));
    assert Filtered(ps, types) == f + c;
    CopiesCount(last, MatchCount(last.messages, types), q);
    assert multiset(f + c) == multiset(f) + multiset(c);
    assert multiset(ps) == multiset(init) + multiset{last} by {
      assert ps == init + [last];
    }
  }

  lemma MulStep(a: int, m: int, b: bool, total: int, before: int, after: int)
    requires total == a + (if b then 1 else 0)
    requires before == a * m
    requires after == before + (if b then m else 0)
    ensures after == total * m
  {
    if b {
      assert total * m == a * m + m;
    }
  }

  lemma {:induction false} CopiesCount(p: Proposal, k: nat, q: Proposal)
    ensures multiset(Copies(p, k))[q] == if p == q then k else 0
  {
    if k > 0 {
      CopiesCount(p, k - 1, q);
      assert multiset(Copies(p, k)) == multiset(Copies(p, k - 1)) + multiset{p};
    }
  }

  /** A proposal is in the output exactly when it was fetched and one of its messages matches. */
  lemma FilteredMembership(ps: seq<Proposal>, types: seq<string>, q: Proposal)
    ensures q in Filtered(ps, types) <==> q in ps && HasMatch(q, types)
  {
    FilteredCount(ps, types, q);
    MatchCountPositive(q.messages, types);
    assert q in Filtered(ps, types) <==> multiset(Filtered(ps, types))[q] > 0;
    assert q in ps <==> multiset(ps)[q] > 0;
  }

  /** Two matching messages yield two copies of one proposal. */
  lemma TwoMatchesTwoCopies(p: Proposal, t: string)
    requires |p.messages| == 2 && p.messages[0].msgType == t && p.messages[1].msgType == t
    ensures Filtered([p], [t]) == [p, p]
  {
    assert p.messages[..1][..0] == [];
    assert p.messages[..|p.messages| - 1] == p.messages[..1];
    assert MatchCount(p.messages[..1], [t]) == 1;
    assert MatchCount(p.messages, [t]) == 2;
    assert Filtered([p], [t]) == Filtered([], [t]) + Copies(p, 2);
  }
}
