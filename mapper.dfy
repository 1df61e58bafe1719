/**
 * MapFromProposal of internal/notifications/mapper.go (mapProposalToNotification in
 * internal/comms/engine.go is a line-for-line copy): copies the proposal's fields, takes the
 * upgrade plan from its messages, renders the vote tally and rewrites the azeta deposits.
 * Float parsing and %.Nf rendering are given as a NumberFormat; counts are exact reals.
 */
module Mapper {
  import opened Wrappers
  import opened Zetachain
  import opened Models

  const BaseUnitDivisor: real := 1000000000000000000.0
  const Million: real := 1000000.0
  const NativeDenom: string := "azeta"
  const DisplayDenom: string := "ZETA"

  /**
   * strconv.ParseFloat (None for an unparsable string) and fmt's "%.<d>f" rendering of a
   * value with d decimals; both are inputs of the model.
   */
  datatype NumberFormat = NumberFormat(parseFloat: string -> Option<real>, fixed: (real, nat) -> string)
  {
    /** `x, _ := strconv.ParseFloat(s, 64)`: a parse failure yields zero. */
    function ParseOrZero(s: string): real {
      parseFloat(s).GetOr(0.0)
    }
  }

  /** The last non-empty string of `s`, or "" when there is none. */
  function LastNonEmpty(s: seq<string>): string {
    if s == [] then ""
    else if s[|s| - 1] != "" then s[|s| - 1]
    else LastNonEmpty(s[..|s| - 1])
  }

  /** Empty exactly when every entry is empty; otherwise an entry followed only by empty ones. */
  lemma {:induction false} LastNonEmptyIsLast(s: seq<string>)
    ensures LastNonEmpty(s) == "" <==> forall i :: 0 <= i < |s| ==> s[i] == ""
    ensures LastNonEmpty(s) != "" ==>
      exists i :: 0 <= i < |s| && s[i] == LastNonEmpty(s) && forall j :: i < j < |s| ==> s[j] == ""
  {
    if s != [] && s[|s| - 1] == "" {
      var init := s[..|s| - 1];
      LastNonEmptyIsLast(init);
      assert forall i :: 0 <= i < |s| - 1 ==> init[i] == s[i];
      if LastNonEmpty(s) != "" {
        var i :| 0 <= i < |init| && init[i] == LastNonEmpty(init) && forall j :: i < j < |init| ==> init[j] == "";
        assert s[i] == LastNonEmpty(s) && forall j :: i < j < |s| ==> s[j] == "";
      }
    } else if s != [] {
      assert s[|s| - 1] == LastNonEmpty(s);
    }
  }

  function PlanNames(msgs: seq<Message>): (names: seq<string>)
    ensures |names| == |msgs|
  {
    seq(|msgs|, i requires 0 <= i < |msgs| => msgs[i].data.plan.name)
  }

  function PlanHeights(msgs: seq<Message>): (heights: seq<string>)
    ensures |heights| == |msgs|
  {
    seq(|msgs|, i requires 0 <= i < |msgs| => msgs[i].data.plan.height)
  }

  /** Go's percentage: the bucket's share of the total, or 0 when the total is not positive. */
  function Percentage(count: real, total: real): real {
    if total > 0.0 then (count / total) * 100.0 else 0.0
  }

  /** "%.3fM (%.2f%%)" of a bucket in millions of display units and its percentage. */
  function VoteString(nf: NumberFormat, count: real, total: real): string {
    nf.fixed(count / BaseUnitDivisor / Million, 3) + "M (" + nf.fixed(Percentage(count, total), 2) + "%)"
  }

  /** A deposit as the notification shows it: azeta converted to ZETA with 2 decimals, others as they are. */
  function ConvertDeposit(d: Deposit, nf: NumberFormat): (r: Deposit)
    ensures d.denom == NativeDenom ==> r.denom == DisplayDenom
    ensures d.denom == NativeDenom && nf.parseFloat(d.amount).None? ==> r.amount == nf.fixed(0.0, 2)
    ensures d.denom != NativeDenom ==> r == d
  {
    if d.denom == NativeDenom then Deposit(DisplayDenom, nf.fixed(nf.ParseOrZero(d.amount) / BaseUnitDivisor, 2))
    else d
  }

  /** The deposit list rewritten element by element: same length, same order. */
  function ConvertDeposits(ds: seq<Deposit>, nf: NumberFormat): (r: seq<Deposit>)
    ensures |r| == |ds|
    ensures forall i :: 0 <= i < |ds| ==> r[i] == ConvertDeposit(ds[i], nf)
  {
    if ds == [] then [] else ConvertDeposits(ds[..|ds| - 1], nf) + [ConvertDeposit(ds[|ds| - 1], nf)]
  }

  /** The notification MapFromProposal returns. */
  function MapSpec(network: string, p: Proposal, nf: NumberFormat): Notification
  {
    var t := p.finalTallyResult;
    var yes, no, abstain, veto := nf.ParseOrZero(t.yesCount), nf.ParseOrZero(t.noCount),
                                  nf.ParseOrZero(t.abstainCount), nf.ParseOrZero(t.noWithVetoCount);
    var total := yes + no + abstain + veto;
    Notification(
      network, p.proposalId, p.title, p.summary, p.status,
      LastNonEmpty(PlanNames(p.messages)), LastNonEmpty(PlanHeights(p.messages)),
      map[], map[],
      VoteString(nf, yes, total), VoteString(nf, no, total), VoteString(nf, abstain, total), VoteString(nf, veto, total),
      nf.fixed(total / BaseUnitDivisor / Million, 3) + "M",
      p.submitTime, p.votingEndTime, p.expedited, p.failedReason,
      ConvertDeposits(p.totalDeposit, nf))
  }

  method MapFromProposal(network: string, proposal: Proposal, nf: NumberFormat) returns (n: Notification)
    ensures n == MapSpec(network, proposal, nf)
  {
    var upgradeName, targetHeight := ScanPlans(proposal.messages);

    var t := proposal.finalTallyResult;
    var yesCount := nf.ParseOrZero(t.yesCount);
    var noCount := nf.ParseOrZero(t.noCount);
    var abstainCount := nf.ParseOrZero(t.abstainCount);
    var vetoCount := nf.ParseOrZero(t.noWithVetoCount);
    var totalVotes := yesCount + noCount + abstainCount + vetoCount;

    var yesPercentage, noPercentage, abstainPercentage, vetoPercentage := 0.0, 0.0, 0.0, 0.0;
    if totalVotes > 0.0 {
      yesPercentage := (yesCount / totalVotes) * 100.0;
      noPercentage := (noCount / totalVotes) * 100.0;
      abstainPercentage := (abstainCount / totalVotes) * 100.0;
      vetoPercentage := (vetoCount / totalVotes) * 100.0;
    }
    var yesVotesStr := nf.fixed(yesCount / BaseUnitDivisor / Million, 3) + "M (" + nf.fixed(yesPercentage, 2) + "%)";
    var noVotesStr := nf.fixed(noCount / BaseUnitDivisor / Million, 3) + "M (" + nf.fixed(noPercentage, 2) + "%)";
    var abstainVotesStr := nf.fixed(abstainCount / BaseUnitDivisor / Million, 3) + "M (" + nf.fixed(abstainPercentage, 2) + "%)";
    var vetoVotesStr := nf.fixed(vetoCount / BaseUnitDivisor / Million, 3) + "M (" + nf.fixed(vetoPercentage, 2) + "%)";
    var totalVotesStr := nf.fixed(totalVotes / BaseUnitDivisor / Million, 3) + "M";
    assert yesVotesStr == VoteString(nf, yesCount, totalVotes);
    assert noVotesStr == VoteString(nf, noCount, totalVotes);
    assert abstainVotesStr == VoteString(nf, abstainCount, totalVotes);
    assert vetoVotesStr == VoteString(nf, vetoCount, totalVotes);

    var convertedDeposit := ConvertTotalDeposit(proposal.totalDeposit, nf);

    n := Notification(
      network, proposal.proposalId, proposal.title, proposal.summary, proposal.status,
      upgradeName, targetHeight, map[], map[],
      yesVotesStr, noVotesStr, abstainVotesStr, vetoVotesStr, totalVotesStr,
      proposal.submitTime, proposal.votingEndTime, proposal.expedited, proposal.failedReason,
      convertedDeposit);
  }

  /** The loop over the messages in MapFromProposal: each non-empty plan name or height overwrites the one kept. */
  method ScanPlans(messages: seq<Message>) returns (upgradeName: string, targetHeight: string)
    ensures upgradeName == LastNonEmpty(PlanNames(messages))
    ensures targetHeight == LastNonEmpty(PlanHeights(messages))
  {
    upgradeName, targetHeight := "", "";
    var i := 0;
    while i < |messages|
      invariant 0 <= i <= |messages|
      invariant upgradeName == LastNonEmpty(PlanNames(messages)[..i])
      invariant targetHeight == LastNonEmpty(PlanHeights(messages)[..i])
    {
      var msg := messages[i];
      if msg.data.plan.name != "" {
        upgradeName := msg.data.plan.name;
      }
      if msg.data.plan.height != "" {
        targetHeight := msg.data.plan.height;
      }
      assert PlanNames(messages)[..i + 1][..i] == PlanNames(messages)[..i];
      assert PlanHeights(messages)[..i + 1][..i] == PlanHeights(messages)[..i];
      i := i + 1;
    }
    assert PlanNames(messages)[..i] == PlanNames(messages);
    assert PlanHeights(messages)[..i] == PlanHeights(messages);
  }

  /** The loop over the total deposit in MapFromProposal: azeta amounts rewritten, other denominations kept. */
  method ConvertTotalDeposit(deposits: seq<Deposit>, nf: NumberFormat) returns (convertedDeposit: seq<Deposit>)
    ensures convertedDeposit == ConvertDeposits(deposits, nf)
  {
    convertedDeposit := [];
    var j := 0;
    while j < |deposits|
      invariant 0 <= j <= |deposits|
      invariant convertedDeposit == ConvertDeposits(deposits[..j], nf)
    {
      var deposit := deposits[j];
      if deposit.denom == NativeDenom {
        var amount := nf.ParseOrZero(deposit.amount);
        convertedDeposit := convertedDeposit + [Deposit(DisplayDenom, nf.fixed(amount / BaseUnitDivisor, 2))];
      } else {
        convertedDeposit := convertedDeposit + [deposit];
      }
      assert deposits[..j + 1][..j] == deposits[..j];
      j := j + 1;
    }
    assert deposits[..j] == deposits;
  }

  /** The identity fields, both timestamps and the flags pass through unchanged. */
  lemma MapCopiesFields(network: string, p: Proposal, nf: NumberFormat)
    ensures var n := MapSpec(network, p, nf);
      && n.network == network && n.proposalId == p.proposalId && n.title == p.title
      && n.summary == p.summary && n.status == p.status
      && n.submitTime == p.submitTime && n.votingEndTime == p.votingEndTime
      && n.expedited == p.expedited && n.failedReason == p.failedReason
  {
  }

  /**
   * The upgrade name is the plan name of the last message that has one, and the target
   * height the plan height of the last message that has one; the two are chosen independently.
   */
  lemma UpgradeFromLastPlan(network: string, p: Proposal, nf: NumberFormat)
    ensures var n := MapSpec(network, p, nf);
      && (n.upgradeName == "" <==> forall i :: 0 <= i < |p.messages| ==> p.messages[i].data.plan.name == "")
      && (n.upgradeName != "" ==>
            exists i :: 0 <= i < |p.messages| && p.messages[i].data.plan.name == n.upgradeName
              && forall j :: i < j < |p.messages| ==> p.messages[j].data.plan.name == "")
      && (n.targetHeight == "" <==> forall i :: 0 <= i < |p.messages| ==> p.messages[i].data.plan.height == "")
      && (n.targetHeight != "" ==>
            exists i :: 0 <= i < |p.messages| && p.messages[i].data.plan.height == n.targetHeight
              && forall j :: i < j < |p.messages| ==> p.messages[j].data.plan.height == "")
  {
    var names, heights := PlanNames(p.messages), PlanHeights(p.messages);
    LastNonEmptyIsLast(names);
    LastNonEmptyIsLast(heights);
    assert forall i :: 0 <= i < |p.messages| ==> names[i] == p.messages[i].data.plan.name;
    assert forall i :: 0 <= i < |p.messages| ==> heights[i] == p.messages[i].data.plan.height;
  }

  /** A plan name and a plan height carried by different messages are both picked up. */
  lemma NameAndHeightFromDifferentMessages(network: string, p: Proposal, nf: NumberFormat, name: string, height: string)
    requires name != "" && height != "" && |p.messages| == 2
    requires p.messages[0].data.plan.name == name && p.messages[0].data.plan.height == ""
    requires p.messages[1].data.plan.name == "" && p.messages[1].data.plan.height == height
    ensures MapSpec(network, p, nf).upgradeName == name
    ensures MapSpec(network, p, nf).targetHeight == height
  {
    assert PlanNames(p.messages) == [name, ""];
    assert PlanHeights(p.messages) == ["", height];
    assert [name, ""][..1] == [name];
    assert LastNonEmpty([name, ""]) == LastNonEmpty([name]) == name;
    assert ["", height][..1] == [""];
    assert LastNonEmpty(["", height]) == height;
  }

  /** The four tally buckets as ParseFloat reads them, unparsable ones as zero, added up. */
  function TallySum(p: Proposal, nf: NumberFormat): real {
    var t := p.finalTallyResult;
    nf.ParseOrZero(t.yesCount) + nf.ParseOrZero(t.noCount) + nf.ParseOrZero(t.abstainCount) + nf.ParseOrZero(t.noWithVetoCount)
  }

  /**
   * When the summed tally is not positive, every bucket of the mapped notification shows its
   * count and a 0 percent share.
   */
  lemma NoVotesNoPercentages(network: string, p: Proposal, nf: NumberFormat)
    requires TallySum(p, nf) <= 0.0
    ensures var n, t, zero := MapSpec(network, p, nf), p.finalTallyResult, " (" + nf.fixed(0.0, 2) + "%)";
      && n.yesVotes == nf.fixed(nf.ParseOrZero(t.yesCount) / BaseUnitDivisor / Million, 3) + "M" + zero
      && n.noVotes == nf.fixed(nf.ParseOrZero(t.noCount) / BaseUnitDivisor / Million, 3) + "M" + zero
      && n.abstainVotes == nf.fixed(nf.ParseOrZero(t.abstainCount) / BaseUnitDivisor / Million, 3) + "M" + zero
      && n.vetoVotes == nf.fixed(nf.ParseOrZero(t.noWithVetoCount) / BaseUnitDivisor / Million, 3) + "M" + zero
  {
  }

  /** With a positive total the four percentages add up to exactly 100 (in exact arithmetic). */
  lemma PercentagesSumTo100(yes: real, no: real, abstain: real, veto: real)
    requires yes + no + abstain + veto > 0.0
    ensures var t := yes + no + abstain + veto;
      Percentage(yes, t) + Percentage(no, t) + Percentage(abstain, t) + Percentage(veto, t) == 100.0
  {
    var t := yes + no + abstain + veto;
    assert yes / t + no / t + abstain / t + veto / t == (yes + no + abstain + veto) / t;
  }

  /** Unparsable vote counts count as zero: every bucket and the total render as zero. */
  lemma UnparsableTallyIsZero(network: string, p: Proposal, nf: NumberFormat)
    requires nf.parseFloat(p.finalTallyResult.yesCount).None? && nf.parseFloat(p.finalTallyResult.noCount).None?
    requires nf.parseFloat(p.finalTallyResult.abstainCount).None? && nf.parseFloat(p.finalTallyResult.noWithVetoCount).None?
    ensures var n := MapSpec(network, p, nf); var zero := nf.fixed(0.0, 3) + "M (" + nf.fixed(0.0, 2) + "%)";
      n.yesVotes == zero && n.noVotes == zero && n.abstainVotes == zero && n.vetoVotes == zero
      && n.totalVotes == nf.fixed(0.0, 3) + "M"
  {
  }

  /** The deposits keep their number and order; azeta becomes ZETA and every other denomination passes through. */
  lemma DepositsRewritten(network: string, p: Proposal, nf: NumberFormat)
    ensures var ds := MapSpec(network, p, nf).totalDeposit;
      && |ds| == |p.totalDeposit|
      && (forall i :: 0 <= i < |ds| && p.totalDeposit[i].denom == NativeDenom ==> ds[i].denom == DisplayDenom)
      && (forall i :: 0 <= i < |ds| && p.totalDeposit[i].denom != NativeDenom ==> ds[i] == p.totalDeposit[i])
  {
  }
}
