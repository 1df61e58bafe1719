/**
 * The text sections the six proposal formatters (pkg/notifiers/{slack,discord,telegram}/formatter.go
 * and the older pkg/slack, pkg/discord, pkg/telegram) append one after another: upgrade lines,
 * deposit bullets, voting results, timeline, flags and the summary. They differ only in how
 * labels are emphasised, the gap after the upgrade lines, the bullet and whether an empty tally
 * prints a placeholder; a Style records those choices.
 */
module Sections {
  import opened Wrappers
  import opened Zetachain
  import opened Models

  /** Slack and Telegram embolden a label with one asterisk, Discord with two. */
  datatype Emphasis = Single | Double {
    function UpgradeLines(name: string, height: string, end: string): string {
      if this.Single? then "*Upgrade:* " + name + "\n*Target Height:* " + height + end
      else "**Upgrade:** " + name + "\n**Target Height:** " + height + end
    }

    function DepositsHeading(): string {
      if this.Single? then "*Deposits:*\n" else "**Deposits:**\n"
    }

    function SubmittedLine(time: string): string {
      if this.Single? then "*Submitted:* " + time + "\n" else "**Submitted:** " + time + "\n"
    }

    function VotingEndsLine(time: string): string {
      if this.Single? then "*Voting Ends:* " + time + "\n" else "**Voting Ends:** " + time + "\n"
    }

    function ExpeditedLine(): string {
      if this.Single? then "*Expedited:* Yes\n" else "**Expedited:** Yes\n"
    }

    function FailedReasonLine(reason: string): string {
      if this.Single? then "*Failed Reason:* " + reason + "\n" else "**Failed Reason:** " + reason + "\n"
    }

    function SummaryHeading(): string {
      if this.Single? then "\n*Summary:*\n" else "\n**Summary:**\n"
    }
  }

  /** `upgradeEnd` closes the target height line: "\n", or "\n\n" where a blank line follows. */
  datatype Style = Style(emphasis: Emphasis, upgradeEnd: string, bullet: string, votePlaceholder: bool)

  const Bullet: string := "\U{2022} "
  const VotingHeading: string := "*Voting Results:*\n"
  const NoVotingResults: string := "No voting results available.\n"

  function DepositLine(bullet: string, d: Deposit): string {
    bullet + d.amount + " " + d.denom + "\n"
  }

  /** One bullet line per deposit, in list order. */
  function DepositLines(bullet: string, ds: seq<Deposit>): string {
    if ds == [] then "" else DepositLines(bullet, ds[..|ds| - 1]) + DepositLine(bullet, ds[|ds| - 1])
  }

  function UpgradeSection(s: Style, name: string, height: string): string {
    if name != "" then s.emphasis.UpgradeLines(name, height, s.upgradeEnd) else ""
  }

  function DepositSection(s: Style, ds: seq<Deposit>): string {
    if |ds| > 0 then s.emphasis.DepositsHeading() + DepositLines(s.bullet, ds) + "\n" else ""
  }

  /** The four bucket lines, a blank line and the total; every formatter uses single asterisks here. */
  function VoteLines(bullet: string, yes: string, no: string, abstain: string, veto: string, total: string): string {
    (bullet + "Yes: " + yes + "\n") + (bullet + "No: " + no + "\n")
    + (bullet + "Abstain: " + abstain + "\n") + (bullet + "Veto: " + veto + "\n")
    + "\n" + ("*Total Votes:* " + total + "\n")
  }

  function VotingSection(s: Style, yes: string, no: string, abstain: string, veto: string, total: string): string {
    if total != "" then VotingHeading + VoteLines(s.bullet, yes, no, abstain, veto, total)
    else if s.votePlaceholder then VotingHeading + NoVotingResults
    else ""
  }

  function TimelineSection(s: Style, submitTime: Time, votingEndTime: Time): string {
    (if !submitTime.isZero then s.emphasis.SubmittedLine(submitTime.rfc1123) else "")
    + (if !votingEndTime.isZero then s.emphasis.VotingEndsLine(votingEndTime.rfc1123) else "")
  }

  function FlagSection(s: Style, expedited: bool, failedReason: string): string {
    (if expedited then s.emphasis.ExpeditedLine() else "")
    + (if failedReason != "" then s.emphasis.FailedReasonLine(failedReason) else "")
  }

  function SummarySection(s: Style, summary: string): string {
    s.emphasis.SummaryHeading() + summary
  }

  function Voting(s: Style, n: Notification): string {
    VotingSection(s, n.yesVotes, n.noVotes, n.abstainVotes, n.vetoVotes, n.totalVotes)
  }

  /** Timeline, flags and summary: everything after the voting results and their blank line. */
  function Closing(s: Style, n: Notification): string {
    TimelineSection(s, n.submitTime, n.votingEndTime) + FlagSection(s, n.expedited, n.failedReason)
    + SummarySection(s, n.summary)
  }

  /** Everything from the voting results on. */
  function Tail(s: Style, n: Notification): string {
    Voting(s, n) + "\n" + Closing(s, n)
  }

  /** The body every formatter builds after its own header lines. */
  function Body(s: Style, n: Notification): string {
    UpgradeSection(s, n.upgradeName, n.targetHeight) + DepositSection(s, n.totalDeposit) + Tail(s, n)
  }

  predicate EndsWith(text: string, suffix: string) {
    |suffix| <= |text| && text[|text| - |suffix|..] == suffix
  }

  /** The notification with no upgrade plan: what the body looks like without upgrade lines. */
  function WithoutUpgrade(n: Notification): Notification {
    n.(upgradeName := "", targetHeight := "")
  }

  /** The notification with no deposits. */
  function WithoutDeposits(n: Notification): Notification {
    n.(totalDeposit := [])
  }

  /** The notification with every vote field blank. */
  function WithoutVotes(n: Notification): Notification {
    n.(yesVotes := "", noVotes := "", abstainVotes := "", vetoVotes := "", totalVotes := "")
  }

  /** Deposit lines of a concatenation are the concatenation of the lines: order is kept. */
  lemma {:induction false} DepositLinesAppend(bullet: string, xs: seq<Deposit>, ys: seq<Deposit>)
    ensures DepositLines(bullet, xs + ys) == DepositLines(bullet, xs) + DepositLines(bullet, ys)
    decreases |ys|
  {
    if ys == [] {
      assert xs + ys == xs;
    } else {
      var init := ys[..|ys| - 1];
      assert (xs + ys)[..|xs + ys| - 1] == xs + init;
      var line := DepositLine(bullet, ys[|ys| - 1]);
      assert (xs + ys)[|xs + ys| - 1] == ys[|ys| - 1];
      DepositLinesAppend(bullet, xs, init);
      assert DepositLines(bullet, xs + ys) == DepositLines(bullet, xs + init) + line;
      assert DepositLines(bullet, ys) == DepositLines(bullet, init) + line;
      Assoc(DepositLines(bullet, xs), DepositLines(bullet, init), line);
    }
  }

  /** A single deposit gives exactly its own line. */
  lemma DepositLinesSingle(bullet: string, d: Deposit)
    ensures DepositLines(bullet, [d]) == bullet + d.amount + " " + d.denom + "\n"
  {
    assert [d][..0] == [];
  }

  /** Deposit lines as a list: the lines of the first deposit, then those of the rest. */
  lemma DepositLinesCons(bullet: string, d: Deposit, ds: seq<Deposit>)
    ensures DepositLines(bullet, [d] + ds) == DepositLine(bullet, d) + DepositLines(bullet, ds)
  {
    DepositLinesAppend(bullet, [d], ds);
    DepositLinesSingle(bullet, d);
  }

  /** `w` is `w0` with `x` inserted at position `k`. */
  predicate SplicedAt(w: string, w0: string, k: int, x: string) {
    0 <= k <= |w0| && w == w0[..k] + x + w0[k..]
  }

  /** `x` occurs in `w` starting at position `k`. */
  predicate OccursAt(w: string, k: int, x: string) {
    0 <= k && k + |x| <= |w| && w[k..k + |x|] == x
  }

  /** An insertion grows the text by exactly what is inserted. */
  lemma SplicedLength(w: string, w0: string, k: int, x: string)
    requires SplicedAt(w, w0, k, x)
    ensures |w| == |w0| + |x|
  {
  }

  /** An insertion at `k` into a text is one at `at`, past the header `p`, once `p` and a footer `f` frame the text. */
  lemma SplicedFramed(p: string, w: string, w0: string, k: int, x: string, f: string, at: int)
    requires SplicedAt(w, w0, k, x) && at == |p| + k
    ensures SplicedAt(p + w + f, p + w0 + f, at, x)
  {
    var whole0 := p + w0 + f;
    assert whole0[..|p| + k] == p + w0[..k];
    assert whole0[|p| + k..] == w0[k..] + f;
    Assoc(p, w0[..k] + x, w0[k..]);
    Assoc(p, w0[..k], x);
    Assoc(p + w0[..k] + x, w0[k..], f);
  }

  /** As SplicedFramed, without a footer. */
  lemma SplicedHeaded(p: string, w: string, w0: string, k: int, x: string, at: int)
    requires SplicedAt(w, w0, k, x) && at == |p| + k
    ensures SplicedAt(p + w, p + w0, at, x)
  {
    var whole0 := p + w0;
    assert whole0[..|p| + k] == p + w0[..k];
    assert whole0[|p| + k..] == w0[k..];
    Assoc(p, w0[..k] + x, w0[k..]);
    Assoc(p, w0[..k], x);
  }

  /** As SplicedFramed, with the position written as the header's length plus `k`. */
  lemma SplicedFramedPast(p: string, w: string, w0: string, k: int, x: string, f: string)
    requires SplicedAt(w, w0, k, x)
    ensures SplicedAt(p + w + f, p + w0 + f, |p| + k, x)
  {
    SplicedFramed(p, w, w0, k, x, f, |p| + k);
  }

  /** As SplicedHeaded, with the position written as the header's length plus `k`. */
  lemma SplicedHeadedPast(p: string, w: string, w0: string, k: int, x: string)
    requires SplicedAt(w, w0, k, x)
    ensures SplicedAt(p + w, p + w0, |p| + k, x)
  {
    SplicedHeaded(p, w, w0, k, x, |p| + k);
  }

  /** An occurrence at `k` is one at `at`, past the header `p`, once `p` and a footer `f` frame the text. */
  lemma OccursFramed(p: string, w: string, k: int, x: string, f: string, at: int)
    requires OccursAt(w, k, x) && at == |p| + k
    ensures OccursAt(p + w + f, at, x)
  {
    assert (p + w + f)[|p| + k..|p| + k + |x|] == w[k..k + |x|];
  }

  /** As OccursFramed, without a footer. */
  lemma OccursHeaded(p: string, w: string, k: int, x: string, at: int)
    requires OccursAt(w, k, x) && at == |p| + k
    ensures OccursAt(p + w, at, x)
  {
    assert (p + w)[|p| + k..|p| + k + |x|] == w[k..k + |x|];
  }

  lemma EndsWithAppend(a: string, b: string, c: string)
    requires EndsWith(b, c)
    ensures EndsWith(a + b, c)
  {
    assert (a + b)[|a + b| - |c|..] == b[|b| - |c|..];
  }

  /** The body as the formatters accumulate it, one section after another. */
  lemma BodyInOrder(s: Style, n: Notification)
    ensures Body(s, n) == UpgradeSection(s, n.upgradeName, n.targetHeight) + DepositSection(s, n.totalDeposit)
                          + Voting(s, n) + "\n" + Closing(s, n)
  {
    var ud := UpgradeSection(s, n.upgradeName, n.targetHeight) + DepositSection(s, n.totalDeposit);
    Assoc(ud, Voting(s, n), "\n");
    Assoc(ud, Voting(s, n) + "\n", Closing(s, n));
  }

  /** `content += fmt.Sprintf(upgrade lines)` when there is an upgrade name. */
  method AppendUpgrade(s: Style, content: string, name: string, height: string) returns (r: string)
    ensures r == content + UpgradeSection(s, name, height)
  {
    r := content;
    if name != "" {
      if s.emphasis.Single? {
        r := r + ("*Upgrade:* " + name + "\n*Target Height:* " + height + s.upgradeEnd);
      } else {
        r := r + ("**Upgrade:** " + name + "\n**Target Height:** " + height + s.upgradeEnd);
      }
    }
  }

  /** The deposit heading, one `fmt.Sprintf(bullet)` line per deposit in order, and a blank line. */
  method AppendDeposits(s: Style, content: string, ds: seq<Deposit>) returns (r: string)
    ensures r == content + DepositSection(s, ds)
  {
    r := content;
    if |ds| > 0 {
      r := r + s.emphasis.DepositsHeading();
      ghost var before := r;
      var i := 0;
      while i < |ds|
        invariant 0 <= i <= |ds|
        invariant r == before + DepositLines(s.bullet, ds[..i])
      {
        var deposit := ds[i];
        Assoc(before, DepositLines(s.bullet, ds[..i]), s.bullet + deposit.amount + " " + deposit.denom + "\n");
        r := r + (s.bullet + deposit.amount + " " + deposit.denom + "\n");
        assert ds[..i + 1][..i] == ds[..i];
        i := i + 1;
      }
      assert ds[..i] == ds;
      r := r + "\n";
      Assoc(content, s.emphasis.DepositsHeading(), DepositLines(s.bullet, ds));
      Assoc(content, s.emphasis.DepositsHeading() + DepositLines(s.bullet, ds), "\n");
    }
  }

  /** The four bucket lines, the blank line and the total line, appended one by one. */
  method AppendVoteLines(bullet: string, content: string, yes: string, no: string, abstain: string, veto: string, total: string)
    returns (r: string)
    ensures r == content + VoteLines(bullet, yes, no, abstain, veto, total)
  {
    var y, n, a, v, t := bullet + "Yes: " + yes + "\n", bullet + "No: " + no + "\n",
                         bullet + "Abstain: " + abstain + "\n", bullet + "Veto: " + veto + "\n",
                         "*Total Votes:* " + total + "\n";
    r := content + y;
    r := r + n;
    Assoc(content, y, n);
    r := r + a;
    Assoc(content, y + n, a);
    r := r + v;
    Assoc(content, y + n + a, v);
    r := r + "\n";
    Assoc(content, y + n + a + v, "\n");
    r := r + t;
    Assoc(content, y + n + a + v + "\n", t);
  }

  /** Submitted and Voting Ends lines for non-zero times, the flag lines, then the summary. */
  method AppendClosing(s: Style, content: string, n: Notification) returns (r: string)
    ensures r == content + Closing(s, n)
  {
    var timeline := TimelineSection(s, n.submitTime, n.votingEndTime);
    var flags := FlagSection(s, n.expedited, n.failedReason);
    r := content;
    if !n.submitTime.isZero {
      r := r + s.emphasis.SubmittedLine(n.submitTime.rfc1123);
    }
    if !n.votingEndTime.isZero {
      r := r + s.emphasis.VotingEndsLine(n.votingEndTime.rfc1123);
    }
    assert r == content + timeline by {
      var a := if !n.submitTime.isZero then s.emphasis.SubmittedLine(n.submitTime.rfc1123) else "";
      var b := if !n.votingEndTime.isZero then s.emphasis.VotingEndsLine(n.votingEndTime.rfc1123) else "";
      assert r == content + a + b;
      Assoc(content, a, b);
    }
    ghost var afterTimeline := r;
    if n.expedited {
      r := r + s.emphasis.ExpeditedLine();
    }
    if n.failedReason != "" {
      r := r + s.emphasis.FailedReasonLine(n.failedReason);
    }
    assert r == afterTimeline + flags by {
      var a := if n.expedited then s.emphasis.ExpeditedLine() else "";
      var b := if n.failedReason != "" then s.emphasis.FailedReasonLine(n.failedReason) else "";
      assert r == afterTimeline + a + b;
      Assoc(afterTimeline, a, b);
    }
    Assoc(content, timeline, flags);
    r := r + (s.emphasis.SummaryHeading() + n.summary);
    Assoc(content, timeline + flags, SummarySection(s, n.summary));
  }

  /** Dropping the upgrade plan removes exactly the upgrade section. */
  lemma BodyWithoutUpgrade(s: Style, n: Notification)
    ensures Body(s, WithoutUpgrade(n)) == DepositSection(s, n.totalDeposit) + Tail(s, n)
  {
    assert Tail(s, WithoutUpgrade(n)) == Tail(s, n);
  }

  /** Without an upgrade name the target height has no effect on the body. */
  lemma BodyIgnoresHeight(s: Style, n: Notification)
    requires n.upgradeName == ""
    ensures Body(s, n) == Body(s, WithoutUpgrade(n))
  {
    assert Tail(s, WithoutUpgrade(n)) == Tail(s, n);
  }

  /** Dropping the deposits removes exactly the deposit section. */
  lemma BodyWithoutDeposits(s: Style, n: Notification)
    ensures Body(s, WithoutDeposits(n)) == UpgradeSection(s, n.upgradeName, n.targetHeight) + Tail(s, n)
  {
    assert Tail(s, WithoutDeposits(n)) == Tail(s, n);
  }

  /**
   * With an empty total the four vote lines are never printed: the tail is that of the
   * notification with every vote field blank, and it holds the placeholder exactly when the
   * style asks for one. With a total, the heading and the vote lines are there.
   */
  lemma TailVotes(s: Style, n: Notification)
    ensures n.totalVotes == "" ==> Tail(s, n) == Tail(s, WithoutVotes(n))
    ensures n.totalVotes == "" && s.votePlaceholder ==> Tail(s, n) == VotingHeading + NoVotingResults + "\n" + Closing(s, n)
    ensures n.totalVotes == "" && !s.votePlaceholder ==> Tail(s, n) == "\n" + Closing(s, n)
    ensures n.totalVotes != "" ==>
      Tail(s, n) == VotingHeading + VoteLines(s.bullet, n.yesVotes, n.noVotes, n.abstainVotes, n.vetoVotes, n.totalVotes)
                    + "\n" + Closing(s, n)
  {
    assert Closing(s, WithoutVotes(n)) == Closing(s, n);
  }

  /**
   * The upgrade section is what the upgrade plan adds, at the very start of the body: without
   * an upgrade name it is empty, so the target height alone has no effect.
   */
  lemma BodyUpgradeSpliced(s: Style, n: Notification)
    ensures SplicedAt(Body(s, n), Body(s, WithoutUpgrade(n)), 0, UpgradeSection(s, n.upgradeName, n.targetHeight))
  {
    var u, d, t := UpgradeSection(s, n.upgradeName, n.targetHeight), DepositSection(s, n.totalDeposit), Tail(s, n);
    BodyWithoutUpgrade(s, n);
    var b0 := d + t;
    assert b0[..0] == "" && b0[0..] == b0;
    Assoc(u, d, t);
  }

  /** The deposit section is what the deposits add, right after the upgrade section. */
  lemma BodyDepositsSpliced(s: Style, n: Notification)
    ensures SplicedAt(Body(s, n), Body(s, WithoutDeposits(n)), |UpgradeSection(s, n.upgradeName, n.targetHeight)|,
                      DepositSection(s, n.totalDeposit))
  {
    var u, d, t := UpgradeSection(s, n.upgradeName, n.targetHeight), DepositSection(s, n.totalDeposit), Tail(s, n);
    BodyWithoutDeposits(s, n);
    var b0 := u + t;
    assert b0[..|u|] == u && b0[|u|..] == t;
  }

  /**
   * With an empty total the vote lines have no effect on the body, and right after the upgrade
   * lines and the deposits comes either the placeholder under the heading or, for a style
   * without one, the blank line that precedes the timeline.
   */
  lemma BodyEmptyTally(s: Style, n: Notification)
    requires n.totalVotes == ""
    ensures Body(s, n) == Body(s, WithoutVotes(n))
    ensures OccursAt(Body(s, n), |UpgradeSection(s, n.upgradeName, n.targetHeight)| + |DepositSection(s, n.totalDeposit)|,
                     (if s.votePlaceholder then VotingHeading + NoVotingResults + "\n" else "\n") + Closing(s, n))
  {
    BodyIgnoresVotes(s, n);
    var u, d := UpgradeSection(s, n.upgradeName, n.targetHeight), DepositSection(s, n.totalDeposit);
    TailVotes(s, n);
    OccursAfter(u + d, Tail(s, n));
  }

  lemma BodyIgnoresVotes(s: Style, n: Notification)
    requires n.totalVotes == ""
    ensures Body(s, n) == Body(s, WithoutVotes(n))
  {
    TailVotes(s, n);
    var n0 := WithoutVotes(n);
    assert Tail(s, n0) == Tail(s, n);
    assert DepositSection(s, n0.totalDeposit) == DepositSection(s, n.totalDeposit);
  }

  /** `b` occurs right after `a`. */
  lemma OccursAfter(a: string, b: string)
    ensures OccursAt(a + b, |a|, b)
  {
    assert (a + b)[|a|..|a| + |b|] == b;
  }

  /** The summary closes every body, preceded by its bold heading. */
  lemma BodyEndsWithSummary(s: Style, n: Notification)
    ensures EndsWith(Body(s, n), SummarySection(s, n.summary))
  {
    TailEndsWithSummary(s, n);
    EndsWithAppend(UpgradeSection(s, n.upgradeName, n.targetHeight) + DepositSection(s, n.totalDeposit), Tail(s, n),
                   SummarySection(s, n.summary));
  }

  lemma TailEndsWithSummary(s: Style, n: Notification)
    ensures EndsWith(Tail(s, n), SummarySection(s, n.summary))
  {
    var sum := SummarySection(s, n.summary);
    var tf := TimelineSection(s, n.submitTime, n.votingEndTime) + FlagSection(s, n.expedited, n.failedReason);
    assert EndsWith(sum, sum);
    EndsWithAppend(tf, sum, sum);
    EndsWithAppend(Voting(s, n) + "\n", Closing(s, n), sum);
  }

  /**
   * A zero submit time prints no "Submitted" line and a zero end time no "Voting Ends" line,
   * whatever their rendering.
   */
  lemma ZeroTimesIgnored(s: Style, n: Notification, other: string)
    ensures n.submitTime.isZero ==> Body(s, n) == Body(s, n.(submitTime := Time(true, other)))
    ensures n.votingEndTime.isZero ==> Body(s, n) == Body(s, n.(votingEndTime := Time(true, other)))
  {
  }

  /** Everything before the flag lines: upgrade, deposits, voting results and their blank line, timeline. */
  function BeforeFlags(s: Style, n: Notification): string {
    UpgradeSection(s, n.upgradeName, n.targetHeight) + DepositSection(s, n.totalDeposit) + Voting(s, n) + "\n"
    + TimelineSection(s, n.submitTime, n.votingEndTime)
  }

  /** The notification without a failed reason. */
  function WithoutFailedReason(n: Notification): Notification {
    n.(failedReason := "")
  }

  /** Where the failed-reason line goes: after the timeline and, when the flag is set, the expedited line. */
  function FailedReasonOffset(s: Style, n: Notification): int {
    |BeforeFlags(s, n)| + (if n.expedited then |s.emphasis.ExpeditedLine()| else 0)
  }

  /** `x` inserted between `a` and `b`. */
  lemma SplicedBetween(a: string, x: string, b: string)
    ensures SplicedAt(a + x + b, a + b, |a|, x)
  {
    assert (a + b)[..|a|] == a && (a + b)[|a|..] == b;
  }

  /** The body cut around its flag lines. */
  lemma BodyAroundFlags(s: Style, n: Notification)
    ensures Body(s, n) == BeforeFlags(s, n) + FlagSection(s, n.expedited, n.failedReason) + SummarySection(s, n.summary)
  {
    var u, d, v, t := UpgradeSection(s, n.upgradeName, n.targetHeight), DepositSection(s, n.totalDeposit), Voting(s, n),
                      TimelineSection(s, n.submitTime, n.votingEndTime);
    var f, sum := FlagSection(s, n.expedited, n.failedReason), SummarySection(s, n.summary);
    var x := u + d;
    var y := x + v + "\n";
    assert Body(s, n) == x + ((v + "\n") + ((t + f) + sum));
    Assoc(x, v + "\n", (t + f) + sum);
    Assoc(x, v, "\n");
    Assoc(y, t + f, sum);
    Assoc(y, t, f);
  }

  /** Two texts that differ only in their flag lines differ by what one flag adds there. */
  lemma SplicedFlag(w: string, w0: string, front: string, x: string, f: string, f0: string, sum: string)
    requires w == front + f + sum && w0 == front + f0 + sum && f == x + f0
    ensures SplicedAt(w, w0, |front|, x)
  {
    Assoc(front, x, f0);
    Assoc(front + x, f0, sum);
    Assoc(front, f0, sum);
    SplicedBetween(front, x, f0 + sum);
  }

  /** Setting the expedited flag inserts exactly the expedited line, right after the timeline. */
  lemma ExpeditedSpliced(s: Style, n: Notification)
    ensures SplicedAt(Body(s, n.(expedited := true)), Body(s, n.(expedited := false)), |BeforeFlags(s, n)|,
                      s.emphasis.ExpeditedLine())
  {
    var yes, no := n.(expedited := true), n.(expedited := false);
    var front := BeforeFlags(s, n);
    var r := if n.failedReason != "" then s.emphasis.FailedReasonLine(n.failedReason) else "";
    assert BeforeFlags(s, yes) == front by {
      assert Voting(s, yes) == Voting(s, n);
    }
    assert BeforeFlags(s, no) == front by {
      assert Voting(s, no) == Voting(s, n);
    }
    BodyAroundFlags(s, yes);
    BodyAroundFlags(s, no);
    assert FlagSection(s, no.expedited, no.failedReason) == r by {
      assert "" + r == r;
    }
    SplicedFlag(Body(s, yes), Body(s, no), front, s.emphasis.ExpeditedLine(), FlagSection(s, yes.expedited, yes.failedReason),
                FlagSection(s, no.expedited, no.failedReason), SummarySection(s, n.summary));
  }

  /** A non-empty failed reason inserts exactly its line, after the timeline and any expedited line. */
  lemma FailedReasonSpliced(s: Style, n: Notification)
    requires n.failedReason != ""
    ensures SplicedAt(Body(s, n), Body(s, WithoutFailedReason(n)), FailedReasonOffset(s, n), s.emphasis.FailedReasonLine(n.failedReason))
  {
    var off := WithoutFailedReason(n);
    var front := BeforeFlags(s, n);
    var e := if n.expedited then s.emphasis.ExpeditedLine() else "";
    var r := s.emphasis.FailedReasonLine(n.failedReason);
    assert BeforeFlags(s, off) == front by {
      assert Voting(s, off) == Voting(s, n);
    }
    BodyAroundFlags(s, n);
    BodyAroundFlags(s, off);
    assert FlagSection(s, n.expedited, n.failedReason) == e + r;
    assert FlagSection(s, off.expedited, off.failedReason) == e + "" by {
      assert e + "" == e;
    }
    SplicedFlag(Body(s, n), Body(s, off), front + e, r, r, "", SummarySection(s, n.summary)) by {
      Assoc(front, e, r);
      assert front + e + "" == front + e;
    }
  }

  /**
   * Setting the expedited flag inserts exactly the expedited line after the timeline; a failed
   * reason inserts exactly its line after that.
   */
  lemma FlagLines(s: Style, n: Notification)
    ensures SplicedAt(Body(s, n.(expedited := true)), Body(s, n.(expedited := false)), |BeforeFlags(s, n)|,
                      s.emphasis.ExpeditedLine())
    ensures n.failedReason != "" ==>
      SplicedAt(Body(s, n), Body(s, WithoutFailedReason(n)), FailedReasonOffset(s, n), s.emphasis.FailedReasonLine(n.failedReason))
  {
    ExpeditedSpliced(s, n);
    if n.failedReason != "" {
      FailedReasonSpliced(s, n);
    }
  }
}
