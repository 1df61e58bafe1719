/**
 * formatNotification of pkg/notifiers/telegram/formatter.go: a Markdown text. The time in
 * its closing "Updated at" line is time.Now() in RFC 1123, passed in as `now`.
 */
module TelegramFormatter {
  import opened Wrappers
  import opened Zetachain
  import opened Models
  import opened GoStrings
  import opened Notifiers
  import opened Sections

  /** Single-asterisk labels, a blank line after the upgrade lines, "• " bullets, a placeholder for an empty tally. */
  const TelegramStyle: Style := Style(Single, "\n\n", Bullet, true)

  /** The title line, then the ID and the formatted status. */
  function Header(n: Notification): string {
    ("*[" + n.network + "]* *Proposal* " + n.proposalId + ": " + n.title + "\n\n")
    + ("*ID:* " + n.proposalId + "\n") + ("*Status:* " + FormatStatus(n.status) + "\n\n")
  }

  function UpdatedAt(now: string): string {
    "\n\n_Updated at: " + now + "_"
  }

  function Text(n: Notification, now: string): string {
    Header(n) + Body(TelegramStyle, n) + UpdatedAt(now)
  }

  method FormatNotification(n: Notification, now: string) returns (formattedMessage: string)
    ensures formattedMessage == Text(n, now)
  {
    formattedMessage := "*[" + n.network + "]* *Proposal* " + n.proposalId + ": " + n.title + "\n\n";
    formattedMessage := formattedMessage + ("*ID:* " + n.proposalId + "\n");
    formattedMessage := formattedMessage + ("*Status:* " + FormatStatus(n.status) + "\n\n");
    ghost var header := formattedMessage;

    formattedMessage := AppendUpgrade(TelegramStyle, formattedMessage, n.upgradeName, n.targetHeight);
    formattedMessage := AppendDeposits(TelegramStyle, formattedMessage, n.totalDeposit);
    ghost var front := formattedMessage;

    formattedMessage := formattedMessage + "*Voting Results:*\n";
    if n.totalVotes != "" {
      formattedMessage := AppendVoteLines(Bullet, formattedMessage, n.yesVotes, n.noVotes, n.abstainVotes, n.vetoVotes, n.totalVotes);
      Assoc(front, VotingHeading, VoteLines(Bullet, n.yesVotes, n.noVotes, n.abstainVotes, n.vetoVotes, n.totalVotes));
    } else {
      formattedMessage := formattedMessage + "No voting results available.\n";
      Assoc(front, VotingHeading, NoVotingResults);
    }
    assert formattedMessage == front + Voting(TelegramStyle, n);
    formattedMessage := formattedMessage + "\n";
    formattedMessage := AppendClosing(TelegramStyle, formattedMessage, n);

    BodyInOrder(TelegramStyle, n);
    ghost var u, d := UpgradeSection(TelegramStyle, n.upgradeName, n.targetHeight), DepositSection(TelegramStyle, n.totalDeposit);
    ghost var rest := Voting(TelegramStyle, n) + "\n" + Closing(TelegramStyle, n);
    Assoc(header + u + d, Voting(TelegramStyle, n), "\n");
    Assoc(header + u + d, Voting(TelegramStyle, n) + "\n", Closing(TelegramStyle, n));
    Assoc(header + u, d, rest);
    Assoc(header, u, d + rest);
    Assoc(u, d, rest);
    assert formattedMessage == header + Body(TelegramStyle, n);

    formattedMessage := formattedMessage + ("\n\n_Updated at: " + now + "_");
  }

  /** The text opens with the title line, the ID line and the formatted status. */
  lemma StartsWithHeader(n: Notification, now: string)
    ensures HasPrefix(Text(n, now), ("*[" + n.network + "]* *Proposal* " + n.proposalId + ": " + n.title + "\n\n")
                                    + ("*ID:* " + n.proposalId + "\n") + ("*Status:* " + FormatStatus(n.status) + "\n\n"))
  {
    var h, b, f := Header(n), Body(TelegramStyle, n), UpdatedAt(now);
    assert Text(n, now) == h + b + f;
    assert (h + b + f)[..|h|] == h;
  }

  /** The text always ends with the "Updated at" line carrying `now`, right after the summary. */
  lemma EndsWithUpdatedAt(n: Notification, now: string)
    ensures EndsWith(Text(n, now), "\n\n_Updated at: " + now + "_")
    ensures EndsWith(Text(n, now)[..|Text(n, now)| - |UpdatedAt(now)|], "\n*Summary:*\n" + n.summary)
  {
    var t, u := Text(n, now), UpdatedAt(now);
    assert t[|t| - |u|..] == u;
    var hb := Header(n) + Body(TelegramStyle, n);
    assert t[..|t| - |u|] == hb;
    BodyEndsWithSummary(TelegramStyle, n);
    EndsWithAppend(Header(n), Body(TelegramStyle, n), SummarySection(TelegramStyle, n.summary));
  }

  /** Upgrade lines, followed by a blank line, appear iff there is an upgrade name, right after the header. */
  lemma UpgradeLinesIff(n: Notification, now: string)
    ensures var n0 := WithoutUpgrade(n);
      && (n.upgradeName == "" ==> Text(n, now) == Text(n0, now))
      && (n.upgradeName != "" ==>
            SplicedAt(Text(n, now), Text(n0, now), |Header(n)|,
                      "*Upgrade:* " + n.upgradeName + "\n*Target Height:* " + n.targetHeight + "\n\n"))
      && (n.upgradeName == "" <==> |Text(n, now)| == |Text(n0, now)|)
  {
    BodyUpgradeSpliced(TelegramStyle, n);
    SplicedFramed(Header(n), Body(TelegramStyle, n), Body(TelegramStyle, WithoutUpgrade(n)), 0, UpgradeSection(TelegramStyle, n.upgradeName, n.targetHeight), UpdatedAt(now),
      |Header(n)|);
    assert Header(WithoutUpgrade(n)) == Header(n);
    if n.upgradeName == "" {
      BodyIgnoresHeight(TelegramStyle, n);
    } else {
      BodyWithoutUpgrade(TelegramStyle, n);
    }
  }

  /** Deposit bullets, one per deposit in order, appear iff the list is non-empty, after the upgrade lines. */
  lemma DepositLinesIff(n: Notification, now: string)
    ensures var n0 := WithoutDeposits(n);
      && (|n.totalDeposit| == 0 ==> Text(n, now) == Text(n0, now))
      && (|n.totalDeposit| > 0 ==>
            SplicedAt(Text(n, now), Text(n0, now), |Header(n)| + |UpgradeSection(TelegramStyle, n.upgradeName, n.targetHeight)|,
                      "*Deposits:*\n" + DepositLines(Bullet, n.totalDeposit) + "\n"))
      && (|n.totalDeposit| == 0 <==> |Text(n, now)| == |Text(n0, now)|)
  {
    DepositsSpliced(n, now);
    DepositsUnchangedIff(n, now);
  }

  lemma DepositsSpliced(n: Notification, now: string)
    ensures |n.totalDeposit| > 0 ==>
      SplicedAt(Text(n, now), Text(WithoutDeposits(n), now), |Header(n)| + |UpgradeSection(TelegramStyle, n.upgradeName, n.targetHeight)|,
                "*Deposits:*\n" + DepositLines(Bullet, n.totalDeposit) + "\n")
  {
    BodyDepositsSpliced(TelegramStyle, n);
    SplicedFramedPast(Header(n), Body(TelegramStyle, n), Body(TelegramStyle, WithoutDeposits(n)),
      |UpgradeSection(TelegramStyle, n.upgradeName, n.targetHeight)|, DepositSection(TelegramStyle, n.totalDeposit), UpdatedAt(now));
    assert Header(WithoutDeposits(n)) == Header(n);
  }

  lemma DepositsUnchangedIff(n: Notification, now: string)
    ensures |n.totalDeposit| == 0 <==> Text(n, now) == Text(WithoutDeposits(n), now)
    ensures |n.totalDeposit| == 0 <==> |Text(n, now)| == |Text(WithoutDeposits(n), now)|
  {
    assert |n.totalDeposit| == 0 ==> WithoutDeposits(n) == n;
    assert Header(WithoutDeposits(n)) == Header(n);
    BodyWithoutDeposits(TelegramStyle, n);
  }

  /** An empty total gives the placeholder line under the heading, and the vote lines have no effect. */
  lemma EmptyTallyPlaceholder(n: Notification, now: string)
    requires n.totalVotes == ""
    ensures Text(n, now) == Text(WithoutVotes(n), now)
    ensures OccursAt(Text(n, now), |Header(n)| + |UpgradeSection(TelegramStyle, n.upgradeName, n.targetHeight)| + |DepositSection(TelegramStyle, n.totalDeposit)|,
                     VotingHeading + NoVotingResults + "\n" + Closing(TelegramStyle, n))
  {
    BodyEmptyTally(TelegramStyle, n);
    OccursFramed(Header(n), Body(TelegramStyle, n), |UpgradeSection(TelegramStyle, n.upgradeName, n.targetHeight)| + |DepositSection(TelegramStyle, n.totalDeposit)|, VotingHeading + NoVotingResults + "\n" + Closing(TelegramStyle, n), UpdatedAt(now),
      |Header(n)| + |UpgradeSection(TelegramStyle, n.upgradeName, n.targetHeight)| + |DepositSection(TelegramStyle, n.totalDeposit)|);
    assert Header(WithoutVotes(n)) == Header(n);
  }

  /** Setting the expedited flag inserts "*Expedited:* Yes" after the timeline lines. */
  lemma ExpeditedLineSpliced(n: Notification, now: string)
    ensures SplicedAt(Text(n.(expedited := true), now), Text(n.(expedited := false), now),
                      |Header(n)| + |BeforeFlags(TelegramStyle, n)|, "*Expedited:* Yes\n")
  {
    var yes, no := n.(expedited := true), n.(expedited := false);
    ExpeditedSpliced(TelegramStyle, n);
    SplicedFramedPast(Header(n), Body(TelegramStyle, yes), Body(TelegramStyle, no), |BeforeFlags(TelegramStyle, n)|,
                      "*Expedited:* Yes\n", UpdatedAt(now));
    assert Header(yes) == Header(n) && Header(no) == Header(n);
  }

  /**
   * A non-empty failed reason inserts its "*Failed Reason:*" line after the timeline and, when
   * the flag is set, the expedited line.
   */
  lemma FailedReasonLineSpliced(n: Notification, now: string)
    requires n.failedReason != ""
    ensures SplicedAt(Text(n, now), Text(WithoutFailedReason(n), now), |Header(n)| + FailedReasonOffset(TelegramStyle, n),
                      "*Failed Reason:* " + n.failedReason + "\n")
  {
    FailedReasonSpliced(TelegramStyle, n);
    HeaderIgnoresFailedReason(n);
    BodySplicedInText(n, WithoutFailedReason(n), FailedReasonOffset(TelegramStyle, n), TelegramStyle.emphasis.FailedReasonLine(n.failedReason),
                      "*Failed Reason:* " + n.failedReason + "\n", now);
  }

  /** In Telegram's text the failed-reason line follows the timeline and any "*Expedited:* Yes" line. */
  lemma FailedReasonOffsetTelegram(n: Notification)
    ensures FailedReasonOffset(TelegramStyle, n) == |BeforeFlags(TelegramStyle, n)| + (if n.expedited then |"*Expedited:* Yes\n"| else 0)
  {
  }

  lemma HeaderIgnoresFailedReason(n: Notification)
    ensures Header(WithoutFailedReason(n)) == Header(n)
  {
  }

  /** An insertion `x` into the body, written `y`, is one into the text, past the header, when the headers agree. */
  lemma BodySplicedInText(n1: Notification, n0: Notification, k: int, x: string, y: string, now: string)
    requires Header(n1) == Header(n0) && SplicedAt(Body(TelegramStyle, n1), Body(TelegramStyle, n0), k, x) && x == y
    ensures SplicedAt(Text(n1, now), Text(n0, now), |Header(n1)| + k, y)
  {
    SplicedFramedPast(Header(n1), Body(TelegramStyle, n1), Body(TelegramStyle, n0), k, x, UpdatedAt(now));
  }

  /**
   * "Submitted" and "Voting Ends" lines are printed only for non-zero times; setting the
   * expedited flag inserts exactly the expedited line after them, and a failed reason exactly
   * its line after that.
   */
  lemma TimelineAndFlagLines(n: Notification, now: string, other: string)
    ensures n.submitTime.isZero ==> Text(n, now) == Text(n.(submitTime := Time(true, other)), now)
    ensures n.votingEndTime.isZero ==> Text(n, now) == Text(n.(votingEndTime := Time(true, other)), now)
    ensures SplicedAt(Text(n.(expedited := true), now), Text(n.(expedited := false), now),
                      |Header(n)| + |BeforeFlags(TelegramStyle, n)|, "*Expedited:* Yes\n")
    ensures FailedReasonOffset(TelegramStyle, n) == |BeforeFlags(TelegramStyle, n)| + (if n.expedited then |"*Expedited:* Yes\n"| else 0)
    ensures n.failedReason != "" ==>
      SplicedAt(Text(n, now), Text(WithoutFailedReason(n), now), |Header(n)| + FailedReasonOffset(TelegramStyle, n),
                "*Failed Reason:* " + n.failedReason + "\n")
  {
    ZeroTimesIgnored(TelegramStyle, n, other);
    assert Header(n.(submitTime := Time(true, other))) == Header(n);
    assert Header(n.(votingEndTime := Time(true, other))) == Header(n);
    ExpeditedLineSpliced(n, now);
    FailedReasonOffsetTelegram(n);
    if n.failedReason != "" {
      FailedReasonLineSpliced(n, now);
    }
  }
}
