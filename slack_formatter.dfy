/** formatNotification and getColorForStatus of pkg/notifiers/slack/formatter.go. */
module SlackFormatter {
  import opened Wrappers
  import Zetachain
  import opened Models
  import opened GoStrings
  import opened Notifiers
  import opened Sections
  import opened SlackPayload

  /** Single-asterisk labels, no blank line after the upgrade lines, "• " bullets, a placeholder for an empty tally. */
  const SlackStyle: Style := Style(Single, "\n", Bullet, true)

  const Gray: string := "#808080"

  function ColorForStatus(status: string): string {
    if status == VotingPeriod then "#3AA3E3"
    else if status == Passed then "#2EB886"
    else if status == Rejected then "#E01E5A"
    else Gray
  }

  function HeaderText(n: Notification): string {
    "*[" + n.network + "]* *Proposal* " + n.proposalId + ": " + n.title
  }

  function IdStatusLines(n: Notification): string {
    "*ID:* " + n.proposalId + "\n*Status:* " + FormatStatus(n.status) + "\n\n"
  }

  /** The text of the details block. */
  function Details(n: Notification): string {
    IdStatusLines(n) + Body(SlackStyle, n)
  }

  function MessageSpec(n: Notification): Message {
    Message(FallbackPrefix + n.network, [],
            [Attachment(ColorForStatus(n.status), [MarkdownSection(HeaderText(n)), MarkdownSection(Details(n))])])
  }

  method FormatNotification(n: Notification) returns (m: Message)
    ensures m == MessageSpec(n)
  {
    var color := ColorForStatus(n.status);
    var headerText := "*[" + n.network + "]* *Proposal* " + n.proposalId + ": " + n.title;
    var headerBlock := Block("section", Some(Text("mrkdwn", headerText)));

    var messageContent := "";
    messageContent := AppendUpgrade(SlackStyle, messageContent, n.upgradeName, n.targetHeight);
    assert messageContent == UpgradeSection(SlackStyle, n.upgradeName, n.targetHeight);
    messageContent := AppendDeposits(SlackStyle, messageContent, n.totalDeposit);
    ghost var front := messageContent;

    messageContent := messageContent + "*Voting Results:*\n";
    if n.totalVotes != "" {
      messageContent := AppendVoteLines(Bullet, messageContent, n.yesVotes, n.noVotes, n.abstainVotes, n.vetoVotes, n.totalVotes);
      Assoc(front, VotingHeading, VoteLines(Bullet, n.yesVotes, n.noVotes, n.abstainVotes, n.vetoVotes, n.totalVotes));
    } else {
      messageContent := messageContent + "No voting results available.\n";
      Assoc(front, VotingHeading, NoVotingResults);
    }
    assert messageContent == front + Voting(SlackStyle, n);
    messageContent := messageContent + "\n";
    messageContent := AppendClosing(SlackStyle, messageContent, n);
    BodyInOrder(SlackStyle, n);
    assert messageContent == Body(SlackStyle, n);

    var detailsText := "*ID:* " + n.proposalId + "\n*Status:* " + FormatStatus(n.status) + "\n\n" + messageContent;
    var detailsBlock := Block("section", Some(Text("mrkdwn", detailsText)));
    var blocks := [headerBlock, detailsBlock];
    var attachment := Attachment(color, blocks);
    m := Message("New proposal notification for " + n.network, [], [attachment]);
  }

  /** One attachment in the status colour with the header section, then the details section. */
  lemma MessageLayout(n: Notification)
    ensures ProposalMessage(MessageSpec(n), n.network, ColorForStatus(n.status), HeaderText(n), Details(n))
  {
  }

  /** The details open with the ID and the formatted status and close with the summary. */
  lemma DetailsFrame(n: Notification)
    ensures HasPrefix(Details(n), "*ID:* " + n.proposalId + "\n*Status:* " + FormatStatus(n.status) + "\n\n")
    ensures EndsWith(Details(n), "\n*Summary:*\n" + n.summary)
  {
    var p, b := IdStatusLines(n), Body(SlackStyle, n);
    assert Details(n) == p + b;
    assert (p + b)[..|p|] == p;
    BodyEndsWithSummary(SlackStyle, n);
    EndsWithAppend(p, b, SummarySection(SlackStyle, n.summary));
  }

  /**
   * Upgrade lines appear iff there is an upgrade name, right after the ID and status lines;
   * without one the target height has no effect.
   */
  lemma UpgradeLinesIff(n: Notification)
    ensures var n0 := WithoutUpgrade(n);
      && (n.upgradeName == "" ==> Details(n) == Details(n0))
      && (n.upgradeName != "" ==>
            SplicedAt(Details(n), Details(n0), |IdStatusLines(n)|,
                      "*Upgrade:* " + n.upgradeName + "\n*Target Height:* " + n.targetHeight + "\n"))
      && (n.upgradeName == "" <==> |Details(n)| == |Details(n0)|)
  {
    BodyUpgradeSpliced(SlackStyle, n);
    SplicedHeaded(IdStatusLines(n), Body(SlackStyle, n), Body(SlackStyle, WithoutUpgrade(n)), 0, UpgradeSection(SlackStyle, n.upgradeName, n.targetHeight),
      |IdStatusLines(n)|);
    assert IdStatusLines(WithoutUpgrade(n)) == IdStatusLines(n);
    if n.upgradeName == "" {
      BodyIgnoresHeight(SlackStyle, n);
    } else {
      BodyWithoutUpgrade(SlackStyle, n);
    }
  }

  /** Deposit bullets, one per deposit in order, appear iff the list is non-empty, after the upgrade lines. */
  lemma DepositLinesIff(n: Notification)
    ensures var n0 := WithoutDeposits(n);
      && (|n.totalDeposit| == 0 ==> Details(n) == Details(n0))
      && (|n.totalDeposit| > 0 ==>
            SplicedAt(Details(n), Details(n0), |IdStatusLines(n)| + |UpgradeSection(SlackStyle, n.upgradeName, n.targetHeight)|,
                      "*Deposits:*\n" + DepositLines(Bullet, n.totalDeposit) + "\n"))
      && (|n.totalDeposit| == 0 <==> |Details(n)| == |Details(n0)|)
  {
    DepositsSpliced(n);
    DepositsUnchangedIff(n);
  }

  lemma DepositsSpliced(n: Notification)
    ensures |n.totalDeposit| > 0 ==>
      SplicedAt(Details(n), Details(WithoutDeposits(n)), |IdStatusLines(n)| + |UpgradeSection(SlackStyle, n.upgradeName, n.targetHeight)|,
                "*Deposits:*\n" + DepositLines(Bullet, n.totalDeposit) + "\n")
  {
    BodyDepositsSpliced(SlackStyle, n);
    SplicedHeadedPast(IdStatusLines(n), Body(SlackStyle, n), Body(SlackStyle, WithoutDeposits(n)),
      |UpgradeSection(SlackStyle, n.upgradeName, n.targetHeight)|, DepositSection(SlackStyle, n.totalDeposit));
    assert IdStatusLines(WithoutDeposits(n)) == IdStatusLines(n);
  }

  lemma DepositsUnchangedIff(n: Notification)
    ensures |n.totalDeposit| == 0 <==> Details(n) == Details(WithoutDeposits(n))
    ensures |n.totalDeposit| == 0 <==> |Details(n)| == |Details(WithoutDeposits(n))|
  {
    assert |n.totalDeposit| == 0 ==> WithoutDeposits(n) == n;
    assert IdStatusLines(WithoutDeposits(n)) == IdStatusLines(n);
    BodyWithoutDeposits(SlackStyle, n);
  }

  /**
   * An empty total prints "No voting results available." under the heading instead of the
   * four vote lines, which then have no effect on the message.
   */
  lemma EmptyTallyPlaceholder(n: Notification)
    requires n.totalVotes == ""
    ensures MessageSpec(n) == MessageSpec(WithoutVotes(n))
    ensures OccursAt(Details(n), |IdStatusLines(n)| + |UpgradeSection(SlackStyle, n.upgradeName, n.targetHeight)| + |DepositSection(SlackStyle, n.totalDeposit)|,
                     VotingHeading + NoVotingResults + "\n" + Closing(SlackStyle, n))
  {
    BodyEmptyTally(SlackStyle, n);
    OccursHeaded(IdStatusLines(n), Body(SlackStyle, n), |UpgradeSection(SlackStyle, n.upgradeName, n.targetHeight)| + |DepositSection(SlackStyle, n.totalDeposit)|, VotingHeading + NoVotingResults + "\n" + Closing(SlackStyle, n),
      |IdStatusLines(n)| + |UpgradeSection(SlackStyle, n.upgradeName, n.targetHeight)| + |DepositSection(SlackStyle, n.totalDeposit)|);
    assert IdStatusLines(WithoutVotes(n)) == IdStatusLines(n);
    assert HeaderText(WithoutVotes(n)) == HeaderText(n);
  }

  /** The colour is gray exactly for the statuses FormatStatus leaves unchanged. */
  lemma ColorGrayIffUnlabelled(status: string)
    ensures ColorForStatus(status) == Gray <==> FormatStatus(status) == status
    ensures ColorForStatus(VotingPeriod) == "#3AA3E3" && ColorForStatus(Passed) == "#2EB886"
    ensures ColorForStatus(Rejected) == "#E01E5A"
  {
  }
}
