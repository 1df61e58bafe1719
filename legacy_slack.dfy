/**
 * FormatProposalMessage, getColorForStatus and formatStatus of the older pkg/slack/slack.go,
 * the Slack formatter the comms notification service uses. Its bullets and status labels
 * are the UTF-8 bytes of "•", "🗳️", "✅" and "❌" read back as Mac OS Roman, kept as written.
 * The content built from the upgrade plan and the deposits is overwritten by the assignment
 * that starts the voting results, so only the voting results and what follows them reach the
 * details text.
 */
module LegacySlack {
  import opened Wrappers
  import Zetachain
  import opened Models
  import opened GoStrings
  import Notifiers
  import opened Sections
  import opened SlackPayload
  import SlackFormatter

  const LegacyBullet: string := "\U{201A}\U{00C4}\U{00A2} "

  /** As the current Slack style, with the mis-encoded bullet. */
  const LegacyStyle: Style := Style(Single, "\n", LegacyBullet, true)

  /** The status labels of this file: the current labels' bytes, mis-decoded; anything else unchanged. */
  function FormatStatus(status: string): string {
    if status == Notifiers.VotingPeriod then "\U{F8FF}\U{00FC}\U{00F3}\U{2265}\U{00D4}\U{220F}\U{00E8} Voting Period"
    else if status == Notifiers.Passed then "\U{201A}\U{00FA}\U{00D6} Passed"
    else if status == Notifiers.Rejected then "\U{201A}\U{00F9}\U{00E5} Rejected"
    else status
  }

  function IdStatusLines(n: Notification): string {
    "*ID:* " + n.proposalId + "\n*Status:* " + FormatStatus(n.status) + "\n\n"
  }

  /** The text of the details block: the ID and status lines, then the voting results onwards. */
  function Details(n: Notification): string {
    IdStatusLines(n) + Tail(LegacyStyle, n)
  }

  /** The colour table and the header are those of pkg/notifiers/slack/formatter.go. */
  function MessageSpec(n: Notification): Message {
    Message(FallbackPrefix + n.network, [],
            [Attachment(SlackFormatter.ColorForStatus(n.status), [MarkdownSection(SlackFormatter.HeaderText(n)), MarkdownSection(Details(n))])])
  }

  method FormatProposalMessage(n: Notification) returns (m: Message)
    ensures m == MessageSpec(n)
  {
    var color := SlackFormatter.ColorForStatus(n.status);
    var headerText := "*[" + n.network + "]* *Proposal* " + n.proposalId + ": " + n.title;
    var headerBlock := Block("section", Some(Text("mrkdwn", headerText)));

    var messageContent := "";
    messageContent := AppendUpgrade(LegacyStyle, messageContent, n.upgradeName, n.targetHeight);
    messageContent := AppendDeposits(LegacyStyle, messageContent, n.totalDeposit);

    messageContent := "*Voting Results:*\n";
    if n.totalVotes != "" {
      messageContent := AppendVoteLines(LegacyBullet, messageContent, n.yesVotes, n.noVotes, n.abstainVotes, n.vetoVotes, n.totalVotes);
    } else {
      messageContent := messageContent + "No voting results available.\n";
    }
    assert messageContent == Voting(LegacyStyle, n);
    messageContent := messageContent + "\n";
    messageContent := AppendClosing(LegacyStyle, messageContent, n);
    assert messageContent == Tail(LegacyStyle, n);

    var detailsText := "*ID:* " + n.proposalId + "\n*Status:* " + FormatStatus(n.status) + "\n\n" + messageContent;
    var detailsBlock := Block("section", Some(Text("mrkdwn", detailsText)));
    var blocks := [headerBlock, detailsBlock];
    var attachment := Attachment(color, blocks);
    m := Message("New proposal notification for " + n.network, [], [attachment]);
  }

  /** One attachment in the status colour with the header section, then the details section. */
  lemma MessageLayout(n: Notification)
    ensures ProposalMessage(MessageSpec(n), n.network, SlackFormatter.ColorForStatus(n.status), SlackFormatter.HeaderText(n), Details(n))
    ensures MessageSpec(n).attachments[0].color == "#808080" <==> !Notifiers.IsKnownStatus(n.status)
  {
    SlackFormatter.ColorGrayIffUnlabelled(n.status);
    Notifiers.FormatStatusChangesOnlyKnown(n.status);
  }

  /**
   * The message is the same whatever the upgrade plan and the deposits: the text built from
   * them is discarded.
   */
  lemma IgnoresUpgradeAndDeposits(n: Notification, name: string, height: string, ds: seq<Zetachain.Deposit>)
    ensures MessageSpec(n.(upgradeName := name, targetHeight := height, totalDeposit := ds)) == MessageSpec(n)
  {
    var m := n.(upgradeName := name, targetHeight := height, totalDeposit := ds);
    assert Voting(LegacyStyle, m) == Voting(LegacyStyle, n);
    assert Closing(LegacyStyle, m) == Closing(LegacyStyle, n);
    assert IdStatusLines(m) == IdStatusLines(n);
  }

  /** The details open with the ID, the status label and the voting heading, and close with the summary. */
  lemma DetailsFrame(n: Notification)
    ensures HasPrefix(Details(n), "*ID:* " + n.proposalId + "\n*Status:* " + FormatStatus(n.status) + "\n\n" + "*Voting Results:*\n")
    ensures EndsWith(Details(n), "\n*Summary:*\n" + n.summary)
  {
    DetailsStart(n);
    TailEndsWithSummary(LegacyStyle, n);
    EndsWithAppend(IdStatusLines(n), Tail(LegacyStyle, n), SummarySection(LegacyStyle, n.summary));
  }

  lemma DetailsStart(n: Notification)
    ensures HasPrefix(Details(n), IdStatusLines(n) + VotingHeading)
  {
    var p, v, rest := IdStatusLines(n), Voting(LegacyStyle, n), "\n" + Closing(LegacyStyle, n);
    assert Details(n) == p + v + rest;
    assert (p + v + rest)[..|p| + |VotingHeading|] == p + VotingHeading;
  }

  /** An empty total prints the placeholder right under the heading, and the vote lines have no effect. */
  lemma EmptyTallyPlaceholder(n: Notification)
    requires n.totalVotes == ""
    ensures MessageSpec(n) == MessageSpec(WithoutVotes(n))
    ensures Details(n) == IdStatusLines(n) + VotingHeading + NoVotingResults + "\n" + Closing(LegacyStyle, n)
  {
    TailVotes(LegacyStyle, n);
    assert IdStatusLines(WithoutVotes(n)) == IdStatusLines(n);
    assert SlackFormatter.HeaderText(WithoutVotes(n)) == SlackFormatter.HeaderText(n);
  }

  /**
   * The labels are told apart as the current ones are: exactly the three known statuses are
   * relabelled, and they get pairwise distinct labels.
   */
  lemma FormatStatusAgrees(status: string)
    ensures FormatStatus(status) == status <==> Notifiers.FormatStatus(status) == status
    ensures FormatStatus(status) != status <==> Notifiers.IsKnownStatus(status)
    ensures FormatStatus(Notifiers.VotingPeriod) != FormatStatus(Notifiers.Passed)
    ensures FormatStatus(Notifiers.VotingPeriod) != FormatStatus(Notifiers.Rejected)
    ensures FormatStatus(Notifiers.Passed) != FormatStatus(Notifiers.Rejected)
  {
    Notifiers.FormatStatusChangesOnlyKnown(status);
  }
}
