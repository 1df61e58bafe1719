/**
 * formatNotification and getColorForStatus of pkg/notifiers/discord/formatter.go. The
 * embed's timestamp is time.Now() in RFC 3339, passed in as `now`.
 */
module DiscordFormatter {
  import opened Wrappers
  import opened Models
  import opened GoStrings
  import opened Notifiers
  import opened Sections
  import opened DiscordPayload

  /** Double-asterisk labels, a blank line after the upgrade lines, "• " bullets, nothing for an empty tally. */
  const DiscordStyle: Style := Style(Double, "\n\n", Bullet, false)

  const FallbackTitle: string := "Message from ZetaChain Governance"
  const Gray: int := 0x808080

  function ColorForStatus(status: string): int {
    if status == VotingPeriod then 0x3AA3E3
    else if status == Passed then 0x2EB886
    else if status == Rejected then 0xE01E5A
    else Gray
  }

  function Title(n: Notification): string {
    if n.title != "" then "[" + n.network + "] Proposal #" + n.proposalId + ": " + n.title else FallbackTitle
  }

  /** The ID and status lines, present only when the notification has an ID. */
  function IdStatusLines(n: Notification): string {
    if n.proposalId != "" then "**ID:** " + n.proposalId + "\n**Status:** " + FormatStatus(n.status) + "\n\n" else ""
  }

  function Description(n: Notification): string {
    IdStatusLines(n) + Body(DiscordStyle, n)
  }

  function EmbedSpec(n: Notification, now: string): Embed {
    Embed(Title(n), ColorForStatus(n.status), now, Footer, Description(n))
  }

  method FormatNotification(n: Notification, now: string) returns (embed: Embed)
    ensures embed == EmbedSpec(n, now)
  {
    var color := ColorForStatus(n.status);
    var title := "Message from ZetaChain Governance";
    if n.title != "" {
      title := "[" + n.network + "] Proposal #" + n.proposalId + ": " + n.title;
    }
    embed := Embed(title, color, now, "ZetaChain Governance", "");

    var description := "";
    if n.proposalId != "" {
      description := "**ID:** " + n.proposalId + "\n**Status:** " + FormatStatus(n.status) + "\n\n";
    }
    ghost var header := description;
    description := AppendUpgrade(DiscordStyle, description, n.upgradeName, n.targetHeight);
    description := AppendDeposits(DiscordStyle, description, n.totalDeposit);
    ghost var front := description;
    if n.totalVotes != "" {
      description := description + "*Voting Results:*\n";
      description := AppendVoteLines(Bullet, description, n.yesVotes, n.noVotes, n.abstainVotes, n.vetoVotes, n.totalVotes);
      Assoc(front, VotingHeading, VoteLines(Bullet, n.yesVotes, n.noVotes, n.abstainVotes, n.vetoVotes, n.totalVotes));
    }
    assert description == front + Voting(DiscordStyle, n);
    description := description + "\n";
    description := AppendClosing(DiscordStyle, description, n);

    BodyInOrder(DiscordStyle, n);
    ghost var u, d := UpgradeSection(DiscordStyle, n.upgradeName, n.targetHeight), DepositSection(DiscordStyle, n.totalDeposit);
    ghost var rest := Voting(DiscordStyle, n) + "\n" + Closing(DiscordStyle, n);
    assert description == header + u + d + Voting(DiscordStyle, n) + "\n" + Closing(DiscordStyle, n);
    Assoc(header + u + d, Voting(DiscordStyle, n), "\n");
    Assoc(header + u + d, Voting(DiscordStyle, n) + "\n", Closing(DiscordStyle, n));
    Assoc(header + u, d, rest);
    Assoc(header, u, d + rest);
    Assoc(u, d, rest);
    assert description == header + Body(DiscordStyle, n);
    embed := embed.(description := description);
  }

  /** The fallback title is used exactly when the proposal has no title. */
  lemma TitleFallbackIff(n: Notification)
    ensures Title(n) == FallbackTitle <==> n.title == ""
    ensures n.title != "" ==> Title(n) == "[" + n.network + "] Proposal #" + n.proposalId + ": " + n.title
  {
    if n.title != "" {
      assert Title(n)[0] == '[' != FallbackTitle[0];
    }
  }

  /** The ID and status lines open the description iff there is an ID; otherwise it starts with the body. */
  lemma IdLinesIff(n: Notification)
    ensures n.proposalId != "" ==> HasPrefix(Description(n), "**ID:** " + n.proposalId + "\n**Status:** " + FormatStatus(n.status) + "\n\n")
    ensures n.proposalId == "" ==> Description(n) == Body(DiscordStyle, n)
    ensures n.proposalId == "" <==> |Description(n)| == |Body(DiscordStyle, n)|
  {
    var p := IdStatusLines(n);
    assert Description(n)[..|p|] == p;
  }

  /** Upgrade lines, followed by a blank line, appear iff there is an upgrade name, right after the ID lines. */
  lemma UpgradeLinesIff(n: Notification)
    ensures var n0 := WithoutUpgrade(n);
      && (n.upgradeName == "" ==> Description(n) == Description(n0))
      && (n.upgradeName != "" ==>
            SplicedAt(Description(n), Description(n0), |IdStatusLines(n)|,
                      "**Upgrade:** " + n.upgradeName + "\n**Target Height:** " + n.targetHeight + "\n\n"))
      && (n.upgradeName == "" <==> |Description(n)| == |Description(n0)|)
  {
    BodyUpgradeSpliced(DiscordStyle, n);
    SplicedHeaded(IdStatusLines(n), Body(DiscordStyle, n), Body(DiscordStyle, WithoutUpgrade(n)), 0, UpgradeSection(DiscordStyle, n.upgradeName, n.targetHeight),
      |IdStatusLines(n)|);
    assert IdStatusLines(WithoutUpgrade(n)) == IdStatusLines(n);
    if n.upgradeName == "" {
      BodyIgnoresHeight(DiscordStyle, n);
    } else {
      BodyWithoutUpgrade(DiscordStyle, n);
    }
  }

  /** Deposit bullets, one per deposit in order, appear iff the list is non-empty, after the upgrade lines. */
  lemma DepositLinesIff(n: Notification)
    ensures var n0 := WithoutDeposits(n);
      && (|n.totalDeposit| == 0 ==> Description(n) == Description(n0))
      && (|n.totalDeposit| > 0 ==>
            SplicedAt(Description(n), Description(n0), |IdStatusLines(n)| + |UpgradeSection(DiscordStyle, n.upgradeName, n.targetHeight)|,
                      "**Deposits:**\n" + DepositLines(Bullet, n.totalDeposit) + "\n"))
      && (|n.totalDeposit| == 0 <==> |Description(n)| == |Description(n0)|)
  {
    DepositsSpliced(n);
    DepositsUnchangedIff(n);
  }

  lemma DepositsSpliced(n: Notification)
    ensures |n.totalDeposit| > 0 ==>
      SplicedAt(Description(n), Description(WithoutDeposits(n)), |IdStatusLines(n)| + |UpgradeSection(DiscordStyle, n.upgradeName, n.targetHeight)|,
                "**Deposits:**\n" + DepositLines(Bullet, n.totalDeposit) + "\n")
  {
    BodyDepositsSpliced(DiscordStyle, n);
    SplicedHeadedPast(IdStatusLines(n), Body(DiscordStyle, n), Body(DiscordStyle, WithoutDeposits(n)),
      |UpgradeSection(DiscordStyle, n.upgradeName, n.targetHeight)|, DepositSection(DiscordStyle, n.totalDeposit));
    assert IdStatusLines(WithoutDeposits(n)) == IdStatusLines(n);
  }

  lemma DepositsUnchangedIff(n: Notification)
    ensures |n.totalDeposit| == 0 <==> Description(n) == Description(WithoutDeposits(n))
    ensures |n.totalDeposit| == 0 <==> |Description(n)| == |Description(WithoutDeposits(n))|
  {
    assert |n.totalDeposit| == 0 ==> WithoutDeposits(n) == n;
    assert IdStatusLines(WithoutDeposits(n)) == IdStatusLines(n);
    BodyWithoutDeposits(DiscordStyle, n);
  }

  /**
   * An empty total leaves the voting section out entirely, heading included: the vote lines
   * have no effect and the deposits are followed directly by the blank line.
   */
  lemma EmptyTallyOmitted(n: Notification, now: string)
    requires n.totalVotes == ""
    ensures EmbedSpec(n, now) == EmbedSpec(WithoutVotes(n), now)
    ensures OccursAt(Description(n), |IdStatusLines(n)| + |UpgradeSection(DiscordStyle, n.upgradeName, n.targetHeight)| + |DepositSection(DiscordStyle, n.totalDeposit)|,
                     "\n" + Closing(DiscordStyle, n))
  {
    BodyEmptyTally(DiscordStyle, n);
    OccursHeaded(IdStatusLines(n), Body(DiscordStyle, n), |UpgradeSection(DiscordStyle, n.upgradeName, n.targetHeight)| + |DepositSection(DiscordStyle, n.totalDeposit)|, "\n" + Closing(DiscordStyle, n),
      |IdStatusLines(n)| + |UpgradeSection(DiscordStyle, n.upgradeName, n.targetHeight)| + |DepositSection(DiscordStyle, n.totalDeposit)|);
    assert IdStatusLines(WithoutVotes(n)) == IdStatusLines(n);
    assert Title(WithoutVotes(n)) == Title(n);
  }

  /** The description always closes with the summary under its heading. */
  lemma DescriptionEndsWithSummary(n: Notification)
    ensures EndsWith(Description(n), "\n**Summary:**\n" + n.summary)
  {
    BodyEndsWithSummary(DiscordStyle, n);
    EndsWithAppend(IdStatusLines(n), Body(DiscordStyle, n), SummarySection(DiscordStyle, n.summary));
  }

  /** Gray exactly for the statuses FormatStatus leaves unchanged; the footer never varies. */
  lemma ColorAndFooter(n: Notification, now: string)
    ensures ColorForStatus(n.status) == Gray <==> FormatStatus(n.status) == n.status
    ensures ColorForStatus(VotingPeriod) == 0x3AA3E3 && ColorForStatus(Passed) == 0x2EB886
    ensures ColorForStatus(Rejected) == 0xE01E5A
    ensures EmbedSpec(n, now).footer == "ZetaChain Governance" && EmbedSpec(n, now).timestamp == now
  {
  }
}
