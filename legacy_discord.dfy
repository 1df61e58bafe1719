/**
 * FormatProposalMessage of the older pkg/discord/discord.go, the Discord formatter the comms
 * notification service uses. Its getColorForStatus and formatStatus are the tables of
 * pkg/notifiers/discord/formatter.go and pkg/notifiers/commonFormatter.go, so the model uses
 * those. Unlike the current formatter it always prints the full title and the ID lines, and
 * prints a placeholder under the voting heading for an empty tally. The embed's timestamp is
 * time.Now() in RFC 3339, passed in as `now`.
 */
module LegacyDiscord {
  import opened Wrappers
  import opened Models
  import opened GoStrings
  import opened Notifiers
  import opened Sections
  import opened DiscordPayload
  import DiscordFormatter

  /** Double-asterisk labels, a blank line after the upgrade lines, "• " bullets, a placeholder for an empty tally. */
  const LegacyStyle: Style := Style(Double, "\n\n", Bullet, true)

  function Title(n: Notification): string {
    "[" + n.network + "] Proposal #" + n.proposalId + ": " + n.title
  }

  function IdStatusLines(n: Notification): string {
    "**ID:** " + n.proposalId + "\n**Status:** " + FormatStatus(n.status) + "\n\n"
  }

  function Description(n: Notification): string {
    IdStatusLines(n) + Body(LegacyStyle, n)
  }

  function EmbedSpec(n: Notification, now: string): Embed {
    Embed(Title(n), DiscordFormatter.ColorForStatus(n.status), now, Footer, Description(n))
  }

  method FormatProposalMessage(n: Notification, now: string) returns (embed: Embed)
    ensures embed == EmbedSpec(n, now)
  {
    var color := DiscordFormatter.ColorForStatus(n.status);
    var title := "[" + n.network + "] Proposal #" + n.proposalId + ": " + n.title;
    embed := Embed(title, color, now, "ZetaChain Governance", "");

    var description := "**ID:** " + n.proposalId + "\n**Status:** " + FormatStatus(n.status) + "\n\n";
    ghost var header := description;
    description := AppendUpgrade(LegacyStyle, description, n.upgradeName, n.targetHeight);
    description := AppendDeposits(LegacyStyle, description, n.totalDeposit);
    ghost var front := description;

    description := description + "*Voting Results:*\n";
    if n.totalVotes != "" {
      description := AppendVoteLines(Bullet, description, n.yesVotes, n.noVotes, n.abstainVotes, n.vetoVotes, n.totalVotes);
      Assoc(front, VotingHeading, VoteLines(Bullet, n.yesVotes, n.noVotes, n.abstainVotes, n.vetoVotes, n.totalVotes));
    } else {
      description := description + "No voting results available.\n";
      Assoc(front, VotingHeading, NoVotingResults);
    }
    assert description == front + Voting(LegacyStyle, n);
    description := description + "\n";
    description := AppendClosing(LegacyStyle, description, n);

    BodyInOrder(LegacyStyle, n);
    ghost var u, d := UpgradeSection(LegacyStyle, n.upgradeName, n.targetHeight), DepositSection(LegacyStyle, n.totalDeposit);
    ghost var rest := Voting(LegacyStyle, n) + "\n" + Closing(LegacyStyle, n);
    Assoc(header + u + d, Voting(LegacyStyle, n), "\n");
    Assoc(header + u + d, Voting(LegacyStyle, n) + "\n", Closing(LegacyStyle, n));
    Assoc(header + u, d, rest);
    Assoc(header, u, d + rest);
    Assoc(u, d, rest);
    assert description == header + Body(LegacyStyle, n);
    embed := embed.(description := description);
  }

  /**
   * The title always names the network, the ID and the title, even an empty one, where the
   * current formatter falls back to its fixed title.
   */
  lemma TitleAlwaysFull(n: Notification, now: string)
    ensures EmbedSpec(n, now).title == "[" + n.network + "] Proposal #" + n.proposalId + ": " + n.title
    ensures n.title != "" <==> EmbedSpec(n, now).title == DiscordFormatter.Title(n)
  {
    DiscordFormatter.TitleFallbackIff(n);
    assert Title(n)[0] == '[' != DiscordFormatter.FallbackTitle[0];
  }

  /** The description always opens with the ID and status lines and closes with the summary. */
  lemma DescriptionFrame(n: Notification)
    ensures HasPrefix(Description(n), "**ID:** " + n.proposalId + "\n**Status:** " + FormatStatus(n.status) + "\n\n")
    ensures EndsWith(Description(n), "\n**Summary:**\n" + n.summary)
  {
    var p, b := IdStatusLines(n), Body(LegacyStyle, n);
    assert (p + b)[..|p|] == p;
    BodyEndsWithSummary(LegacyStyle, n);
    EndsWithAppend(p, b, SummarySection(LegacyStyle, n.summary));
  }

  /** Upgrade lines, followed by a blank line, appear iff there is an upgrade name, right after the ID lines. */
  lemma UpgradeLinesIff(n: Notification)
    ensures var n0 := WithoutUpgrade(n);
      && (n.upgradeName == "" ==> Description(n) == Description(n0))
      && (n.upgradeName != "" ==>
            SplicedAt(Description(n), Description(n0), |IdStatusLines(n)|,
                      "**Upgrade:** " + n.upgradeName + "\n**Target Height:** " + n.targetHeight + "\n\n"))
      && (n.upgradeName == "" <==> |Description(n)| == |Description(n0)|)
  {
    BodyUpgradeSpliced(LegacyStyle, n);
    SplicedHeaded(IdStatusLines(n), Body(LegacyStyle, n), Body(LegacyStyle, WithoutUpgrade(n)), 0,
      UpgradeSection(LegacyStyle, n.upgradeName, n.targetHeight), |IdStatusLines(n)|);
    assert IdStatusLines(WithoutUpgrade(n)) == IdStatusLines(n);
    if n.upgradeName == "" {
      BodyIgnoresHeight(LegacyStyle, n);
    } else {
      BodyWithoutUpgrade(LegacyStyle, n);
    }
  }

  /**
   * An empty total prints "No voting results available." under the heading, after the upgrade
   * lines and the deposits, and the vote lines then have no effect.
   */
  lemma EmptyTallyPlaceholder(n: Notification, now: string)
    requires n.totalVotes == ""
    ensures EmbedSpec(n, now) == EmbedSpec(WithoutVotes(n), now)
    ensures OccursAt(Description(n), |IdStatusLines(n)| + |UpgradeSection(LegacyStyle, n.upgradeName, n.targetHeight)| + |DepositSection(LegacyStyle, n.totalDeposit)|,
                     VotingHeading + NoVotingResults + "\n" + Closing(LegacyStyle, n))
  {
    EmptyTallyUnchanged(n, now);
    EmptyTallyOccurs(n);
  }

  lemma EmptyTallyUnchanged(n: Notification, now: string)
    requires n.totalVotes == ""
    ensures EmbedSpec(n, now) == EmbedSpec(WithoutVotes(n), now)
  {
    BodyEmptyTally(LegacyStyle, n);
    assert IdStatusLines(WithoutVotes(n)) == IdStatusLines(n);
    assert Title(WithoutVotes(n)) == Title(n);
  }

  lemma EmptyTallyOccurs(n: Notification)
    requires n.totalVotes == ""
    ensures OccursAt(Description(n), |IdStatusLines(n)| + |UpgradeSection(LegacyStyle, n.upgradeName, n.targetHeight)| + |DepositSection(LegacyStyle, n.totalDeposit)|,
                     VotingHeading + NoVotingResults + "\n" + Closing(LegacyStyle, n))
  {
    BodyEmptyTally(LegacyStyle, n);
    OccursHeaded(IdStatusLines(n), Body(LegacyStyle, n),
      |UpgradeSection(LegacyStyle, n.upgradeName, n.targetHeight)| + |DepositSection(LegacyStyle, n.totalDeposit)|,
      VotingHeading + NoVotingResults + "\n" + Closing(LegacyStyle, n),
      |IdStatusLines(n)| + |UpgradeSection(LegacyStyle, n.upgradeName, n.targetHeight)| + |DepositSection(LegacyStyle, n.totalDeposit)|);
  }

  /** Fixed colours for the known statuses and gray otherwise; a fixed footer; the timestamp is `now`. */
  lemma ColorAndStatus(n: Notification, now: string)
    ensures EmbedSpec(n, now).color == 0x808080 <==> !IsKnownStatus(n.status)
    ensures n.status == VotingPeriod ==> EmbedSpec(n, now).color == 0x3AA3E3
    ensures n.status == Passed ==> EmbedSpec(n, now).color == 0x2EB886
    ensures n.status == Rejected ==> EmbedSpec(n, now).color == 0xE01E5A
    ensures EmbedSpec(n, now).footer == "ZetaChain Governance" && EmbedSpec(n, now).timestamp == now
  {
  }
}
