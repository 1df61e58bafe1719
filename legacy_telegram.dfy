/**
 * FormatProposalMessage, getEmojiForStatus and formatStatus of the older pkg/telegram/telegram.go,
 * the Telegram formatter the comms notification service uses. It differs from the current one
 * only in its status line, which joins an emoji and a plain label. The time in the closing
 * "Updated at" line is time.Now() in RFC 1123, passed in as `now`. The chat-ID check of its
 * SendMessage is the one of pkg/notifiers/telegram/telegram.go, TelegramClient.SendMessage.
 */
module LegacyTelegram {
  import opened Wrappers
  import opened Models
  import opened GoStrings
  import Notifiers
  import opened Sections
  import opened TelegramFormatter

  function EmojiForStatus(status: string): string {
    if status == Notifiers.VotingPeriod then "\U{1F5F3}\U{FE0F}"
    else if status == Notifiers.Passed then "\U{2705}"
    else if status == Notifiers.Rejected then "\U{274C}"
    else "\U{2139}\U{FE0F}"
  }

  /** Plain labels for the three known statuses; anything else unchanged. */
  function FormatStatus(status: string): string {
    if status == Notifiers.VotingPeriod then "Voting Period"
    else if status == Notifiers.Passed then "Passed"
    else if status == Notifiers.Rejected then "Rejected"
    else status
  }

  function StatusLine(status: string): string {
    "*Status:* " + EmojiForStatus(status) + " " + FormatStatus(status) + "\n\n"
  }

  function Header(n: Notification): string {
    ("*[" + n.network + "]* *Proposal* " + n.proposalId + ": " + n.title + "\n\n")
    + ("*ID:* " + n.proposalId + "\n") + StatusLine(n.status)
  }

  /** The sections are those of the current Telegram formatter, in the same style. */
  function Text(n: Notification, now: string): string {
    Header(n) + Body(TelegramStyle, n) + UpdatedAt(now)
  }

  method FormatProposalMessage(n: Notification, now: string) returns (formattedMessage: string)
    ensures formattedMessage == Text(n, now)
  {
    var emoji := EmojiForStatus(n.status);
    formattedMessage := "*[" + n.network + "]* *Proposal* " + n.proposalId + ": " + n.title + "\n\n";
    formattedMessage := formattedMessage + ("*ID:* " + n.proposalId + "\n");
    formattedMessage := formattedMessage + ("*Status:* " + emoji + " " + FormatStatus(n.status) + "\n\n");
    ghost var header := formattedMessage;

    formattedMessage := AppendUpgrade(TelegramStyle, formattedMessage, n.upgradeName, n.targetHeight);
    formattedMessage := AppendDeposits(TelegramStyle, formattedMessage, n.totalDeposit);
    ghost var front := formattedMessage;

    formattedMessage := formattedMessage + "*Voting Results:*\n";
    if n.totalVotes != "" {
      formattedMessage := AppendVoteLines(Bullet, formattedMessage, n.yesVotes, n.noVotes, n.abstainVotes, n.vetoVotes, n.totalVotes);
      Assoc(front, VotingHeading, VoteLines(Bullet, n.yesVotes, n.noVotes, n.abstainVotes, n.vetoVotes, n.totalVotes));
    } else {
      formattedMessage := formattedMessage + "No voting results available.\n";
      Assoc(front, VotingHeading, NoVotingResults);
    }
    assert formattedMessage == front + Voting(TelegramStyle, n);
    formattedMessage := formattedMessage + "\n";
    formattedMessage := AppendClosing(TelegramStyle, formattedMessage, n);

    BodyInOrder(TelegramStyle, n);
    ghost var u, d := UpgradeSection(TelegramStyle, n.upgradeName, n.targetHeight), DepositSection(TelegramStyle, n.totalDeposit);
    ghost var rest := Voting(TelegramStyle, n) + "\n" + Closing(TelegramStyle, n);
    Assoc(header + u + d, Voting(TelegramStyle, n), "\n");
    Assoc(header + u + d, Voting(TelegramStyle, n) + "\n", Closing(TelegramStyle, n));
    Assoc(header + u, d, rest);
    Assoc(header, u, d + rest);
    Assoc(u, d, rest);
    assert formattedMessage == header + Body(TelegramStyle, n);

    formattedMessage := formattedMessage + ("\n\n_Updated at: " + now + "_");
  }

  /**
   * For the three known statuses, emoji, space and plain label spell the common label; any
   * other status keeps its text behind the information emoji.
   */
  lemma StatusLineAgrees(status: string)
    ensures Notifiers.IsKnownStatus(status) ==>
      EmojiForStatus(status) + " " + FormatStatus(status) == Notifiers.FormatStatus(status)
    ensures !Notifiers.IsKnownStatus(status) ==> StatusLine(status) == "*Status:* \U{2139}\U{FE0F} " + status + "\n\n"
    ensures FormatStatus(status) != status <==> Notifiers.IsKnownStatus(status)
  {
    if status == Notifiers.VotingPeriod {
      assert EmojiForStatus(status) + " " + FormatStatus(status) == "\U{1F5F3}\U{FE0F} Voting Period";
    } else if status == Notifiers.Passed {
      assert EmojiForStatus(status) + " " + FormatStatus(status) == "\U{2705} Passed";
    } else if status == Notifiers.Rejected {
      assert EmojiForStatus(status) + " " + FormatStatus(status) == "\U{274C} Rejected";
    }
  }

  /** The emoji of the three known statuses are pairwise distinct and none is the fallback emoji. */
  lemma EmojiDistinct()
    ensures EmojiForStatus(Notifiers.VotingPeriod) != EmojiForStatus(Notifiers.Passed)
    ensures EmojiForStatus(Notifiers.VotingPeriod) != EmojiForStatus(Notifiers.Rejected)
    ensures EmojiForStatus(Notifiers.Passed) != EmojiForStatus(Notifiers.Rejected)
    ensures forall s :: Notifiers.IsKnownStatus(s) <==> EmojiForStatus(s) != "\U{2139}\U{FE0F}"
  {
  }

  /** The text opens with the title line and the ID line and ends with the "Updated at" line. */
  lemma TextFrame(n: Notification, now: string)
    ensures HasPrefix(Text(n, now), ("*[" + n.network + "]* *Proposal* " + n.proposalId + ": " + n.title + "\n\n")
                                    + ("*ID:* " + n.proposalId + "\n"))
    ensures EndsWith(Text(n, now), "\n\n_Updated at: " + now + "_")
  {
    TextStart(n, now);
    TextEnd(n, now);
  }

  lemma TextStart(n: Notification, now: string)
    ensures HasPrefix(Text(n, now), ("*[" + n.network + "]* *Proposal* " + n.proposalId + ": " + n.title + "\n\n")
                                    + ("*ID:* " + n.proposalId + "\n"))
  {
    var t := ("*[" + n.network + "]* *Proposal* " + n.proposalId + ": " + n.title + "\n\n") + ("*ID:* " + n.proposalId + "\n");
    var rest := StatusLine(n.status) + Body(TelegramStyle, n) + UpdatedAt(now);
    assert Text(n, now) == t + rest;
    assert (t + rest)[..|t|] == t;
  }

  lemma TextEnd(n: Notification, now: string)
    ensures EndsWith(Text(n, now), "\n\n_Updated at: " + now + "_")
  {
    var hb := Header(n) + Body(TelegramStyle, n);
    assert (hb + UpdatedAt(now))[|hb|..] == UpdatedAt(now);
  }

  /** For the three known statuses the text is exactly the current formatter's. */
  lemma KnownStatusSameText(n: Notification, now: string)
    ensures Notifiers.IsKnownStatus(n.status) ==> Text(n, now) == TelegramFormatter.Text(n, now)
  {
    if Notifiers.IsKnownStatus(n.status) {
      StatusLineAgrees(n.status);
      assert Header(n) == TelegramFormatter.Header(n);
    }
  }

  /** An empty total gives the placeholder under the heading, and the vote lines have no effect. */
  lemma EmptyTallyPlaceholder(n: Notification, now: string)
    requires n.totalVotes == ""
    ensures Text(n, now) == Text(WithoutVotes(n), now)
    ensures OccursAt(Text(n, now), |Header(n)| + |UpgradeSection(TelegramStyle, n.upgradeName, n.targetHeight)| + |DepositSection(TelegramStyle, n.totalDeposit)|,
                     VotingHeading + NoVotingResults + "\n" + Closing(TelegramStyle, n))
  {
    EmptyTallyUnchanged(n, now);
    EmptyTallyOccurs(n, now);
  }

  lemma EmptyTallyUnchanged(n: Notification, now: string)
    requires n.totalVotes == ""
    ensures Text(n, now) == Text(WithoutVotes(n), now)
  {
    BodyEmptyTally(TelegramStyle, n);
    assert Header(WithoutVotes(n)) == Header(n);
  }

  lemma EmptyTallyOccurs(n: Notification, now: string)
    requires n.totalVotes == ""
    ensures OccursAt(Text(n, now), |Header(n)| + |UpgradeSection(TelegramStyle, n.upgradeName, n.targetHeight)| + |DepositSection(TelegramStyle, n.totalDeposit)|,
                     VotingHeading + NoVotingResults + "\n" + Closing(TelegramStyle, n))
  {
    BodyEmptyTally(TelegramStyle, n);
    OccursFramed(Header(n), Body(TelegramStyle, n),
      |UpgradeSection(TelegramStyle, n.upgradeName, n.targetHeight)| + |DepositSection(TelegramStyle, n.totalDeposit)|,
      VotingHeading + NoVotingResults + "\n" + Closing(TelegramStyle, n), UpdatedAt(now),
      |Header(n)| + |UpgradeSection(TelegramStyle, n.upgradeName, n.targetHeight)| + |DepositSection(TelegramStyle, n.totalDeposit)|);
  }
}
