# zeta-comms proposal pipeline in Dafny

zeta-comms watches ZetaChain governance proposals and announces them on Discord, Slack and
Telegram. This project models the part of it that decides what is announced and what the
announcement says:

- **The comms engine** (`engine.dfy`). For each batch of proposals a network's poller
  delivers, `CommsEngine` decides from the ledger whether each proposal is new. It announces
  every new proposal to each of the network's audiences, then writes the proposal's ID to the
  ledger. Updates carrying a fetch error are skipped. The class keeps a `trace` of its Notify
  calls and ledger writes. Each method is proved to leave the trace, the ledger file and the
  notification service's deliveries equal to the pure functions `Handle`/`Process`. The
  properties are proved about those functions.
- **The ledger** (`storage.dfy`). The YAML file is an abstract `FileState`: missing,
  unreadable, or present with an optional network map. A save fault can be injected. It is
  fixed for the service's lifetime, so within one run either every save fails or none does.
  A fault either leaves the file as it was (a marshal error, or a failure to open the file) or
  leaves whatever a failed write put on disk, since `os.WriteFile` truncates the file first.
  `StoreLastProcessedProposalID` is the read-modify-write of one key.
- **The two notification services**.
  - `comms_notifications.dfy` is the one the engine uses. It makes three loops over an
    audience's Discord channels, Slack webhooks and Telegram chats, formats each message
    with the older formatters under `pkg/`, and skips a platform whose client is missing.
  - `notifications.dfy` is the registry-based service. It has a map of notifiers and
    ranges over the audience's channel map.
  - In both, every send attempt is recorded. Whether it fails is the platform's answer, an
    input, except that a Telegram chat ID that is not an integer fails before any request.
- **Proposal filters** (`governance.dfy`, `gov.dfy`). The configurable filter appends a
  proposal once per matching message. The legacy software-upgrade filter keeps a proposal
  at most once.
- **The proposal → notification mapping** (`mapper.dfy`). Field copying, the last non-empty
  plan name and height, the deposit rewrite, and the zero-total guard on percentages.
- **The six message formatters and their status tables**.
  - Current: `slack_formatter.dfy`, `discord_formatter.dfy`, `telegram_formatter.dfy` and
    `notifiers.dfy`.
  - Older: `legacy_slack.dfy`, `legacy_discord.dfy`, `legacy_telegram.dfy`.
  - The text sections the formatters share, written once over a `Style`: `sections.dfy`.
- **The Telegram client** (`telegram_client.dfy`). Its name, Send with the chat-ID check
  before a request, and the `/broadcast` command parser.

Go's `strconv.ParseInt(s, 10, 64)` is modelled exactly in `strconv.dfy`, with a decimal
printer as its partner. The few `strings` functions used are in `gostrings.dfy`.

The engine's loop body over proposals is written as a separate method, `HandleOne`, and its
loop over audiences as `NotifyAudiences`. The same holds for the mapper's two loops
(`ScanPlans`, `ConvertTotalDeposit`). Each is proved against its own specification
function.

Specification functions that carry no contract of their own are described by the lemmas
about them:
- `Engine.IsNew`: `Engine.IsNewDecision`.
- `Storage.Lookup`, read through `Storage.StorageService.GetLastProcessedProposalID`:
  `Storage.GetOnMissingFile`, `Storage.GetWithoutEntry`, `Storage.GetOnUnreadableFile`,
  `Storage.GetAfterStore`.
- `Notifiers.FormatStatus`: `Notifiers.FormatStatusLabels`,
  `Notifiers.FormatStatusChangesOnlyKnown`, `Notifiers.FormatStatusIdempotent`.
- `Mapper.MapSpec`: `Mapper.MapFromProposal` and the `Mapper` lemmas from
  `Mapper.LastNonEmptyIsLast` to `Mapper.UnparsableTallyIsZero`.
- `SlackFormatter.ColorForStatus`: `SlackFormatter.ColorGrayIffUnlabelled`.
- `DiscordFormatter.ColorForStatus`: `DiscordFormatter.ColorAndFooter`.
- `LegacyTelegram.EmojiForStatus`: `LegacyTelegram.EmojiDistinct`,
  `LegacyTelegram.StatusLineAgrees`.
- `LegacySlack.FormatStatus`: `LegacySlack.FormatStatusAgrees`.

## Model

| member | source | states |
|---|---|---|
| Engine.IsNewDecision | internal/comms/engine.go:169-193 | A ledger read error means not new. An empty stored ID means new. When both IDs parse, new iff the proposal's value is greater. Otherwise new iff the strings differ. |
| Engine.NumericIdsCompareByValue | internal/comms/engine.go:181-192 | For int64 IDs written in decimal, a proposal is new iff its ID is greater than the stored one. So once a is stored, every b > a is new and a is not. |
| Engine.StoredIdNotNew | internal/comms/engine.go:176-192 | The ID the ledger holds is never new again, unless it is empty. |
| Engine.LeadingZerosNotNew | internal/comms/engine.go:181-192 | Numeric comparison ignores leading zeros: any run of zeros before id is not new after id. |
| Engine.NotNewNoCalls | internal/comms/engine.go:148-154 | A proposal judged not new adds no event and leaves the ledger file unchanged. |
| Engine.NewNotifiesThenStores | internal/comms/engine.go:156-165 | A new proposal gives one Notify per audience, in list order, with the mapped notification, then exactly one ledger write of its ID. This holds even with no audiences. The file is the write's outcome. |
| Engine.NotifyAllInOrder | internal/comms/engine.go:160-163 | The audience loop makes one Notify per audience, i-th to the i-th audience. |
| Engine.HandledProposalNotRepeated | internal/comms/engine.go:148-165 | After a new proposal's ID is written successfully, handling the same proposal again makes no call and no write. |
| Engine.HandleAppend | internal/comms/engine.go:148-166 | Handling a ++ b is handling a, then b on the ledger a left: events concatenate in order. |
| Engine.ProcessSkipsErrors | internal/comms/engine.go:37-46 | Processing a stream of updates is handling, in order, the proposals of the updates without an error. Error updates trigger nothing. |
| Engine.IncreasingIdsAllHandled | internal/comms/engine.go:148-166 | From an empty ledger that can be written, proposals with strictly increasing int64 IDs are all announced and stored in input order. The ledger ends at the last ID. |
| Engine.OneTwoThree | internal/comms/engine.go:148-166 | With an empty ledger, proposals "1","2","3" are each announced to every audience and written as "1","2","3" in that order, and the ledger ends at "3". |
| Engine.LedgerNeverMovesBack | internal/comms/engine.go:148-201 | With numeric IDs, one proposal never moves the stored numeric ID back, as long as a failed save leaves the file as it was. |
| Engine.HandleLedgerNeverMovesBack | internal/comms/engine.go:145-201 | The same over a whole list of proposals with numeric IDs. |
| Engine.TruncatedWriteReannounces | internal/comms/engine.go:169-201 | A new proposal whose save fails after truncating the file to nothing leaves the network reading "", so the same proposal is new again and is announced again. |
| Engine.CommsEngine.constructor | internal/comms/engine.go:23-30 | The engine holds the configuration and the two services, and has an empty trace. |
| Engine.CommsEngine.StoreLastProcessedProposalID | internal/comms/engine.go:195-201 | Writes through the storage service. The trace gains one write event carrying the error; the error is not propagated. |
| Engine.CommsEngine.HandleProposals | internal/comms/engine.go:145-167 | After the loop, the trace, the ledger file and the notification service's deliveries are exactly those of Handle on the old file. |
| Engine.CommsEngine.HandleOne | internal/comms/engine.go:149-165 | One proposal: trace, file and deliveries are those of Step. |
| Engine.CommsEngine.NotifyAudiences | internal/comms/engine.go:160-163 | One Notify per audience in order. The deliveries are those of these Notify calls. |
| Engine.CommsEngine.ProcessProposalUpdates | internal/comms/engine.go:33-48 | After consuming the updates, trace, file and deliveries are those of Process. |
| Storage.StorageService.constructor | internal/storage/storage.go:24-31 | The service starts on the given file state and save fault. |
| Storage.StorageService.StoreLastProcessedProposalID | internal/storage/storage.go:33-58 | Load, initialise the map if missing or nil, set one key, save. The new file and the error are StoreOutcome's. |
| Storage.StorageService.SaveYamlFile | internal/storage/storage.go:78-85 | A save fault is returned, and the file is what the fault leaves: unchanged for a marshal or open failure, what reached the disk for a failed write. Otherwise the file holds the data. |
| Storage.GetOnMissingFile | internal/storage/storage.go:60-66 | Get on a missing file returns "" without error. |
| Storage.GetWithoutEntry | internal/storage/storage.go:71-75 | Get for a network without an entry, or with a nil map, returns "" without error. |
| Storage.GetOnUnreadableFile | internal/storage/storage.go:60-68 | Any other load error is returned with "". |
| Storage.StoreSucceedsIff | internal/storage/storage.go:33-57 | Store succeeds iff the file is readable or missing and the save succeeds. |
| Storage.GetAfterStore | internal/storage/storage.go:52-72 | After a successful Store(n, id), Get(n) returns id. |
| Storage.StoreKeepsOtherNetworks | internal/storage/storage.go:35-57 | Store(n, id) leaves every other network's entry as it was, unless its write fails after truncating the file. Then every other network reads what the write left. |
| Storage.FailedStoreWritesNothing | internal/storage/storage.go:35-84 | A failed Store leaves the file unchanged, unless it fails in the write after truncating the file. Then the file is what the write left. |
| Storage.TruncatedWriteForgetsAll | internal/storage/storage.go:71-99 | A write that fails after truncating the file to nothing returns its error, and afterwards every network reads "" without error. |
| Storage.StoreOverwrites | internal/storage/storage.go:52-55 | Store overwrites unconditionally, whatever ID was stored before. |
| Storage.StoreStartsFromEmptyMap | internal/storage/storage.go:36-50 | A missing file and a file with a nil map both start from an empty map holding only the new entry. |
| Strconv.ParseInt64 | internal/comms/engine.go:182-183 | A parsed value lies in the int64 range and comes from a string starting with a sign or a digit. |
| Strconv.ParseFormatInt | internal/comms/engine.go:182-192 | Round trip: every int64 printed in decimal parses back to itself. |
| Strconv.LeadingZeroIgnored | internal/comms/engine.go:182-183 | A leading zero before a digit string does not change the parse. |
| Strconv.LeadingZerosIgnored | internal/comms/engine.go:182-183 | Any run of leading zeros before a digit string keeps it a digit string and does not change the parse. |
| Strconv.NatDigitsValue | internal/comms/engine.go:182-183 | The decimal digits printed for a natural number are non-empty and read back as that number. |
| Strconv.LeadingZeroValue | internal/comms/engine.go:182-183 | A leading zero does not change the value of a digit string. |
| GoStrings.TrimPrefix | pkg/notifiers/telegram/telegram.go:137 | With the prefix, the input is prefix + result. Without it, the result is the input. |
| GoStrings.TrimSpace | pkg/notifiers/telegram/telegram.go:138 | The result has no white space at either end. |
| GoStrings.TrimLeftSpace | pkg/notifiers/telegram/telegram.go:138 | Only leading white space is removed: the result is a suffix of the input that does not start with white space. |
| GoStrings.TrimRightSpace | pkg/notifiers/telegram/telegram.go:138 | Only trailing white space is removed: the result is a prefix of the input that does not end with white space. |
| GoStrings.TrimSpaceOfTrimmed | pkg/notifiers/telegram/telegram.go:138 | A string without white space at its ends is unchanged by TrimSpace. |
| GoStrings.TrimSpaceAround | pkg/notifiers/telegram/telegram.go:138 | Trimming white space from around a trimmed non-empty core gives the core. |
| GoStrings.TrimSpaceOfSpaces | pkg/notifiers/telegram/telegram.go:138-143 | A string of white space trims to "". |
| TelegramClient.ParseBroadcastCommand | pkg/notifiers/telegram/telegram.go:130-146 | Without the "/broadcast " prefix: ("", false). When ok, the message is the trimmed remainder, non-empty and without edge white space. When not ok, the message is "". |
| TelegramClient.BareCommandRejected | pkg/notifiers/telegram/telegram.go:132-134 | "/broadcast" without its space is rejected. |
| TelegramClient.BlankBroadcastRejected | pkg/notifiers/telegram/telegram.go:136-143 | A remainder of only white space is rejected. |
| TelegramClient.BroadcastRoundTrip | pkg/notifiers/telegram/telegram.go:130-146 | "/broadcast " + white space + m + white space parses to (m, true) for every trimmed non-empty m. |
| TelegramClient.SendMessage | pkg/notifiers/telegram/telegram.go:73-95 | The chat ID is rejected iff it is not a base-10 int64. Otherwise the request carries the parsed ID, the text and the parse mode, and fails iff the platform refuses it. |
| TelegramClient.Send | pkg/notifiers/telegram/telegram.go:45-55 | The Telegram notifier's Send: rejected unsent iff the destination is not a base-10 int64; otherwise one Markdown request carrying the formatted text. It fails iff the ID is rejected or the platform refuses the request. |
| TelegramClient.SendToDecimalChat | pkg/notifiers/telegram/telegram.go:73-81 | Every int64 chat ID in decimal passes the check with its own value. |
| TelegramClient.HandleIsNotChatId | pkg/telegram/telegram.go:48-53 | A handle such as "@zeta" is rejected before any send (the same check in the older client). |
| Notifications.TelegramRegisteredUnderName | pkg/notifiers/telegram/telegram.go:57-60 | Name() is "telegram", the key the registry files the Telegram notifier under iff its client initialised. |
| Notifications.Registry | internal/notifications/notifications.go:22-47 | "slack" is always registered. "discord" and "telegram" are registered iff their initialisation succeeded. Nothing else is registered. |
| Notifications.RegistryHoldsInitialised | internal/notifications/notifications.go:29-44 | A platform is registered iff it is Slack or an initialised Discord/Telegram. |
| Notifications.NotificationService.constructor | internal/notifications/notifications.go:22-47 | The service holds the audience configuration, the registry above and no sends. |
| Notifications.NotificationService.Notify | internal/notifications/notifications.go:49-62 | The sends grow by exactly NotifyAttempts for the audience, over the platforms in map iteration order. |
| Notifications.NotificationService.SendToChannels | internal/notifications/notifications.go:64-90 | The sends grow by one attempt per channel of a registered platform, and by nothing for an unregistered one. A Telegram attempt's outcome is TelegramClient.Send's. |
| Notifications.TelegramAttemptIsSend | pkg/notifiers/telegram/telegram.go:45-55 | A Telegram attempt fails exactly when the notifier's Send fails, for every clock reading: the channel is not an integer chat ID or the platform refuses. "@zeta" always fails. |
| Notifications.ChannelAttemptsInOrder | internal/notifications/notifications.go:72-89 | One Send per channel in list order, each with the same notification. A failure does not stop the rest. |
| Notifications.UnknownAudienceNoSends | internal/notifications/notifications.go:52-57 | An audience without configuration gets no sends. |
| Notifications.AttemptsWellAddressed | internal/notifications/notifications.go:59-73 | Every send goes to a registered platform and to a channel the audience lists for it, with the notification unchanged. |
| Notifications.PlatformSendsIsolated | internal/notifications/notifications.go:59-70 | The sends to each platform are exactly its channel attempts if it is registered and listed, and none otherwise, whatever the other platforms do. |
| Notifications.NotifyAttemptsAnyOrder | internal/notifications/notifications.go:59-61 | Any two map iteration orders give the same sends per platform and the same multiset of sends. |
| Notifications.SendsAnyOrder | internal/notifications/notifications.go:59-61 | Any two enumerations of the same platform keys give the same multiset of attempts and the same number of attempts. |
| Notifications.TotalSends | internal/notifications/notifications.go:59-73 | The number of sends is the number of channels listed for registered platforms. |
| CommsNotifications.NotificationService.constructor | internal/comms/notifications.go:25-59 | A client is kept iff it was created. A failed connect still keeps it. No sends yet. |
| CommsNotifications.NotificationService.Notify | internal/comms/notifications.go:61-87 | The deliveries grow by exactly NotifyDeliveries: nothing for an unknown audience, else Discord, then Slack, then Telegram. |
| CommsNotifications.NotificationService.SendSlackNotification | internal/comms/notifications.go:89-109 | One Slack delivery of the older Slack message to the webhook, failed iff the webhook refuses it. |
| CommsNotifications.NotificationService.SendDiscordNotification | internal/comms/notifications.go:111-139 | No delivery without a Discord client. Otherwise one delivery with the content and the older embed. |
| CommsNotifications.NotificationService.SendTelegramNotification | internal/comms/notifications.go:141-166 | No delivery without a Telegram client. Otherwise one SendMessage of the older text in Markdown. |
| CommsNotifications.UnknownAudienceNoSends | internal/comms/notifications.go:70-74 | An unknown audience gets no deliveries. |
| CommsNotifications.DeliveriesInOrder | internal/comms/notifications.go:76-86 | Each loop makes one delivery per destination, i-th to the i-th, whatever earlier sends returned. |
| CommsNotifications.TargetsOfDeliveries | internal/comms/notifications.go:76-86 | A platform loop reaches exactly its destinations, in list order, each tagged with the platform. |
| CommsNotifications.NotifyOrder | internal/comms/notifications.go:76-86 | The destinations reached are all Discord channels (if the client exists), then all Slack webhooks, then all Telegram chats (if the client exists), each in list order. |
| CommsNotifications.ReachedIff | internal/comms/notifications.go:111-115 | A platform's destinations are all reached iff its client exists or it has none. A missing client reaches none. Slack is unaffected. |
| CommsNotifications.DeliveryContents | internal/comms/notifications.go:93-153 | Discord content is "New proposal update: " + title, with the older embed. Slack carries the older Slack message. A Telegram send is rejected iff the chat ID does not parse, and otherwise carries the older text in "Markdown". |
| Gov.FilterSoftwareUpgradeProposals | internal/events/gov.go:103-116 | The loop returns UpgradeProposals: the proposals with a software-upgrade message, in order. |
| Gov.GetSoftwareUpgradeProposals | internal/events/gov.go:91-100 | A fetch error is returned as is without filtering. A success returns the filtered list. |
| Gov.UpgradeProposalsSubsequence | internal/events/gov.go:103-115 | The output is an order-preserving subsequence of the input, hence never longer, and empty for an empty input. |
| Gov.UpgradeProposalsCount | internal/events/gov.go:107-112 | A kept proposal appears exactly as often as it was fetched; others never. |
| Gov.UpgradeProposalsMembership | internal/events/gov.go:103-113 | A proposal is in the output iff it was fetched and carries a "/cosmos.upgrade.v1beta1.MsgSoftwareUpgrade" message. |
| Gov.UpgradeProposalsIdempotent | internal/events/gov.go:103-116 | Filtering twice is filtering once. |
| Gov.TwoUpgradeMessagesOneCopy | internal/events/gov.go:107-112 | Two upgrade messages still keep the proposal once. |
| Governance.FilterProposals | internal/events/governance.go:102-118 | The nested loops return Filtered: each proposal, in order, once per matching message. |
| Governance.GetSoftwareUpgradeProposals | internal/events/governance.go:89-100 | A fetch error is returned as is without filtering. A success returns the filtered list. |
| Governance.NoTypesNoProposals | internal/events/governance.go:102-118 | With no configured message types, the output is empty. |
| Governance.FilteredAppend | internal/events/governance.go:105-115 | Output order follows input order: filtering a concatenation is concatenating the filtered parts. |
| Governance.FilteredCount | internal/events/governance.go:106-114 | A proposal's multiplicity in the output is its multiplicity in the input times its number of matching messages. |
| Governance.FilteredMembership | internal/events/governance.go:105-115 | A proposal is in the output iff it was fetched and has a matching message. |
| Governance.TwoMatchesTwoCopies | internal/events/governance.go:106-114 | Two matching messages give two copies, because the break only leaves the type loop. |
| Mapper.MapFromProposal | internal/notifications/mapper.go:11-106 | The notification built is MapSpec's. |
| Mapper.ScanPlans | internal/notifications/mapper.go:15-23 | The message loop keeps the last non-empty plan name and, independently, the last non-empty height. |
| Mapper.ConvertTotalDeposit | internal/notifications/mapper.go:67-84 | The deposit loop returns ConvertDeposits of the deposits. |
| Mapper.LastNonEmptyIsLast | internal/notifications/mapper.go:15-23 | The kept value is "" iff every entry is empty. Otherwise it is an entry followed only by empty ones. |
| Mapper.MapCopiesFields | internal/notifications/mapper.go:87-105 | Network, ID, title, summary, status, both times, the expedited flag and the failed reason are copied unchanged. |
| Mapper.UpgradeFromLastPlan | internal/notifications/mapper.go:13-23 | The upgrade name is the last non-empty plan name and the height the last non-empty plan height, or "" when none exists. |
| Mapper.NameAndHeightFromDifferentMessages | internal/notifications/mapper.go:15-23 | A name and a height carried by different messages are both picked up. |
| Mapper.ConvertDeposit | internal/notifications/mapper.go:70-83 | An azeta deposit becomes ZETA, with an unparsable amount rendered as zero. Any other deposit passes unchanged. |
| Mapper.ConvertDeposits | internal/notifications/mapper.go:67-84 | Same length, and the i-th output is the conversion of the i-th input. |
| Mapper.DepositsRewritten | internal/notifications/mapper.go:67-84 | The notification's deposits keep the number and order of the proposal's. Azeta becomes ZETA; other denominations pass through unchanged. |
| Mapper.NoVotesNoPercentages | internal/notifications/mapper.go:49-62 | When the summed parsed tally is not positive, each of the four vote strings of the mapped notification is its count in millions followed by " (" + fixed(0, 2) + "%)". |
| Mapper.PercentagesSumTo100 | internal/notifications/mapper.go:51-56 | With a positive total, the four percentages add up to 100 in exact arithmetic. |
| Mapper.UnparsableTallyIsZero | internal/notifications/mapper.go:26-63 | Unparsable vote counts count as zero: every bucket and the total render as zero. |
| Notifiers.FormatStatusLabels | pkg/notifiers/commonFormatter.go:5-11 | The three known statuses map to their emoji labels. |
| Notifiers.FormatStatusChangesOnlyKnown | pkg/notifiers/commonFormatter.go:4-15 | The label differs from the input iff the status is one of the three. "voting_period" is returned unchanged. |
| Notifiers.KnownLabelsDistinct | pkg/notifiers/commonFormatter.go:4-15 | The three labels are pairwise distinct. |
| Notifiers.FormatStatusIdempotent | pkg/notifiers/commonFormatter.go:4-15 | Formatting a label again changes nothing. |
| Sections.AppendUpgrade | pkg/notifiers/telegram/formatter.go:17-20 | The upgrade lines are appended iff there is an upgrade name. |
| Sections.AppendDeposits | pkg/notifiers/telegram/formatter.go:22-30 | The deposit heading, one bullet per deposit in order and a blank line are appended iff there are deposits. |
| Sections.AppendVoteLines | pkg/notifiers/telegram/formatter.go:33-39 | The four bucket lines, a blank line and the total line are appended in that order. |
| Sections.AppendClosing | pkg/notifiers/telegram/formatter.go:44-66 | The timeline lines, the flag lines and the summary are appended. |
| Sections.DepositLinesAppend | pkg/notifiers/telegram/formatter.go:25-27 | The deposit bullets keep the order of the deposits. |
| Sections.TailVotes | pkg/notifiers/telegram/formatter.go:32-44 | An empty total gives the placeholder (or nothing, for a style without one), and the vote values are then ignored. Otherwise the heading, the bucket lines and the total follow. |
| Sections.BodyUpgradeSpliced | pkg/notifiers/telegram/formatter.go:17-20 | The body with an upgrade is the body without it with the upgrade section spliced in at the start. |
| Sections.BodyDepositsSpliced | pkg/notifiers/telegram/formatter.go:22-30 | The body with deposits is the body without them with the deposit section spliced in right after the upgrade section. |
| Sections.BodyIgnoresHeight | pkg/notifiers/telegram/formatter.go:17-20 | Without an upgrade name, the target height has no effect on the body. |
| Sections.BodyEmptyTally | pkg/notifiers/telegram/formatter.go:32-42 | An empty total makes the vote values irrelevant. Right after the upgrade and deposit sections come the heading and placeholder (or a bare blank line, for a style without a placeholder), then the closing. |
| Sections.BodyEndsWithSummary | pkg/notifiers/telegram/formatter.go:66 | Every body ends with the summary section. |
| Sections.ZeroTimesIgnored | pkg/notifiers/telegram/formatter.go:46-53 | A zero submit or voting-end time prints nothing, whatever its rendering. |
| Sections.ExpeditedSpliced | pkg/notifiers/telegram/formatter.go:55-58 | The body with the expedited flag is the body without it with the expedited line inserted right after the timeline. |
| Sections.FailedReasonSpliced | pkg/notifiers/telegram/formatter.go:60-63 | With a non-empty failed reason, the body is the body without it with the failed-reason line inserted after the timeline and any expedited line. |
| Sections.FlagLines | pkg/notifiers/telegram/formatter.go:55-63 | Both flag insertions together: the expedited line and the failed-reason line, each at its position. |
| SlackFormatter.FormatNotification | pkg/notifiers/slack/formatter.go:12-109 | The message built step by step is MessageSpec's. |
| SlackFormatter.MessageLayout | pkg/notifiers/slack/formatter.go:84-108 | Fallback text naming the network, one attachment in the status colour, and two mrkdwn section blocks: header, then details. |
| SlackFormatter.DetailsFrame | pkg/notifiers/slack/formatter.go:82-86 | The details start with the ID and formatted status lines and end with the summary. |
| SlackFormatter.UpgradeLinesIff | pkg/notifiers/slack/formatter.go:30-33 | The upgrade lines are inserted right after the ID lines iff there is an upgrade name. Otherwise the height is ignored. |
| SlackFormatter.DepositLinesIff | pkg/notifiers/slack/formatter.go:36-43 | The deposit section, one bullet per deposit in order, is inserted after the upgrade lines iff there are deposits. |
| SlackFormatter.DepositsUnchangedIff | pkg/notifiers/slack/formatter.go:36-43 | The deposits leave the details unchanged iff there are none. |
| SlackFormatter.DepositsSpliced | pkg/notifiers/slack/formatter.go:36-43 | With deposits, the details are those without deposits with "*Deposits:*" and one bullet per deposit spliced in after the ID and upgrade lines. |
| SlackFormatter.EmptyTallyPlaceholder | pkg/notifiers/slack/formatter.go:47-58 | An empty total gives "No voting results available." under the heading, and the vote values are ignored. |
| SlackFormatter.ColorGrayIffUnlabelled | pkg/notifiers/slack/formatter.go:112-123 | The three known statuses get their fixed colours. Gray is used iff FormatStatus leaves the status unchanged. |
| DiscordFormatter.FormatNotification | pkg/notifiers/discord/formatter.go:13-90 | The embed built step by step is EmbedSpec's. |
| DiscordFormatter.TitleFallbackIff | pkg/notifiers/discord/formatter.go:17-20 | The fixed title is used iff the title is empty. Otherwise it is "[net] Proposal #id: title". |
| DiscordFormatter.IdLinesIff | pkg/notifiers/discord/formatter.go:32-36 | The ID/status lines open the description iff there is an ID. |
| DiscordFormatter.UpgradeLinesIff | pkg/notifiers/discord/formatter.go:38-41 | The upgrade lines are inserted after the ID lines iff there is an upgrade name. |
| DiscordFormatter.DepositLinesIff | pkg/notifiers/discord/formatter.go:43-51 | The deposit section is inserted after the upgrade lines iff there are deposits. |
| DiscordFormatter.DepositsUnchangedIff | pkg/notifiers/discord/formatter.go:43-51 | The deposits leave the description unchanged iff there are none. |
| DiscordFormatter.DepositsSpliced | pkg/notifiers/discord/formatter.go:43-51 | With deposits, the description is the one without deposits with "**Deposits:**" and one bullet per deposit spliced in after the ID and upgrade lines. |
| DiscordFormatter.EmptyTallyOmitted | pkg/notifiers/discord/formatter.go:53-63 | An empty total omits the voting section with no placeholder. The vote values are ignored. |
| DiscordFormatter.DescriptionEndsWithSummary | pkg/notifiers/discord/formatter.go:84-87 | The description always ends with "\n**Summary:**\n" + summary. |
| DiscordFormatter.ColorAndFooter | pkg/notifiers/discord/formatter.go:93-104 | Fixed colours for the known statuses, gray iff the status is unlabelled. The footer is always "ZetaChain Governance" and the timestamp is `now`. |
| TelegramFormatter.FormatNotification | pkg/notifiers/telegram/formatter.go:12-70 | The text built step by step is Text's. |
| TelegramFormatter.StartsWithHeader | pkg/notifiers/telegram/formatter.go:13-15 | The text starts with the title line, the ID line and the formatted status. |
| TelegramFormatter.EndsWithUpdatedAt | pkg/notifiers/telegram/formatter.go:66-67 | The text ends with the summary and then "\n\n_Updated at: " + now + "_". |
| TelegramFormatter.UpgradeLinesIff | pkg/notifiers/telegram/formatter.go:17-20 | The upgrade lines are inserted after the header iff there is an upgrade name. |
| TelegramFormatter.DepositLinesIff | pkg/notifiers/telegram/formatter.go:22-30 | The deposit section is inserted after the upgrade lines iff there are deposits. |
| TelegramFormatter.DepositsUnchangedIff | pkg/notifiers/telegram/formatter.go:22-30 | The deposits leave the text unchanged iff there are none. |
| TelegramFormatter.DepositsSpliced | pkg/notifiers/telegram/formatter.go:22-30 | With deposits, the text is the one without deposits with "*Deposits:*" and one bullet per deposit spliced in after the header and upgrade lines. |
| TelegramFormatter.EmptyTallyPlaceholder | pkg/notifiers/telegram/formatter.go:32-42 | An empty total gives the placeholder line under the heading. The vote values are ignored. |
| TelegramFormatter.ExpeditedLineSpliced | pkg/notifiers/telegram/formatter.go:55-58 | The expedited flag inserts "*Expedited:* Yes\n" into the text after the header and everything up to the timeline. |
| TelegramFormatter.FailedReasonLineSpliced | pkg/notifiers/telegram/formatter.go:60-63 | A non-empty failed reason inserts "*Failed Reason:* " + reason + "\n" after the timeline and any expedited line. |
| TelegramFormatter.TimelineAndFlagLines | pkg/notifiers/telegram/formatter.go:46-63 | Zero times print nothing. The expedited line and the failed-reason line are each inserted at their position. |
| LegacySlack.FormatProposalMessage | pkg/slack/slack.go:87-182 | The message built as written, including the reset at line 121, is MessageSpec's. |
| LegacySlack.IgnoresUpgradeAndDeposits | pkg/slack/slack.go:104-121 | The message does not depend on the upgrade name, the target height or the deposits: the text built from them is overwritten. |
| LegacySlack.MessageLayout | pkg/slack/slack.go:168-181 | Fallback text naming the network, one attachment with header then details blocks. The colour is gray iff the status is unknown. |
| LegacySlack.DetailsFrame | pkg/slack/slack.go:155-159 | The details start with the ID, status and voting heading lines, and end with the summary. |
| LegacySlack.EmptyTallyPlaceholder | pkg/slack/slack.go:123-132 | An empty total gives the placeholder right under the heading. The vote values are ignored. |
| LegacySlack.FormatStatusAgrees | pkg/slack/slack.go:199-210 | The mis-encoded labels change exactly the three known statuses and are pairwise distinct. |
| LegacyDiscord.FormatProposalMessage | pkg/discord/discord.go:76-147 | The embed built step by step is EmbedSpec's. |
| LegacyDiscord.TitleAlwaysFull | pkg/discord/discord.go:80 | The title is always "[net] Proposal #id: title". It equals the current formatter's title iff the title is non-empty. |
| LegacyDiscord.DescriptionFrame | pkg/discord/discord.go:93-142 | The description always starts with the ID/status lines and ends with the summary. |
| LegacyDiscord.UpgradeLinesIff | pkg/discord/discord.go:96-98 | The upgrade lines are inserted after the ID lines iff there is an upgrade name. |
| LegacyDiscord.EmptyTallyPlaceholder | pkg/discord/discord.go:109-119 | An empty total gives the placeholder under "*Voting Results:*". The vote values are ignored. |
| LegacyDiscord.ColorAndStatus | pkg/discord/discord.go:150-175 | Fixed colours for the known statuses, gray iff unknown. The footer is fixed and the timestamp is `now`. |
| LegacyTelegram.FormatProposalMessage | pkg/telegram/telegram.go:73-134 | The text built step by step is Text's. |
| LegacyTelegram.StatusLineAgrees | pkg/telegram/telegram.go:137-162 | For known statuses, emoji + " " + plain label is the common label. Otherwise the information emoji precedes the raw status. The plain label changes exactly the known statuses. |
| LegacyTelegram.EmojiDistinct | pkg/telegram/telegram.go:137-148 | The three known emoji are distinct, and a status gets the fallback emoji iff it is unknown. |
| LegacyTelegram.TextFrame | pkg/telegram/telegram.go:77-131 | The text starts with the title line and the ID line and ends with the "Updated at" line. |
| LegacyTelegram.KnownStatusSameText | pkg/telegram/telegram.go:73-134 | For the known statuses, the text equals the current formatter's. |
| LegacyTelegram.EmptyTallyPlaceholder | pkg/telegram/telegram.go:96-106 | An empty total gives the placeholder line under the heading. The vote values are ignored. |

## Left out

- Polling: the tickers, goroutines, context cancellation and channel closing of the pollers are not modelled. The channel of updates is a finite sequence.
- Floating point: vote counts and deposit amounts are parsed by an oracle, `NumberFormat.parseFloat`, where None means a syntax error and counts as zero. `%.3f`/`%.2f` rendering is an oracle, `fixed`. Percentages are computed on `real`, so rounding is not modelled. Go's ParseFloat also yields ±Inf for an out-of-range count and accepts "NaN" and "Inf"; the oracle returns only finite reals, so these cases are not modelled, and for them the four percentages in Go do not add up to 100 as Mapper.PercentagesSumTo100 states for reals.
- Mapper.MapFromProposal: vote and deposit strings are correct only relative to the `NumberFormat` oracle, not to Go's float formatting.
- HTTP and chat SDK calls are not modelled: the REST clients, the webhook POST, the discordgo and tgbotapi sessions, Connect and the reconnect handlers. Each send's success is an input function `delivered`, keyed by platform and destination.
- YAML encoding and file I/O: the file is an abstract `FileState`. A marshal or write failure is the injected save fault, fixed for the service's lifetime. What a failed write leaves on disk is part of the fault, not derived from the bytes written.
- Engine.LedgerNeverMovesBack: holds only for a save fault that leaves the file as it was. A write that fails after os.WriteFile truncated the file can reset the ledger, as Engine.TruncatedWriteReannounces shows.
- Engine.HandleLedgerNeverMovesBack: the same restriction to save faults that leave the file as it was.
- Configuration loading, environment interpolation and URL parsing are not modelled. Each service takes the configuration values it reads as plain inputs.
- internal/comms/notifications.go reads configuration fields that internal/config/config.go does not declare. The audience configuration follows the shape that file implies.
- Time: `time.Now()` and RFC 3339/1123 rendering are inputs. A `Time` is seen only through IsZero and its rendering. In the comms engine, one clock reading `now` serves a whole run of HandleProposals or ProcessProposalUpdates, and so every Notify in it, where Go reads the clock again in every formatter call.
- Go's map iteration order in internal/notifications/notifications.go is an input, `platformOrder`. The sends are proved not to depend on it.
- mapProposalToNotification in internal/comms/engine.go is a line-for-line copy of MapFromProposal, so it is modelled once, as Mapper.MapSpec.
- internal/events/gov.go declares its own ProposalUpdate over the older client records. The engine uses the one in internal/events/governance.go over the REST proposal records.
- Strconv.ParseInt64: the kind of parse error (syntax or range) is collapsed to None, because every caller only tests for an error.
- Logging, the global logger, main.go, internal/events/broadcast.go and the Discord and Slack notifiers' own Send methods are not modelled. The Telegram notifier's Send is modelled as TelegramClient.Send; its nil-bot check is not, because the registry holds a Telegram notifier only once its client initialised.
