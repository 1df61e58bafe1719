/**
 * The NotificationService of internal/comms/notifications.go, the one the comms engine uses:
 * for an audience it sends to every Discord channel, then every Slack webhook, then every
 * Telegram chat, formatting with the older pkg/discord, pkg/slack and pkg/telegram formatters.
 * Each call into a platform client is recorded in `sends`; whether the platform accepts it is
 * an input `delivered` (platform, destination). The two readings of time.Now() the formatters
 * take, RFC 3339 for the Discord timestamp and RFC 1123 for the Telegram footer, are `now`.
 */
module CommsNotifications {
  import opened Wrappers
  import opened Models
  import opened Strconv
  import SlackPayload
  import DiscordPayload
  import LegacySlack
  import LegacyDiscord
  import LegacyTelegram
  import TelegramClient

  datatype Platform = Discord | Slack | Telegram

  /** The destinations an audience lists for each platform. */
  datatype Channels = Channels(discord: seq<string>, slack: seq<string>, telegram: seq<string>)

  datatype AudienceConfig = AudienceConfig(channels: Channels)

  datatype Clock = Clock(rfc3339: string, rfc1123: string)

  /** One call into a platform client, with what it was given and how it ended. */
  datatype Delivery =
    | DiscordSend(channelId: string, content: string, embed: DiscordPayload.Embed, failed: bool)
    | SlackSend(webhook: string, message: SlackPayload.Message, failed: bool)
    | TelegramSend(chatId: string, result: TelegramClient.SendResult)

  const DiscordContentPrefix: string := "New proposal update: "

  /** What the three formatters make of one notification; every destination of a platform gets the same. */
  datatype Payloads = Payloads(discordContent: string, discordEmbed: DiscordPayload.Embed,
                               slackMessage: SlackPayload.Message, telegramText: string)

  function Formatted(n: Notification, now: Clock): Payloads {
    Payloads(DiscordContentPrefix + n.title, LegacyDiscord.EmbedSpec(n, now.rfc3339),
             LegacySlack.MessageSpec(n), LegacyTelegram.Text(n, now.rfc1123))
  }

  /** What sendDiscordNotification, sendSlackNotification or sendTelegramNotification hands its client. */
  function Deliver(platform: Platform, destination: string, p: Payloads, delivered: (Platform, string) -> bool): Delivery
  {
    var accepted := delivered(platform, destination);
    match platform
    case Discord => DiscordSend(destination, p.discordContent, p.discordEmbed, !accepted)
    case Slack => SlackSend(destination, p.slackMessage, !accepted)
    case Telegram => TelegramSend(destination, TelegramClient.SendMessage(destination, p.telegramText, "Markdown", accepted))
  }

  /** One delivery per destination, in list order. */
  function Deliveries(platform: Platform, destinations: seq<string>, p: Payloads,
                      delivered: (Platform, string) -> bool): seq<Delivery>
  {
    if destinations == [] then []
    else
      Deliveries(platform, destinations[..|destinations| - 1], p, delivered)
      + [Deliver(platform, destinations[|destinations| - 1], p, delivered)]
  }

  /** The destinations a platform's send helper gets past its nil-client check. */
  function Reached(clientReady: bool, destinations: seq<string>): seq<string> {
    if clientReady then destinations else []
  }

  /** Notify: nothing for an unknown audience; Discord and Telegram only with a client. */
  function NotifyDeliveries(config: map<string, AudienceConfig>, discordReady: bool, telegramReady: bool, audience: string,
                            p: Payloads, delivered: (Platform, string) -> bool): seq<Delivery>
  {
    if audience !in config then []
    else
      var c := config[audience].channels;
      Deliveries(Discord, Reached(discordReady, c.discord), p, delivered)
      + Deliveries(Slack, c.slack, p, delivered)
      + Deliveries(Telegram, Reached(telegramReady, c.telegram), p, delivered)
  }

  class NotificationService {
    const audienceConfig: map<string, AudienceConfig>
    /** The Discord and Telegram clients are non-nil. */
    const discordReady: bool
    const telegramReady: bool
    var sends: seq<Delivery>

    /**
     * NewNotificationService: a client is kept whenever it was created, even when connecting
     * it then failed; only a failure to create it leaves it nil.
     */
    constructor (audienceConfig: map<string, AudienceConfig>, discordCreated: bool, discordConnected: bool,
                 telegramCreated: bool, telegramConnected: bool)
      ensures this.audienceConfig == audienceConfig
      ensures discordReady == discordCreated && telegramReady == telegramCreated
      ensures sends == []
    {
      this.audienceConfig := audienceConfig;
      discordReady := discordCreated;
      telegramReady := telegramCreated;
      sends := [];
    }

    method Notify(n: Notification, audience: string, now: Clock, delivered: (Platform, string) -> bool)
      modifies this`sends
      ensures sends == old(sends) + NotifyDeliveries(audienceConfig, discordReady, telegramReady, audience, Formatted(n, now), delivered)
    {
      if audience !in audienceConfig {
        return;
      }
      var c := audienceConfig[audience].channels;
      ghost var p := Formatted(n, now);
      ghost var s0 := sends;

      var i := 0;
      while i < |c.discord|
        invariant 0 <= i <= |c.discord|
        invariant discordReady ==> sends == s0 + Deliveries(Discord, c.discord[..i], p, delivered)
        invariant !discordReady ==> sends == s0 + Deliveries(Discord, [], p, delivered)
      {
        DeliveriesStep(Discord, c.discord, i, p, delivered);
        Assoc(s0, Deliveries(Discord, c.discord[..i], p, delivered), [Deliver(Discord, c.discord[i], p, delivered)]);
        SendDiscordNotification(c.discord[i], n, now, delivered);
        i := i + 1;
      }
      assert c.discord[..i] == c.discord;
      ghost var dd := Deliveries(Discord, Reached(discordReady, c.discord), p, delivered);
      ghost var s1 := sends;

      i := 0;
      while i < |c.slack|
        invariant 0 <= i <= |c.slack|
        invariant sends == s1 + Deliveries(Slack, c.slack[..i], p, delivered)
      {
        DeliveriesStep(Slack, c.slack, i, p, delivered);
        Assoc(s1, Deliveries(Slack, c.slack[..i], p, delivered), [Deliver(Slack, c.slack[i], p, delivered)]);
        SendSlackNotification(c.slack[i], n, now, delivered);
        i := i + 1;
      }
      assert c.slack[..i] == c.slack;
      ghost var ds := Deliveries(Slack, c.slack, p, delivered);
      ghost var s2 := sends;

      i := 0;
      while i < |c.telegram|
        invariant 0 <= i <= |c.telegram|
        invariant telegramReady ==> sends == s2 + Deliveries(Telegram, c.telegram[..i], p, delivered)
        invariant !telegramReady ==> sends == s2 + Deliveries(Telegram, [], p, delivered)
      {
        DeliveriesStep(Telegram, c.telegram, i, p, delivered);
        Assoc(s2, Deliveries(Telegram, c.telegram[..i], p, delivered), [Deliver(Telegram, c.telegram[i], p, delivered)]);
        SendTelegramNotification(c.telegram[i], n, now, delivered);
        i := i + 1;
      }
      assert c.telegram[..i] == c.telegram;
      ghost var dt := Deliveries(Telegram, Reached(telegramReady, c.telegram), p, delivered);
      assert sends == s0 + dd + ds + dt;
      Assoc(s0, dd, ds);
      Assoc(s0, dd + ds, dt);
    }

    method SendSlackNotification(webhook: string, n: Notification, now: Clock, delivered: (Platform, string) -> bool)
      modifies this`sends
      ensures sends == old(sends) + [Deliver(Slack, webhook, Formatted(n, now), delivered)]
    {
      var message := LegacySlack.FormatProposalMessage(n);
      var failed := !delivered(Slack, webhook);
      sends := sends + [SlackSend(webhook, message, failed)];
    }

    method SendDiscordNotification(channelId: string, n: Notification, now: Clock, delivered: (Platform, string) -> bool)
      modifies this`sends
      ensures sends == old(sends) + (if discordReady then [Deliver(Discord, channelId, Formatted(n, now), delivered)] else [])
    {
      if !discordReady {
        return;
      }
      var embed := LegacyDiscord.FormatProposalMessage(n, now.rfc3339);
      var content := "New proposal update: " + n.title;
      var failed := !delivered(Discord, channelId);
      sends := sends + [DiscordSend(channelId, content, embed, failed)];
    }

    method SendTelegramNotification(chatId: string, n: Notification, now: Clock, delivered: (Platform, string) -> bool)
      modifies this`sends
      ensures sends == old(sends) + (if telegramReady then [Deliver(Telegram, chatId, Formatted(n, now), delivered)] else [])
    {
      if !telegramReady {
        return;
      }
      var message := LegacyTelegram.FormatProposalMessage(n, now.rfc1123);
      var result := TelegramClient.SendMessage(chatId, message, "Markdown", delivered(Telegram, chatId));
      sends := sends + [TelegramSend(chatId, result)];
    }
  }

  lemma DeliveriesStep(platform: Platform, destinations: seq<string>, i: nat, p: Payloads, delivered: (Platform, string) -> bool)
    requires i < |destinations|
    ensures Deliveries(platform, destinations[..i + 1], p, delivered)
         == Deliveries(platform, destinations[..i], p, delivered) + [Deliver(platform, destinations[i], p, delivered)]
  {
    assert destinations[..i + 1][..i] == destinations[..i];
  }

  /** One delivery per destination, in list order, whatever the platform answers. */
  lemma {:induction false} DeliveriesInOrder(platform: Platform, destinations: seq<string>, p: Payloads,
                                            delivered: (Platform, string) -> bool)
    ensures |Deliveries(platform, destinations, p, delivered)| == |destinations|
    ensures forall i :: 0 <= i < |destinations| ==>
      Deliveries(platform, destinations, p, delivered)[i] == Deliver(platform, destinations[i], p, delivered)
  {
    if destinations != [] {
      DeliveriesInOrder(platform, destinations[..|destinations| - 1], p, delivered);
    }
  }

  /** An audience without configuration gets nothing. */
  lemma UnknownAudienceNoSends(config: map<string, AudienceConfig>, discordReady: bool, telegramReady: bool, audience: string,
                               p: Payloads, delivered: (Platform, string) -> bool)
    requires audience !in config
    ensures NotifyDeliveries(config, discordReady, telegramReady, audience, p, delivered) == []
  {
  }

  /** The platform and destination a delivery went to. */
  function Target(d: Delivery): (Platform, string) {
    match d
    case DiscordSend(channelId, _, _, _) => (Discord, channelId)
    case SlackSend(webhook, _, _) => (Slack, webhook)
    case TelegramSend(chatId, _) => (Telegram, chatId)
  }

  function Targets(trace: seq<Delivery>): seq<(Platform, string)> {
    if trace == [] then [] else Targets(trace[..|trace| - 1]) + [Target(trace[|trace| - 1])]
  }

  /** Each destination paired with its platform, in list order. */
  function Tagged(platform: Platform, destinations: seq<string>): seq<(Platform, string)> {
    if destinations == [] then [] else Tagged(platform, destinations[..|destinations| - 1]) + [(platform, destinations[|destinations| - 1])]
  }

  lemma {:induction false} TargetsAppend(a: seq<Delivery>, b: seq<Delivery>)
    ensures Targets(a + b) == Targets(a) + Targets(b)
  {
    if b == [] {
      assert a + b == a;
    } else {
      assert (a + b)[..|a + b| - 1] == a + b[..|b| - 1];
      TargetsAppend(a, b[..|b| - 1]);
    }
  }

  /** A platform's deliveries go to its destinations in list order, whatever the payloads and the answers. */
  lemma {:induction false} TargetsOfDeliveries(platform: Platform, destinations: seq<string>, p: Payloads,
                                              delivered: (Platform, string) -> bool)
    ensures Targets(Deliveries(platform, destinations, p, delivered)) == Tagged(platform, destinations)
  {
    if destinations != [] {
      var init := destinations[..|destinations| - 1];
      var last := Deliver(platform, destinations[|destinations| - 1], p, delivered);
      TargetsOfDeliveries(platform, init, p, delivered);
      TargetsAppend(Deliveries(platform, init, p, delivered), [last]);
      assert Targets([last]) == [Target(last)];
    }
  }

  /**
   * All Discord channels first, then all Slack webhooks, then all Telegram chats, each in list
   * order; a missing Discord or Telegram client skips only its own platform, and neither the
   * message nor any platform's answer changes who is contacted.
   */
  lemma NotifyOrder(config: map<string, AudienceConfig>, discordReady: bool, telegramReady: bool, audience: string,
                    p: Payloads, delivered: (Platform, string) -> bool)
    requires audience in config
    ensures var c := config[audience].channels;
      Targets(NotifyDeliveries(config, discordReady, telegramReady, audience, p, delivered))
      == Tagged(Discord, Reached(discordReady, c.discord)) + Tagged(Slack, c.slack) + Tagged(Telegram, Reached(telegramReady, c.telegram))
  {
    var c := config[audience].channels;
    var rd, rt := Reached(discordReady, c.discord), Reached(telegramReady, c.telegram);
    var dd, ds, dt := Deliveries(Discord, rd, p, delivered), Deliveries(Slack, c.slack, p, delivered), Deliveries(Telegram, rt, p, delivered);
    TargetsAppend(dd, ds);
    TargetsAppend(dd + ds, dt);
    TargetsOfDeliveries(Discord, rd, p, delivered);
    TargetsOfDeliveries(Slack, c.slack, p, delivered);
    TargetsOfDeliveries(Telegram, rt, p, delivered);
  }

  /** A missing client drops exactly its own platform's destinations. */
  lemma ReachedIff(clientReady: bool, destinations: seq<string>)
    ensures Reached(clientReady, destinations) == destinations <==> clientReady || destinations == []
    ensures !clientReady ==> Reached(clientReady, destinations) == []
  {
  }

  /**
   * Discord gets "New proposal update: " and the title with the embed; Slack the legacy Slack
   * message; Telegram the legacy text in Markdown, and a chat ID that is not a decimal int64
   * ends the send before any request is made.
   */
  lemma DeliveryContents(platform: Platform, destination: string, n: Notification, now: Clock, delivered: (Platform, string) -> bool)
    ensures var d := Deliver(platform, destination, Formatted(n, now), delivered);
      && (d.DiscordSend? <==> platform == Discord)
      && (d.DiscordSend? ==> d.content == "New proposal update: " + n.title && d.embed == LegacyDiscord.EmbedSpec(n, now.rfc3339))
      && (d.SlackSend? <==> platform == Slack)
      && (d.SlackSend? ==> d.message == LegacySlack.MessageSpec(n))
      && (d.TelegramSend? ==> (d.result.InvalidChatId? <==> ParseInt64(destination).None?))
      && (d.TelegramSend? && d.result.Requested? ==>
            d.result.text == LegacyTelegram.Text(n, now.rfc1123) && d.result.parseMode == "Markdown"
            && Some(d.result.chatId) == ParseInt64(destination))
  {
  }
}
