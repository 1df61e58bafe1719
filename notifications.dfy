/**
 * The NotificationService of internal/notifications/notifications.go: a registry of notifiers
 * keyed by platform name, and Notify, which hands the notification to every channel the
 * audience lists for each registered platform. Each Send call is recorded in `sends`; whether
 * it fails is the Telegram chat-ID check and otherwise the platform's answer, an input
 * `delivered`; `now` is the clock reading the Telegram notifier formats its text with. Go ranges
 * over the audience's channel map in an unspecified order; `platformOrder` is that order, any
 * enumeration of the map's keys, and NotifyAttemptsAnyOrder shows that what is sent does not depend on it.
 */
module Notifications {
  import opened Wrappers
  import opened Models
  import TelegramClient
  import TelegramFormatter
  import Strconv

  datatype NotifierKind = DiscordNotifier | TelegramNotifier | SlackNotifier

  /** An audience's channels: platform name to destinations, as in the configuration. */
  datatype AudienceConfig = AudienceConfig(channels: map<string, seq<string>>)

  /** One Send(destination, notification) call and whether it returned an error. */
  datatype Attempt = Attempt(platform: string, channel: string, notification: Notification, failed: bool)

  /** The registry NewNotificationService builds: Discord and Telegram when their initialisation succeeds, Slack always. */
  function Registry(discordOk: bool, telegramOk: bool): (r: map<string, NotifierKind>)
    ensures "slack" in r && r["slack"] == SlackNotifier
    ensures "discord" in r <==> discordOk
    ensures "telegram" in r <==> telegramOk
    ensures r.Keys <= {"slack", "discord", "telegram"}
  {
    var withDiscord: map<string, NotifierKind> := if discordOk then map["discord" := DiscordNotifier] else map[];
    var withTelegram := if telegramOk then withDiscord["telegram" := TelegramNotifier] else withDiscord;
    withTelegram["slack" := SlackNotifier]
  }

  /**
   * Whether one Send(channel, n) returns an error. The Telegram notifier's SendMessage rejects
   * a chat ID that is not an integer before any request is made (TelegramAttemptIsSend ties
   * this to TelegramClient.Send for every text); otherwise, and for the other platforms,
   * `delivered` is the platform's answer.
   */
  function Fails(platform: string, channel: string, delivered: (string, string) -> bool): bool {
    if platform == TelegramClient.Name() then Strconv.ParseInt64(channel).None? || !delivered(platform, channel)
    else !delivered(platform, channel)
  }

  /** One Send per channel, in list order, each recording the platform's answer. */
  function ChannelAttempts(platform: string, channels: seq<string>, n: Notification, delivered: (string, string) -> bool): seq<Attempt>
  {
    if channels == [] then []
    else
      var c := channels[|channels| - 1];
      ChannelAttempts(platform, channels[..|channels| - 1], n, delivered) + [Attempt(platform, c, n, Fails(platform, c, delivered))]
  }

  /** sendToChannels: nothing for a platform without a notifier. */
  function PlatformAttempts(registry: map<string, NotifierKind>, platform: string, channels: seq<string>, n: Notification,
                            delivered: (string, string) -> bool): seq<Attempt>
  {
    if platform in registry then ChannelAttempts(platform, channels, n, delivered) else []
  }

  /** The platforms of an audience, taken in `order`. */
  function OrderAttempts(registry: map<string, NotifierKind>, channels: map<string, seq<string>>, order: seq<string>,
                         n: Notification, delivered: (string, string) -> bool): seq<Attempt>
  {
    if order == [] then []
    else
      var p := order[|order| - 1];
      OrderAttempts(registry, channels, order[..|order| - 1], n, delivered) + ListedAttempts(registry, channels, p, n, delivered)
  }

  /** What Notify's loop does for one key of the channel map. */
  function ListedAttempts(registry: map<string, NotifierKind>, channels: map<string, seq<string>>, p: string,
                          n: Notification, delivered: (string, string) -> bool): seq<Attempt>
  {
    if p in channels then PlatformAttempts(registry, p, channels[p], n, delivered) else []
  }

  function NotifyAttempts(config: map<string, AudienceConfig>, registry: map<string, NotifierKind>, audience: string,
                          order: seq<string>, n: Notification, delivered: (string, string) -> bool): seq<Attempt>
  {
    if audience in config then OrderAttempts(registry, config[audience].channels, order, n, delivered) else []
  }

  /** `order` lists every key of `keys` exactly once. */
  ghost predicate Enumerates(order: seq<string>, keys: set<string>) {
    && (forall i, j :: 0 <= i < j < |order| ==> order[i] != order[j])
    && (forall p :: p in order <==> p in keys)
  }

  class NotificationService {
    const audienceConfig: map<string, AudienceConfig>
    var notifiers: map<string, NotifierKind>
    var sends: seq<Attempt>

    /** `discordOk` and `telegramOk` are whether the two clients initialised. */
    constructor (audienceConfig: map<string, AudienceConfig>, discordOk: bool, telegramOk: bool)
      ensures this.audienceConfig == audienceConfig
      ensures notifiers == Registry(discordOk, telegramOk)
      ensures sends == []
    {
      this.audienceConfig := audienceConfig;
      notifiers := map[];
      sends := [];
      new;
      if discordOk {
        notifiers := notifiers["discord" := DiscordNotifier];
      }
      if telegramOk {
        notifiers := notifiers["telegram" := TelegramNotifier];
      }
      notifiers := notifiers["slack" := SlackNotifier];
    }

    method Notify(n: Notification, audience: string, platformOrder: seq<string>, now: string, delivered: (string, string) -> bool)
      requires audience in audienceConfig ==> Enumerates(platformOrder, audienceConfig[audience].channels.Keys)
      modifies this`sends
      ensures sends == old(sends) + NotifyAttempts(audienceConfig, notifiers, audience, platformOrder, n, delivered)
    {
      if audience !in audienceConfig {
        return;
      }
      var channels := audienceConfig[audience].channels;
      var i := 0;
      while i < |platformOrder|
        invariant 0 <= i <= |platformOrder|
        invariant sends == old(sends) + OrderAttempts(notifiers, channels, platformOrder[..i], n, delivered)
      {
        var platform := platformOrder[i];
        ghost var done := OrderAttempts(notifiers, channels, platformOrder[..i], n, delivered);
        OrderAttemptsSnoc(notifiers, channels, platformOrder, i, n, delivered);
        SendToChannels(platform, channels[platform], n, now, delivered);
        Assoc(old(sends), done, PlatformAttempts(notifiers, platform, channels[platform], n, delivered));
        i := i + 1;
      }
      assert platformOrder[..i] == platformOrder;
    }

    method SendToChannels(platform: string, channels: seq<string>, n: Notification, now: string, delivered: (string, string) -> bool)
      modifies this`sends
      ensures sends == old(sends) + PlatformAttempts(notifiers, platform, channels, n, delivered)
    {
      if platform !in notifiers {
        return;
      }
      var i := 0;
      while i < |channels|
        invariant 0 <= i <= |channels|
        invariant sends == old(sends) + ChannelAttempts(platform, channels[..i], n, delivered)
      {
        var channel := channels[i];
        var failed: bool;
        if platform == TelegramClient.Name() {
          var result := TelegramClient.Send(channel, n, now, delivered(platform, channel));
          failed := result.Failed();
        } else {
          failed := !delivered(platform, channel);
        }
        assert channels[..i + 1][..i] == channels[..i];
        sends := sends + [Attempt(platform, channel, n, failed)];
        i := i + 1;
      }
      assert channels[..i] == channels;
    }
  }

  lemma OrderAttemptsSnoc(registry: map<string, NotifierKind>, channels: map<string, seq<string>>, order: seq<string>, i: int,
                          n: Notification, delivered: (string, string) -> bool)
    requires 0 <= i < |order| && order[i] in channels
    ensures OrderAttempts(registry, channels, order[..i + 1], n, delivered) ==
            OrderAttempts(registry, channels, order[..i], n, delivered) + PlatformAttempts(registry, order[i], channels[order[i]], n, delivered)
  {
    assert order[..i + 1][..i] == order[..i];
  }

  /** Only Slack and the platforms whose clients initialised are registered. */
  lemma RegistryHoldsInitialised(discordOk: bool, telegramOk: bool, platform: string)
    ensures platform in Registry(discordOk, telegramOk) <==>
      platform == "slack" || (platform == "discord" && discordOk) || (platform == "telegram" && telegramOk)
  {
  }

  /** The Telegram notifier's Name() is the key the registry files it under, exactly when its client initialised. */
  lemma TelegramRegisteredUnderName(discordOk: bool, telegramOk: bool)
    ensures TelegramClient.Name() == "telegram"
    ensures TelegramClient.Name() in Registry(discordOk, telegramOk) <==> telegramOk
    ensures telegramOk ==> Registry(discordOk, telegramOk)[TelegramClient.Name()] == TelegramNotifier
  {
  }

  /**
   * Send is called once per channel, in list order, whatever the answers: an error never stops
   * the remaining channels. Every call carries the same notification.
   */
  lemma {:induction false} ChannelAttemptsInOrder(platform: string, channels: seq<string>, n: Notification,
                                                 delivered: (string, string) -> bool)
    ensures |ChannelAttempts(platform, channels, n, delivered)| == |channels|
    ensures forall i :: 0 <= i < |channels| ==>
      ChannelAttempts(platform, channels, n, delivered)[i] == Attempt(platform, channels[i], n, Fails(platform, channels[i], delivered))
  {
    if channels != [] {
      ChannelAttemptsInOrder(platform, channels[..|channels| - 1], n, delivered);
    }
  }

  /**
   * A Telegram attempt fails exactly when the Telegram notifier's Send, formatting the
   * notification at any time `now`, fails: when the channel is not an integer chat ID or
   * Telegram refuses the request. A channel handle such as "@zeta" never counts as delivered.
   */
  lemma TelegramAttemptIsSend(channel: string, n: Notification, now: string, delivered: (string, string) -> bool)
    ensures Fails(TelegramClient.Name(), channel, delivered) ==
            TelegramClient.Send(channel, n, now, delivered(TelegramClient.Name(), channel)).Failed()
    ensures Fails(TelegramClient.Name(), channel, delivered) <==>
            Strconv.ParseInt64(channel).None? || !delivered(TelegramClient.Name(), channel)
    ensures Fails(TelegramClient.Name(), "@zeta", delivered)
  {
    TelegramClient.HandleIsNotChatId(TelegramFormatter.Text(n, now), "Markdown", delivered("telegram", "@zeta"));
  }

  /** An audience without configuration gets no sends. */
  lemma UnknownAudienceNoSends(config: map<string, AudienceConfig>, registry: map<string, NotifierKind>, audience: string,
                               order: seq<string>, n: Notification, delivered: (string, string) -> bool)
    requires audience !in config
    ensures NotifyAttempts(config, registry, audience, order, n, delivered) == []
  {
  }

  /**
   * Every send goes to a registered platform, to one of the channels the audience lists for it,
   * with the notification unchanged.
   */
  lemma {:induction false} AttemptsWellAddressed(registry: map<string, NotifierKind>, channels: map<string, seq<string>>,
                                                order: seq<string>, n: Notification, delivered: (string, string) -> bool)
    ensures forall a :: a in OrderAttempts(registry, channels, order, n, delivered) ==>
      && a.platform in registry && a.platform in channels && a.channel in channels[a.platform]
      && a.notification == n && a.failed == Fails(a.platform, a.channel, delivered)
  {
    if order != [] {
      var p := order[|order| - 1];
      AttemptsWellAddressed(registry, channels, order[..|order| - 1], n, delivered);
      if p in channels {
        ChannelAttemptsInOrder(p, channels[p], n, delivered);
      }
    }
  }

  /** The sends of the audience to one platform, in the order they are made. */
  function SendsTo(attempts: seq<Attempt>, platform: string): seq<Attempt> {
    if attempts == [] then []
    else
      SendsTo(attempts[..|attempts| - 1], platform)
      + (if attempts[|attempts| - 1].platform == platform then [attempts[|attempts| - 1]] else [])
  }

  lemma {:induction false} SendsToAppend(xs: seq<Attempt>, ys: seq<Attempt>, platform: string)
    ensures SendsTo(xs + ys, platform) == SendsTo(xs, platform) + SendsTo(ys, platform)
  {
    if ys != [] {
      assert (xs + ys)[..|xs + ys| - 1] == xs + ys[..|ys| - 1];
      SendsToAppend(xs, ys[..|ys| - 1], platform);
    } else {
      assert xs + ys == xs;
    }
  }

  lemma {:induction false} SendsToOwn(platform: string, channels: seq<string>, n: Notification, delivered: (string, string) -> bool)
    ensures SendsTo(ChannelAttempts(platform, channels, n, delivered), platform) == ChannelAttempts(platform, channels, n, delivered)
  {
    if channels != [] {
      var c := channels[|channels| - 1];
      var init := ChannelAttempts(platform, channels[..|channels| - 1], n, delivered);
      SendsToOwn(platform, channels[..|channels| - 1], n, delivered);
      SendsToAppend(init, [Attempt(platform, c, n, Fails(platform, c, delivered))], platform);
      assert SendsTo([Attempt(platform, c, n, Fails(platform, c, delivered))], platform) == [Attempt(platform, c, n, Fails(platform, c, delivered))] by {
        assert [Attempt(platform, c, n, Fails(platform, c, delivered))][..0] == [];
      }
    }
  }

  lemma {:induction false} SendsToOther(platform: string, channels: seq<string>, n: Notification, delivered: (string, string) -> bool,
                                       other: string)
    requires other != platform
    ensures SendsTo(ChannelAttempts(platform, channels, n, delivered), other) == []
  {
    if channels != [] {
      var c := channels[|channels| - 1];
      SendsToOther(platform, channels[..|channels| - 1], n, delivered, other);
      SendsToAppend(ChannelAttempts(platform, channels[..|channels| - 1], n, delivered), [Attempt(platform, c, n, Fails(platform, c, delivered))], other);
      assert [Attempt(platform, c, n, Fails(platform, c, delivered))][..0] == [];
    }
  }

  /**
   * Each platform is handled on its own: a registered platform gets exactly one send per listed
   * channel in list order, an unregistered one none, whatever the other platforms do.
   */
  lemma {:induction false} PlatformSendsIsolated(registry: map<string, NotifierKind>, channels: map<string, seq<string>>,
                                                order: seq<string>, n: Notification, delivered: (string, string) -> bool,
                                                platform: string)
    requires Enumerates(order, channels.Keys)
    ensures SendsTo(OrderAttempts(registry, channels, order, n, delivered), platform) ==
      if platform in registry && platform in channels then ChannelAttempts(platform, channels[platform], n, delivered) else []
  {
    PlatformSendsIsolatedStep(registry, channels, channels.Keys, order, n, delivered, platform);
  }

  /**
   * The order Go happens to range over the channel map in changes nothing a platform receives:
   * any two enumerations send the same to every platform, and the same sends overall.
   */
  lemma NotifyAttemptsAnyOrder(config: map<string, AudienceConfig>, registry: map<string, NotifierKind>, audience: string,
                               order1: seq<string>, order2: seq<string>, n: Notification, delivered: (string, string) -> bool,
                               platform: string)
    requires audience in config ==> Enumerates(order1, config[audience].channels.Keys) && Enumerates(order2, config[audience].channels.Keys)
    ensures SendsTo(NotifyAttempts(config, registry, audience, order1, n, delivered), platform) ==
            SendsTo(NotifyAttempts(config, registry, audience, order2, n, delivered), platform)
    ensures multiset(NotifyAttempts(config, registry, audience, order1, n, delivered)) ==
            multiset(NotifyAttempts(config, registry, audience, order2, n, delivered))
  {
    if audience in config {
      PlatformSendsIsolated(registry, config[audience].channels, order1, n, delivered, platform);
      PlatformSendsIsolated(registry, config[audience].channels, order2, n, delivered, platform);
      SendsAnyOrder(registry, config[audience].channels, config[audience].channels.Keys, order1, order2, n, delivered);
    }
  }

  /** PlatformSendsIsolated for an order covering only some of the keys. */
  lemma {:induction false} PlatformSendsIsolatedStep(registry: map<string, NotifierKind>, channels: map<string, seq<string>>,
                                                    keys: set<string>, order: seq<string>, n: Notification,
                                                    delivered: (string, string) -> bool, platform: string)
    requires keys <= channels.Keys && Enumerates(order, keys)
    ensures SendsTo(OrderAttempts(registry, channels, order, n, delivered), platform) ==
      if platform in registry && platform in keys then ChannelAttempts(platform, channels[platform], n, delivered) else []
    decreases |order|
  {
    if order != [] {
      var p, init := order[|order| - 1], order[..|order| - 1];
      assert Enumerates(init, keys - {p}) by {
        forall q ensures q in init <==> q in keys - {p} {
          if q in init {
            var i :| 0 <= i < |init| && init[i] == q;
            assert order[i] == q && order[|order| - 1] == p;
          }
          if q in keys - {p} {
            assert q in order;
            var i :| 0 <= i < |order| && order[i] == q;
            assert i < |order| - 1 && init[i] == q;
          }
        }
      }
      PlatformSendsIsolatedStep(registry, channels, keys - {p}, init, n, delivered, platform);
      SendsToAppend(OrderAttempts(registry, channels, init, n, delivered), PlatformAttempts(registry, p, channels[p], n, delivered), platform);
      if p == platform {
        if p in registry {
          SendsToOwn(p, channels[p], n, delivered);
        }
      } else if p in registry {
        SendsToOther(p, channels[p], n, delivered, platform);
      }
    } else {
      assert platform !in keys;
    }
  }

  lemma {:induction false} OrderAttemptsAppend(registry: map<string, NotifierKind>, channels: map<string, seq<string>>,
                                              a: seq<string>, b: seq<string>, n: Notification, delivered: (string, string) -> bool)
    ensures OrderAttempts(registry, channels, a + b, n, delivered) ==
            OrderAttempts(registry, channels, a, n, delivered) + OrderAttempts(registry, channels, b, n, delivered)
  {
    if b == [] {
      assert a + b == a;
    } else {
      var init, p := b[..|b| - 1], b[|b| - 1];
      assert (a + b)[..|a + b| - 1] == a + init;
      assert (a + b)[|a + b| - 1] == p;
      OrderAttemptsAppend(registry, channels, a, init, n, delivered);
      var oa, oi, lp := OrderAttempts(registry, channels, a, n, delivered), OrderAttempts(registry, channels, init, n, delivered),
                        ListedAttempts(registry, channels, p, n, delivered);
      assert OrderAttempts(registry, channels, a + b, n, delivered) == (oa + oi) + lp;
      assert OrderAttempts(registry, channels, b, n, delivered) == oi + lp;
      Assoc(oa, oi, lp);
    }
  }

  /** Removing one listed platform from an enumeration enumerates the other keys. */
  lemma EnumeratesWithout(order: seq<string>, keys: set<string>, k: int)
    requires Enumerates(order, keys) && 0 <= k < |order|
    ensures Enumerates(order[..k] + order[k + 1..], keys - {order[k]})
  {
    var rest := order[..k] + order[k + 1..];
    forall i | 0 <= i < |rest|
      ensures rest[i] == order[if i < k then i else i + 1]
    {
    }
    forall q
      ensures q in rest <==> q in keys - {order[k]}
    {
      if q in keys - {order[k]} {
        var i :| 0 <= i < |order| && order[i] == q;
        assert i != k;
        assert rest[if i < k then i else i - 1] == q;
      }
    }
  }

  lemma EnumerationEmpty(order: seq<string>, keys: set<string>)
    requires Enumerates(order, keys)
    ensures order == [] <==> keys == {}
  {
    if order != [] {
      assert order[0] in keys;
    }
    if keys != {} {
      var q :| q in keys;
      assert q in order;
    }
  }

  lemma MultisetMiddle(a: seq<Attempt>, x: seq<Attempt>, b: seq<Attempt>)
    ensures multiset(a + x + b) == multiset(a + b) + multiset(x)
  {
    assert multiset(a + x + b) == multiset(a) + multiset(x) + multiset(b);
    assert multiset(a + b) == multiset(a) + multiset(b);
  }

  /** The attempts of an order, cut around the platform at index `k`. */
  lemma OrderAttemptsAround(registry: map<string, NotifierKind>, channels: map<string, seq<string>>, order: seq<string>, k: int,
                            n: Notification, delivered: (string, string) -> bool)
    requires 0 <= k < |order|
    ensures OrderAttempts(registry, channels, order, n, delivered) ==
      OrderAttempts(registry, channels, order[..k], n, delivered) + ListedAttempts(registry, channels, order[k], n, delivered)
      + OrderAttempts(registry, channels, order[k + 1..], n, delivered)
  {
    var front, back := order[..k], order[k + 1..];
    assert order == front + [order[k]] + back;
    OrderAttemptsAppend(registry, channels, front + [order[k]], back, n, delivered);
    OrderAttemptsAppend(registry, channels, front, [order[k]], n, delivered);
    assert [order[k]][..0] == [];
  }

  /**
   * Whatever order the channel map is ranged over, the same sends are made: the multisets of
   * attempts of any two enumerations agree, and so do their counts.
   */
  lemma {:induction false} SendsAnyOrder(registry: map<string, NotifierKind>, channels: map<string, seq<string>>, keys: set<string>,
                                        order1: seq<string>, order2: seq<string>, n: Notification, delivered: (string, string) -> bool)
    requires Enumerates(order1, keys) && Enumerates(order2, keys)
    ensures multiset(OrderAttempts(registry, channels, order1, n, delivered)) ==
            multiset(OrderAttempts(registry, channels, order2, n, delivered))
    ensures |OrderAttempts(registry, channels, order1, n, delivered)| == |OrderAttempts(registry, channels, order2, n, delivered)|
    decreases |order1|
  {
    EnumerationEmpty(order1, keys);
    EnumerationEmpty(order2, keys);
    if order1 != [] {
      var last := |order1| - 1;
      var p := order1[last];
      EnumeratesWithout(order1, keys, last);
      assert order1[..last] + order1[last + 1..] == order1[..last];
      assert p in order2;
      var k :| 0 <= k < |order2| && order2[k] == p;
      EnumeratesWithout(order2, keys, k);
      SendsAnyOrder(registry, channels, keys - {p}, order1[..last], order2[..k] + order2[k + 1..], n, delivered);
      OrderAttemptsAround(registry, channels, order2, k, n, delivered);
      OrderAttemptsAppend(registry, channels, order2[..k], order2[k + 1..], n, delivered);
      MultisetMiddle(OrderAttempts(registry, channels, order2[..k], n, delivered), ListedAttempts(registry, channels, p, n, delivered),
                     OrderAttempts(registry, channels, order2[k + 1..], n, delivered));
    }
  }

  /** The number of channels listed for the registered platforms among `order`. */
  function RegisteredChannelCount(registry: map<string, NotifierKind>, channels: map<string, seq<string>>, order: seq<string>): nat
  {
    if order == [] then 0
    else
      var p := order[|order| - 1];
      RegisteredChannelCount(registry, channels, order[..|order| - 1])
      + (if p in registry && p in channels then |channels[p]| else 0)
  }

  /** Notify makes exactly one Send per channel of each registered platform, failed or not. */
  lemma {:induction false} TotalSends(registry: map<string, NotifierKind>, channels: map<string, seq<string>>, order: seq<string>,
                                     n: Notification, delivered: (string, string) -> bool)
    ensures |OrderAttempts(registry, channels, order, n, delivered)| == RegisteredChannelCount(registry, channels, order)
  {
    if order != [] {
      var p := order[|order| - 1];
      TotalSends(registry, channels, order[..|order| - 1], n, delivered);
      if p in channels {
        ChannelAttemptsInOrder(p, channels[p], n, delivered);
      }
    }
  }
}
