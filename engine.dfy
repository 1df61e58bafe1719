/**
 * The CommsEngine of internal/comms/engine.go. For each batch of proposals a network's poller
 * delivers, it notifies every configured audience of each proposal newer than the one the
 * ledger holds, and then records that proposal's ID in the ledger. Updates that carry an
 * error are skipped. The channel of updates is a finite sequence. Every Notify call and every
 * ledger write is appended to `trace`, and the ledger file, the deliveries of the
 * notification service and the trace are all specified by the functions below.
 */
module Engine {
  import opened Wrappers
  import Zetachain
  import opened Models
  import opened Strconv
  import opened Storage
  import Mapper
  import CommsNotifications

  /**
   * isNewProposal on what the ledger returned: never after a read error; always when no ID is
   * stored; by int64 value when both IDs parse in base 10; otherwise by string inequality.
   */
  function IsNew(stored: Result<string, string>, proposalId: string): bool {
    match stored
    case Failure(_) => false
    case Success(last) =>
      if last == "" then true
      else
        var lastInt, proposalInt := ParseInt64(last), ParseInt64(proposalId);
        if lastInt.None? || proposalInt.None? then proposalId != last
        else proposalInt.value > lastInt.value
  }

  /** One message of a network's update channel: a batch of proposals or the error fetching them. */
  datatype ProposalUpdate = ProposalUpdate(proposals: seq<Zetachain.Proposal>, error: Option<string>)

  /** A call the engine makes: Notify for one audience, or a ledger write with the error it returned. */
  datatype Event =
    | Notified(audience: string, notification: Notification)
    | Stored(network: string, proposalId: string, err: Option<string>)

  /** The events handling appends, and the ledger file it leaves. */
  datatype Outcome = Outcome(events: seq<Event>, file: FileState)

  /** What the engine reads from its configuration: each network's audiences, and the number formatting. */
  datatype Config = Config(networks: map<string, seq<string>>, nf: Mapper.NumberFormat)

  /** config.Networks[network].Audiences: nil, so empty, for a network that is not configured. */
  function Audiences(cfg: Config, network: string): seq<string> {
    if network in cfg.networks then cfg.networks[network] else []
  }

  function NotifyAll(audiences: seq<string>, n: Notification): seq<Event> {
    if audiences == [] then []
    else NotifyAll(audiences[..|audiences| - 1], n) + [Notified(audiences[|audiences| - 1], n)]
  }

  /** One pass of handleProposals' loop body on the ledger file `f`. */
  function Step(cfg: Config, saveFault: Option<SaveFault>, network: string, f: FileState, p: Zetachain.Proposal): Outcome {
    if !IsNew(Lookup(f, network), p.proposalId) then Outcome([], f)
    else
      var stored := StoreOutcome(f, saveFault, network, p.proposalId);
      Outcome(NotifyAll(Audiences(cfg, network), Mapper.MapSpec(network, p, cfg.nf)) + [Stored(network, p.proposalId, stored.1)],
              stored.0)
  }

  /** handleProposals: the proposals in order, each judged against the ledger as the earlier ones left it. */
  function Handle(cfg: Config, saveFault: Option<SaveFault>, network: string, f: FileState, proposals: seq<Zetachain.Proposal>): Outcome {
    if proposals == [] then Outcome([], f)
    else
      var before := Handle(cfg, saveFault, network, f, proposals[..|proposals| - 1]);
      var last := Step(cfg, saveFault, network, before.file, proposals[|proposals| - 1]);
      Outcome(before.events + last.events, last.file)
  }

  /** ProcessProposalUpdates: the updates in order, those with an error skipped. */
  function Process(cfg: Config, saveFault: Option<SaveFault>, network: string, f: FileState, updates: seq<ProposalUpdate>): Outcome {
    if updates == [] then Outcome([], f)
    else
      var before := Process(cfg, saveFault, network, f, updates[..|updates| - 1]);
      var u := updates[|updates| - 1];
      if u.error.Some? then before
      else
        var handled := Handle(cfg, saveFault, network, before.file, u.proposals);
        Outcome(before.events + handled.events, handled.file)
  }

  /** The deliveries one event makes: a Notify call's, or none for a ledger write. */
  function EventSends(e: Event, service: CommsNotifications.NotificationService, now: CommsNotifications.Clock,
                      delivered: (CommsNotifications.Platform, string) -> bool): seq<CommsNotifications.Delivery>
  {
    match e
    case Notified(audience, n) =>
      CommsNotifications.NotifyDeliveries(service.audienceConfig, service.discordReady, service.telegramReady, audience,
                                          CommsNotifications.Formatted(n, now), delivered)
    case Stored(_, _, _) => []
  }

  /** The deliveries the Notify calls of a trace make, for a service in the given state. */
  function SendsOf(events: seq<Event>, service: CommsNotifications.NotificationService, now: CommsNotifications.Clock,
                   delivered: (CommsNotifications.Platform, string) -> bool): seq<CommsNotifications.Delivery>
  {
    if events == [] then []
    else
      SendsOf(events[..|events| - 1], service, now, delivered)
      + EventSends(events[|events| - 1], service, now, delivered)
  }

  class CommsEngine {
    const config: Config
    const notificationService: CommsNotifications.NotificationService
    const storageService: StorageService
    var trace: seq<Event>

    constructor (config: Config, notificationService: CommsNotifications.NotificationService, storageService: StorageService)
      ensures this.config == config && this.notificationService == notificationService && this.storageService == storageService
      ensures trace == []
    {
      this.config := config;
      this.notificationService := notificationService;
      this.storageService := storageService;
      trace := [];
    }

    function IsNewProposal(network: string, proposalId: string): bool
      reads storageService
    {
      IsNew(storageService.GetLastProcessedProposalID(network), proposalId)
    }

    /** A failed write is only logged. */
    method StoreLastProcessedProposalID(network: string, proposalId: string)
      modifies this`trace, storageService`file
      ensures var stored := StoreOutcome(old(storageService.file), storageService.saveFault, network, proposalId);
        storageService.file == stored.0 && trace == old(trace) + [Stored(network, proposalId, stored.1)]
    {
      var err := storageService.StoreLastProcessedProposalID(network, proposalId);
      trace := trace + [Stored(network, proposalId, err)];
    }

    method HandleProposals(network: string, proposals: seq<Zetachain.Proposal>, now: CommsNotifications.Clock,
                           delivered: (CommsNotifications.Platform, string) -> bool)
      modifies this`trace, storageService`file, notificationService`sends
      ensures var o := Handle(config, storageService.saveFault, network, old(storageService.file), proposals);
        && trace == old(trace) + o.events
        && storageService.file == o.file
        && notificationService.sends == old(notificationService.sends)
             + SendsOf(o.events, notificationService, now, delivered)
    {
      ghost var t0, s0, f0 := trace, notificationService.sends, storageService.file;
      var i := 0;
      while i < |proposals|
        invariant 0 <= i <= |proposals|
        invariant var o := Handle(config, storageService.saveFault, network, f0, proposals[..i]);
          && trace == t0 + o.events
          && storageService.file == o.file
          && notificationService.sends == s0 + SendsOf(o.events, notificationService, now, delivered)
      {
        var proposal := proposals[i];
        ghost var o := Handle(config, storageService.saveFault, network, f0, proposals[..i]);
        ghost var step := Step(config, storageService.saveFault, network, o.file, proposal);
        HandleUnfold(config, storageService.saveFault, network, f0, proposals, i);
        HandleOne(network, proposal, now, delivered);
        SendsOfAppend(o.events, step.events,
                      notificationService, now, delivered);
        Assoc(t0, o.events, step.events);
        Assoc(s0,
          SendsOf(o.events, notificationService, now, delivered),
          SendsOf(step.events, notificationService, now, delivered));
        i := i + 1;
      }
      assert proposals[..i] == proposals;
    }

    /** The body of handleProposals' loop for one proposal. */
    method HandleOne(network: string, proposal: Zetachain.Proposal, now: CommsNotifications.Clock,
                     delivered: (CommsNotifications.Platform, string) -> bool)
      modifies this`trace, storageService`file, notificationService`sends
      ensures var o := Step(config, storageService.saveFault, network, old(storageService.file), proposal);
        && trace == old(trace) + o.events
        && storageService.file == o.file
        && notificationService.sends == old(notificationService.sends)
             + SendsOf(o.events, notificationService, now, delivered)
    {
      var isNew := IsNewProposal(network, proposal.proposalId);
      if !isNew {
        return;
      }
      var notification := Mapper.MapFromProposal(network, proposal, config.nf);
      var audiences := Audiences(config, network);
      NotifyAudiences(audiences, notification, now, delivered);
      StoreLastProcessedProposalID(network, proposal.proposalId);
      ghost var notified := NotifyAll(audiences, notification);
      ghost var stored := StoreOutcome(old(storageService.file), storageService.saveFault, network, proposal.proposalId);
      SendsOfAppend(notified, [Stored(network, proposal.proposalId, stored.1)],
                    notificationService, now, delivered);
      Assoc(old(trace), notified, [Stored(network, proposal.proposalId, stored.1)]);
      assert Step(config, storageService.saveFault, network, old(storageService.file), proposal)
          == Outcome(notified + [Stored(network, proposal.proposalId, stored.1)], stored.0);
    }

    /** The loop over the network's audiences, one Notify each, in list order. */
    method NotifyAudiences(audiences: seq<string>, notification: Notification, now: CommsNotifications.Clock,
                           delivered: (CommsNotifications.Platform, string) -> bool)
      modifies this`trace, notificationService`sends
      ensures trace == old(trace) + NotifyAll(audiences, notification)
      ensures notificationService.sends == old(notificationService.sends)
        + SendsOf(NotifyAll(audiences, notification), notificationService, now, delivered)
    {
      var j := 0;
      while j < |audiences|
        invariant 0 <= j <= |audiences|
        invariant trace == old(trace) + NotifyAll(audiences[..j], notification)
        invariant notificationService.sends == old(notificationService.sends)
          + SendsOf(NotifyAll(audiences[..j], notification), notificationService, now, delivered)
      {
        ghost var before := NotifyAll(audiences[..j], notification);
        NotifyAllStep(audiences, j, notification);
        SendsOfSnoc(before, Notified(audiences[j], notification), notificationService, now, delivered);
        notificationService.Notify(notification, audiences[j], now, delivered);
        trace := trace + [Notified(audiences[j], notification)];
        Assoc(old(trace), before, [Notified(audiences[j], notification)]);
        Assoc(old(notificationService.sends),
          SendsOf(before, notificationService, now, delivered),
          EventSends(Notified(audiences[j], notification), notificationService, now, delivered));
        j := j + 1;
      }
      assert audiences[..j] == audiences;
    }

    method ProcessProposalUpdates(network: string, updates: seq<ProposalUpdate>, now: CommsNotifications.Clock,
                                  delivered: (CommsNotifications.Platform, string) -> bool)
      modifies this`trace, storageService`file, notificationService`sends
      ensures var o := Process(config, storageService.saveFault, network, old(storageService.file), updates);
        && trace == old(trace) + o.events
        && storageService.file == o.file
        && notificationService.sends == old(notificationService.sends)
             + SendsOf(o.events, notificationService, now, delivered)
    {
      ghost var t0, s0, f0 := trace, notificationService.sends, storageService.file;
      var i := 0;
      while i < |updates|
        invariant 0 <= i <= |updates|
        invariant var o := Process(config, storageService.saveFault, network, f0, updates[..i]);
          && trace == t0 + o.events
          && storageService.file == o.file
          && notificationService.sends == s0 + SendsOf(o.events, notificationService, now, delivered)
      {
        var update := updates[i];
        ghost var o := Process(config, storageService.saveFault, network, f0, updates[..i]);
        ProcessUnfold(config, storageService.saveFault, network, f0, updates, i);
        if update.error.Some? {
          i := i + 1;
          continue;
        }
        ghost var handled := Handle(config, storageService.saveFault, network, o.file, update.proposals);
        HandleProposals(network, update.proposals, now, delivered);
        SendsOfAppend(o.events, handled.events,
                      notificationService, now, delivered);
        Assoc(t0, o.events, handled.events);
        Assoc(s0,
          SendsOf(o.events, notificationService, now, delivered),
          SendsOf(handled.events, notificationService, now, delivered));
        i := i + 1;
      }
      assert updates[..i] == updates;
    }
  }

  lemma HandleUnfold(cfg: Config, saveFault: Option<SaveFault>, network: string, f: FileState, proposals: seq<Zetachain.Proposal>, i: nat)
    requires i < |proposals|
    ensures var before := Handle(cfg, saveFault, network, f, proposals[..i]);
      var step := Step(cfg, saveFault, network, before.file, proposals[i]);
      Handle(cfg, saveFault, network, f, proposals[..i + 1]) == Outcome(before.events + step.events, step.file)
  {
    assert proposals[..i + 1][..i] == proposals[..i];
  }

  lemma ProcessUnfold(cfg: Config, saveFault: Option<SaveFault>, network: string, f: FileState, updates: seq<ProposalUpdate>, i: nat)
    requires i < |updates|
    ensures var before := Process(cfg, saveFault, network, f, updates[..i]);
      Process(cfg, saveFault, network, f, updates[..i + 1])
      == if updates[i].error.Some? then before
         else
           var handled := Handle(cfg, saveFault, network, before.file, updates[i].proposals);
           Outcome(before.events + handled.events, handled.file)
  {
    assert updates[..i + 1][..i] == updates[..i];
  }

  lemma NotifyAllStep(audiences: seq<string>, j: nat, n: Notification)
    requires j < |audiences|
    ensures NotifyAll(audiences[..j + 1], n) == NotifyAll(audiences[..j], n) + [Notified(audiences[j], n)]
  {
    assert audiences[..j + 1][..j] == audiences[..j];
  }

  lemma SendsOfSnoc(events: seq<Event>, e: Event, service: CommsNotifications.NotificationService, now: CommsNotifications.Clock,
                    delivered: (CommsNotifications.Platform, string) -> bool)
    ensures SendsOf(events + [e], service, now, delivered) == SendsOf(events, service, now, delivered) + EventSends(e, service, now, delivered)
  {
    assert (events + [e])[..|events|] == events;
  }

  /** The deliveries of a trace are those of its parts, in order. */
  lemma {:induction false} SendsOfAppend(a: seq<Event>, b: seq<Event>, service: CommsNotifications.NotificationService,
                                         now: CommsNotifications.Clock,
                                         delivered: (CommsNotifications.Platform, string) -> bool)
    ensures SendsOf(a + b, service, now, delivered)
         == SendsOf(a, service, now, delivered)
            + SendsOf(b, service, now, delivered)
  {
    if b == [] {
      assert a + b == a;
    } else {
      var init := b[..|b| - 1];
      assert (a + b)[..|a + b| - 1] == a + init;
      assert (a + b)[|a + b| - 1] == b[|b| - 1];
      SendsOfAppend(a, init, service, now, delivered);
      Assoc(SendsOf(a, service, now, delivered),
                      SendsOf(init, service, now, delivered),
                      EventSends(b[|b| - 1], service, now, delivered));
    }
  }

  /** A ledger read error means "not new"; an empty ledger means "new"; unparsable IDs compare as strings. */
  lemma IsNewDecision(stored: Result<string, string>, proposalId: string)
    ensures stored.Failure? ==> !IsNew(stored, proposalId)
    ensures stored == Success("") ==> IsNew(stored, proposalId)
    ensures stored.Success? && stored.value != "" && (ParseInt64(stored.value).None? || ParseInt64(proposalId).None?) ==>
      (IsNew(stored, proposalId) <==> proposalId != stored.value)
    ensures stored.Success? && stored.value != "" && ParseInt64(stored.value).Some? && ParseInt64(proposalId).Some? ==>
      (IsNew(stored, proposalId) <==> ParseInt64(proposalId).value > ParseInt64(stored.value).value)
  {
  }

  /** Between int64 IDs written in decimal, "new" is exactly "greater". */
  lemma NumericIdsCompareByValue(last: int, id: int)
    requires MinInt64 <= last <= MaxInt64 && MinInt64 <= id <= MaxInt64
    ensures IsNew(Success(FormatInt(last)), FormatInt(id)) <==> id > last
  {
    ParseFormatInt(last);
    ParseFormatInt(id);
  }

  /** The ID the ledger holds is never new again, unless it is empty. */
  lemma StoredIdNotNew(id: string)
    ensures IsNew(Success(id), id) <==> id == ""
  {
  }

  /** Numeric comparison ignores leading zeros: "07" and "007" are not new after "7". */
  lemma LeadingZerosNotNew(last: string, zeros: string)
    requires last != "" && AllDigits(last) && ParseInt64(last).Some?
    requires forall i :: 0 <= i < |zeros| ==> zeros[i] == '0'
    ensures !IsNew(Success(last), zeros + last)
  {
    LeadingZerosIgnored(zeros, last);
  }

  lemma {:induction false} NotifyAllInOrder(audiences: seq<string>, n: Notification)
    ensures |NotifyAll(audiences, n)| == |audiences|
    ensures forall i :: 0 <= i < |audiences| ==> NotifyAll(audiences, n)[i] == Notified(audiences[i], n)
  {
    if audiences != [] {
      NotifyAllInOrder(audiences[..|audiences| - 1], n);
    }
  }

  /** A proposal judged not new makes no Notify call and no ledger write. */
  lemma NotNewNoCalls(cfg: Config, saveFault: Option<SaveFault>, network: string, f: FileState, p: Zetachain.Proposal)
    requires !IsNew(Lookup(f, network), p.proposalId)
    ensures Step(cfg, saveFault, network, f, p) == Outcome([], f)
  {
  }

  /**
   * A new proposal is mapped once and announced to each of the network's audiences in list
   * order, then its ID is written, even when the network has no audiences.
   */
  lemma NewNotifiesThenStores(cfg: Config, saveFault: Option<SaveFault>, network: string, f: FileState, p: Zetachain.Proposal)
    requires IsNew(Lookup(f, network), p.proposalId)
    ensures var o := Step(cfg, saveFault, network, f, p);
      var audiences, n := Audiences(cfg, network), Mapper.MapSpec(network, p, cfg.nf);
      var stored := StoreOutcome(f, saveFault, network, p.proposalId);
      && |o.events| == |audiences| + 1
      && (forall i :: 0 <= i < |audiences| ==> o.events[i] == Notified(audiences[i], n))
      && o.events[|audiences|] == Stored(network, p.proposalId, stored.1)
      && o.file == stored.0
  {
    NotifyAllInOrder(Audiences(cfg, network), Mapper.MapSpec(network, p, cfg.nf));
  }

  /** Once a new proposal's ID is written, handling the same proposal again does nothing. */
  lemma HandledProposalNotRepeated(cfg: Config, saveFault: Option<SaveFault>, network: string, f: FileState, p: Zetachain.Proposal)
    requires IsNew(Lookup(f, network), p.proposalId) && p.proposalId != ""
    requires StoreOutcome(f, saveFault, network, p.proposalId).1.None?
    ensures var g := Step(cfg, saveFault, network, f, p).file;
      Step(cfg, saveFault, network, g, p) == Outcome([], g)
  {
    GetAfterStore(f, saveFault, network, p.proposalId);
  }

  /** Handling two lists one after the other is handling their concatenation. */
  lemma {:induction false} HandleAppend(cfg: Config, saveFault: Option<SaveFault>, network: string, f: FileState,
                                        a: seq<Zetachain.Proposal>, b: seq<Zetachain.Proposal>)
    ensures var first := Handle(cfg, saveFault, network, f, a);
      var second := Handle(cfg, saveFault, network, first.file, b);
      Handle(cfg, saveFault, network, f, a + b) == Outcome(first.events + second.events, second.file)
  {
    var first := Handle(cfg, saveFault, network, f, a);
    if b == [] {
      assert a + b == a;
    } else {
      var init := b[..|b| - 1];
      assert (a + b)[..|a + b| - 1] == a + init;
      assert (a + b)[|a + b| - 1] == b[|b| - 1];
      HandleAppend(cfg, saveFault, network, f, a, init);
      var mid := Handle(cfg, saveFault, network, first.file, init);
      var last := Step(cfg, saveFault, network, mid.file, b[|b| - 1]);
      Assoc(first.events, mid.events, last.events);
    }
  }

  /** The proposals of the updates that carry no error, in order. */
  function GoodProposals(updates: seq<ProposalUpdate>): seq<Zetachain.Proposal> {
    if updates == [] then []
    else
      var u := updates[|updates| - 1];
      GoodProposals(updates[..|updates| - 1]) + (if u.error.Some? then [] else u.proposals)
  }

  /** Processing a stream is handling, in one pass, the proposals of its error-free updates. */
  lemma {:induction false} ProcessSkipsErrors(cfg: Config, saveFault: Option<SaveFault>, network: string, f: FileState,
                                              updates: seq<ProposalUpdate>)
    ensures Process(cfg, saveFault, network, f, updates) == Handle(cfg, saveFault, network, f, GoodProposals(updates))
  {
    if updates != [] {
      var init := updates[..|updates| - 1];
      var u := updates[|updates| - 1];
      ProcessSkipsErrors(cfg, saveFault, network, f, init);
      if u.error.Some? {
        assert GoodProposals(updates) == GoodProposals(init) + [] == GoodProposals(init);
      } else {
        HandleAppend(cfg, saveFault, network, f, GoodProposals(init), u.proposals);
      }
    }
  }

  /** Every ID parses as an int64, and the values strictly increase along the list. */
  ghost predicate IncreasingIds(ps: seq<Zetachain.Proposal>) {
    ps == [] ||
    var init, last := ps[..|ps| - 1], ParseInt64(ps[|ps| - 1].proposalId);
    && IncreasingIds(init)
    && last.Some?
    && (init != [] ==> var previous := ParseInt64(init[|init| - 1].proposalId); previous.Some? && previous.value < last.value)
  }

  /** Every proposal announced to every audience and then stored, in list order. */
  function AllAnnounced(cfg: Config, network: string, ps: seq<Zetachain.Proposal>): seq<Event> {
    if ps == [] then []
    else
      var p := ps[|ps| - 1];
      AllAnnounced(cfg, network, ps[..|ps| - 1])
      + NotifyAll(Audiences(cfg, network), Mapper.MapSpec(network, p, cfg.nf)) + [Stored(network, p.proposalId, None)]
  }

  /**
   * A proposal whose ID is above the stored one (or any ID over an empty ledger), on a ledger
   * that can be written, is announced and stored, and the ledger then holds its ID.
   */
  lemma AnnounceStep(cfg: Config, network: string, g: FileState, p: Zetachain.Proposal, last: string)
    requires Lookup(g, network) == Success(last)
    requires last == "" || (ParseInt64(last).Some? && ParseInt64(p.proposalId).Some?
                            && ParseInt64(last).value < ParseInt64(p.proposalId).value)
    ensures var o := Step(cfg, None, network, g, p);
      && o.events == NotifyAll(Audiences(cfg, network), Mapper.MapSpec(network, p, cfg.nf)) + [Stored(network, p.proposalId, None)]
      && Lookup(o.file, network) == Success(p.proposalId)
  {
    assert IsNew(Lookup(g, network), p.proposalId);
    assert !g.Unreadable?;
    GetAfterStore(g, None, network, p.proposalId);
  }

  /** One more proposal above the stored one extends the announcements and moves the ledger to its ID. */
  lemma AnnounceSnoc(cfg: Config, network: string, f: FileState, ps: seq<Zetachain.Proposal>, last: string)
    requires ps != []
    requires var before := Handle(cfg, None, network, f, ps[..|ps| - 1]);
      && before.events == AllAnnounced(cfg, network, ps[..|ps| - 1])
      && Lookup(before.file, network) == Success(last)
    requires last == "" || (ParseInt64(last).Some? && ParseInt64(ps[|ps| - 1].proposalId).Some?
                            && ParseInt64(last).value < ParseInt64(ps[|ps| - 1].proposalId).value)
    ensures Handle(cfg, None, network, f, ps).events == AllAnnounced(cfg, network, ps)
    ensures Lookup(Handle(cfg, None, network, f, ps).file, network) == Success(ps[|ps| - 1].proposalId)
  {
    var init, p := ps[..|ps| - 1], ps[|ps| - 1];
    var before := Handle(cfg, None, network, f, init);
    AnnounceStep(cfg, network, before.file, p, last);
    Assoc(AllAnnounced(cfg, network, init), NotifyAll(Audiences(cfg, network), Mapper.MapSpec(network, p, cfg.nf)), [Stored(network, p.proposalId, None)]);
  }

  /**
   * From an empty ledger that can be written, proposals with increasing numeric IDs are all
   * announced and stored in order, and the ledger ends at the last ID.
   */
  lemma {:induction false} IncreasingIdsAllHandled(cfg: Config, network: string, f: FileState, ps: seq<Zetachain.Proposal>)
    requires Lookup(f, network) == Success("")
    requires IncreasingIds(ps)
    ensures Handle(cfg, None, network, f, ps).events == AllAnnounced(cfg, network, ps)
    ensures Lookup(Handle(cfg, None, network, f, ps).file, network) == if ps == [] then Success("") else Success(ps[|ps| - 1].proposalId)
  {
    if ps != [] {
      var init := ps[..|ps| - 1];
      IncreasingIdsAllHandled(cfg, network, f, init);
      AnnounceSnoc(cfg, network, f, ps, if init == [] then "" else init[|init| - 1].proposalId);
    }
  }

  /** With an empty ledger, proposals "1", "2", "3" are all announced, the writes are "1", "2", "3", and the ledger ends at "3". */
  lemma OneTwoThree(cfg: Config, network: string, p1: Zetachain.Proposal, p2: Zetachain.Proposal, p3: Zetachain.Proposal)
    requires p1.proposalId == "1" && p2.proposalId == "2" && p3.proposalId == "3"
    ensures var o := Handle(cfg, None, network, Missing, [p1, p2, p3]);
      var audiences := Audiences(cfg, network);
      && o.events == NotifyAll(audiences, Mapper.MapSpec(network, p1, cfg.nf)) + [Stored(network, "1", None)]
                     + NotifyAll(audiences, Mapper.MapSpec(network, p2, cfg.nf)) + [Stored(network, "2", None)]
                     + NotifyAll(audiences, Mapper.MapSpec(network, p3, cfg.nf)) + [Stored(network, "3", None)]
      && Lookup(o.file, network) == Success("3")
  {
    var ps := [p1, p2, p3];
    OneTwoThreeIncreasing(p1, p2, p3);
    IncreasingIdsAllHandled(cfg, network, Missing, ps);
    var audiences := Audiences(cfg, network);
    var a1, a2, a3 := NotifyAll(audiences, Mapper.MapSpec(network, p1, cfg.nf)),
                      NotifyAll(audiences, Mapper.MapSpec(network, p2, cfg.nf)),
                      NotifyAll(audiences, Mapper.MapSpec(network, p3, cfg.nf));
    assert ps[..2] == [p1, p2] && [p1, p2][..1] == [p1] && [p1][..0] == [];
    assert AllAnnounced(cfg, network, [p1]) == a1 + [Stored(network, "1", None)];
    assert AllAnnounced(cfg, network, [p1, p2]) == AllAnnounced(cfg, network, [p1]) + a2 + [Stored(network, "2", None)];
    assert AllAnnounced(cfg, network, ps) == AllAnnounced(cfg, network, [p1, p2]) + a3 + [Stored(network, "3", None)];
  }

  lemma OneTwoThreeIncreasing(p1: Zetachain.Proposal, p2: Zetachain.Proposal, p3: Zetachain.Proposal)
    requires p1.proposalId == "1" && p2.proposalId == "2" && p3.proposalId == "3"
    ensures IncreasingIds([p1, p2, p3])
  {
    ParseFormatInt(1);
    ParseFormatInt(2);
    ParseFormatInt(3);
    assert FormatInt(1) == "1" && FormatInt(2) == "2" && FormatInt(3) == "3";
    assert [p1, p2, p3][..2] == [p1, p2] && [p1, p2][..1] == [p1] && [p1][..0] == [];
    assert IncreasingIds([p1]);
    assert IncreasingIds([p1, p2]);
  }

  /**
   * With numeric IDs, a stored numeric ID never moves back: the ledger only advances, as long
   * as a failed save leaves the file alone (TruncatedWriteReannounces shows the other case).
   */
  lemma LedgerNeverMovesBack(cfg: Config, saveFault: Option<SaveFault>, network: string, f: FileState, p: Zetachain.Proposal)
    requires saveFault.None? || saveFault.value.NothingWritten?
    requires Lookup(f, network).Success? && ParseInt64(Lookup(f, network).value).Some?
    requires ParseInt64(p.proposalId).Some?
    ensures var g := Step(cfg, saveFault, network, f, p).file;
      && Lookup(g, network).Success? && ParseInt64(Lookup(g, network).value).Some?
      && ParseInt64(Lookup(g, network).value).value >= ParseInt64(Lookup(f, network).value).value
  {
    var stored := StoreOutcome(f, saveFault, network, p.proposalId);
    if IsNew(Lookup(f, network), p.proposalId) {
      if stored.1.None? {
        GetAfterStore(f, saveFault, network, p.proposalId);
      } else {
        FailedStoreWritesNothing(f, saveFault, network, p.proposalId);
      }
    }
  }

  /** The same over a whole list of proposals with numeric IDs. */
  lemma {:induction false} HandleLedgerNeverMovesBack(cfg: Config, saveFault: Option<SaveFault>, network: string, f: FileState,
                                                      ps: seq<Zetachain.Proposal>)
    requires saveFault.None? || saveFault.value.NothingWritten?
    requires Lookup(f, network).Success? && ParseInt64(Lookup(f, network).value).Some?
    requires forall i :: 0 <= i < |ps| ==> ParseInt64(ps[i].proposalId).Some?
    ensures var g := Handle(cfg, saveFault, network, f, ps).file;
      && Lookup(g, network).Success? && ParseInt64(Lookup(g, network).value).Some?
      && ParseInt64(Lookup(g, network).value).value >= ParseInt64(Lookup(f, network).value).value
  {
    if ps != [] {
      var init := ps[..|ps| - 1];
      assert forall i :: 0 <= i < |init| ==> init[i] == ps[i];
      HandleLedgerNeverMovesBack(cfg, saveFault, network, f, init);
      LedgerNeverMovesBack(cfg, saveFault, network, Handle(cfg, saveFault, network, f, init).file, ps[|ps| - 1]);
    }
  }

  /**
   * A save that fails after os.WriteFile truncated the file to nothing resets the ledger: the
   * network reads "" afterwards, so the proposal just announced is announced again.
   */
  lemma TruncatedWriteReannounces(cfg: Config, cause: string, network: string, f: FileState, p: Zetachain.Proposal)
    requires IsNew(Lookup(f, network), p.proposalId)
    ensures var g := Step(cfg, Some(WriteFailed(cause, Present(Data(None)))), network, f, p).file;
      && Lookup(g, network) == Success("")
      && Step(cfg, Some(WriteFailed(cause, Present(Data(None)))), network, g, p).events != []
  {
    var fault := Some(WriteFailed(cause, Present(Data(None))));
    var g := Step(cfg, fault, network, f, p).file;
    TruncatedWriteForgetsAll(f, cause, network, p.proposalId, network);
    assert Lookup(g, network) == Success("");
    NewNotifiesThenStores(cfg, fault, network, g, p);
  }
}
