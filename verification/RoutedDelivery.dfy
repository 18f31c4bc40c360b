/**
 * The alert queue over the routed and guarded transport
 * (internal/app/usecase/alertsender/worker.go, lines 343-361, over
 * internal/infra/telegram/router.go and guard.go): what a row marked sent means, on every
 * trace of the whole system.
 */
module RoutedDelivery {
  import opened Optional
  import opened AlertTable
  import opened DeliveryProtocol
  import opened DeliveryTheorems
  import opened DeliveryWorld
  import R = TelegramRouting

  datatype Setup = Setup(cfg: Config, router: R.RouterConfig, guard: R.GuardConfig)

  /** What the transport makes of a message handed to it; `delivered` when the sender is not told of a success. */
  datatype Reply = Takes(messageId: int) | Refuses(error: string, draw: real, delivered: bool) | Ends(delivered: bool)

  /** A message in a chat, with its id if the sender learned it. */
  datatype Posted = Posted(alert: int, chatId: string, messageId: Option<int>)

  datatype Suppressed = Suppressed(alert: int, kind: string, text: string)

  datatype Routed = Routed(world: World, posted: seq<Posted>, suppressed: seq<Suppressed>)

  /** `Queue` is any move of the queue that sends nothing; `Transmit` is `w.tg.Send` and its answer. */
  datatype Action = Queue(move: Move) | Transmit(id: int, who: int, kind: string, text: string, reply: Reply)

  /** A refusal or a cancellation may also come before anything is sent: a payload that does not decode. */
  predicate Silent(m: Move) {
    m.SenderStep? ==>
      && !m.event.SendAccepted? && !m.event.SendDropped?
      && (m.event.SendRefused? || m.event.SendCancelled? ==> !m.event.delivered)
  }

  function ChatOf(setup: Setup, kind: string, text: string): Option<string> {
    R.Handed(setup.router, setup.guard, R.SurfaceFromKind(kind), text)
  }

  function EventOf(who: int, reply: Reply): Event {
    match reply
    case Takes(id) => SendAccepted(who, id)
    case Refuses(error, draw, delivered) => SendRefused(who, error, draw, delivered)
    case Ends(delivered) => SendCancelled(who, delivered)
  }

  function Posts(id: int, chat: string, reply: Reply): seq<Posted> {
    if reply.Takes? then [Posted(id, chat, Some(reply.messageId))]
    else if reply.delivered then [Posted(id, chat, None)]
    else []
  }

  predicate CanSend(w: World, id: int, who: int) {
    id in w.slots && IsLive(w.slots[id], who) && ClaimOf(w.slots[id], who).phase.Working?
  }

  function Act(setup: Setup, w: Routed, a: Action): Routed {
    match a
    case Queue(m) => if Silent(m) then w.(world := MoveWorld(setup.cfg, w.world, m)) else w
    case Transmit(id, who, kind, text, reply) =>
      if !CanSend(w.world, id, who) then w
      else match ChatOf(setup, kind, text)
        case None =>
          w.(world := MoveWorld(setup.cfg, w.world, SenderStep(id, SendDropped(who))),
             suppressed := w.suppressed + [Suppressed(id, kind, text)])
        case Some(chat) =>
          w.(world := MoveWorld(setup.cfg, w.world, SenderStep(id, EventOf(who, reply))),
             posted := w.posted + Posts(id, chat, reply))
  }

  function RunRouted(setup: Setup, start: Time, actions: seq<Action>): Routed {
    if actions == [] then Routed(World(start, map[]), [], [])
    else Act(setup, RunRouted(setup, start, actions[..|actions| - 1]), actions[|actions| - 1])
  }

  // ---- one row ---------------------------------------------------------------------------

  predicate ClaimHonest(c: Claim, known: set<int>) { c.phase.ToMarkSent? ==> c.phase.messageId in known }

  /** Every message id recorded on the row, or about to be, is a known one. */
  predicate Honest(s: Slot, known: set<int>) {
    && (s.row.status.Sent? ==> s.row.messageId.Some? && s.row.messageId.value in known)
    && (s.holder.Live? ==> ClaimHonest(s.holder.claim, known))
    && (forall i :: 0 <= i < |s.late| ==> ClaimHonest(s.late[i], known))
  }

  function Learned(e: Event): set<int> {
    match e
    case SendAccepted(_, id) => {id}
    case SendDropped(_) => {0}
    case _ => {}
  }

  lemma HonestUpdate(s: Slot, who: int, c: Claim, t: Tally, known: set<int>, more: set<int>)
    requires Honest(s, known) && IsLive(s, who) && ClaimHonest(c, known + more)
    ensures Honest(Update(s, who, c).(tally := t), known + more) && Honest(Update(s, who, c), known + more)
  {
  }

  lemma HonestLeave(s: Slot, who: int, t: Tally, known: set<int>)
    requires Honest(s, known) && IsLive(s, who)
    ensures Honest(Leave(s, who).(tally := t), known) && Honest(Leave(s, who), known)
  {
    hide ClaimHonest;
  }

  lemma HonestMark(s: Slot, who: int, now: Time, known: set<int>)
    requires Honest(s, known) && IsLive(s, who) && !ClaimOf(s, who).phase.Working?
    ensures Honest(DoMark(s, who, now), known)
  {
    HonestLeave(s, who, s.tally, known);
  }

  lemma HonestStep(cfg: Config, s: Slot, e: Event, now: Time, known: set<int>)
    requires Honest(s, known)
    ensures Honest(Apply(cfg, s, e, now), known + Learned(e))
  {
    hide Retry, Stale, Claimable, DoMark, Leave, Update;
    assert known + {} == known;
    match e
    case Claimed =>
    case Reset =>
    case SendAccepted(who, id) =>
      if IsLive(s, who) {
        HonestUpdate(s, who, ClaimOf(s, who).(phase := ToMarkSent(id, true)),
          s.tally.(deliveries := s.tally.deliveries + 1), known, {id});
      }
    case SendDropped(who) =>
      if IsLive(s, who) {
        HonestUpdate(s, who, ClaimOf(s, who).(phase := ToMarkSent(0, false)), s.tally, known, {0});
      }
    case SendRefused(who, error, draw, delivered) =>
      if IsLive(s, who) {
        var c := ClaimOf(s, who);
        HonestUpdate(s, who, c.(phase := ToMarkFailed(error, Retry(cfg, c, error, now, draw))),
          CountDelivery(s.tally, delivered), known, {});
      }
    case SendCancelled(who, delivered) =>
      if IsLive(s, who) {
        HonestLeave(s, who, CountDelivery(s.tally, delivered), known);
      }
    case Crashed(who) =>
      if IsLive(s, who) {
        HonestLeave(s, who, s.tally, known);
      }
    case Marked(who) =>
      if IsLive(s, who) && !ClaimOf(s, who).phase.Working? {
        HonestMark(s, who, now, known);
      }
  }

  /** Whether the event puts a message into a chat. */
  predicate Delivers(s: Slot, e: Event) {
    match e
    case SendAccepted(who, _) => IsLive(s, who) && ClaimOf(s, who).phase.Working?
    case SendRefused(who, _, _, delivered) => IsLive(s, who) && ClaimOf(s, who).phase.Working? && delivered
    case SendCancelled(who, delivered) => IsLive(s, who) && ClaimOf(s, who).phase.Working? && delivered
    case _ => false
  }

  lemma DeliveriesStep(cfg: Config, s: Slot, e: Event, now: Time)
    ensures Apply(cfg, s, e, now).tally.deliveries == s.tally.deliveries + if Delivers(s, e) then 1 else 0
  {
    hide Retry;
  }

  // ---- every row of every trace -------------------------------------------------------------

  function CountPosted(posted: seq<Posted>, id: int): nat {
    if posted == [] then 0
    else CountPosted(posted[..|posted| - 1], id) + if posted[|posted| - 1].alert == id then 1 else 0
  }

  predicate WasPosted(w: Routed, id: int, messageId: int) {
    exists p :: p in w.posted && p.alert == id && p.messageId == Some(messageId)
  }

  predicate WasSuppressed(w: Routed, id: int) { exists x :: x in w.suppressed && x.alert == id }

  /** The ids that may stand on the row of alert `id`. */
  function Known(w: Routed, id: int): set<int> {
    (set p | p in w.posted && p.alert == id && p.messageId.Some? :: p.messageId.value)
    + if WasSuppressed(w, id) then {0} else {}
  }

  predicate Truthful(setup: Setup, w: Routed) {
    && (forall id :: id in w.world.slots ==> Honest(w.world.slots[id], Known(w, id)))
    && (forall id :: id in w.world.slots ==> w.world.slots[id].tally.deliveries == CountPosted(w.posted, id))
    && (forall p :: p in w.posted ==> p.alert in w.world.slots && p.chatId == setup.router.signalChatId)
    && (forall x :: x in w.suppressed ==> ChatOf(setup, x.kind, x.text).None?)
  }

  lemma {:induction false} NothingPosted(posted: seq<Posted>, id: int)
    requires forall p :: p in posted ==> p.alert != id
    ensures CountPosted(posted, id) == 0
    decreases |posted|
  {
    if posted != [] {
      assert posted[|posted| - 1] in posted;
      NothingPosted(posted[..|posted| - 1], id);
    }
  }

  lemma {:induction false} PostedMore(posted: seq<Posted>, more: seq<Posted>, id: int)
    ensures CountPosted(posted + more, id) == CountPosted(posted, id) + CountPosted(more, id)
    decreases |more|
  {
    if more == [] {
      assert posted + more == posted;
    } else {
      assert (posted + more)[..|posted + more| - 1] == posted + more[..|more| - 1];
      PostedMore(posted, more[..|more| - 1], id);
    }
  }

  lemma KnownGrows(w: Routed, w': Routed, id: int)
    requires w.posted <= w'.posted && w.suppressed <= w'.suppressed
    ensures Known(w, id) <= Known(w', id)
  {
    forall p | p in w.posted
      ensures p in w'.posted
    {
    }
    forall x | x in w.suppressed
      ensures x in w'.suppressed
    {
    }
  }

  lemma HonestMore(s: Slot, known: set<int>, more: set<int>)
    requires Honest(s, known) && known <= more
    ensures Honest(s, more)
  {
  }

  /** A move that sends nothing. */
  lemma SilentMove(setup: Setup, w: Routed, m: Move)
    requires Truthful(setup, w) && Silent(m)
    ensures Truthful(setup, w.(world := MoveWorld(setup.cfg, w.world, m)))
  {
    hide Apply, Known, CountPosted, Delivers, Honest;
    var w' := w.(world := MoveWorld(setup.cfg, w.world, m));
    forall id | id in w'.world.slots
      ensures Honest(w'.world.slots[id], Known(w', id))
      ensures w'.world.slots[id].tally.deliveries == CountPosted(w'.posted, id)
    {
      SameKnown(w, w', id);
      if id in w.world.slots {
        SilentStep(setup.cfg, w.world, m, id, Known(w, id));
      } else {
        NothingPosted(w.posted, id);
        InsertedHonest(w'.world.slots[id], Known(w', id));
      }
    }
  }

  lemma SameKnown(w: Routed, w': Routed, id: int)
    requires w.posted == w'.posted && w.suppressed == w'.suppressed
    ensures Known(w, id) == Known(w', id)
  {
  }

  lemma InsertedHonest(s: Slot, known: set<int>)
    requires s.holder.Nobody? && s.late == [] && s.row.status.Pending?
    ensures Honest(s, known)
  {
  }

  lemma SilentStep(cfg: Config, w: World, m: Move, id: int, known: set<int>)
    requires id in w.slots && Silent(m) && Honest(w.slots[id], known)
    ensures id in MoveWorld(cfg, w, m).slots && Honest(MoveWorld(cfg, w, m).slots[id], known)
    ensures MoveWorld(cfg, w, m).slots[id].tally.deliveries == w.slots[id].tally.deliveries
  {
    hide Apply, Honest;
    var s := w.slots[id];
    assert known + {} == known;
    HonestStep(cfg, s, Claimed, w.now, known);
    DeliveriesStep(cfg, s, Claimed, w.now);
    HonestStep(cfg, s, Reset, w.now, known);
    DeliveriesStep(cfg, s, Reset, w.now);
    if m.SenderStep? {
      HonestStep(cfg, s, m.event, w.now, known);
      DeliveriesStep(cfg, s, m.event, w.now);
    }
  }

  /** An alert is handed on to the signal chat or to none. */
  lemma OnlyTheSignalChat(setup: Setup, kind: string, text: string)
    ensures ChatOf(setup, kind, text) == None || ChatOf(setup, kind, text) == Some(setup.router.signalChatId)
  {
    hide R.Handed;
    R.MarkedSentMeans(setup.router, setup.guard, kind, text, R.Id(0));
  }

  lemma OtherSlots(cfg: Config, w: World, id: int, e: Event)
    requires id in w.slots && !e.Claimed? && !e.Reset?
    ensures var slots := MoveWorld(cfg, w, SenderStep(id, e)).slots;
      slots.Keys == w.slots.Keys && slots[id] == Apply(cfg, w.slots[id], e, w.now)
      && forall other :: other in slots && other != id ==> slots[other] == w.slots[other]
  {
    hide Apply;
  }

  /** One send with answer `e`, posting `more` and suppressing `dropped`, all for alert `id`. */
  lemma SendMove(setup: Setup, w: Routed, id: int, e: Event, more: seq<Posted>, dropped: seq<Suppressed>)
    requires Truthful(setup, w) && id in w.world.slots && !e.Claimed? && !e.Reset?
    requires forall p :: p in more ==> p.alert == id && p.chatId == setup.router.signalChatId
    requires forall x :: x in dropped ==> x.alert == id && ChatOf(setup, x.kind, x.text).None?
    requires CountPosted(more, id) == if Delivers(w.world.slots[id], e) then 1 else 0
    requires forall k :: k in Learned(e) ==> (exists p :: p in more && p.messageId == Some(k)) || (k == 0 && dropped != [])
    ensures Truthful(setup, Routed(MoveWorld(setup.cfg, w.world, SenderStep(id, e)), w.posted + more, w.suppressed + dropped))
  {
    hide Apply, Known, CountPosted, Delivers, Honest, Learned, MoveWorld, ChatOf;
    var w' := Routed(MoveWorld(setup.cfg, w.world, SenderStep(id, e)), w.posted + more, w.suppressed + dropped);
    OtherSlots(setup.cfg, w.world, id, e);
    forall other | other in w'.world.slots
      ensures Honest(w'.world.slots[other], Known(w', other))
      ensures w'.world.slots[other].tally.deliveries == CountPosted(w'.posted, other)
    {
      KnownGrows(w, w', other);
      PostedMore(w.posted, more, other);
      if other == id {
        HonestStep(setup.cfg, w.world.slots[id], e, w.world.now, Known(w, id));
        DeliveriesStep(setup.cfg, w.world.slots[id], e, w.world.now);
        LearnedIsKnown(w', id, Learned(e), more, dropped);
        HonestMore(w'.world.slots[id], Known(w, id) + Learned(e), Known(w', id));
      } else {
        NothingPosted(more, other);
        HonestMore(w.world.slots[other], Known(w, other), Known(w', other));
      }
    }
  }

  lemma LearnedIsKnown(w: Routed, id: int, learned: set<int>, more: seq<Posted>, dropped: seq<Suppressed>)
    requires forall p :: p in more ==> p in w.posted && p.alert == id
    requires forall x :: x in dropped ==> x in w.suppressed && x.alert == id
    requires forall k :: k in learned ==> (exists p :: p in more && p.messageId == Some(k)) || (k == 0 && dropped != [])
    ensures learned <= Known(w, id)
  {
    if dropped != [] {
      assert dropped[0] in dropped && dropped[0].alert == id;
      assert WasSuppressed(w, id);
    }
    forall k | k in learned
      ensures k in Known(w, id)
    {
      if p :| p in more && p.messageId == Some(k) {
        assert p in w.posted && p.alert == id && p.messageId.value == k;
      }
    }
  }

  lemma PostsOne(id: int, chat: string, reply: Reply)
    ensures CountPosted(Posts(id, chat, reply), id) == if reply.Takes? || reply.delivered then 1 else 0
  {
    var more := Posts(id, chat, reply);
    if more != [] {
      assert more[..|more| - 1] == [];
    }
  }

  lemma ActKeeps(setup: Setup, w: Routed, a: Action)
    requires Truthful(setup, w) && Safe(setup.cfg, w.world)
    ensures Truthful(setup, Act(setup, w, a)) && Safe(setup.cfg, Act(setup, w, a).world)
  {
    hide Truthful, Safe, MoveWorld, ChatOf;
    match a
    case Queue(m) =>
      if Silent(m) {
        SilentMove(setup, w, m);
        SafeMove(setup.cfg, w.world, m);
      }
    case Transmit(id, who, kind, text, reply) =>
      if CanSend(w.world, id, who) {
        OnlyTheSignalChat(setup, kind, text);
        match ChatOf(setup, kind, text) {
          case None =>
            SendMove(setup, w, id, SendDropped(who), [], [Suppressed(id, kind, text)]);
            assert w.posted + [] == w.posted;
          case Some(chat) =>
            var more, e := Posts(id, chat, reply), EventOf(who, reply);
            assert reply.Takes? ==> more[0].messageId == Some(reply.messageId) && more[0] in more;
            PostsOne(id, chat, reply);
            SendMove(setup, w, id, e, more, []);
            assert w.suppressed + [] == w.suppressed;
        }
        SafeMove(setup.cfg, w.world, SenderStep(id, SendDropped(who)));
        SafeMove(setup.cfg, w.world, SenderStep(id, EventOf(who, reply)));
      }
  }

  lemma {:induction false} EveryTraceIsTruthful(setup: Setup, start: Time, actions: seq<Action>)
    ensures var w := RunRouted(setup, start, actions); Truthful(setup, w) && Safe(setup.cfg, w.world)
    decreases |actions|
  {
    hide Act;
    if actions == [] {
      hide Known, Honest;
    } else {
      hide Truthful, Safe;
      var before := actions[..|actions| - 1];
      EveryTraceIsTruthful(setup, start, before);
      ActKeeps(setup, RunRouted(setup, start, before), actions[|actions| - 1]);
    }
  }

  /**
   * On every trace of the queue over router, guard and transport: a row marked sent carries
   * the id of a message the transport took for this alert in the signal chat, or 0 and a text
   * of this alert was dropped by router or guard; alerts appear in no other chat; and the
   * messages of one alert in the signal chat are at most one, plus its duplicating resets and
   * its lost acknowledgements.
   */
  lemma SentRowsAreExplained(setup: Setup, start: Time, actions: seq<Action>)
    ensures var w := RunRouted(setup, start, actions);
      && (forall p :: p in w.posted ==> p.chatId == setup.router.signalChatId)
      && (forall x :: x in w.suppressed ==> ChatOf(setup, x.kind, x.text).None?)
      && forall id :: id in w.world.slots ==>
        var s := w.world.slots[id];
        && (s.row.status.Sent? ==> s.row.messageId.Some?)
        && (s.row.status.Sent? ==>
          WasPosted(w, id, s.row.messageId.value) || (s.row.messageId.value == 0 && WasSuppressed(w, id)))
        && CountPosted(w.posted, id) <= 1 + s.tally.duplicates + s.tally.lostAcks
  {
    hide RunRouted, Tried, ChatOf, CountPosted;
    EveryTraceIsTruthful(setup, start, actions);
    var w := RunRouted(setup, start, actions);
    forall id | id in w.world.slots && w.world.slots[id].row.status.Sent?
      ensures w.world.slots[id].row.messageId.Some?
      ensures WasPosted(w, id, w.world.slots[id].row.messageId.value)
        || (w.world.slots[id].row.messageId.value == 0 && WasSuppressed(w, id))
    {
      assert w.world.slots[id].row.messageId.value in Known(w, id);
    }
  }
}
