// The rule engine's event plumbing: input drivers, other producers, the timer
// task and the engine task, interleaved step by step.
module RuleEvents {
  import opened Options

  const QUEUE_DEPTH := 16
  const RING_SLOTS := 49      // one slot is the empty marker

  datatype Payload = Input(ch: nat, level: bool) | Timer(id: nat) | Other
  datatype Event = Event(number: nat, p: Payload)
  datatype Deferred = Deferred(number: nat, id: nat)

  // The driver holding the input lock: idle, about to post the level it has
  // just stored, or about to flag the change the full queue refused.
  datatype Report = Silent | Sending(ch: nat) | Losing(ch: nat)

  // The engine task between two atomic accesses.
  datatype Pc =
    | Idle
    | Marked(ch: nat)                // resync: mark set, level not read yet
    | Live(ch: nat, level: bool)     // resync: level read, not delivered yet
    | InHand(e: Event)               // received, not handled yet
    | Due                            // the first deferred timer's turn has come

  datatype Sys = Sys(
    last: nat,                       // s_evt_seq
    queue: seq<Event>,               // s_queue
    level: map<nat, bool>,           // s_state[] of the drivers
    report: Report,
    lost: set<nat>,                  // s_input_lost
    failed: Option<Deferred>,        // numbered, refused by the queue, not yet in the ring
    ring: seq<Deferred>,             // s_overflow[]
    mark: map<nat, nat>,             // s_input_mark[]
    seen: map<nat, bool>,            // _di_seen
    taken: set<nat>,                 // lost bits this resync pass still has to deliver
    pc: Pc,
    ran: seq<Deferred>)              // deferred timers run so far

  datatype Step =
    | Change(ch: nat, level: bool)   // a driver stores a level it has read
    | SendReport
    | FlagLost
    | Post                           // MQTT, analog, activity, reload, time sync
    | TimerFires(id: nat)
    | Defer
    | TakeLost
    | Mark(ch: nat)
    | ReadLive
    | DeliverLive
    | DeliverFails(reached: bool)    // the call threw, after or before storing the level
    | Peek
    | RunDeferred
    | Receive
    | Handle

  // evt_send(): numbering and queueing are one step.
  function Sent(s: Sys, p: Payload): Sys {
    var n := s.last + 1;
    s.(last := n, queue := if |s.queue| < QUEUE_DEPTH then s.queue + [Event(n, p)] else s.queue)
  }

  predicate Room(s: Sys) { |s.queue| < QUEUE_DEPTH }

  predicate HeadWaitsBefore(s: Sys, d: Deferred) {
    s.queue != [] && s.queue[0].number <= d.number
  }

  predicate Stale(s: Sys, e: Event) {
    e.p.Input? && e.p.ch in s.mark && e.number <= s.mark[e.p.ch]
  }

  predicate Enabled(s: Sys, x: Step) {
    match x
    case Change(ch, _) => s.report == Silent && ch in s.level
    case SendReport => s.report.Sending? && s.report.ch in s.level
    case FlagLost => s.report.Losing?
    case Post => true
    case TimerFires(_) => s.failed == None
    case Defer => s.failed.Some?
    case TakeLost => s.pc == Idle && s.taken == {}
    case Mark(ch) => s.pc == Idle && ch in s.taken
    case ReadLive => s.pc.Marked? && s.pc.ch in s.level
    case DeliverLive => s.pc.Live?
    case DeliverFails(_) => s.pc.Live?
    case Peek => s.pc == Idle && s.taken == {} && s.ring != [] && !HeadWaitsBefore(s, s.ring[0])
    case RunDeferred => s.pc == Due && s.ring != []
    case Receive => s.pc == Idle && s.taken == {} && s.queue != []
    case Handle => s.pc.InHand?
  }

  function Apply(s: Sys, x: Step): Sys
    requires Enabled(s, x)
  {
    match x
    case Change(ch, v) => s.(level := s.level[ch := v], report := Sending(ch))
    case SendReport =>
      var ch := s.report.ch;
      Sent(s, Input(ch, s.level[ch])).(report := if Room(s) then Silent else Losing(ch))
    case FlagLost => s.(lost := s.lost + {s.report.ch}, report := Silent)
    case Post => Sent(s, Other)
    case TimerFires(id) =>
      Sent(s, Timer(id)).(failed := if Room(s) then None else Some(Deferred(s.last + 1, id)))
    case Defer => s.(failed := None, ring := if |s.ring| < RING_SLOTS - 1 then s.ring + [s.failed.value] else s.ring)
    case TakeLost => s.(taken := s.lost, lost := {})
    case Mark(ch) => s.(mark := s.mark[ch := s.last], pc := Marked(ch))
    case ReadLive => s.(pc := Live(s.pc.ch, s.level[s.pc.ch]))
    case DeliverLive => s.(seen := s.seen[s.pc.ch := s.pc.level], taken := s.taken - {s.pc.ch}, pc := Idle)
    case DeliverFails(reached) =>
      s.(seen := if reached then s.seen[s.pc.ch := s.pc.level] else s.seen,
         lost := s.lost + {s.pc.ch}, taken := s.taken - {s.pc.ch}, pc := Idle)
    case Peek => s.(pc := Due)
    case RunDeferred => s.(ran := s.ran + [s.ring[0]], ring := s.ring[1..], pc := Idle)
    case Receive => s.(pc := InHand(s.queue[0]), queue := s.queue[1..])
    case Handle =>
      var e := s.pc.e;
      if e.p.Input? && !Stale(s, e) then s.(seen := s.seen[e.p.ch := e.p.level], pc := Idle)
      else s.(pc := Idle)
  }

  function Init(level: map<nat, bool>): Sys {
    Sys(0, [], level, Silent, {}, None, [], map[], map[], {}, Idle, [])
  }

  predicate Legal(s: Sys, steps: seq<Step>)
    decreases |steps|, 0
  {
    steps == [] || (Legal(s, steps[..|steps| - 1]) && Enabled(Run(s, steps[..|steps| - 1]), steps[|steps| - 1]))
  }

  function Run(s: Sys, steps: seq<Step>): Sys
    requires Legal(s, steps)
    decreases |steps|, 1
  {
    if steps == [] then s else Apply(Run(s, steps[..|steps| - 1]), steps[|steps| - 1])
  }

  ghost predicate Reachable(s: Sys) {
    exists level, steps :: Legal(Init(level), steps) && Run(Init(level), steps) == s
  }

  lemma ReachInit(level: map<nat, bool>)
    ensures Reachable(Init(level))
  {
    assert Legal(Init(level), []) && Run(Init(level), []) == Init(level);
  }

  lemma ReachStep(s: Sys, x: Step)
    requires Reachable(s) && Enabled(s, x)
    ensures Reachable(Apply(s, x))
  {
    var level, steps :| Legal(Init(level), steps) && Run(Init(level), steps) == s;
    var more := steps + [x];
    assert more[..|more| - 1] == steps;
    assert Legal(Init(level), more) && Run(Init(level), more) == Apply(s, x);
  }

  // ------------------------------------------------------------------- order

  predicate Rising(q: seq<Event>) {
    forall i, j :: 0 <= i < j < |q| ==> q[i].number < q[j].number
  }

  predicate RisingDeferred(q: seq<Deferred>) {
    forall i, j :: 0 <= i < j < |q| ==> q[i].number < q[j].number
  }

  function Handed(s: Sys): seq<Event> {
    if s.pc.InHand? then [s.pc.e] + s.queue else s.queue
  }

  function Postponed(s: Sys): seq<Deferred> {
    s.ran + s.ring + (if s.failed.Some? then [s.failed.value] else [])
  }

  ghost predicate QueueInOrder(s: Sys) {
    && Rising(Handed(s))
    && (forall i :: 0 <= i < |Handed(s)| ==> Handed(s)[i].number <= s.last)
    && (forall ch :: ch in s.mark ==> s.mark[ch] <= s.last)
  }

  ghost predicate RingInOrder(s: Sys) {
    && RisingDeferred(Postponed(s))
    && (forall i :: 0 <= i < |Postponed(s)| ==> Postponed(s)[i].number <= s.last)
  }

  // The first deferred timer was numbered before everything still queued.
  ghost predicate TurnHasCome(s: Sys) {
    s.ring != [] && forall i :: 0 <= i < |s.queue| ==> s.ring[0].number < s.queue[i].number
  }

  ghost predicate InOrder(s: Sys) {
    QueueInOrder(s) && RingInOrder(s) && (s.pc == Due ==> TurnHasCome(s))
  }

  lemma SentQueueInOrder(s: Sys, p: Payload)
    requires QueueInOrder(s)
    ensures QueueInOrder(Sent(s, p))
  {
    if Room(s) { assert Handed(Sent(s, p)) == Handed(s) + [Event(s.last + 1, p)]; }
  }

  lemma StepKeepsQueue(s: Sys, x: Step)
    requires QueueInOrder(s) && Enabled(s, x)
    ensures QueueInOrder(Apply(s, x))
  {
    var t := Apply(s, x);
    match x {
      case SendReport =>
        var p := Input(s.report.ch, s.level[s.report.ch]);
        SentQueueInOrder(s, p);
        assert Handed(t) == Handed(Sent(s, p));
      case Post => SentQueueInOrder(s, Other);
      case TimerFires(id) => SentQueueInOrder(s, Timer(id)); assert Handed(t) == Handed(Sent(s, Timer(id)));
      case Receive => assert Handed(t) == Handed(s);
      case Handle => assert Handed(t) == Handed(s)[1..];
      case _ => assert Handed(t) == Handed(s);
    }
  }

  // What a step does to the timers that did not fit the queue.
  lemma PostponedAfter(s: Sys, x: Step)
    requires Enabled(s, x)
    ensures var p, q := Postponed(s), Postponed(Apply(s, x));
            match x
            case TimerFires(id) => q == p + (if Room(s) then [] else [Deferred(s.last + 1, id)])
            case Defer => q == p || (p != [] && q == p[..|p| - 1])
            case _ => q == p
    ensures Apply(s, x).last >= s.last && (x.TimerFires? ==> Apply(s, x).last == s.last + 1)
  {
    var t := Apply(s, x);
    match x {
      case Defer => assert |s.ring| < RING_SLOTS - 1 || Postponed(t) == Postponed(s)[..|Postponed(s)| - 1];
      case RunDeferred => assert s.ran + [s.ring[0]] + s.ring[1..] == s.ran + s.ring;
      case _ =>
    }
  }

  lemma StepKeepsRing(s: Sys, x: Step)
    requires RingInOrder(s) && Enabled(s, x)
    ensures RingInOrder(Apply(s, x))
  {
    PostponedAfter(s, x);
    hide Apply, Postponed, Enabled;
  }

  lemma StepKeepsTurn(s: Sys, x: Step)
    requires InOrder(s) && Enabled(s, x)
    ensures Apply(s, x).pc == Due ==> TurnHasCome(Apply(s, x))
  {
    var t := Apply(s, x);
    if x == Peek {
      forall i | 0 <= i < |s.queue| ensures s.ring[0].number < s.queue[i].number {
        assert Handed(s)[0] == s.queue[0] && Handed(s)[i] == s.queue[i];
      }
    } else if t.pc == Due {
      assert Postponed(s)[|s.ran|] == s.ring[0];
      assert t.ring[0] == s.ring[0];
    }
  }

  lemma StepKeepsOrder(s: Sys, x: Step)
    requires InOrder(s) && Enabled(s, x)
    ensures InOrder(Apply(s, x))
  {
    StepKeepsQueue(s, x);
    StepKeepsRing(s, x);
    StepKeepsTurn(s, x);
  }

  // ---------------------------------------------------------------- agreement

  // The level a rule's condition on ch is checked against.
  function Checked(s: Sys, ch: nat): bool
    requires ch in s.level
  {
    if ch in s.seen then s.seen[ch] else s.level[ch]
  }

  predicate Counts(e: Event, mark: map<nat, nat>, ch: nat) {
    e.p.Input? && e.p.ch == ch && !(ch in mark && e.number <= mark[ch])
  }

  // The level of the last non-stale event for ch that is still waiting.
  function Latest(q: seq<Event>, mark: map<nat, nat>, ch: nat): Option<bool> {
    if q == [] then None
    else if Counts(q[|q| - 1], mark, ch) then Some(q[|q| - 1].p.level)
    else Latest(q[..|q| - 1], mark, ch)
  }

  // What the rules will check once everything waiting has been handled.
  function Expected(s: Sys, ch: nat): bool
    requires ch in s.level
  {
    match Latest(Handed(s), s.mark, ch)
    case Some(v) => v
    case None =>
      if s.pc.Marked? && s.pc.ch == ch then s.level[ch]
      else if s.pc.Live? && s.pc.ch == ch then s.pc.level
      else Checked(s, ch)
  }

  predicate Resyncing(s: Sys, ch: nat) {
    (s.pc.Marked? || s.pc.Live?) && s.pc.ch == ch
  }

  // Nothing about ch is between its driver and the queue, or set aside.
  predicate Settled(s: Sys, ch: nat) {
    && s.report != Sending(ch) && s.report != Losing(ch)
    && ch !in s.lost
    && (ch in s.taken ==> Resyncing(s, ch))
  }

  ghost predicate Agree(s: Sys) {
    && (forall ch :: ch in s.level && Settled(s, ch) ==> Expected(s, ch) == s.level[ch])
    && (s.pc.Marked? || s.pc.Live? ==> s.pc.ch in s.taken)
  }

  lemma {:induction false} LatestFront(e: Event, q: seq<Event>, mark: map<nat, nat>, ch: nat)
    ensures Latest([e] + q, mark, ch) ==
            (if Latest(q, mark, ch).Some? then Latest(q, mark, ch)
             else if Counts(e, mark, ch) then Some(e.p.level) else None)
  {
    var full := [e] + q;
    if q == [] {
      assert full[..|full| - 1] == [];
    } else {
      assert full[..|full| - 1] == [e] + q[..|q| - 1];
      LatestFront(e, q[..|q| - 1], mark, ch);
    }
  }

  lemma {:induction false} AllStale(q: seq<Event>, mark: map<nat, nat>, ch: nat)
    requires ch in mark && forall i :: 0 <= i < |q| ==> q[i].number <= mark[ch]
    ensures Latest(q, mark, ch) == None
  {
    if q != [] { AllStale(q[..|q| - 1], mark, ch); }
  }

  lemma {:induction false} OtherMark(q: seq<Event>, mark: map<nat, nat>, c: nat, n: nat, ch: nat)
    requires c != ch
    ensures Latest(q, mark[c := n], ch) == Latest(q, mark, ch)
  {
    if q != [] { OtherMark(q[..|q| - 1], mark, c, n, ch); }
  }

  lemma LatestBack(q: seq<Event>, e: Event, mark: map<nat, nat>, ch: nat)
    ensures Latest(q + [e], mark, ch) == (if Counts(e, mark, ch) then Some(e.p.level) else Latest(q, mark, ch))
  {
    assert (q + [e])[..|q|] == q;
  }

  lemma SentKeeps(s: Sys, p: Payload, ch: nat)
    requires InOrder(s)
    ensures Latest(Handed(Sent(s, p)), s.mark, ch) ==
            (if Room(s) && p.Input? && p.ch == ch then Some(p.level) else Latest(Handed(s), s.mark, ch))
  {
    if Room(s) {
      var e := Event(s.last + 1, p);
      assert Handed(Sent(s, p)) == Handed(s) + [e];
      LatestBack(Handed(s), e, s.mark, ch);
    }
  }

  lemma StepKeepsAgreement(s: Sys, x: Step)
    requires InOrder(s) && Agree(s) && Enabled(s, x)
    ensures Agree(Apply(s, x))
  {
    var t := Apply(s, x);
    forall ch | ch in t.level && Settled(t, ch)
      ensures Expected(t, ch) == t.level[ch]
    {
      ChannelAgrees(s, x, ch);
    }
  }

  lemma ChannelAgrees(s: Sys, x: Step, ch: nat)
    requires InOrder(s) && Agree(s) && Enabled(s, x)
    requires ch in Apply(s, x).level && Settled(Apply(s, x), ch)
    ensures Expected(Apply(s, x), ch) == Apply(s, x).level[ch]
  {
    hide InOrder, Agree, Expected, Settled;
    match x {
      case SendReport => PostAgrees(s, x, Input(s.report.ch, s.level[s.report.ch]), ch);
      case Post => PostAgrees(s, x, Other, ch);
      case TimerFires(id) => PostAgrees(s, x, Timer(id), ch);
      case Handle => HandleAgrees(s, ch);
      case Mark(c) => MarkAgrees(s, c, ch);
      case ReadLive => ResyncAgrees(s, x, ch);
      case DeliverLive => ResyncAgrees(s, x, ch);
      case DeliverFails(_) => ResyncAgrees(s, x, ch);
      case _ => ElseAgrees(s, x, ch);
    }
  }

  // The steps that change none of what is waiting for ch.
  lemma ElseAgrees(s: Sys, x: Step, ch: nat)
    requires Agree(s) && Enabled(s, x)
    requires x.Change? || x.FlagLost? || x.Defer? || x.TakeLost? || x.Peek? || x.RunDeferred? || x.Receive?
    requires ch in Apply(s, x).level && Settled(Apply(s, x), ch)
    ensures Expected(Apply(s, x), ch) == Apply(s, x).level[ch]
  {
    var t := Apply(s, x);
    assert Handed(t) == Handed(s) && t.mark == s.mark && t.seen == s.seen;
    assert ch in s.level && s.level[ch] == t.level[ch] && Settled(s, ch);
    hide Latest, Handed;
  }

  lemma PostAgrees(s: Sys, x: Step, p: Payload, ch: nat)
    requires InOrder(s) && Agree(s) && Enabled(s, x)
    requires match x
             case SendReport => p == Input(s.report.ch, s.level[s.report.ch])
             case Post => p == Other
             case TimerFires(id) => p == Timer(id)
             case _ => false
    requires ch in Apply(s, x).level && Settled(Apply(s, x), ch)
    ensures Expected(Apply(s, x), ch) == Apply(s, x).level[ch]
  {
    SentKeeps(s, p, ch);
    var t := Apply(s, x);
    assert Handed(t) == Handed(Sent(s, p)) &&
           t.mark == s.mark && t.seen == s.seen && t.pc == s.pc && t.level == s.level;
    if !(p.Input? && p.ch == ch) {
      assert Settled(s, ch);
    }
  }

  lemma HandleAgrees(s: Sys, ch: nat)
    requires Agree(s) && Enabled(s, Handle)
    requires ch in s.level && Settled(Apply(s, Handle), ch)
    ensures Expected(Apply(s, Handle), ch) == s.level[ch]
  {
    LatestFront(s.pc.e, s.queue, s.mark, ch);
    assert Settled(s, ch);
    hide Latest;
  }

  lemma MarkAgrees(s: Sys, c: nat, ch: nat)
    requires InOrder(s) && Agree(s) && Enabled(s, Mark(c))
    requires ch in s.level && Settled(Apply(s, Mark(c)), ch)
    ensures Expected(Apply(s, Mark(c)), ch) == s.level[ch]
  {
    var t := Apply(s, Mark(c));
    if c == ch {
      AllStale(s.queue, t.mark, ch);
    } else {
      OtherMark(s.queue, s.mark, c, s.last, ch);
      assert Settled(s, ch);
    }
  }

  lemma ResyncAgrees(s: Sys, x: Step, ch: nat)
    requires Agree(s) && Enabled(s, x) && (x.ReadLive? || x.DeliverLive? || x.DeliverFails?)
    requires ch in s.level && Settled(Apply(s, x), ch)
    ensures Expected(Apply(s, x), ch) == s.level[ch]
  {
    assert Settled(s, ch);
    assert Handed(Apply(s, x)) == Handed(s);
  }

  lemma {:induction false} RunsKeep(level: map<nat, bool>, steps: seq<Step>)
    requires Legal(Init(level), steps)
    ensures InOrder(Run(Init(level), steps)) && Agree(Run(Init(level), steps))
    decreases |steps|
  {
    if steps != [] {
      var most := steps[..|steps| - 1];
      RunsKeep(level, most);
      StepKeepsOrder(Run(Init(level), most), steps[|steps| - 1]);
      StepKeepsAgreement(Run(Init(level), most), steps[|steps| - 1]);
    }
  }

  lemma ReachableKeeps(s: Sys)
    requires Reachable(s)
    ensures InOrder(s) && Agree(s)
  {
    var level, steps :| Legal(Init(level), steps) && Run(Init(level), steps) == s;
    RunsKeep(level, steps);
  }

  // Main result: over every interleaving, for a channel with no non-stale
  // event waiting, no lost bit set -- in the shared word or among those the
  // resync pass has taken -- and no report under way, the level the rules
  // check is the driver's level.
  lemma RulesSeeTheInput(s: Sys, ch: nat)
    requires Reachable(s) && ch in s.level
    requires s.report != Sending(ch) && s.report != Losing(ch)
    requires ch !in s.lost && ch !in s.taken
    requires forall i :: 0 <= i < |Handed(s)| ==> !Counts(Handed(s)[i], s.mark, ch)
    ensures Checked(s, ch) == s.level[ch]
  {
    ReachableKeeps(s);
    NoneWaiting(Handed(s), s.mark, ch);
  }

  lemma {:induction false} NoneWaiting(q: seq<Event>, mark: map<nat, nat>, ch: nat)
    requires forall i :: 0 <= i < |q| ==> !Counts(q[i], mark, ch)
    ensures Latest(q, mark, ch) == None
  {
    if q != [] { NoneWaiting(q[..|q| - 1], mark, ch); }
  }

  // A resync of a channel: its level is read and delivered.
  function Resynced(s: Sys, ch: nat): Sys
    requires Enabled(s, Mark(ch)) && ch in s.level
  {
    Apply(Apply(Apply(s, Mark(ch)), ReadLive), DeliverLive)
  }

  // What a resync pass does: no lost bit is left, and the rules check the level
  // of each channel that had one as it is delivered; no event that was queued
  // before can bring an old level back.
  lemma ResyncSettles(s: Sys, ch: nat)
    requires InOrder(s) && Agree(s) && Enabled(s, TakeLost) && ch in s.lost && ch in s.level
    ensures var u := Apply(s, TakeLost);
            && u.lost == {} && u.level == s.level && u.queue == s.queue && Enabled(u, Mark(ch))
            && var t := Resynced(u, ch);
               && ch !in t.taken && t.lost == {} && t.pc == Idle && t.level == s.level && t.queue == s.queue
               && Checked(t, ch) == s.level[ch] && forall i :: 0 <= i < |t.queue| ==> !Counts(t.queue[i], t.mark, ch)
  {
    assert forall i :: 0 <= i < |s.queue| ==> Handed(s)[i] == s.queue[i];
  }

  // The bits the pass has taken do matter: the shared word can be clear, and
  // nothing waiting, while the rules still check the level before the lost
  // change.
  lemma TakenBitsMatter() returns (s: Sys)
    ensures Reachable(s) && 0 in s.level && s.lost == {} && s.report == Silent
    ensures forall i :: 0 <= i < |Handed(s)| ==> !Counts(Handed(s)[i], s.mark, 0)
    ensures Checked(s, 0) != s.level[0]
  {
    s := QueueFilled();
    s := Then(s, Change(0, true));
    s := Then(s, SendReport);
    s := Then(s, FlagLost);
    s := Then(s, TakeLost);
  }

  // Channel 0 was delivered as false; then other events filled the queue.
  lemma QueueFilled() returns (s: Sys)
    ensures Reachable(s) && |s.queue| == QUEUE_DEPTH
    ensures s.level == map[0 := false] && s.seen == map[0 := false] && s.report == Silent
    ensures s.pc == Idle && s.taken == {} && s.lost == {}
    ensures forall i :: 0 <= i < |s.queue| ==> s.queue[i].p == Other
  {
    s := LowDelivered();
    hide Reachable;
    while |s.queue| < QUEUE_DEPTH
      invariant Reachable(s) && |s.queue| <= QUEUE_DEPTH
      invariant s.level == map[0 := false] && s.seen == map[0 := false] && s.report == Silent
      invariant s.pc == Idle && s.taken == {} && s.lost == {}
      invariant forall i :: 0 <= i < |s.queue| ==> s.queue[i].p == Other
    {
      s := Then(s, Post);
    }
  }

  lemma LowDelivered() returns (s: Sys)
    ensures Reachable(s) && s.queue == []
    ensures s.level == map[0 := false] && s.seen == map[0 := false] && s.report == Silent
    ensures s.pc == Idle && s.taken == {} && s.lost == {} && s.mark == map[]
  {
    s := Init(map[0 := false]);
    ReachInit(map[0 := false]);
    hide Reachable;
    s := Then(s, Change(0, false));
    s := Then(s, SendReport);
    s := Then(s, Receive);
    s := Then(s, Handle);
  }

  lemma Then(s: Sys, x: Step) returns (t: Sys)
    requires Reachable(s) && Enabled(s, x)
    ensures Reachable(t) && t == Apply(s, x)
  {
    ReachStep(s, x);
    t := Apply(s, x);
  }

  // -------------------------------- an input event whose call is cut short

  // _on_input() cut short in _retry_arms(), before it has stored the level: the
  // event is gone, and no lost bit is set.
  function CutShort(s: Sys): Sys
    requires s.pc.InHand?
  {
    s.(pc := Idle)
  }

  // Nothing else says what the level of the event's channel is: no later event
  // of it waits, none is being reported, and no lost bit of it is set.
  predicate LastNews(s: Sys)
    requires s.pc.InHand?
  {
    var e := s.pc.e;
    && e.p.Input? && e.p.ch in s.level && Counts(e, s.mark, e.p.ch)
    && Latest(s.queue, s.mark, e.p.ch) == None && Settled(CutShort(s), e.p.ch)
  }

  // The rules go on agreeing with the driver exactly when the event was not the
  // last news of its channel, or no news at all.
  lemma CutExactly(s: Sys)
    requires Agree(s) && s.pc.InHand?
    ensures Agree(CutShort(s)) <==> (LastNews(s) ==> Checked(s, s.pc.e.p.ch) == s.pc.e.p.level)
  {
    var t, e := CutShort(s), s.pc.e;
    forall ch | ch in s.level && Settled(t, ch)
      ensures Expected(t, ch) == s.level[ch] <==>
              (LastNews(s) && ch == e.p.ch ==> Checked(s, ch) == e.p.level)
    {
      LatestFront(e, s.queue, s.mark, ch);
      assert Settled(s, ch) && Expected(s, ch) == s.level[ch];
    }
    hide Latest, Counts, Expected;
  }

  // A change of an input can be forgotten in that way.
  lemma CutForgetsAChange() returns (s: Sys)
    ensures Reachable(s) && s.pc.InHand? && 0 in s.level && LastNews(s)
    ensures Checked(CutShort(s), 0) != s.level[0] && CutShort(s).queue == [] && CutShort(s).lost == {}
  {
    s := LowDelivered();
    hide Reachable;
    s := Then(s, Change(0, true));
    s := Then(s, SendReport);
    assert |s.queue| == 1;
    s := Then(s, Receive);
    assert s.queue == [] && Counts(s.pc.e, s.mark, 0);
    assert Settled(CutShort(s), 0);
  }

  // Main result: the queue holds strictly rising numbers in every reachable
  // state; a deferred timer that is about to run was numbered before every
  // event still waiting; and deferred timers have run in number order.
  lemma DeferredTimersKeepTheirTurn(s: Sys)
    requires Reachable(s)
    ensures Rising(s.queue)
    ensures s.pc == Due ==> TurnHasCome(s)
    ensures RisingDeferred(s.ran + s.ring)
  {
    ReachableKeeps(s);
    assert forall i :: 0 <= i < |s.queue| ==> s.queue[i] == Handed(s)[if s.pc.InHand? then i + 1 else i];
    assert forall i :: 0 <= i < |s.ran + s.ring| ==> (s.ran + s.ring)[i] == Postponed(s)[i];
  }
}
