// Timers the full table refused: every() and watchdog(), the arms of .after()
// steps and heldFor() rules, and the queue that tries them again.
module RetryArms {
  import opened Options
  import opened TimerTable

  datatype Kind = Every | Watchdog

  // started: a rule uses the every(), or the watchdog was started.
  datatype Trigger = Trigger(kind: Kind, timer: Option<nat>, waiting: bool, alive: bool, started: bool)

  datatype Entry = Rearm(o: nat) | AfterStep(k: nat) | HeldArm(rule: nat)

  // Whose a timer is: an every()'s or a watchdog's, an .after() step's, a
  // heldFor() rule's.
  datatype Owner = OfTrigger(o: nat) | OfStep(k: nat) | OfRule(rule: nat)

  // Whose timer an entry that is not a trigger's asks for.
  function ArmOwner(e: Entry): Owner
    requires !e.Rearm?
  {
    if e.AfterStep? then OfStep(e.k) else OfRule(e.rule)
  }

  // An evaluation of a waiting heldFor() rule's conditions: the watchdogs they
  // feed meanwhile, and how they come out.
  datatype Check = Check(fed: seq<nat>, holds: bool)

  // What the scheduler cannot know. grants: whether the nth timer asked for can
  // be made if the table has room. checks: the nth evaluation.
  datatype Env = Env(grants: nat -> bool, checks: nat -> Check)

  const RETRY_CAP := 256

  // The conditions have no effect of their own.
  ghost predicate Pure(env: Env) {
    forall n: nat :: env.checks(n).fed == []
  }

  // A timer is refused only by a full table.
  ghost predicate RefusedOnlyWhenFull(env: Env) {
    forall n: nat :: env.grants(n)
  }

  // held: the rules with _heldWaiting set. calling: a timer's callback runs;
  // firing: if it is an every()'s, which.
  datatype Snap = Snap(
    triggers: map<nat, Trigger>, queue: seq<Entry>, held: set<nat>,
    live: map<nat, Owner>, next: nat,
    asked: nat, checked: nat,
    calling: bool, firing: Option<nat>)

  // Entries and timers are of triggers that exist.
  ghost predicate Known(s: Snap) {
    && (forall i :: 0 <= i < |s.queue| && s.queue[i].Rearm? ==> s.queue[i].o in s.triggers)
    && (forall id :: id in s.live && s.live[id].OfTrigger? ==> s.live[id].o in s.triggers)
    && (s.firing.Some? ==> s.firing.value in s.triggers)
  }

  // ---------------------------------------------------------- what each does

  predicate Takes(env: Env, s: Snap) {
    |s.live| < MAX_TIMERS && env.grants(s.asked)
  }

  // No trigger and no check comes or goes, and no entry goes.
  predicate Kept(s: Snap, t: Snap) {
    t.triggers.Keys == s.triggers.Keys && t.held == s.held && |t.queue| >= |s.queue|
  }

  // The table takes trigger o's timer.
  function Granted(s: Snap, o: nat): (t: Snap)
    requires o in s.triggers
    ensures (Known(s) ==> Known(t)) && Kept(s, t)
  {
    s.(triggers := s.triggers[o := s.triggers[o].(timer := Some(s.next))],
       live := s.live[s.next := OfTrigger(o)], next := s.next + 1, asked := s.asked + 1)
  }

  // The table refuses it: the trigger gets an entry, first in line, unless it
  // has one.
  function Refused(s: Snap, o: nat): (t: Snap)
    requires o in s.triggers
    ensures (Known(s) ==> Known(t)) && Kept(s, t)
  {
    s.(triggers := s.triggers[o := s.triggers[o].(timer := None, waiting := true)], asked := s.asked + 1,
       queue := if s.triggers[o].waiting then s.queue else [Rearm(o)] + s.queue)
  }

  function SetTimer(env: Env, s: Snap, o: nat): (t: Snap)
    requires o in s.triggers
    ensures (Known(s) ==> Known(t)) && Kept(s, t)
  {
    if Takes(env, s) then Granted(s, o) else Refused(s, o)
  }

  function TakenBy(s: Snap, owner: Owner): (t: Snap)
    requires !owner.OfTrigger?
    ensures Known(s) ==> Known(t)
  {
    s.(live := s.live[s.next := owner], next := s.next + 1, asked := s.asked + 1)
  }

  function Started(s: Snap, o: nat, alive: bool): (t: Snap)
    requires o in s.triggers
    ensures (Known(s) ==> Known(t)) && Kept(s, t)
  {
    s.(triggers := s.triggers[o := s.triggers[o].(started := true, alive := alive)])
  }

  // The trigger's timer is cleared; the trigger still names it.
  function Unset(s: Snap, o: nat): (t: Snap)
    requires o in s.triggers && s.triggers[o].timer.Some?
    ensures Known(s) ==> Known(t)
  {
    s.(live := s.live - {s.triggers[o].timer.value})
  }

  // Watchdog._rearm() while _retry_arms() runs: clearing its timer retries
  // nothing then.
  function Replaced(env: Env, s: Snap, o: nat): (t: Snap)
    requires o in s.triggers
    ensures (Known(s) ==> Known(t)) && Kept(s, t)
  {
    SetTimer(env, if s.triggers[o].timer.Some? then Unset(s, o) else s, o)
  }

  // Watchdog.feed() by a condition.
  function FedOne(env: Env, s: Snap, o: nat): (t: Snap)
    ensures (Known(s) ==> Known(t)) && Kept(s, t)
  {
    if o !in s.triggers || s.triggers[o].kind != Watchdog then s else Replaced(env, Started(s, o, true), o)
  }

  function FedAll(env: Env, s: Snap, fed: seq<nat>): (t: Snap)
    ensures (Known(s) ==> Known(t)) && Kept(s, t) && (fed == [] ==> t == s)
  {
    if fed == [] then s else FedOne(env, FedAll(env, s, fed[..|fed| - 1]), fed[|fed| - 1])
  }

  // What running the first entry makes of the state, and whether it is done.
  datatype Ran = Ran(s: Snap, taken: bool)

  // An arm that is done with is one fewer to check, or has queued nothing.
  predicate Sooner(s: Snap, r: Ran) {
    && r.s.triggers.Keys == s.triggers.Keys && |r.s.queue| >= |s.queue|
    && (r.taken ==> |r.s.held| < |s.held| || (r.s.held == s.held && r.s.queue == s.queue))
  }

  function Waited(s: Snap, o: nat): (t: Snap)
    requires o in s.triggers
    ensures Known(s) ==> Known(t)
  {
    s.(triggers := s.triggers[o := s.triggers[o].(waiting := false)])
  }

  function RunRearm(env: Env, s: Snap, o: nat): (r: Ran)
    requires o in s.triggers
    ensures (Known(s) ==> Known(r.s)) && Sooner(s, r)
  {
    if s.triggers[o].timer.Some? then Ran(Waited(s, o), true)
    else if Takes(env, s) then Ran(Waited(Granted(s, o), o), true)
    else Ran(Refused(s, o), false)
  }

  function RunHeldArm(env: Env, s: Snap, r: nat): (ran: Ran)
    ensures (Known(s) ==> Known(ran.s)) && Sooner(s, ran)
  {
    if r !in s.held then Ran(s, true)
    else
      assert |s.held - {r}| < |s.held|;
      var c := env.checks(s.checked);
      var t := FedAll(env, s.(checked := s.checked + 1), c.fed);
      if !c.holds then Ran(t.(held := t.held - {r}), true)
      else if Takes(env, t) then Ran(TakenBy(t, OfRule(r)).(held := t.held - {r}), true)
      else Ran(t.(asked := t.asked + 1), false)
  }

  function RunFirst(env: Env, s: Snap): (r: Ran)
    requires Known(s) && s.queue != []
    ensures Known(r.s) && Sooner(s, r)
  {
    match s.queue[0]
    case Rearm(o) => RunRearm(env, s, o)
    case AfterStep(k) =>
      if Takes(env, s) then Ran(TakenBy(s, OfStep(k)), true) else Ran(s.(asked := s.asked + 1), false)
    case HeldArm(r) => RunHeldArm(env, s, r)
  }

  function Shift(s: Snap): (t: Snap)
    requires s.queue != []
    ensures Known(s) ==> Known(t)
  {
    s.(queue := s.queue[1..])
  }

  // One turn of the loop of _retry_arms(): whatever is first then goes.
  function Turn(env: Env, s: Snap): (t: Snap)
    requires Known(s) && s.queue != []
    ensures Known(t)
  {
    var r := RunFirst(env, s);
    if r.taken then Shift(r.s) else r.s
  }

  function Pass(env: Env, s: Snap): (t: Snap)
    requires Known(s)
    ensures Known(t) && t.triggers.Keys == s.triggers.Keys
    decreases |s.held|, |s.queue|
  {
    if s.queue == [] then s
    else
      var r := RunFirst(env, s);
      if r.taken then Pass(env, Shift(r.s)) else r.s
  }

  // ------------------------------------------------------------- the calls

  function Armed(env: Env, s: Snap, o: nat): (t: Snap)
    requires o in s.triggers
    ensures (Known(s) ==> Known(t)) && Kept(s, t)
  {
    if s.triggers[o].timer.Some? then s else SetTimer(env, s, o)
  }

  // Watchdog._rearm(): its old timer is cleared first, which lets waiting
  // entries take the slot.
  function Rearmed(env: Env, s: Snap, o: nat): (t: Snap)
    requires Known(s) && o in s.triggers
    ensures Known(t) && t.triggers.Keys == s.triggers.Keys
  {
    SetTimer(env, if s.triggers[o].timer.Some? then Pass(env, Unset(s, o)) else s, o)
  }

  // A rule that uses the trigger registers.
  function OnRegister(env: Env, s: Snap, o: nat): (t: Snap)
    requires Known(s) && o in s.triggers
    ensures Known(t)
  {
    var u := Started(s, o, s.triggers[o].alive);
    if s.triggers[o].kind == Every then Armed(env, u, o)
    else if s.triggers[o].started then u else Rearmed(env, u, o)
  }

  // A script makes an every() or a watchdog(): no rule uses it yet.
  function OnCreate(s: Snap, o: nat, kind: Kind): (t: Snap)
    requires Known(s)
    ensures Known(t)
  {
    s.(triggers := s.triggers[o := Trigger(kind, None, false, true, false)])
  }

  function Queued(s: Snap, e: Entry): (t: Snap)
    requires !e.Rearm?
    ensures Known(s) ==> Known(t)
  {
    if |s.queue| >= RETRY_CAP then s else s.(queue := s.queue + [e])
  }

  // _schedule_retrying()
  function OnAfter(env: Env, s: Snap, k: nat): (t: Snap)
    ensures Known(s) ==> Known(t)
  {
    if Takes(env, s) then TakenBy(s, OfStep(k)) else Queued(s.(asked := s.asked + 1), AfterStep(k))
  }

  // A heldFor() rule's conditions hold: its timer, or _held_later().
  function OnHeld(env: Env, s: Snap, r: nat): (t: Snap)
    ensures Known(s) ==> Known(t)
  {
    if Takes(env, s) then TakenBy(s, OfRule(r))
    else if r in s.held then s.(asked := s.asked + 1)
    else Queued(s.(asked := s.asked + 1, held := s.held + {r}), HeldArm(r))
  }

  // They do not: a timer it had is cleared, and it waits no more.
  function OnBroke(env: Env, s: Snap, r: nat, id: Option<nat>): (t: Snap)
    requires Known(s)
    ensures Known(t)
  {
    var u := if id.Some? then Pass(env, s.(live := s.live - {id.value})) else s;
    u.(held := u.held - {r})
  }

  // A timer runs out. An every() is armed again when its callback returns; a
  // watchdog has expired.
  function OnFire(s: Snap, id: nat): (t: Snap)
    requires Known(s) && id in s.live
    ensures Known(t)
  {
    var t := s.(live := s.live - {id}, calling := true);
    match s.live[id]
    case OfTrigger(o) =>
      if s.triggers[o].kind == Every
      then t.(triggers := s.triggers[o := s.triggers[o].(timer := None)], firing := Some(o))
      else t.(triggers := s.triggers[o := s.triggers[o].(timer := None, alive := false)])
    case _ => t
  }

  // The callback returns: an every() arms its next period, and then the
  // waiting entries get what is left.
  function OnReturn(env: Env, s: Snap): (t: Snap)
    requires Known(s)
    ensures Known(t)
  {
    Pass(env, NextPeriod(env, s)).(calling := false)
  }

  function NextPeriod(env: Env, s: Snap): (t: Snap)
    requires Known(s)
    ensures Known(t)
  {
    if s.firing.Some? then Armed(env, s.(firing := None), s.firing.value) else s
  }

  datatype Op =
    | DoCreate(o: nat, kind: Kind)
    | DoRegister(o: nat)
    | DoFeed(o: nat)
    | DoAfter(k: nat)
    | DoHeld(r: nat)
    | DoBroke(r: nat, id: Option<nat>)
    | DoEvent
    | DoFire(timer: nat)
    | DoReturn

  predicate Enabled(s: Snap, op: Op) {
    match op
    case DoCreate(o, _) => o !in s.triggers
    case DoRegister(o) => o in s.triggers
    case DoFeed(o) => o in s.triggers && s.triggers[o].kind == Watchdog
    case DoBroke(r, id) => id.Some? && id.value in s.live ==> s.live[id.value] == OfRule(r)
    case DoFire(id) => !s.calling && id in s.live
    case DoReturn => s.calling
    case _ => true
  }

  function Apply(env: Env, s: Snap, op: Op): (t: Snap)
    requires Known(s) && Enabled(s, op)
    ensures Known(t)
  {
    match op
    case DoCreate(o, kind) => OnCreate(s, o, kind)
    case DoRegister(o) => OnRegister(env, s, o)
    case DoFeed(o) => Rearmed(env, Started(s, o, true), o)
    case DoAfter(k) => OnAfter(env, s, k)
    case DoHeld(r) => OnHeld(env, s, r)
    case DoBroke(r, id) => OnBroke(env, s, r, id)
    case DoEvent => Pass(env, s)
    case DoFire(id) => OnFire(s, id)
    case DoReturn => OnReturn(env, s)
  }

  predicate Legal(env: Env, s: Snap, ops: seq<Op>)
    requires Known(s)
    decreases |ops|
  {
    ops == [] || (Enabled(s, ops[0]) && Legal(env, Apply(env, s, ops[0]), ops[1..]))
  }

  function Run(env: Env, s: Snap, ops: seq<Op>): (t: Snap)
    requires Known(s) && Legal(env, s, ops)
    ensures Known(t)
    decreases |ops|
  {
    if ops == [] then s else Run(env, Apply(env, s, ops[0]), ops[1..])
  }

  const START := Snap(map[], [], {}, map[], 0, 0, 0, false, None)

  lemma {:induction false} RunJoin(env: Env, s: Snap, a: seq<Op>, b: seq<Op>)
    requires Known(s) && Legal(env, s, a) && Legal(env, Run(env, s, a), b)
    ensures Legal(env, s, a + b) && Run(env, s, a + b) == Run(env, Run(env, s, a), b)
    decreases |a|
  {
    hide Known, Enabled, Apply;
    if a == [] {
      assert a + b == b;
    } else {
      assert (a + b)[1..] == a[1..] + b;
      RunJoin(env, Apply(env, s, a[0]), a[1..], b);
    }
  }

  lemma RunOne(env: Env, s: Snap, ops: seq<Op>, op: Op)
    requires Known(s) && Legal(env, s, ops) && Enabled(Run(env, s, ops), op)
    ensures Legal(env, s, ops + [op]) && Run(env, s, ops + [op]) == Apply(env, Run(env, s, ops), op)
  {
    var t := Run(env, s, ops);
    assert [op][1..] == [] && Legal(env, Apply(env, t, op), []);
    RunJoin(env, s, ops, [op]);
  }

  // -------------------------------------------------- nothing waits in vain

  predicate FullOrEmpty(s: Snap) {
    s.queue == [] || |s.live| >= MAX_TIMERS
  }

  // A pass ends with nothing left, or with the table's refusal.
  lemma {:induction false} PassRefused(env: Env, s: Snap)
    requires Known(s)
    ensures var t := Pass(env, s);
            t.queue == [] || (s.asked < t.asked && (|t.live| >= MAX_TIMERS || !env.grants(t.asked - 1)))
    decreases |s.held|, |s.queue|
  {
    hide Known, RunFirst, Takes;
    if s.queue != [] {
      var r := RunFirst(env, s);
      AsksAlong(env, s);
      if r.taken { PassRefused(env, Shift(r.s)); }
    }
  }

  lemma {:induction false} FedAsks(env: Env, s: Snap, fed: seq<nat>)
    ensures FedAll(env, s, fed).asked >= s.asked
  {
    if fed != [] { FedAsks(env, s, fed[..|fed| - 1]); }
  }

  // An entry that is not done with has asked for a timer, and got none.
  lemma AsksAlong(env: Env, s: Snap)
    requires Known(s) && s.queue != []
    ensures var r := RunFirst(env, s);
            s.asked <= r.s.asked &&
            (!r.taken ==> s.asked < r.s.asked && (|r.s.live| >= MAX_TIMERS || !env.grants(r.s.asked - 1)))
  {
    hide FedAll, Known, Sooner, Kept;
    match s.queue[0] {
      case HeldArm(r) => FedAsks(env, s.(checked := s.checked + 1), env.checks(s.checked).fed);
      case AfterStep(_) =>
      case Rearm(o) =>
    }
  }

  // Between callbacks an entry waits only while the table is full.
  ghost predicate NoneInVain(s: Snap) {
    !s.calling ==> FullOrEmpty(s)
  }

  lemma PassFills(env: Env, s: Snap)
    requires Known(s) && RefusedOnlyWhenFull(env)
    ensures FullOrEmpty(Pass(env, s)) && Pass(env, s).calling == s.calling
  {
    PassRefused(env, s);
    PassCalls(env, s);
  }

  lemma {:induction false} FedCalls(env: Env, s: Snap, fed: seq<nat>)
    ensures FedAll(env, s, fed).calling == s.calling && FedAll(env, s, fed).firing == s.firing
  {
    if fed != [] { FedCalls(env, s, fed[..|fed| - 1]); }
  }

  lemma FirstCalls(env: Env, s: Snap)
    requires Known(s) && s.queue != []
    ensures RunFirst(env, s).s.calling == s.calling && RunFirst(env, s).s.firing == s.firing
  {
    hide FedAll, Known, Sooner, Kept, Takes;
    if s.queue[0].HeldArm? { FedCalls(env, s.(checked := s.checked + 1), env.checks(s.checked).fed); }
  }

  lemma {:induction false} PassCalls(env: Env, s: Snap)
    requires Known(s)
    ensures Pass(env, s).calling == s.calling && Pass(env, s).firing == s.firing
    decreases |s.held|, |s.queue|
  {
    hide Known, RunFirst;
    if s.queue != [] {
      FirstCalls(env, s);
      var r := RunFirst(env, s);
      if r.taken { PassCalls(env, Shift(r.s)); }
    }
  }

  lemma RearmedInVain(env: Env, s: Snap, o: nat)
    requires Known(s) && o in s.triggers && NoneInVain(s) && RefusedOnlyWhenFull(env)
    ensures NoneInVain(Rearmed(env, s, o))
  {
    hide Known, Pass;
    if s.triggers[o].timer.Some? { PassFills(env, Unset(s, o)); }
  }

  lemma StepNotInVain(env: Env, s: Snap, op: Op)
    requires Known(s) && Enabled(s, op) && NoneInVain(s) && RefusedOnlyWhenFull(env)
    ensures NoneInVain(Apply(env, s, op))
  {
    hide Pass, Rearmed;
    match op {
      case DoRegister(o) =>
        if s.triggers[o].kind == Watchdog { RearmedInVain(env, Started(s, o, s.triggers[o].alive), o); }
      case DoFeed(o) => RearmedInVain(env, Started(s, o, true), o);
      case DoBroke(r, id) => if id.Some? { PassFills(env, s.(live := s.live - {id.value})); }
      case DoEvent => PassFills(env, s);
      case DoReturn => PassFills(env, NextPeriod(env, s));
      case _ =>
    }
  }

  // Main result: whatever is armed, cleared, fed, registered and fired, in any
  // order, and whatever conditions feed -- where only a full table refuses a
  // timer, an entry waits between callbacks only while the table is full.
  lemma {:induction false} NothingWaitsInVain(env: Env, s: Snap, ops: seq<Op>)
    requires Known(s) && NoneInVain(s) && RefusedOnlyWhenFull(env) && Legal(env, s, ops)
    ensures NoneInVain(Run(env, s, ops))
    decreases |ops|
  {
    if ops != [] {
      StepNotInVain(env, s, ops[0]);
      NothingWaitsInVain(env, Apply(env, s, ops[0]), ops[1..]);
    }
  }

  // ------------------------------------------------------ its own re-arm first

  // What the check leaves of the queue, the arm itself does not touch.
  lemma CheckedQueue(env: Env, s: Snap, h: nat)
    ensures var t := if h in s.held then FedAll(env, s.(checked := s.checked + 1), env.checks(s.checked).fed) else s;
            RunHeldArm(env, s, h).s.triggers == t.triggers && RunHeldArm(env, s, h).s.queue == t.queue
  {
    hide FedAll, Known, Sooner, Kept, Takes;
  }

  // Whatever conditions feed, an every()'s timer stays, and no trigger stops.
  ghost predicate EveryStays(s: Snap, t: Snap) {
    forall o :: o in s.triggers ==> o in t.triggers && Stays(s.triggers[o], t.triggers[o])
  }

  predicate Stays(a: Trigger, b: Trigger) {
    && b.kind == a.kind && (a.started ==> b.started) && (a.alive ==> b.alive)
    && (a.kind == Every && a.timer.Some? ==> b.timer == a.timer)
  }

  lemma {:induction false} FedStays(env: Env, s: Snap, fed: seq<nat>)
    ensures EveryStays(s, FedAll(env, s, fed))
  {
    hide Known, Kept, Takes;
    if fed != [] { FedStays(env, s, fed[..|fed| - 1]); }
  }

  lemma CheckStays(env: Env, s: Snap, h: nat)
    ensures EveryStays(s, RunHeldArm(env, s, h).s)
  {
    FedStays(env, s.(checked := s.checked + 1), env.checks(s.checked).fed);
    CheckedQueue(env, s, h);
    hide Known, Kept, Takes, Sooner, FedAll, RunHeldArm;
  }

  lemma FirstStays(env: Env, s: Snap)
    requires Known(s) && s.queue != []
    ensures EveryStays(s, RunFirst(env, s).s)
  {
    hide Known, Kept, Takes, Sooner, RunHeldArm;
    if s.queue[0].HeldArm? { CheckStays(env, s, s.queue[0].rule); }
  }

  lemma {:induction false} PassStays(env: Env, s: Snap)
    requires Known(s)
    ensures EveryStays(s, Pass(env, s))
    decreases |s.held|, |s.queue|
  {
    hide Known, RunFirst;
    if s.queue != [] {
      FirstStays(env, s);
      var r := RunFirst(env, s);
      if r.taken { PassStays(env, Shift(r.s)); }
    }
  }

  // Its own re-arm first: an every() takes a free slot straight back, before
  // any waiting entry gets it.
  lemma OwnRearmFirst(env: Env, s: Snap, o: nat)
    requires Known(s) && s.firing == Some(o) && s.triggers[o].kind == Every
    requires s.triggers[o].timer == None && Takes(env, s)
    ensures o in OnReturn(env, s).triggers && OnReturn(env, s).triggers[o].timer == Some(s.next)
  {
    var u := NextPeriod(env, s);
    assert u.triggers[o].timer == Some(s.next);
    PassStays(env, u);
    hide Known, Pass, NextPeriod;
  }

  // A watchdog that is fed is alive, and goes on being watched over.
  lemma FedIsAlive(env: Env, s: Snap, o: nat)
    requires Known(s) && Enabled(s, DoFeed(o))
    ensures var t := Apply(env, s, DoFeed(o));
            && o in t.triggers && t.triggers[o].alive && t.triggers[o].started && t.triggers[o].kind == Watchdog
            && (t.triggers[o].timer == None ==> t.triggers[o].waiting)
  {
    var u := Started(s, o, true);
    var v := if u.triggers[o].timer.Some? then Pass(env, Unset(u, o)) else u;
    if u.triggers[o].timer.Some? { PassStays(env, Unset(u, o)); }
    assert o in v.triggers && Stays(u.triggers[o], v.triggers[o]);
    SetOrWaits(env, v, o);
    hide Known, Pass, Takes, SetTimer, EveryStays;
  }

  lemma SetOrWaits(env: Env, s: Snap, o: nat)
    requires o in s.triggers
    ensures var t := SetTimer(env, s, o);
            && o in t.triggers && t.triggers[o].alive == s.triggers[o].alive
            && t.triggers[o].started == s.triggers[o].started && t.triggers[o].kind == s.triggers[o].kind
            && (t.triggers[o].timer == None ==> t.triggers[o].waiting)
  {
    hide Known, Takes;
  }

  // ------------------------------------------------------- the code itself

  // dsl.js, each call proved to be the step it is taken for.
  class Scheduler {
    const env: Env
    var triggers: map<nat, Trigger>
    var queue: seq<Entry>          // _retryArms
    var held: set<nat>             // rules with _heldWaiting
    var live: map<nat, Owner>      // the timer table
    var next: nat                  // ids from here on are unused
    var asked: nat
    var checked: nat
    var calling: bool
    var firing: Option<nat>
    var refused: bool              // _refused
    var retrying: bool             // _retrying

    function State(): Snap
      reads this
    {
      Snap(triggers, queue, held, live, next, asked, checked, calling, firing)
    }

    constructor (env: Env)
      ensures State() == START && !retrying && this.env == env
    {
      this.env := env;
      triggers, queue, held, live, next, asked, checked := map[], [], {}, map[], 0, 0, 0;
      calling, firing, refused, retrying := false, None, false, false;
    }

    // _schedule(): the table may refuse, and does when it is full.
    method Schedule(owner: Owner) returns (id: Option<nat>)
      modifies this`live, this`next, this`asked, this`refused
      ensures id == if Takes(env, old(State())) then Some(old(next)) else None
      ensures refused == (id == None || old(refused))
      ensures State() == if id == None then old(State()).(asked := old(asked) + 1)
                         else old(State()).(live := old(live)[old(next) := owner],
                                           next := old(next) + 1, asked := old(asked) + 1)
    {
      asked := asked + 1;
      if |live| >= MAX_TIMERS || !env.grants(asked - 1) {
        refused := true;
        return None;
      }
      id := Some(next);
      live := live[next := owner];
      next := next + 1;
    }

    // _rearm_when_free(): queued once, ahead of everything else.
    method RearmWhenFree(o: nat)
      requires o in triggers && triggers[o].timer == None
      modifies this`triggers, this`queue
      ensures State().(asked := asked + 1) == Refused(old(State()), o)
    {
      if triggers[o].waiting {
        assert triggers[o := triggers[o].(timer := None, waiting := true)] == triggers;
        return;
      }
      triggers := triggers[o := triggers[o].(waiting := true)];
      queue := [Rearm(o)] + queue;
    }

    // The arm itself: a timer, or an entry when the table refuses one.
    method Arm(o: nat)
      requires o in triggers
      modifies this`triggers, this`queue, this`live, this`next, this`asked, this`refused
      ensures State() == SetTimer(env, old(State()), o)
      ensures refused == (!Takes(env, old(State())) || old(refused))
    {
      ghost var s := State();
      var id := Schedule(OfTrigger(o));
      triggers := triggers[o := triggers[o].(timer := id)];
      if id == None {
        RearmWhenFree(o);
        assert s.triggers[o := s.triggers[o].(timer := None)][o := triggers[o]] == s.triggers[o := triggers[o]];
      }
    }

    // One queued entry: whether the table took it. It stays where it is.
    method RunEntry(e: Entry) returns (taken: bool)
      requires Known(State()) && retrying && queue != [] && queue[0] == e
      modifies this
      ensures Ran(State(), taken) == RunFirst(env, old(State())) && retrying
      decreases 5
    {
      match e {
        case AfterStep(k) =>
          var id := Schedule(OfStep(k));
          taken := id.Some?;
        case HeldArm(r) => taken := RunHeld(r);
        case Rearm(o) =>
          hide Known, Sooner, Kept;
          refused := false;
          if triggers[o].timer == None { Arm(o); }
          if refused { return false; }
          triggers := triggers[o := triggers[o].(waiting := false)];
          taken := true;
      }
    }

    // The closure of _held_later()
    method RunHeld(r: nat) returns (taken: bool)
      requires Known(State()) && retrying
      modifies this
      ensures Ran(State(), taken) == RunHeldArm(env, old(State()), r) && retrying
      decreases 4
    {
      hide Sooner, Kept, FedOne;
      if r !in held { return true; }
      var c := env.checks(checked);
      checked := checked + 1;
      ghost var s := State();
      for i := 0 to |c.fed|
        invariant State() == FedAll(env, s, c.fed[..i]) && retrying && Known(State())
      {
        assert c.fed[..i + 1][..i] == c.fed[..i];
        FedBy(c.fed[i]);
      }
      assert c.fed[..|c.fed|] == c.fed;
      hide Known;
      if !c.holds {
        held := held - {r};
        return true;
      }
      var id := Schedule(OfRule(r));
      if id == None { return false; }
      held := held - {r};
      taken := true;
    }

    // A condition's feed().
    method FedBy(o: nat)
      requires Known(State()) && retrying
      modifies this
      ensures State() == FedOne(env, old(State()), o) && retrying
      decreases 3
    {
      if o in triggers && triggers[o].kind == Watchdog { Feed(o); }
    }

    // _retry_arms()
    method RetryArms()
      requires Known(State())
      modifies this
      ensures retrying == old(retrying) && State() == if retrying then old(State()) else Pass(env, old(State()))
      decreases if retrying then 0 else 8
    {
      hide Known, RunFirst;
      if retrying || queue == [] { return; }
      ghost var s := State();
      retrying := true;
      while queue != []
        invariant retrying && Known(State()) && Pass(env, State()) == Pass(env, s)
        decreases |held|, |queue|
      {
        ghost var t := State();
        var taken := RunEntry(queue[0]);
        if !taken { break; }
        queue := queue[1..];
        assert State() == Shift(RunFirst(env, t).s);
      }
      retrying := false;
    }

    // Watchdog._rearm()
    method RearmWatchdog(o: nat)
      requires Known(State()) && o in triggers
      modifies this
      ensures State() == (if retrying then Replaced(env, old(State()), o) else Rearmed(env, old(State()), o))
      ensures retrying == old(retrying)
      decreases if retrying then 1 else 9
    {
      hide Kept;
      if triggers[o].timer.Some? {
        live := live - {triggers[o].timer.value};
        assert State() == Unset(old(State()), o);
        hide Known, Pass;
        RetryArms();
      }
      Arm(o);
    }

    // Watchdog.feed()
    method Feed(o: nat)
      requires Known(State()) && o in triggers && triggers[o].kind == Watchdog
      modifies this
      ensures var u := Started(old(State()), o, true);
              State() == if retrying then Replaced(env, u, o) else Rearmed(env, u, o)
      ensures retrying == old(retrying)
      decreases if retrying then 2 else 10
    {
      hide Kept, Pass;
      triggers := triggers[o := triggers[o].(started := true, alive := true)];
      assert State() == Started(old(State()), o, true);
      RearmWatchdog(o);
    }

    // IntervalCondition._arm()
    method ArmEvery(o: nat)
      requires o in triggers
      modifies this
      ensures State() == Armed(env, old(State()), o) && retrying == old(retrying)
    {
      if triggers[o].timer.Some? { return; }
      Arm(o);
    }

    // A rule that uses the trigger registers: IntervalCondition._arm() or
    // Watchdog._arm().
    method Register(o: nat)
      requires Known(State()) && !retrying && o in triggers
      modifies this
      ensures State() == OnRegister(env, old(State()), o) && !retrying
    {
      hide Kept, Pass, Rearmed, Armed;
      var first := !triggers[o].started;
      triggers := triggers[o := triggers[o].(started := true)];
      assert State() == Started(old(State()), o, old(triggers)[o].alive);
      if triggers[o].kind == Every {
        ArmEvery(o);
      } else if first {
        RearmWatchdog(o);
      }
    }

    // _arm_later() of an entry that is not a trigger's.
    method ArmLater(e: Entry)
      requires !e.Rearm?
      modifies this`queue
      ensures State() == Queued(old(State()), e)
    {
      if |queue| >= RETRY_CAP { return; }
      queue := queue + [e];
    }

    // _schedule_retrying()
    method ScheduleRetrying(k: nat)
      modifies this`live, this`next, this`asked, this`refused, this`queue
      ensures State() == OnAfter(env, old(State()), k)
    {
      var id := Schedule(OfStep(k));
      if id == None { ArmLater(AfterStep(k)); }
    }

    // _apply_match() of a heldFor() rule that is not armed: its timer, or
    // _held_later().
    method Matched(r: nat)
      modifies this`live, this`next, this`asked, this`refused, this`queue, this`held
      ensures State() == OnHeld(env, old(State()), r)
    {
      var id := Schedule(OfRule(r));
      if id.Some? || r in held { return; }
      held := held + {r};
      ArmLater(HeldArm(r));
    }

    // _apply_match() of a heldFor() rule whose conditions do not hold.
    method Broke(r: nat, id: Option<nat>)
      requires Known(State()) && !retrying
      modifies this
      ensures State() == OnBroke(env, old(State()), r, id) && !retrying
    {
      hide Pass;
      if id.Some? {
        live := live - {id.value};
        RetryArms();
      }
      held := held - {r};
    }

    // A timer runs out. The callback goes on until FireEnd.
    method FireBegin(id: nat)
      requires Known(State()) && id in live
      modifies this
      ensures State() == OnFire(old(State()), id) && retrying == old(retrying)
    {
      var owner := live[id];
      live := live - {id};
      calling := true;
      match owner {
        case OfTrigger(o) =>
          if triggers[o].kind == Every {
            triggers := triggers[o := triggers[o].(timer := None)];
            firing := Some(o);
          } else {
            triggers := triggers[o := triggers[o].(timer := None, alive := false)];
          }
        case _ =>
      }
    }

    // The callback returns: an every() arms its next period, and then the
    // waiting entries get what is left.
    method FireEnd()
      requires Known(State()) && !retrying
      modifies this
      ensures State() == OnReturn(env, old(State())) && !retrying
    {
      hide Pass, Armed;
      if firing.Some? {
        var o := firing.value;
        firing := None;
        ArmEvery(o);
      }
      RetryArms();
      calling := false;
    }

    method Take(op: Op)
      requires Known(State()) && Enabled(State(), op) && !retrying
      modifies this
      ensures State() == Apply(env, old(State()), op) && !retrying
    {
      hide Pass, Rearmed;
      match op {
        case DoCreate(o, kind) => triggers := triggers[o := Trigger(kind, None, false, true, false)];
        case DoRegister(o) => Register(o);
        case DoFeed(o) => Feed(o);
        case DoAfter(k) => ScheduleRetrying(k);
        case DoHeld(r) => Matched(r);
        case DoBroke(r, id) => Broke(r, id);
        case DoEvent => RetryArms();
        case DoFire(id) => FireBegin(id);
        case DoReturn => FireEnd();
      }
    }

    // The code, called in any order, makes the run of these calls: what is
    // proved of runs holds of it.
    method Execute(ops: seq<Op>)
      requires Known(State()) && !retrying && Legal(env, State(), ops)
      modifies this
      ensures Known(old(State())) && State() == Run(env, old(State()), ops) && !retrying
    {
      hide Known, Enabled, Apply;
      ghost var s := State();
      for n := 0 to |ops|
        invariant Known(State()) && !retrying && Legal(env, State(), ops[n..])
        invariant Run(env, State(), ops[n..]) == Run(env, s, ops)
      {
        assert ops[n..][0] == ops[n] && ops[n..][1..] == ops[n + 1..];
        Take(ops[n]);
      }
    }
  }
}
