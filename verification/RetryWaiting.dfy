// What becomes of the other timers the full table refused: the steps of
// .after() and the arms of heldFor() rules, whatever watchdogs the conditions
// of waiting rules feed.
module RetryWaiting {
  import opened Options
  import opened RetryArms
  import opened TimerTable

  // Ids are new, and a trigger's timer that is in the table is its own.
  ghost predicate Owned(s: Snap) {
    && (forall id :: id in s.live ==> id < s.next)
    && (forall o :: o in s.triggers && s.triggers[o].timer.Some? ==>
          s.triggers[o].timer.value < s.next &&
          (s.triggers[o].timer.value in s.live ==> s.live[s.triggers[o].timer.value] == OfTrigger(o)))
  }

  // An arm waits in the queue; a heldFor() rule's, as long as it is marked.
  predicate Waits(s: Snap, e: Entry) {
    e in s.queue && (e.HeldArm? ==> e.rule in s.held)
  }

  ghost predicate HasTimer(s: Snap, owner: Owner) {
    exists id :: id in s.live && s.live[id] == owner
  }

  ghost predicate There(s: Snap, e: Entry)
    requires !e.Rearm?
  {
    Waits(s, e) || HasTimer(s, ArmOwner(e))
  }

  // Conditions that are checked again still hold.
  ghost predicate StillHold(env: Env) {
    forall n: nat :: env.checks(n).holds
  }

  // ------------------------------------------- what triggers leave alone

  // Of the queue without the triggers' entries, the front entry, and the other
  // timers, nothing goes.
  ghost predicate Aside(s: Snap, t: Snap) {
    && t.held == s.held && Line(t.queue) == Line(s.queue)
    && (s.queue != [] ==> t.queue != [] && (t.queue[0].Rearm? || t.queue == s.queue))
    && (forall id :: id in s.live && !s.live[id].OfTrigger? ==> id in t.live && t.live[id] == s.live[id])
  }

  // The arms that wait, but for the triggers', in their order.
  function Line(queue: seq<Entry>): seq<Entry> {
    if queue == [] then [] else (if queue[0].Rearm? then [] else [queue[0]]) + Line(queue[1..])
  }

  lemma {:induction false} LineHas(queue: seq<Entry>, e: Entry)
    ensures e in Line(queue) <==> e in queue && !e.Rearm?
  {
    if queue != [] {
      LineHas(queue[1..], e);
      assert e in queue <==> e == queue[0] || e in queue[1..];
    }
  }

  lemma {:induction false} LineBack(queue: seq<Entry>, e: Entry)
    requires !e.Rearm?
    ensures Line(queue + [e]) == Line(queue) + [e]
  {
    if queue == [] {
      assert [] + [e] == [e] && [e][1..] == [];
    } else {
      assert (queue + [e])[1..] == queue[1..] + [e];
      LineBack(queue[1..], e);
      Regroup(if queue[0].Rearm? then [] else [queue[0]], Line(queue[1..]), [e]);
      hide Line;
    }
  }

  lemma Regroup(a: seq<Entry>, b: seq<Entry>, c: seq<Entry>)
    ensures a + b + c == a + (b + c)
  {
  }

  lemma LineFront(queue: seq<Entry>, o: nat)
    ensures Line([Rearm(o)] + queue) == Line(queue)
  {
    assert ([Rearm(o)] + queue)[1..] == queue;
  }

  lemma AsideJoin(s: Snap, t: Snap, u: Snap)
    requires Aside(s, t) && Aside(t, u)
    ensures Aside(s, u)
  {
    hide Line;
  }

  lemma SetAside(env: Env, s: Snap, o: nat)
    requires Owned(s) && o in s.triggers
    ensures Owned(SetTimer(env, s, o)) && Aside(s, SetTimer(env, s, o))
  {
    GrantedAside(s, o);
    RefusedAside(s, o);
    hide Known, Kept, Takes, Line, Owned, Aside;
  }

  lemma UnsetAside(s: Snap, o: nat)
    requires Owned(s) && o in s.triggers && s.triggers[o].timer.Some?
    ensures Owned(Unset(s, o)) && Aside(s, Unset(s, o))
  {
    hide Known, Line;
  }

  lemma FedOneAside(env: Env, s: Snap, o: nat)
    requires Owned(s)
    ensures Owned(FedOne(env, s, o)) && Aside(s, FedOne(env, s, o))
  {
    hide Known, Kept, Line, SetTimer;
    if o in s.triggers && s.triggers[o].kind == Watchdog {
      var u := Started(s, o, true);
      assert Owned(u) && Aside(s, u);
      var v := if u.triggers[o].timer.Some? then Unset(u, o) else u;
      if u.triggers[o].timer.Some? { UnsetAside(u, o); }
      SetAside(env, v, o);
      hide Owned, Aside;
      if u.triggers[o].timer.Some? { AsideJoin(u, v, FedOne(env, s, o)); }
      AsideJoin(s, u, FedOne(env, s, o));
    }
  }

  lemma {:induction false} FedAllAside(env: Env, s: Snap, fed: seq<nat>)
    requires Owned(s)
    ensures Owned(FedAll(env, s, fed)) && Aside(s, FedAll(env, s, fed))
  {
    hide Known, Kept, FedOne;
    if fed != [] {
      var u := FedAll(env, s, fed[..|fed| - 1]);
      FedAllAside(env, s, fed[..|fed| - 1]);
      FedOneAside(env, u, fed[|fed| - 1]);
      AsideJoin(s, u, FedAll(env, s, fed));
    }
  }

  // -------------------------------------------------- a turn of the retry loop

  // The first arm that waits goes, or none does.
  predicate Moves(a: seq<Entry>, b: seq<Entry>) {
    b == a || (a != [] && b == a[1..])
  }

  lemma ShiftLine(s: Snap)
    requires s.queue != []
    ensures Moves(Line(s.queue), Line(Shift(s).queue))
    ensures s.queue[0].Rearm? ==> Line(Shift(s).queue) == Line(s.queue)
    ensures !s.queue[0].Rearm? ==> Line(s.queue) == [s.queue[0]] + Line(Shift(s).queue)
  {
  }

  // What a turn makes of the others: the timers stay, the line moves by at most
  // its first, and that one leaves with a timer, or, a heldFor() rule's, without
  // its mark.
  ghost predicate TurnOf(s: Snap, t: Snap) {
    && Owned(t) && t.held <= s.held
    && (forall id :: id in s.live && !s.live[id].OfTrigger? ==> id in t.live && t.live[id] == s.live[id])
    && (Line(t.queue) == Line(s.queue) || (s.queue != [] && Leaves(s, t, s.queue[0])))
  }

  ghost predicate Leaves(s: Snap, t: Snap, e: Entry) {
    && !e.Rearm? && Line(s.queue) == [e] + Line(t.queue)
    && if e.HeldArm? then e.rule !in t.held else HasTimer(t, ArmOwner(e))
  }

  lemma RearmTurnIs(env: Env, s: Snap, o: nat)
    requires Known(s) && s.queue != [] && s.queue[0] == Rearm(o)
    ensures o in s.triggers
    ensures Turn(env, s) ==
            if s.triggers[o].timer.Some? then Shift(Waited(s, o))
            else if Takes(env, s) then Shift(Waited(Granted(s, o), o))
            else Refused(s, o)
  {
    assert s.queue[0] in s.queue;
    hide Takes, Kept, Sooner, Granted, Refused, Waited, Shift;
  }

  // A re-arm takes its own entry off the queue, or puts one in front.
  lemma RearmGoes(s: Snap, u: Snap, o: nat)
    requires Owned(u) && Aside(s, u) && s.queue != [] && s.queue[0] == Rearm(o) && u.queue == s.queue
    ensures TurnOf(s, Shift(u))
  {
    ShiftLine(s);
    hide Line;
    assert Owned(Shift(u)) && Shift(u).queue == Shift(s).queue;
  }

  lemma RearmStays(s: Snap, u: Snap)
    requires Owned(u) && Aside(s, u)
    ensures TurnOf(s, u)
  {
    hide Line;
  }

  lemma RearmTurnOf(env: Env, s: Snap, o: nat)
    requires Known(s) && Owned(s) && s.queue != [] && s.queue[0] == Rearm(o)
    ensures TurnOf(s, Turn(env, s)) && Turn(env, s).held == s.held
  {
    RearmTurnIs(env, s, o);
    var u := if s.triggers[o].timer.Some? then Waited(s, o) else
             if Takes(env, s) then Waited(Granted(s, o), o) else Refused(s, o);
    if s.triggers[o].timer.Some? {
      WaitedAside(s, o);
    } else if Takes(env, s) {
      GrantedAside(s, o);
      WaitedAside(Granted(s, o), o);
      AsideJoin(s, Granted(s, o), u);
    } else {
      RefusedAside(s, o);
    }
    if s.triggers[o].timer.Some? || Takes(env, s) { RearmGoes(s, u, o); } else { RearmStays(s, u); }
    hide Line, Takes, Known, Turn, TurnOf, Aside, Owned, Kept;
  }

  lemma WaitedAside(s: Snap, o: nat)
    requires Owned(s) && o in s.triggers
    ensures Owned(Waited(s, o)) && Aside(s, Waited(s, o))
  {
    hide Line, Known;
  }

  lemma GrantedAside(s: Snap, o: nat)
    requires Owned(s) && o in s.triggers
    ensures Owned(Granted(s, o)) && Aside(s, Granted(s, o))
  {
    hide Line, Known, Kept;
  }

  lemma RefusedAside(s: Snap, o: nat)
    requires Owned(s) && o in s.triggers
    ensures Owned(Refused(s, o)) && Aside(s, Refused(s, o))
  {
    LineFront(s.queue, o);
    hide Line, Known, Kept;
  }

  lemma StepTurnOf(env: Env, s: Snap, k: nat)
    requires Known(s) && Owned(s) && s.queue != [] && s.queue[0] == AfterStep(k)
    ensures TurnOf(s, Turn(env, s)) && Turn(env, s).held == s.held
  {
    ShiftLine(s);
    hide Line, Takes, Kept, Sooner, Known;
    var t := Turn(env, s);
    if Takes(env, s) {
      assert t == Shift(TakenBy(s, OfStep(k)));
      assert s.next in t.live && t.live[s.next] == OfStep(k);
      assert Leaves(s, t, AfterStep(k));
    } else {
      assert t == s.(asked := s.asked + 1);
    }
    hide Turn;
  }

  function Check(env: Env, s: Snap): (u: Snap)
    ensures Known(s) ==> Known(u)
  {
    FedAll(env, s.(checked := s.checked + 1), env.checks(s.checked).fed)
  }

  lemma HeldTurnIs(env: Env, s: Snap, r: nat)
    requires Known(s) && s.queue != [] && s.queue[0] == HeldArm(r)
    ensures var u := Check(env, s);
            && |u.queue| > 0
            && Turn(env, s) ==
               if r !in s.held then Shift(s)
               else if !env.checks(s.checked).holds then Shift(u.(held := u.held - {r}))
               else if Takes(env, u) then Shift(TakenBy(u, OfRule(r)).(held := u.held - {r}))
               else u.(asked := u.asked + 1)
  {
    hide FedAll, Takes, Sooner, Known;
  }

  lemma CheckAside(env: Env, s: Snap)
    requires Owned(s)
    ensures Owned(Check(env, s)) && Aside(s, Check(env, s))
  {
    FedAllAside(env, s.(checked := s.checked + 1), env.checks(s.checked).fed);
    hide Line, FedAll;
  }

  lemma TakenAside(u: Snap, r: nat)
    requires Owned(u)
    ensures var v := TakenBy(u, OfRule(r)); Owned(v) && Aside(u, v) && HasTimer(v, OfRule(r))
  {
    var v := TakenBy(u, OfRule(r));
    assert v.live[u.next] == OfRule(r);
    hide Line;
  }

  // What a check leaves; the arm then goes.
  lemma ArmGoes(s: Snap, v: Snap, r: nat)
    requires Owned(v) && Aside(s, v) && s.queue != [] && v.queue != [] && s.queue[0] == HeldArm(r)
    ensures TurnOf(s, Shift(v.(held := v.held - {r})))
    ensures HasTimer(v, OfRule(r)) ==> HasTimer(Shift(v.(held := v.held - {r})), OfRule(r))
  {
    ShiftLine(s);
    ShiftLine(v);
    hide Line;
    var t := Shift(v.(held := v.held - {r}));
    assert t.queue == Shift(v).queue && t.live == v.live;
    assert Owned(t);
    if v.queue[0].Rearm? {
      assert Line(t.queue) == Line(s.queue);
    } else {
      assert t.queue == Shift(s).queue;
      assert Leaves(s, t, HeldArm(r));
    }
  }

  lemma ArmStays(s: Snap, u: Snap, t: Snap)
    requires Owned(u) && Aside(s, u) && t == u.(asked := t.asked)
    ensures TurnOf(s, t)
  {
    hide Line;
  }

  lemma StaleGoes(s: Snap, r: nat)
    requires Owned(s) && s.queue != [] && s.queue[0] == HeldArm(r) && r !in s.held
    ensures TurnOf(s, Shift(s))
  {
    ShiftLine(s);
    hide Line;
    assert Leaves(s, Shift(s), HeldArm(r));
  }

  lemma HeldTurnOf(env: Env, s: Snap, r: nat)
    requires Known(s) && Owned(s) && s.queue != [] && s.queue[0] == HeldArm(r)
    ensures TurnOf(s, Turn(env, s)) && s.held - {r} <= Turn(env, s).held
    ensures StillHold(env) && r in s.held ==>
              r in Turn(env, s).held || HasTimer(Turn(env, s), OfRule(r))
  {
    HeldTurnIs(env, s, r);
    CheckAside(env, s);
    var u, v := Check(env, s), TakenBy(Check(env, s), OfRule(r));
    assert u.held == s.held && v.held == s.held && v.queue == u.queue;
    if r !in s.held {
      StaleGoes(s, r);
    } else if !env.checks(s.checked).holds {
      ArmGoes(s, u, r);
    } else if Takes(env, u) {
      TakenAside(u, r);
      AsideJoin(s, u, v);
      ArmGoes(s, v, r);
    } else {
      ArmStays(s, u, Turn(env, s));
    }
    hide Line, Check, Takes, Known, Turn, TurnOf, Aside, Owned, HasTimer, Kept;
  }

  lemma AnyTurnOf(env: Env, s: Snap)
    requires Known(s) && Owned(s) && s.queue != []
    ensures TurnOf(s, Turn(env, s))
    ensures forall r :: r in s.held && r !in Turn(env, s).held ==> s.queue[0] == HeldArm(r)
    ensures StillHold(env) && s.queue[0].HeldArm? && s.queue[0].rule in s.held ==>
              s.queue[0].rule in Turn(env, s).held || HasTimer(Turn(env, s), OfRule(s.queue[0].rule))
  {
    hide Known, Owned, Turn, TurnOf, HasTimer, StillHold;
    match s.queue[0] {
      case Rearm(o) => RearmTurnOf(env, s, o);
      case AfterStep(k) => StepTurnOf(env, s, k);
      case HeldArm(r) => HeldTurnOf(env, s, r);
    }
  }

  // -------------------------------------------------------------- a whole pass

  // b is what is left of a, its first entries gone.
  predicate Rest(a: seq<Entry>, b: seq<Entry>) {
    |b| <= |a| && b == a[|a| - |b|..]
  }

  lemma RestJoin(a: seq<Entry>, b: seq<Entry>, c: seq<Entry>)
    requires Rest(a, b) && Rest(b, c)
    ensures Rest(a, c)
  {
    assert a[|a| - |b|..][|b| - |c|..] == a[|a| - |c|..];
  }

  lemma LineMoves(s: Snap, t: Snap)
    requires TurnOf(s, t)
    ensures Rest(Line(s.queue), Line(t.queue)) && Owned(t)
  {
    var a, b := Line(s.queue), Line(t.queue);
    if a != b { assert a == [s.queue[0]] + b; }
    hide Line;
  }

  lemma TurnThere(env: Env, s: Snap, e: Entry)
    requires Known(s) && Owned(s) && s.queue != [] && !e.Rearm? && There(s, e) && (e.HeldArm? ==> StillHold(env))
    ensures There(Turn(env, s), e) && Owned(Turn(env, s))
  {
    AnyTurnOf(env, s);
    LineHas(s.queue, e);
    LineHas(Turn(env, s).queue, e);
    hide Line, Known, Turn, StillHold;
    var t := Turn(env, s);
    if HasTimer(s, ArmOwner(e)) {
      var id :| id in s.live && s.live[id] == ArmOwner(e);
      assert t.live[id] == ArmOwner(e);
    }
  }

  // What a pass leaves the others with.
  lemma {:induction false} PassThere(env: Env, s: Snap, e: Entry)
    requires Known(s) && Owned(s) && !e.Rearm? && There(s, e) && (e.HeldArm? ==> StillHold(env))
    ensures There(Pass(env, s), e)
    decreases |s.held|, |s.queue|
  {
    if s.queue != [] {
      TurnThere(env, s, e);
      var r := RunFirst(env, s);
      assert Turn(env, s) == if r.taken then Shift(r.s) else r.s;
      assert Pass(env, s) == if r.taken then Pass(env, Shift(r.s)) else r.s;
      hide Known, Owned, There, RunFirst, StillHold, Turn, Pass;
      if r.taken { PassThere(env, Shift(r.s), e); }
    }
  }

  lemma {:induction false} PassInOrder(env: Env, s: Snap)
    requires Known(s) && Owned(s)
    ensures Owned(Pass(env, s)) && Rest(Line(s.queue), Line(Pass(env, s).queue))
    decreases |s.held|, |s.queue|
  {
    if s.queue != [] {
      AnyTurnOf(env, s);
      LineMoves(s, Turn(env, s));
      var r := RunFirst(env, s);
      assert Turn(env, s) == if r.taken then Shift(r.s) else r.s;
      assert Pass(env, s) == if r.taken then Pass(env, Shift(r.s)) else r.s;
      hide Known, Owned, RunFirst, Turn, Pass, Line, TurnOf;
      if r.taken {
        PassInOrder(env, Shift(r.s));
        RestJoin(Line(s.queue), Line(Turn(env, s).queue), Line(Pass(env, s).queue));
      }
    }
  }

  // ------------------------------------------------------------- any call

  lemma AsideThere(s: Snap, t: Snap, e: Entry)
    requires Aside(s, t) && !e.Rearm? && There(s, e)
    ensures There(t, e)
  {
    LineHas(s.queue, e);
    LineHas(t.queue, e);
    hide Line;
    if HasTimer(s, ArmOwner(e)) {
      var id :| id in s.live && s.live[id] == ArmOwner(e);
      assert t.live[id] == ArmOwner(e);
    }
  }

  lemma RearmedThere(env: Env, s: Snap, o: nat, e: Entry)
    requires Known(s) && Owned(s) && o in s.triggers && !e.Rearm? && There(s, e) && (e.HeldArm? ==> StillHold(env))
    ensures There(Rearmed(env, s, o), e)
  {
    hide Known, There, Line, SetTimer, Pass, StillHold, Aside;
    var u := s;
    if s.triggers[o].timer.Some? {
      UnsetAside(s, o);
      AsideThere(s, Unset(s, o), e);
      PassThere(env, Unset(s, o), e);
      PassInOrder(env, Unset(s, o));
      u := Pass(env, Unset(s, o));
    }
    SetAside(env, u, o);
    AsideThere(u, SetTimer(env, u, o), e);
  }

  lemma RearmedInOrder(env: Env, s: Snap, o: nat)
    requires Known(s) && Owned(s) && o in s.triggers
    ensures Owned(Rearmed(env, s, o)) && Rest(Line(s.queue), Line(Rearmed(env, s, o).queue))
  {
    hide Known, Line, SetTimer, Pass;
    var u := s;
    if s.triggers[o].timer.Some? {
      UnsetAside(s, o);
      PassInOrder(env, Unset(s, o));
      u := Pass(env, Unset(s, o));
    }
    SetAside(env, u, o);
  }

  // The arm's timer runs out, or its rule's conditions are found false.
  predicate Ends(s: Snap, op: Op, e: Entry)
    requires !e.Rearm?
  {
    match op
    case DoFire(id) => id in s.live && s.live[id] == ArmOwner(e)
    case DoBroke(r, _) => e == HeldArm(r)
    case _ => false
  }

  lemma StartedAside(s: Snap, o: nat, alive: bool)
    requires Owned(s) && o in s.triggers
    ensures Owned(Started(s, o, alive)) && Aside(s, Started(s, o, alive))
  {
    hide Known, Kept, Line;
  }

  lemma RegisterThere(env: Env, s: Snap, o: nat, e: Entry)
    requires Known(s) && Owned(s) && o in s.triggers && !e.Rearm? && There(s, e) && (e.HeldArm? ==> StillHold(env))
    ensures There(OnRegister(env, s, o), e)
  {
    var u := Started(s, o, s.triggers[o].alive);
    StartedAside(s, o, s.triggers[o].alive);
    AsideThere(s, u, e);
    SetAside(env, u, o);
    hide Known, Owned, There, Line, SetTimer, Pass, StillHold, Aside, Rearmed;
    if s.triggers[o].kind == Every {
      if u.triggers[o].timer == None { AsideThere(u, SetTimer(env, u, o), e); }
    } else if !s.triggers[o].started {
      RearmedThere(env, u, o, e);
    }
  }

  lemma RegisterInOrder(env: Env, s: Snap, o: nat)
    requires Known(s) && Owned(s) && o in s.triggers
    ensures Owned(OnRegister(env, s, o)) && Rest(Line(s.queue), Line(OnRegister(env, s, o).queue))
  {
    var u := Started(s, o, s.triggers[o].alive);
    StartedAside(s, o, s.triggers[o].alive);
    SetAside(env, u, o);
    RestAside(s, u);
    RestAside(u, SetTimer(env, u, o));
    hide Known, Owned, Line, SetTimer, Pass, Rearmed, Aside, Started, Rest;
    assert Line(u.queue) == Line(s.queue);
    if s.triggers[o].kind == Watchdog { RearmedInOrder(env, u, o); }
  }

  lemma RestAside(s: Snap, t: Snap)
    requires Aside(s, t)
    ensures Line(t.queue) == Line(s.queue) && Rest(Line(s.queue), Line(t.queue))
  {
    hide Line;
  }

  // One more timer that is no trigger's, and one fewer.
  lemma OneGone(s: Snap, id: nat, e: Entry)
    requires Owned(s) && !e.Rearm? && There(s, e) && (id in s.live ==> s.live[id] != ArmOwner(e))
    ensures Owned(s.(live := s.live - {id})) && There(s.(live := s.live - {id}), e)
  {
    if HasTimer(s, ArmOwner(e)) {
      var x :| x in s.live && s.live[x] == ArmOwner(e);
      assert (s.live - {id})[x] == ArmOwner(e);
    }
  }

  lemma BrokeThere(env: Env, s: Snap, r: nat, id: Option<nat>, e: Entry)
    requires Known(s) && Owned(s) && Enabled(s, DoBroke(r, id)) && !e.Rearm? && There(s, e) && e != HeldArm(r)
    requires e.HeldArm? ==> StillHold(env)
    ensures There(OnBroke(env, s, r, id), e)
  {
    if id.Some? {
      OneGone(s, id.value, e);
      hide Owned, StillHold, Pass;
      PassThere(env, s.(live := s.live - {id.value}), e);
    }
    hide Owned, StillHold, Pass;
    var u := if id.Some? then Pass(env, s.(live := s.live - {id.value})) else s;
    if HasTimer(u, ArmOwner(e)) {
      var x :| x in u.live && u.live[x] == ArmOwner(e);
      assert OnBroke(env, s, r, id).live[x] == ArmOwner(e);
    }
  }

  lemma FireThere(s: Snap, id: nat, e: Entry)
    requires Known(s) && Owned(s) && id in s.live && !e.Rearm? && There(s, e) && s.live[id] != ArmOwner(e)
    ensures There(OnFire(s, id), e)
  {
    hide Known;
    if HasTimer(s, ArmOwner(e)) {
      var x :| x in s.live && s.live[x] == ArmOwner(e);
      assert OnFire(s, id).live[x] == ArmOwner(e);
    }
  }

  lemma ReturnThere(env: Env, s: Snap, e: Entry)
    requires Known(s) && Owned(s) && !e.Rearm? && There(s, e) && (e.HeldArm? ==> StillHold(env))
    ensures There(OnReturn(env, s), e)
  {
    var u := NextPeriod(env, s);
    NextAside(env, s);
    AsideThere(s, u, e);
    hide Owned, StillHold, Pass, NextPeriod, Known;
    PassThere(env, u, e);
    var v := Pass(env, u);
    if HasTimer(v, ArmOwner(e)) {
      var x :| x in v.live && v.live[x] == ArmOwner(e);
      assert OnReturn(env, s).live[x] == ArmOwner(e);
    }
  }

  lemma NextAside(env: Env, s: Snap)
    requires Known(s) && Owned(s)
    ensures Owned(NextPeriod(env, s)) && Aside(s, NextPeriod(env, s))
  {
    if s.firing.Some? { SetAside(env, s.(firing := None), s.firing.value); }
    hide Line, SetTimer;
  }

  lemma AskThere(env: Env, s: Snap, op: Op, e: Entry)
    requires Known(s) && Owned(s) && (op.DoAfter? || op.DoHeld?) && !e.Rearm? && There(s, e)
    ensures There(Apply(env, s, op), e)
  {
    hide Takes, Known;
    var t := Apply(env, s, op);
    if HasTimer(s, ArmOwner(e)) {
      var x :| x in s.live && s.live[x] == ArmOwner(e);
      assert t.live[x] == ArmOwner(e);
    }
  }

  // An arm that waits or has its timer goes on doing so, until its timer runs
  // out or its rule's conditions are found false.
  lemma OpThere(env: Env, s: Snap, op: Op, e: Entry)
    requires Known(s) && Owned(s) && Enabled(s, op) && !e.Rearm? && There(s, e) && !Ends(s, op, e)
    requires e.HeldArm? ==> StillHold(env)
    ensures There(Apply(env, s, op), e)
  {
    match op {
      case DoRegister(o) => RegisterThere(env, s, o, e);
      case DoFeed(o) =>
        StartedAside(s, o, true);
        AsideThere(s, Started(s, o, true), e);
        RearmedThere(env, Started(s, o, true), o, e);
      case DoAfter(_) => AskThere(env, s, op, e);
      case DoHeld(_) => AskThere(env, s, op, e);
      case DoBroke(r, id) => BrokeThere(env, s, r, id, e);
      case DoEvent => PassThere(env, s, e);
      case DoFire(id) => FireThere(s, id, e);
      case DoReturn => ReturnThere(env, s, e);
      case DoCreate(o, kind) => assert There(Apply(env, s, op), e) by { hide Known; CreateThere(s, o, kind, e); }
    }
    hide Known, Owned, There, StillHold, Pass, Rearmed, Started, OnRegister, OnBroke, OnFire, OnReturn;
  }

  lemma CreateThere(s: Snap, o: nat, kind: Kind, e: Entry)
    requires Known(s) && !e.Rearm? && There(s, e)
    ensures There(OnCreate(s, o, kind), e)
  {
    hide Known;
    if HasTimer(s, ArmOwner(e)) {
      var x :| x in s.live && s.live[x] == ArmOwner(e);
      assert OnCreate(s, o, kind).live[x] == ArmOwner(e);
    }
  }

  // What a call adds at the end of the line.
  function Added(env: Env, s: Snap, op: Op): seq<Entry> {
    if Takes(env, s) || |s.queue| >= 256 then []
    else match op
      case DoAfter(k) => [AfterStep(k)]
      case DoHeld(r) => if r in s.held then [] else [HeldArm(r)]
      case _ => []
  }

  // The table takes the timer, or the queue the arm, or it is dropped.
  lemma TakenInOrder(s: Snap, owner: Owner)
    requires Owned(s) && !owner.OfTrigger?
    ensures var t := TakenBy(s, owner); Owned(t) && t.queue == s.queue
  {
    hide Known;
  }

  lemma QueuedInOrder(s: Snap, e: Entry)
    requires Owned(s) && !e.Rearm?
    ensures var t := Queued(s, e);
            Owned(t) && Line(t.queue) == Line(s.queue) + if |s.queue| >= 256 then [] else [e]
  {
    LineBack(s.queue, e);
    hide Known, Line;
  }

  lemma AfterInOrder(env: Env, s: Snap, k: nat)
    requires Owned(s)
    ensures var t := OnAfter(env, s, k); Owned(t) && Line(t.queue) == Line(s.queue) + Added(env, s, DoAfter(k))
  {
    TakenInOrder(s, OfStep(k));
    QueuedInOrder(s.(asked := s.asked + 1), AfterStep(k));
    RestSame(Line(s.queue));
    hide Takes, Known, Line, TakenBy, Queued, Owned;
  }

  lemma HeldInOrder(env: Env, s: Snap, r: nat)
    requires Owned(s)
    ensures var t := OnHeld(env, s, r); Owned(t) && Line(t.queue) == Line(s.queue) + Added(env, s, DoHeld(r))
  {
    var u, v := s.(asked := s.asked + 1), s.(asked := s.asked + 1, held := s.held + {r});
    assert Owned(u) && Owned(v);
    hide Takes, Known, Line, TakenBy, Queued, Owned;
    RestSame(Line(s.queue));
    if Takes(env, s) {
      TakenInOrder(s, OfRule(r));
      assert OnHeld(env, s, r) == TakenBy(s, OfRule(r));
    } else if r in s.held {
      assert OnHeld(env, s, r) == u;
    } else {
      QueuedInOrder(v, HeldArm(r));
      assert OnHeld(env, s, r) == Queued(v, HeldArm(r));
    }
  }

  lemma RestSame(a: seq<Entry>)
    ensures Rest(a, a) && a + [] == a
  {
  }

  // The arms are served in the order they came in: what a call leaves of the
  // line is its end.
  lemma OpInOrder(env: Env, s: Snap, op: Op)
    requires Known(s) && Owned(s) && Enabled(s, op)
    ensures var t := Apply(env, s, op); Owned(t) && Rest(Line(s.queue) + Added(env, s, op), Line(t.queue))
  {
    RestSame(Line(s.queue));
    RestSame(Line(s.queue) + Added(env, s, op));
    match op {
      case DoRegister(o) => RegisterInOrder(env, s, o);
      case DoFeed(o) =>
        StartedAside(s, o, true);
        RestAside(s, Started(s, o, true));
        RearmedInOrder(env, Started(s, o, true), o);
      case DoAfter(k) => AfterInOrder(env, s, k);
      case DoHeld(r) => HeldInOrder(env, s, r);
      case DoBroke(r, id) => BrokeInOrder(env, s, r, id);
      case DoEvent => PassInOrder(env, s);
      case DoFire(id) => FireInOrder(s, id);
      case DoReturn => ReturnInOrder(env, s);
      case DoCreate(o, kind) => CreateInOrder(s, o, kind);
    }
    hide Known, Line, Pass, Rearmed, Takes, Owned, Rest, OnAfter, OnHeld, OnRegister, OnBroke,
      OnFire, OnReturn, OnCreate;
  }

  lemma BrokeInOrder(env: Env, s: Snap, r: nat, id: Option<nat>)
    requires Known(s) && Owned(s)
    ensures Owned(OnBroke(env, s, r, id)) && Rest(Line(s.queue), Line(OnBroke(env, s, r, id).queue))
  {
    if id.Some? {
      var u := s.(live := s.live - {id.value});
      assert Owned(u);
      hide Owned;
      PassInOrder(env, u);
    }
    hide Known, Line, Pass, Rest;
    RestSame(Line(s.queue));
    var v := if id.Some? then Pass(env, s.(live := s.live - {id.value})) else s;
    HeldOnly(v, v.held - {r});
  }

  // A mark owns nothing.
  lemma HeldOnly(s: Snap, held: set<nat>)
    requires Owned(s)
    ensures Owned(s.(held := held))
  {
  }

  lemma FireInOrder(s: Snap, id: nat)
    requires Known(s) && Owned(s) && id in s.live
    ensures Owned(OnFire(s, id)) && OnFire(s, id).queue == s.queue
  {
    hide Known;
  }

  lemma ReturnInOrder(env: Env, s: Snap)
    requires Known(s) && Owned(s)
    ensures Owned(OnReturn(env, s)) && Rest(Line(s.queue), Line(OnReturn(env, s).queue))
  {
    NextAside(env, s);
    RestAside(s, NextPeriod(env, s));
    PassInOrder(env, NextPeriod(env, s));
    hide Known, Line, Pass, NextPeriod;
  }

  lemma CreateInOrder(s: Snap, o: nat, kind: Kind)
    requires Known(s) && Owned(s)
    ensures Owned(OnCreate(s, o, kind)) && OnCreate(s, o, kind).queue == s.queue
  {
    hide Known;
  }

  // ------------------------------------------------------------- every run

  predicate NotEnded(env: Env, s: Snap, ops: seq<Op>, e: Entry)
    requires Known(s) && Legal(env, s, ops) && !e.Rearm?
    decreases |ops|
  {
    ops == [] || (!Ends(s, ops[0], e) && NotEnded(env, Apply(env, s, ops[0]), ops[1..], e))
  }

  // Main result: once it waits or has its timer, a step of .after() waits or has
  // its timer until that timer runs out, and so does the arm of a heldFor() rule
  // whose conditions hold.
  lemma {:induction false} NoArmForgotten(env: Env, s: Snap, ops: seq<Op>, e: Entry)
    requires Known(s) && Owned(s) && Legal(env, s, ops) && !e.Rearm? && There(s, e) && NotEnded(env, s, ops, e)
    requires e.HeldArm? ==> StillHold(env)
    ensures There(Run(env, s, ops), e)
    decreases |ops|
  {
    if ops != [] {
      OpThere(env, s, ops[0], e);
      OpInOrder(env, s, ops[0]);
      hide Known, Owned, There, StillHold, Apply, Enabled, Ends;
      NoArmForgotten(env, Apply(env, s, ops[0]), ops[1..], e);
    }
  }

  lemma {:induction false} RunsOwned(env: Env, s: Snap, ops: seq<Op>)
    requires Known(s) && Owned(s) && Legal(env, s, ops)
    ensures Owned(Run(env, s, ops))
    decreases |ops|
  {
    if ops != [] {
      OpInOrder(env, s, ops[0]);
      hide Known, Owned, Apply, Enabled;
      RunsOwned(env, Apply(env, s, ops[0]), ops[1..]);
    }
  }

  // So from power-up: a step that is not dropped is not forgotten.
  lemma StepNotForgotten(env: Env, before: seq<Op>, k: nat, after: seq<Op>)
    requires Legal(env, START, before)
    requires var s := Run(env, START, before);
             && (Takes(env, s) || |s.queue| < 256)
             && Legal(env, Apply(env, s, DoAfter(k)), after)
             && NotEnded(env, Apply(env, s, DoAfter(k)), after, AfterStep(k))
    ensures There(Run(env, Apply(env, Run(env, START, before), DoAfter(k)), after), AfterStep(k))
  {
    RunsOwned(env, START, before);
    var s := Run(env, START, before);
    OpInOrder(env, s, DoAfter(k));
    if !There(s, AfterStep(k)) { DroppedExactly(env, s, k); } else { OpThere(env, s, DoAfter(k), AfterStep(k)); }
    hide Takes, There, Owned, Apply, Run, Legal, Known;
    NoArmForgotten(env, Apply(env, s, DoAfter(k)), after, AfterStep(k));
  }

  // A step that asks for a timer gets it or waits, but for a table that refuses
  // it with the queue at its cap: then it is dropped.
  lemma DroppedExactly(env: Env, s: Snap, k: nat)
    requires Known(s) && !There(s, AfterStep(k))
    ensures There(Apply(env, s, DoAfter(k)), AfterStep(k)) <==> Takes(env, s) || |s.queue| < 256
  {
    var t := Apply(env, s, DoAfter(k));
    if Takes(env, s) { assert t.live[s.next] == OfStep(k); }
    hide Known, Takes;
  }

  // A heldFor() rule that is marked as waiting has its arm in the queue.
  ghost predicate MarkedWait(s: Snap) {
    forall r :: r in s.held ==> HeldArm(r) in s.queue
  }

  lemma TurnMarked(env: Env, s: Snap)
    requires Known(s) && Owned(s) && s.queue != [] && MarkedWait(s)
    ensures MarkedWait(Turn(env, s)) && Owned(Turn(env, s))
  {
    AnyTurnOf(env, s);
    hide Turn, Line, Known;
    var t := Turn(env, s);
    forall r | r in t.held ensures HeldArm(r) in t.queue {
      LineHas(s.queue, HeldArm(r));
      LineHas(t.queue, HeldArm(r));
    }
  }

  lemma {:induction false} PassMarked(env: Env, s: Snap)
    requires Known(s) && Owned(s) && MarkedWait(s)
    ensures MarkedWait(Pass(env, s))
    decreases |s.held|, |s.queue|
  {
    if s.queue != [] {
      TurnMarked(env, s);
      var r := RunFirst(env, s);
      assert Turn(env, s) == if r.taken then Shift(r.s) else r.s;
      assert Pass(env, s) == if r.taken then Pass(env, Shift(r.s)) else r.s;
      hide Known, Owned, MarkedWait, RunFirst, Turn, Pass;
      if r.taken { PassMarked(env, Shift(r.s)); }
    }
  }

  lemma AsideMarked(s: Snap, t: Snap)
    requires Aside(s, t) && MarkedWait(s)
    ensures MarkedWait(t)
  {
    forall r | r in t.held ensures HeldArm(r) in t.queue {
      LineHas(s.queue, HeldArm(r));
      LineHas(t.queue, HeldArm(r));
    }
    hide Line;
  }

  lemma RearmedMarked(env: Env, s: Snap, o: nat)
    requires Known(s) && Owned(s) && o in s.triggers && MarkedWait(s)
    ensures MarkedWait(Rearmed(env, s, o))
  {
    hide Known, MarkedWait, SetTimer, Pass, Aside;
    var u := s;
    if s.triggers[o].timer.Some? {
      UnsetAside(s, o);
      AsideMarked(s, Unset(s, o));
      PassMarked(env, Unset(s, o));
      PassInOrder(env, Unset(s, o));
      u := Pass(env, Unset(s, o));
    }
    SetAside(env, u, o);
    AsideMarked(u, SetTimer(env, u, o));
  }

  lemma RegisterMarked(env: Env, s: Snap, o: nat)
    requires Known(s) && Owned(s) && o in s.triggers && MarkedWait(s)
    ensures MarkedWait(OnRegister(env, s, o))
  {
    var u := Started(s, o, s.triggers[o].alive);
    StartedAside(s, o, s.triggers[o].alive);
    AsideMarked(s, u);
    SetAside(env, u, o);
    hide Known, Owned, MarkedWait, SetTimer, Pass, Aside, Rearmed;
    if s.triggers[o].kind == Every {
      if u.triggers[o].timer == None { AsideMarked(u, SetTimer(env, u, o)); }
    } else if !s.triggers[o].started {
      RearmedMarked(env, u, o);
    }
  }

  // The rule is marked, and its arm did not fit the queue.
  predicate Unqueued(env: Env, s: Snap, op: Op) {
    op.DoHeld? && !Takes(env, s) && op.r !in s.held && HeldArm(op.r) !in s.queue && |s.queue| >= 256
  }

  // Main result: a call keeps the arms of marked rules queued exactly unless it
  // marks a rule with the queue at its cap: that one is not in line, and nothing
  // but its next event arms it.
  lemma MarkedExactly(env: Env, s: Snap, op: Op)
    requires Known(s) && Owned(s) && Enabled(s, op) && MarkedWait(s)
    ensures MarkedWait(Apply(env, s, op)) <==> !Unqueued(env, s, op)
  {
    match op {
      case DoRegister(o) => RegisterMarked(env, s, o);
      case DoFeed(o) =>
        StartedAside(s, o, true);
        AsideMarked(s, Started(s, o, true));
        RearmedMarked(env, Started(s, o, true), o);
      case DoHeld(r) => HeldMarked(env, s, r);
      case DoAfter(k) => AfterMarked(env, s, k);
      case DoBroke(r, id) => BrokeMarked(env, s, r, id);
      case DoEvent => PassMarked(env, s);
      case DoReturn => ReturnMarked(env, s);
      case DoFire(id) => SameMarked(s, OnFire(s, id));
      case DoCreate(o, kind) => SameMarked(s, OnCreate(s, o, kind));
    }
    hide Known, Owned, Pass, Rearmed, OnRegister, Started, OnHeld, OnAfter, OnBroke, OnReturn, OnFire, OnCreate,
      MarkedWait, Unqueued;
    if !op.DoHeld? { OnlyHeld(env, s, op); }
  }

  lemma OnlyHeld(env: Env, s: Snap, op: Op)
    requires !op.DoHeld?
    ensures !Unqueued(env, s, op)
  {
  }

  lemma SameMarked(s: Snap, t: Snap)
    requires MarkedWait(s) && t.held == s.held && t.queue == s.queue
    ensures MarkedWait(t)
  {
  }

  lemma AfterMarked(env: Env, s: Snap, k: nat)
    requires MarkedWait(s)
    ensures MarkedWait(OnAfter(env, s, k))
  {
    hide Known, Takes;
  }

  lemma BrokeMarked(env: Env, s: Snap, r: nat, id: Option<nat>)
    requires Known(s) && Owned(s) && MarkedWait(s)
    ensures MarkedWait(OnBroke(env, s, r, id))
  {
    if id.Some? {
      SameMarked(s, s.(live := s.live - {id.value}));
      assert Owned(s.(live := s.live - {id.value}));
      PassMarked(env, s.(live := s.live - {id.value}));
    }
    hide Known, Owned, Pass;
  }

  lemma ReturnMarked(env: Env, s: Snap)
    requires Known(s) && Owned(s) && MarkedWait(s)
    ensures MarkedWait(OnReturn(env, s))
  {
    NextAside(env, s);
    AsideMarked(s, NextPeriod(env, s));
    hide Known, Owned, Pass, NextPeriod, Aside, MarkedWait;
    PassMarked(env, NextPeriod(env, s));
    SameMarked(Pass(env, NextPeriod(env, s)), OnReturn(env, s));
  }

  lemma HeldMarked(env: Env, s: Snap, r: nat)
    requires MarkedWait(s)
    ensures MarkedWait(OnHeld(env, s, r)) <==> !Unqueued(env, s, DoHeld(r))
  {
    hide Known, Takes;
    var t := OnHeld(env, s, r);
    if Unqueued(env, s, DoHeld(r)) { assert r in t.held && HeldArm(r) !in t.queue; }
  }

  // n steps of .after(), all at once.
  function Steps(n: nat): (ops: seq<Op>)
    ensures |ops| == n
  {
    if n == 0 then [] else Steps(n - 1) + [DoAfter(n)]
  }

  ghost predicate Crowded(s: Snap, n: nat) {
    && s.triggers == map[] && s.held == {} && s.asked == n && s.firing == None && !s.calling
    && (forall id :: id in s.live ==> id < s.next && s.live[id].OfStep?)
    && (if n <= 48 then |s.live| == n && s.queue == [] else |s.live| == 48 && |s.queue| == n - 48)
    && forall i :: 0 <= i < |s.queue| ==> s.queue[i].AfterStep?
  }

  lemma OneMoreStep(env: Env, s: Snap, n: nat)
    requires Crowded(s, n) && n < 304 && RefusedOnlyWhenFull(env)
    ensures Known(s) && Crowded(OnAfter(env, s, n + 1), n + 1)
  {
    var t := OnAfter(env, s, n + 1);
    if n < 48 {
      assert s.next !in s.live && |t.live| == n + 1;
    } else {
      assert t.queue == s.queue + [AfterStep(n + 1)];
    }
  }

  lemma CrowdOne(env: Env, ops: seq<Op>, n: nat)
    requires RefusedOnlyWhenFull(env) && n < 304 && Legal(env, START, ops) && Crowded(Run(env, START, ops), n)
    ensures var more := ops + [DoAfter(n + 1)];
            Legal(env, START, more) && Crowded(Run(env, START, more), n + 1)
  {
    OneMoreStep(env, Run(env, START, ops), n);
    hide Crowded, RefusedOnlyWhenFull, Known, Run, Legal, OnAfter;
    RunOne(env, START, ops, DoAfter(n + 1));
  }

  lemma {:induction false} StepsCrowd(env: Env, n: nat)
    requires RefusedOnlyWhenFull(env) && n <= 304
    ensures Legal(env, START, Steps(n)) && Crowded(Run(env, START, Steps(n)), n)
  {
    if n == 0 {
      assert Run(env, START, []) == START && Crowded(START, 0);
    } else {
      hide Crowded, RefusedOnlyWhenFull, Known, Run, Legal;
      StepsCrowd(env, n - 1);
      CrowdOne(env, Steps(n - 1), n - 1);
    }
  }

  lemma MarkedAfter(env: Env, n: nat)
    requires RefusedOnlyWhenFull(env) && n == 304
    ensures var ops := Steps(n) + [DoHeld(0)];
            Legal(env, START, ops) && 0 in Run(env, START, ops).held && HeldArm(0) !in Run(env, START, ops).queue
  {
    StepsCrowd(env, n);
    var s := Run(env, START, Steps(n));
    MarkedLast(env, s);
    hide Run, Legal, Crowded, RefusedOnlyWhenFull, OnHeld, Steps, Known;
    RunOne(env, START, Steps(n), DoHeld(0));
  }

  // It can come to that: with 48 timers and 256 entries ahead of it, a rule is
  // marked as waiting and does not.
  lemma MarkedInVain(env: Env) returns (ops: seq<Op>)
    requires RefusedOnlyWhenFull(env)
    ensures Legal(env, START, ops) && 0 in Run(env, START, ops).held && HeldArm(0) !in Run(env, START, ops).queue
  {
    var n := 304;
    hide Run, Legal, Steps;
    MarkedAfter(env, n);
    ops := Steps(n) + [DoHeld(0)];
  }

  lemma MarkedLast(env: Env, s: Snap)
    requires Crowded(s, 304)
    ensures 0 in OnHeld(env, s, 0).held && HeldArm(0) !in OnHeld(env, s, 0).queue
  {
    assert OnHeld(env, s, 0) == s.(asked := s.asked + 1, held := s.held + {0});
  }
}
