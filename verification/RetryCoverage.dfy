// When the retry queue forgets no trigger: the exact condition on what waiting
// heldFor() conditions feed, and how an entry or a timer gets lost otherwise.
module RetryCoverage {
  import opened Collections
  import opened Options
  import opened RetryArms
  import opened TimerTable

  // A trigger that would be silent for good without a timer of its own.
  predicate Needs(t: Trigger) {
    t.started && (t.kind == Every || t.alive)
  }

  // A trigger waits exactly while it has an entry, and has at most one; the
  // triggers are ahead of everything else that waits.
  ghost predicate QueueOk(triggers: map<nat, Trigger>, queue: seq<Entry>) {
    && (forall o :: o in triggers ==> (triggers[o].waiting <==> Rearm(o) in queue))
    && (forall i :: 0 <= i < |queue| && queue[i].Rearm? ==> queue[i].o in triggers)
    && (forall i, j :: 0 <= i < j < |queue| && queue[i].Rearm? ==> queue[i] != queue[j])
    && (forall i, j :: 0 <= i < j < |queue| && queue[j].Rearm? ==> queue[i].Rearm?)
  }

  // A trigger's timer is armed, but for the open ones, and an armed timer is its
  // trigger's.
  ghost predicate TimersOk(triggers: map<nat, Trigger>, live: map<nat, Owner>, open: set<nat>) {
    && (forall o :: o in triggers && triggers[o].timer.Some? && o !in open ==>
          triggers[o].timer.value in live && live[triggers[o].timer.value] == OfTrigger(o))
    && (forall id :: id in live && live[id].OfTrigger? ==>
          live[id].o in triggers && triggers[live[id].o].timer == Some(id))
  }

  ghost predicate Covered(triggers: map<nat, Trigger>, exempt: set<nat>) {
    forall o :: o in triggers && Needs(triggers[o]) && o !in exempt ==> triggers[o].timer.Some? || triggers[o].waiting
  }

  function OptSet(o: Option<nat>): set<nat> {
    if o.Some? then {o.value} else {}
  }

  // The invariant. open: triggers about to be armed, which have no timer in the
  // table, though one may still name the timer that was just cleared.
  ghost predicate Inv(s: Snap, open: set<nat>) {
    && QueueOk(s.triggers, s.queue)
    && TimersOk(s.triggers, s.live, open)
    && Covered(s.triggers, OptSet(s.firing) + open)
    && (forall id :: id in s.live ==> id < s.next)
    && (forall o :: o in open ==> NoTimer(s, o))
    && (s.firing.Some? ==> s.firing.value in s.triggers && s.triggers[s.firing.value].kind == Every)
    && (s.firing.Some? ==> s.calling)
  }

  predicate NoTimer(s: Snap, o: nat) {
    && o in s.triggers
    && (s.triggers[o].timer.Some? ==> s.triggers[o].timer.value !in s.live && s.triggers[o].timer.value < s.next)
  }

  lemma InvKnown(s: Snap, open: set<nat>)
    requires Inv(s, open)
    ensures Known(s)
  {
  }

  predicate Armable(s: Snap, o: nat, open: set<nat>) {
    o in s.triggers && (s.triggers[o].timer == None || o in open)
  }

  lemma GrantedKeeps(s: Snap, o: nat, open: set<nat>)
    requires Inv(s, open) && Armable(s, o, open)
    ensures Inv(Granted(s, o), open - {o})
  {
    GrantedQueue(s, o);
    GrantedTimers(s, o, open);
    hide Known, QueueOk, TimersOk;
  }

  lemma GrantedTimers(s: Snap, o: nat, open: set<nat>)
    requires TimersOk(s.triggers, s.live, open) && Armable(s, o, open)
    requires forall o :: o in open ==> NoTimer(s, o)
    requires forall id :: id in s.live ==> id < s.next
    ensures TimersOk(Granted(s, o).triggers, Granted(s, o).live, open - {o})
  {
    hide Known;
    forall i | i in s.live && s.live[i].OfTrigger? ensures s.live[i].o != o {
      assert s.triggers[s.live[i].o].timer == Some(i);
    }
  }

  lemma GrantedQueue(s: Snap, o: nat)
    requires o in s.triggers && QueueOk(s.triggers, s.queue)
    ensures QueueOk(Granted(s, o).triggers, Granted(s, o).queue)
  {
    hide Known;
  }

  lemma RefusedQueue(s: Snap, o: nat)
    requires o in s.triggers && QueueOk(s.triggers, s.queue)
    ensures QueueOk(Refused(s, o).triggers, Refused(s, o).queue)
  {
    hide Known;
    var t := Refused(s, o);
    if !s.triggers[o].waiting {
      assert Rearm(o) !in s.queue;
      assert t.queue[0] == Rearm(o) && t.queue[1..] == s.queue;
      forall i, j | 0 <= i < j < |t.queue| && t.queue[i].Rearm? ensures t.queue[i] != t.queue[j] {
        assert t.queue[j] == s.queue[j - 1];
        if i > 0 { assert t.queue[i] == s.queue[i - 1]; }
      }
    }
  }

  lemma RefusedKeeps(s: Snap, o: nat, open: set<nat>)
    requires Inv(s, open) && Armable(s, o, open)
    ensures Inv(Refused(s, o), open - {o})
  {
    RefusedQueue(s, o);
    RefusedTimers(s, o, open);
    hide Known, QueueOk, TimersOk;
  }

  lemma RefusedTimers(s: Snap, o: nat, open: set<nat>)
    requires TimersOk(s.triggers, s.live, open) && Armable(s, o, open)
    requires forall o :: o in open ==> NoTimer(s, o)
    ensures TimersOk(Refused(s, o).triggers, Refused(s, o).live, open - {o})
  {
    hide Known;
    forall i | i in s.live && s.live[i].OfTrigger? ensures s.live[i].o != o {
      assert s.triggers[s.live[i].o].timer == Some(i);
    }
  }

  // An entry that is done with: off the queue, and its trigger waits no more.
  function Done(s: Snap): Snap
    requires s.queue != [] && (s.queue[0].Rearm? ==> s.queue[0].o in s.triggers)
  {
    Shift(if s.queue[0].Rearm? then Waited(s, s.queue[0].o) else s)
  }

  lemma DoneQueue(s: Snap)
    requires QueueOk(s.triggers, s.queue) && s.queue != []
    ensures QueueOk(Done(s).triggers, Done(s).queue)
  {
    hide Known;
    var e, t := s.queue[0], Done(s);
    assert forall i :: 0 <= i < |t.queue| ==> t.queue[i] == s.queue[i + 1];
    forall o | o in t.triggers ensures t.triggers[o].waiting <==> Rearm(o) in t.queue {
      if Rearm(o) in s.queue && Rearm(o) != e {
        var i :| 0 <= i < |s.queue| && s.queue[i] == Rearm(o);
        assert t.queue[i - 1] == Rearm(o);
      }
    }
  }

  lemma DoneKeeps(s: Snap, open: set<nat>)
    requires Inv(s, open) && s.queue != []
    requires s.queue[0].Rearm? ==> s.triggers[s.queue[0].o].timer.Some?
    ensures Inv(Done(s), open)
  {
    DoneQueue(s);
    DoneTimers(s, open);
    hide Known, QueueOk, TimersOk;
  }

  lemma DoneTimers(s: Snap, open: set<nat>)
    requires TimersOk(s.triggers, s.live, open) && s.queue != []
    requires (s.queue[0].Rearm? ==> s.queue[0].o in s.triggers)
    ensures TimersOk(Done(s).triggers, Done(s).live, open)
  {
    hide Known;
  }

  lemma OtherKeeps(s: Snap, owner: Owner, open: set<nat>)
    requires Inv(s, open) && !owner.OfTrigger?
    ensures Inv(TakenBy(s, owner), open)
  {
    hide Known, QueueOk;
  }

  // What a trigger or an entry reads of the state.
  predicate SameTimers(s: Snap, t: Snap) {
    && s.triggers == t.triggers && s.queue == t.queue && s.live == t.live && s.next == t.next
    && s.firing == t.firing && s.calling == t.calling
  }

  lemma SameInv(s: Snap, t: Snap, open: set<nat>)
    requires Inv(s, open) && SameTimers(s, t)
    ensures Inv(t, open)
  {
  }

  // The ways a trigger's entry can come out.
  lemma RearmTurn(env: Env, s: Snap, o: nat)
    requires Known(s) && s.queue != [] && s.queue[0] == Rearm(o)
    ensures o in s.triggers && RunFirst(env, s).taken == (s.triggers[o].timer.Some? || Takes(env, s))
    ensures Turn(env, s) ==
              if s.triggers[o].timer.Some? then Done(s)
              else if Takes(env, s) then Done(Granted(s, o))
              else Refused(s, o)
    ensures s.triggers[o].timer.Some? || Takes(env, s) || s.triggers[o].waiting ==> RunFirst(env, s).s.queue == s.queue
  {
    assert s.queue[0].o in s.triggers;
    hide Known, Sooner, Kept, Takes;
  }

  lemma WaitingHasEntry(s: Snap, o: nat)
    requires QueueOk(s.triggers, s.queue) && o in s.triggers && Rearm(o) in s.queue
    ensures s.triggers[o].waiting
  {
  }

  // ------------------------------------------------------- feeding in a check

  lemma StartKeeps(s: Snap, o: nat, alive: bool, open: set<nat>)
    requires Inv(s, open) && o in s.triggers && (alive || !s.triggers[o].alive)
    ensures Inv(Started(s, o, alive), if s.triggers[o].timer == None then open + {o} else open)
    ensures s.triggers[o].started && alive == s.triggers[o].alive ==> Started(s, o, alive) == s
  {
    StartQueue(s, o, alive);
    StartTimers(s, o, alive, open);
    hide Known, QueueOk, TimersOk;
    if s.triggers[o].started && alive == s.triggers[o].alive { assert Started(s, o, alive).triggers == s.triggers; }
  }

  lemma StartQueue(s: Snap, o: nat, alive: bool)
    requires o in s.triggers && QueueOk(s.triggers, s.queue)
    ensures QueueOk(Started(s, o, alive).triggers, s.queue)
  {
    hide Known;
  }

  lemma StartTimers(s: Snap, o: nat, alive: bool, open: set<nat>)
    requires o in s.triggers && TimersOk(s.triggers, s.live, open)
    ensures TimersOk(Started(s, o, alive).triggers, s.live, open)
    ensures TimersOk(Started(s, o, alive).triggers, s.live, open + {o})
  {
    hide Known;
  }

  lemma UnsetKeeps(s: Snap, o: nat, open: set<nat>)
    requires Inv(s, open) && o in s.triggers && s.triggers[o].timer.Some?
    ensures Inv(Unset(s, o), open + {o})
  {
    hide Known, QueueOk;
  }

  lemma SetKeeps(env: Env, s: Snap, o: nat, open: set<nat>)
    requires Inv(s, open) && Armable(s, o, open)
    ensures Inv(SetTimer(env, s, o), open - {o})
  {
    GrantedKeeps(s, o, open);
    RefusedKeeps(s, o, open);
    hide Inv, Known, Takes;
  }

  lemma ReplacedKeeps(env: Env, s: Snap, o: nat, open: set<nat>)
    requires Inv(s, open) && o in s.triggers
    ensures Inv(Replaced(env, s, o), open - {o})
  {
    hide Inv, Known, Kept, SetTimer;
    assert open + {o} - {o} == open - {o};
    if s.triggers[o].timer.Some? {
      UnsetKeeps(s, o, open);
      SetKeeps(env, Unset(s, o), o, open + {o});
    } else {
      SetKeeps(env, s, o, open);
    }
  }

  lemma FedOneKeeps(env: Env, s: Snap, o: nat, open: set<nat>) returns (left: set<nat>)
    requires Inv(s, open)
    ensures Inv(FedOne(env, s, o), left) && left <= open
  {
    hide Inv, Known, Kept, Replaced;
    assert open + {o} - {o} == open - {o};
    left := open;
    if o in s.triggers && s.triggers[o].kind == Watchdog {
      left := open - {o};
      StartKeeps(s, o, true, open);
      ReplacedKeeps(env, Started(s, o, true), o, if s.triggers[o].timer == None then open + {o} else open);
    }
  }

  lemma {:induction false} FedAllKeeps(env: Env, s: Snap, fed: seq<nat>, open: set<nat>) returns (left: set<nat>)
    requires Inv(s, open)
    ensures Inv(FedAll(env, s, fed), left) && left <= open && (fed == [] ==> left == open)
  {
    hide Inv, Known, Kept;
    left := open;
    if fed != [] {
      left := FedAllKeeps(env, s, fed[..|fed| - 1], open);
      left := FedOneKeeps(env, FedAll(env, s, fed[..|fed| - 1]), fed[|fed| - 1], left);
    }
  }

  // Feeding puts entries in front, and changes nothing else of the queue.
  lemma {:induction false} FedInFront(env: Env, s: Snap, fed: seq<nat>)
    requires QueueOk(s.triggers, s.queue)
    ensures var t := FedAll(env, s, fed);
            QueueOk(t.triggers, t.queue) && InFront(s.queue, t.queue)
  {
    if fed != [] {
      var u := FedAll(env, s, fed[..|fed| - 1]);
      FedInFront(env, s, fed[..|fed| - 1]);
      FedOneInFront(env, u, fed[|fed| - 1]);
      hide QueueOk, FedOne, Known, Kept, InFront;
      var t := FedAll(env, s, fed);
      InFrontJoin(s.queue, u.queue, t.queue);
    }
  }

  // b is a behind entries of triggers.
  predicate InFront(a: seq<Entry>, b: seq<Entry>) {
    |b| >= |a| && b[|b| - |a|..] == a && forall i :: 0 <= i < |b| - |a| ==> b[i].Rearm?
  }

  lemma InFrontJoin(a: seq<Entry>, b: seq<Entry>, c: seq<Entry>)
    requires InFront(a, b) && InFront(b, c)
    ensures InFront(a, c)
  {
    var m, n := |b| - |a|, |c| - |b|;
    assert c[n..][m..] == c[m + n..];
    forall i | 0 <= i < m + n ensures c[i].Rearm? {
      if i >= n { assert c[n..][i - n] == c[i]; }
    }
  }

  lemma SetInFront(env: Env, s: Snap, o: nat)
    requires QueueOk(s.triggers, s.queue) && o in s.triggers
    ensures QueueOk(SetTimer(env, s, o).triggers, SetTimer(env, s, o).queue)
    ensures InFront(s.queue, SetTimer(env, s, o).queue)
  {
    GrantedQueue(s, o);
    RefusedQueue(s, o);
    AheadOf(s.queue, [Rearm(o)]);
    AheadOf(s.queue, []);
    hide QueueOk, Known, Kept, Takes, InFront;
    assert [] + s.queue == s.queue;
  }

  lemma AheadOf(a: seq<Entry>, front: seq<Entry>)
    requires forall i :: 0 <= i < |front| ==> front[i].Rearm?
    ensures InFront(a, front + a)
  {
  }

  lemma FedOneInFront(env: Env, s: Snap, o: nat)
    requires QueueOk(s.triggers, s.queue)
    ensures QueueOk(FedOne(env, s, o).triggers, FedOne(env, s, o).queue) && InFront(s.queue, FedOne(env, s, o).queue)
  {
    if o in s.triggers && s.triggers[o].kind == Watchdog {
      StartQueue(s, o, true);
      hide QueueOk, Known, Kept, Takes, SetTimer;
      var u := Started(s, o, true);
      SetInFront(env, if u.triggers[o].timer.Some? then Unset(u, o) else u, o);
    }
  }

  // The trigger waits for an entry that is not there, and for good: it gets no
  // other as long as it waits.
  ghost predicate Lost(s: Snap, o: nat) {
    o in s.triggers && s.triggers[o].waiting && Rearm(o) !in s.queue
  }

  // The turn loses an entry: the check of a waiting heldFor() arm has put
  // entries in front, and the arm is then done with.
  ghost predicate Loses(env: Env, s: Snap)
    requires Known(s)
  {
    s.queue != [] && RunFirst(env, s).taken && |RunFirst(env, s).s.queue| > |s.queue|
  }

  // Main result: a turn of the loop that found the queue in order leaves it in
  // order -- but for one case. When the check of a waiting heldFor() arm has
  // put entries in front and the arm is then done with, the first of those is
  // shifted off in its place, and its trigger is lost.
  lemma LostExactly(env: Env, s: Snap)
    requires Known(s) && QueueOk(s.triggers, s.queue) && s.queue != []
    ensures var r, t := RunFirst(env, s), Turn(env, s);
            && (QueueOk(t.triggers, t.queue) <==> !Loses(env, s))
            && (Loses(env, s) ==> s.queue[0].HeldArm? && r.s.queue[0].Rearm? && Lost(t, r.s.queue[0].o))
  {
    match s.queue[0] {
      case Rearm(o) =>
        RearmTurn(env, s, o);
        DoneQueue(s);
        GrantedQueue(s, o);
        DoneQueue(Granted(s, o));
        RefusedQueue(s, o);
        hide Known, Takes, RunFirst, QueueOk;
      case AfterStep(_) =>
        DoneQueue(s);
        hide Known, Takes, QueueOk;
      case HeldArm(r) =>
        HeldArmLoses(env, s, r);
    }
  }

  lemma HeldArmRuns(env: Env, s: Snap, h: nat)
    requires Known(s) && QueueOk(s.triggers, s.queue) && s.queue != [] && s.queue[0] == HeldArm(h)
    ensures var t := RunFirst(env, s).s; QueueOk(t.triggers, t.queue) && InFront(s.queue, t.queue)
  {
    FedInFront(env, s.(checked := s.checked + 1), env.checks(s.checked).fed);
    CheckedQueue(env, s, h);
    hide FedAll, Known, QueueOk, Sooner, Kept, Takes, RunHeldArm;
  }

  lemma HeldArmLoses(env: Env, s: Snap, h: nat)
    requires Known(s) && QueueOk(s.triggers, s.queue) && s.queue != [] && s.queue[0] == HeldArm(h)
    ensures var r, t := RunFirst(env, s), Turn(env, s);
            && (QueueOk(t.triggers, t.queue) <==> !(r.taken && |r.s.queue| > |s.queue|))
            && (r.taken && |r.s.queue| > |s.queue| ==> r.s.queue[0].Rearm? && Lost(t, r.s.queue[0].o))
  {
    HeldArmRuns(env, s, h);
    hide RunFirst, FedAll, Known, QueueOk;
    var r := RunFirst(env, s);
    if |r.s.queue| == |s.queue| {
      assert r.s.queue == s.queue;
      DoneQueue(r.s);
    } else if r.taken {
      FirstGoes(r.s);
    }
  }

  // An entry of a trigger that is dropped while its trigger waits.
  lemma FirstGoes(s: Snap)
    requires s.queue != [] && s.queue[0].Rearm? && QueueOk(s.triggers, s.queue)
    ensures Lost(Shift(s), s.queue[0].o) && !QueueOk(Shift(s).triggers, Shift(s).queue)
  {
    hide Known;
    assert s.queue[0] in s.queue;
  }

  // ---------------------------------------------------------- turns and passes

  lemma RearmKeeps(env: Env, s: Snap, o: nat, open: set<nat>) returns (left: set<nat>)
    requires Inv(s, open) && s.queue != [] && s.queue[0] == Rearm(o)
    ensures Known(s) && Inv(Turn(env, s), left) && left <= open && RunFirst(env, s).s.queue == s.queue
    ensures s.triggers[o].timer.Some? || o !in open ==> left == open
  {
    InvKnown(s, open);
    RearmTurn(env, s, o);
    WaitingHasEntry(s, o);
    hide Known, Takes, Inv, RunFirst, Turn;
    left := if s.triggers[o].timer.Some? then open else open - {o};
    if s.triggers[o].timer.Some? {
      DoneKeeps(s, open);
    } else if Takes(env, s) {
      GrantedKeeps(s, o, open);
      DoneKeeps(Granted(s, o), left);
    } else {
      RefusedKeeps(s, o, open);
    }
  }

  lemma StepArmKeeps(env: Env, s: Snap, open: set<nat>)
    requires Inv(s, open) && s.queue != [] && s.queue[0].AfterStep?
    ensures Known(s) && Inv(Turn(env, s), open)
  {
    InvKnown(s, open);
    DoneKeeps(s, open);
    OtherKeeps(Done(s), OfStep(s.queue[0].k), open);
    StepArmTurn(env, s);
    hide Known, Inv, Turn;
    SameInv(if Takes(env, s) then TakenBy(Done(s), OfStep(s.queue[0].k)) else s, Turn(env, s), open);
  }

  lemma StepArmTurn(env: Env, s: Snap)
    requires Known(s) && s.queue != [] && s.queue[0].AfterStep?
    ensures SameTimers(if Takes(env, s) then TakenBy(Done(s), OfStep(s.queue[0].k)) else s, Turn(env, s))
  {
    hide Known, Sooner, Kept, Takes;
  }

  // The state its conditions leave a waiting arm in.
  function Checked(env: Env, s: Snap): Snap {
    FedAll(env, s.(checked := s.checked + 1), env.checks(s.checked).fed)
  }

  // What the turn makes of that.
  function AfterCheck(env: Env, t: Snap, h: nat, holds: bool): Snap
    requires t.queue != []
  {
    if !holds then Shift(t) else if Takes(env, t) then TakenBy(Shift(t), OfRule(h)) else t
  }

  lemma CheckedTurn(env: Env, s: Snap, h: nat)
    requires Known(s) && s.queue != [] && s.queue[0] == HeldArm(h) && h in s.held && !Loses(env, s)
    ensures var t, holds := Checked(env, s), env.checks(s.checked).holds;
            && t.queue != [] && SameTimers(AfterCheck(env, t, h, holds), Turn(env, s))
            && (!holds || Takes(env, t) ==> |t.queue| == |s.queue|)
  {
    hide Known, Sooner, FedAll, Takes;
  }

  lemma HeldArmKeeps(env: Env, s: Snap, h: nat, open: set<nat>) returns (left: set<nat>)
    requires Inv(s, open) && s.queue != [] && s.queue[0] == HeldArm(h)
    requires Known(s) && !Loses(env, s)
    ensures Inv(Turn(env, s), left) && left <= open && (env.checks(s.checked).fed == [] ==> left == open)
  {
    hide Known, Turn, Loses;
    if h !in s.held {
      left := open;
      DoneKeeps(s, open);
      NoCheckTurn(env, s, h);
    } else {
      left := CheckLeaves(env, s, open);
      hide Inv, QueueOk, FedAll, InFront, AfterCheck;
      CheckedTurn(env, s, h);
      CheckedKeeps(env, Checked(env, s), s.queue, h, env.checks(s.checked).holds, left);
      SameInv(AfterCheck(env, Checked(env, s), h, env.checks(s.checked).holds), Turn(env, s), left);
    }
  }

  lemma CheckLeaves(env: Env, s: Snap, open: set<nat>) returns (left: set<nat>)
    requires Inv(s, open)
    ensures Inv(Checked(env, s), left) && left <= open && (env.checks(s.checked).fed == [] ==> left == open)
    ensures InFront(s.queue, Checked(env, s).queue)
  {
    var c := s.(checked := s.checked + 1);
    SameInv(s, c, open);
    FedInFront(env, c, env.checks(s.checked).fed);
    hide Inv, QueueOk, FedAll, Known, Kept, InFront;
    left := FedAllKeeps(env, c, env.checks(s.checked).fed, open);
  }

  lemma NoCheckTurn(env: Env, s: Snap, h: nat)
    requires Known(s) && s.queue != [] && s.queue[0] == HeldArm(h) && h !in s.held
    ensures Turn(env, s) == Done(s)
  {
    hide Known, Sooner;
  }

  lemma CheckedKeeps(env: Env, t: Snap, queue: seq<Entry>, h: nat, holds: bool, open: set<nat>)
    requires Inv(t, open) && InFront(queue, t.queue) && queue != [] && queue[0].HeldArm? && t.queue != []
    requires !holds || Takes(env, t) ==> |t.queue| == |queue|
    ensures Inv(AfterCheck(env, t, h, holds), open)
  {
    if !holds || Takes(env, t) {
      assert t.queue == queue;
      DoneKeeps(t, open);
      OtherKeeps(Done(t), OfRule(h), open);
    }
    hide Inv, Known, Takes;
  }

  // They all name a timer still.
  ghost predicate AllNamed(s: Snap, open: set<nat>) {
    forall o :: o in open ==> o in s.triggers && s.triggers[o].timer.Some?
  }

  lemma TurnKeeps(env: Env, s: Snap, open: set<nat>) returns (left: set<nat>)
    requires Inv(s, open) && Known(s) && s.queue != [] && !Loses(env, s)
    ensures Inv(Turn(env, s), left) && left <= open
    ensures env.checks(s.checked).fed == [] && AllNamed(s, open) ==> left == open
  {
    hide Inv, Loses, Turn;
    match s.queue[0] {
      case Rearm(o) =>
        left := RearmKeeps(env, s, o, open);
      case AfterStep(_) =>
        StepArmKeeps(env, s, open);
        left := open;
      case HeldArm(h) => left := HeldArmKeeps(env, s, h, open);
    }
  }

  // Some turn of the pass loses an entry.
  ghost predicate PassLoses(env: Env, s: Snap)
    requires Known(s)
    decreases |s.held|, |s.queue|
  {
    s.queue != [] && (Loses(env, s) || (RunFirst(env, s).taken && PassLoses(env, Shift(RunFirst(env, s).s))))
  }

  lemma {:induction false} PassKeeps(env: Env, s: Snap, open: set<nat>) returns (left: set<nat>)
    requires Inv(s, open) && Known(s) && !PassLoses(env, s)
    ensures Inv(Pass(env, s), left) && left <= open
    decreases |s.held|, |s.queue|
  {
    left := open;
    if s.queue != [] {
      left := TurnKeeps(env, s, open);
      hide Known, Inv, RunFirst, Loses;
      if RunFirst(env, s).taken { left := PassKeeps(env, Turn(env, s), left); }
    }
  }

  // Once lost, a trigger stays lost.
  lemma FedOneLost(env: Env, s: Snap, x: nat, o: nat)
    requires Lost(s, o)
    ensures Lost(FedOne(env, s, x), o)
  {
    hide Known, Kept, Takes;
  }

  lemma {:induction false} FedAllLost(env: Env, s: Snap, fed: seq<nat>, o: nat)
    requires Lost(s, o)
    ensures Lost(FedAll(env, s, fed), o)
  {
    hide Known, Kept, FedOne, Lost;
    if fed != [] {
      FedAllLost(env, s, fed[..|fed| - 1], o);
      FedOneLost(env, FedAll(env, s, fed[..|fed| - 1]), fed[|fed| - 1], o);
    }
  }

  lemma TurnLost(env: Env, s: Snap, o: nat)
    requires Known(s) && s.queue != [] && Lost(s, o)
    ensures Lost(Turn(env, s), o)
  {
    match s.queue[0] {
      case Rearm(x) =>
        assert s.queue[0] in s.queue;
        RearmTurn(env, s, x);
        hide Known, Takes, RunFirst, Turn;
      case AfterStep(_) =>
        StepArmTurn(env, s);
        hide Known, Takes, RunFirst, Turn;
      case HeldArm(h) =>
        FedAllLost(env, s.(checked := s.checked + 1), env.checks(s.checked).fed, o);
        CheckedQueue(env, s, h);
        hide Known, Kept, Takes, Sooner, FedAll, RunHeldArm;
    }
  }

  lemma {:induction false} PassLost(env: Env, s: Snap, o: nat)
    requires Known(s) && Lost(s, o)
    ensures Lost(Pass(env, s), o)
    decreases |s.held|, |s.queue|
  {
    if s.queue != [] {
      TurnLost(env, s, o);
      hide Known, RunFirst, Lost;
      if RunFirst(env, s).taken { PassLost(env, Turn(env, s), o); }
    }
  }

  lemma LostBreaks(s: Snap, o: nat, open: set<nat>)
    requires Lost(s, o)
    ensures !Inv(s, open)
  {
  }

  // A pass that loses an entry has lost it for good.
  lemma {:induction false} PassLosesOne(env: Env, s: Snap, open: set<nat>) returns (o: nat)
    requires Inv(s, open) && Known(s) && PassLoses(env, s)
    ensures Lost(Pass(env, s), o)
    decreases |s.held|, |s.queue|
  {
    if Loses(env, s) {
      LostExactly(env, s);
      o := RunFirst(env, s).s.queue[0].o;
      hide Known, Inv, RunFirst, Lost;
      PassLost(env, Turn(env, s), o);
    } else {
      var left := TurnKeeps(env, s, open);
      hide Known, Inv, RunFirst, Loses;
      o := PassLosesOne(env, Turn(env, s), left);
    }
  }

  lemma PassExactly(env: Env, s: Snap)
    requires Inv(s, {}) && Known(s)
    ensures Inv(Pass(env, s), {}) <==> !PassLoses(env, s)
  {
    if PassLoses(env, s) {
      var o := PassLosesOne(env, s, {});
      LostBreaks(Pass(env, s), o, {});
    } else {
      var left := PassKeeps(env, s, {});
      assert left == {};
    }
  }

  // ------------------------------------------------- what each call keeps

  // A timer the table holds for the trigger.
  ghost predicate OwnTimer(s: Snap, o: nat) {
    exists id :: id in s.live && s.live[id] == OfTrigger(o)
  }

  // A watchdog's re-arm does no harm: the pass that clearing its timer starts
  // loses no entry, and no check of that pass leaves this very watchdog with a
  // timer -- which the re-arm would overwrite, and nothing could clear.
  ghost predicate RearmHarmless(env: Env, s: Snap, o: nat)
    requires Known(s) && o in s.triggers
  {
    s.triggers[o].timer.Some? ==> !PassLoses(env, Unset(s, o)) && !OwnTimer(Pass(env, Unset(s, o)), o)
  }

  // The call does no harm: its pass, if it has one, loses no entry, and a
  // re-arm overwrites no timer.
  ghost predicate Harmless(env: Env, s: Snap, op: Op)
    requires Known(s) && Enabled(s, op)
  {
    match op
    case DoRegister(o) =>
      s.triggers[o].kind == Watchdog && !s.triggers[o].started ==>
        RearmHarmless(env, Started(s, o, s.triggers[o].alive), o)
    case DoFeed(o) => RearmHarmless(env, Started(s, o, true), o)
    case DoBroke(r, id) => id.Some? ==> !PassLoses(env, s.(live := s.live - {id.value}))
    case DoEvent => !PassLoses(env, s)
    case DoReturn => !PassLoses(env, NextPeriod(env, s))
    case _ => true
  }

  lemma OverwrittenBreaks(env: Env, s: Snap, o: nat, open: set<nat>)
    requires Inv(s, open) && o in s.triggers && OwnTimer(s, o)
    ensures !Inv(SetTimer(env, s, o), {})
  {
    var id :| id in s.live && s.live[id] == OfTrigger(o);
    var t := SetTimer(env, s, o);
    assert id in t.live && t.live[id] == OfTrigger(o) && t.triggers[o].timer != Some(id);
  }

  lemma SetLost(env: Env, s: Snap, x: nat, o: nat)
    requires Lost(s, o) && x in s.triggers
    ensures Lost(SetTimer(env, s, x), o)
  {
    hide Known, Kept, Takes;
  }

  // With no timer of its own, the trigger can be armed.
  lemma ArmableOrOwn(s: Snap, o: nat, open: set<nat>)
    requires Inv(s, open) && o in s.triggers
    ensures Armable(s, o, open) || OwnTimer(s, o)
  {
    if !Armable(s, o, open) {
      assert s.live[s.triggers[o].timer.value] == OfTrigger(o);
    }
  }

  // A re-arm keeps the invariant exactly when it does no harm.
  lemma RearmedExactly(env: Env, s: Snap, o: nat)
    requires Known(s) && o in s.triggers && Inv(s, if s.triggers[o].timer == None then {o} else {})
    ensures Inv(Rearmed(env, s, o), {}) <==> RearmHarmless(env, s, o)
  {
    if s.triggers[o].timer == None {
      SetKeeps(env, s, o, {o});
      assert {o} - {o} == {};
    } else {
      UnsetKeeps(s, o, {});
      assert {} + {o} == {o};
      hide Inv, Known, SetTimer, PassLoses;
      OverwriteExactly(env, Unset(s, o), o);
    }
  }

  lemma OverwriteExactly(env: Env, u: Snap, o: nat)
    requires Known(u) && Inv(u, {o}) && o in u.triggers
    ensures Inv(SetTimer(env, Pass(env, u), o), {}) <==> !PassLoses(env, u) && !OwnTimer(Pass(env, u), o)
  {
    hide Inv, Known, SetTimer, OwnTimer;
    var p := Pass(env, u);
    if PassLoses(env, u) {
      var x := PassLosesOne(env, u, {o});
      SetLost(env, p, o, x);
      LostBreaks(SetTimer(env, p, o), x, {});
    } else {
      var left := PassKeeps(env, u, {o});
      if OwnTimer(p, o) {
        OverwrittenBreaks(env, p, o, left);
      } else {
        ArmableOrOwn(p, o, left);
        SetKeeps(env, p, o, left);
        assert left - {o} == {};
      }
    }
  }

  lemma ArmedKeeps(env: Env, s: Snap, o: nat)
    requires o in s.triggers && Inv(s, if s.triggers[o].timer == None then {o} else {})
    ensures Inv(Armed(env, s, o), {})
  {
    hide Inv, Known, SetTimer;
    if s.triggers[o].timer == None {
      SetKeeps(env, s, o, {o});
      assert {o} - {o} == {};
    }
  }

  lemma RegisterExactly(env: Env, s: Snap, o: nat)
    requires Inv(s, {}) && Known(s) && o in s.triggers
    ensures Inv(OnRegister(env, s, o), {}) <==> Harmless(env, s, DoRegister(o))
  {
    StartKeeps(s, o, s.triggers[o].alive, {});
    assert {} + {o} == {o};
    hide Inv, Known, Rearmed, Armed, RearmHarmless;
    var u := Started(s, o, s.triggers[o].alive);
    if s.triggers[o].kind == Every {
      ArmedKeeps(env, u, o);
    } else if !s.triggers[o].started {
      RearmedExactly(env, u, o);
    } else {
      assert u == s;
    }
  }

  lemma FeedExactly(env: Env, s: Snap, o: nat)
    requires Inv(s, {}) && Known(s) && o in s.triggers
    ensures Inv(Rearmed(env, Started(s, o, true), o), {}) <==> RearmHarmless(env, Started(s, o, true), o)
  {
    StartKeeps(s, o, true, {});
    assert {} + {o} == {o};
    hide Inv, Known, Rearmed, RearmHarmless;
    RearmedExactly(env, Started(s, o, true), o);
  }

  lemma CreateKeeps(s: Snap, o: nat, kind: Kind)
    requires Inv(s, {}) && o !in s.triggers
    ensures Known(s) && Inv(OnCreate(s, o, kind), {})
  {
    assert Rearm(o) !in s.queue;
  }

  lemma QueuedKeeps(s: Snap, e: Entry)
    requires Inv(s, {}) && !e.Rearm?
    ensures Inv(Queued(s, e), {})
  {
    hide Known;
    if |s.queue| < RETRY_CAP {
      assert QueueOk(s.triggers, s.queue + [e]);
    }
  }

  lemma AfterKeeps(env: Env, s: Snap, k: nat)
    requires Inv(s, {})
    ensures Inv(OnAfter(env, s, k), {})
  {
    OtherKeeps(s, OfStep(k), {});
    AskedKeeps(s, s.held);
    hide Inv, Known, Queued, Takes;
    QueuedKeeps(s.(asked := s.asked + 1, held := s.held), AfterStep(k));
  }

  lemma HeldKeeps(env: Env, s: Snap, r: nat)
    requires Inv(s, {})
    ensures Inv(OnHeld(env, s, r), {})
  {
    OtherKeeps(s, OfRule(r), {});
    AskedKeeps(s, s.held);
    AskedKeeps(s, s.held + {r});
    hide Inv, Known, Queued, Takes;
    QueuedKeeps(s.(asked := s.asked + 1, held := s.held + {r}), HeldArm(r));
  }

  lemma AskedKeeps(s: Snap, held: set<nat>)
    requires Inv(s, {})
    ensures Inv(s.(asked := s.asked + 1, held := held), {})
  {
  }

  lemma BrokeExactly(env: Env, s: Snap, r: nat, id: Option<nat>)
    requires Inv(s, {}) && Known(s) && Enabled(s, DoBroke(r, id))
    ensures Inv(OnBroke(env, s, r, id), {}) <==> Harmless(env, s, DoBroke(r, id))
  {
    hide Known, Inv, Pass, PassLoses;
    if id.Some? {
      var u := s.(live := s.live - {id.value});
      ClearedKeeps(s, id.value);
      PassExactly(env, u);
      SameExactly(Pass(env, u), OnBroke(env, s, r, id));
    } else {
      SameInv(s, OnBroke(env, s, r, id), {});
    }
  }

  lemma SameExactly(s: Snap, t: Snap)
    requires SameTimers(s, t)
    ensures Inv(s, {}) <==> Inv(t, {})
  {
    hide Inv;
    if Inv(s, {}) { SameInv(s, t, {}); }
    if Inv(t, {}) { SameInv(t, s, {}); }
  }

  lemma ClearedKeeps(s: Snap, id: nat)
    requires Inv(s, {}) && (id in s.live ==> !s.live[id].OfTrigger?)
    ensures Known(s.(live := s.live - {id})) && Inv(s.(live := s.live - {id}), {})
  {
    InvKnown(s, {});
    hide QueueOk;
  }

  lemma FireQueue(s: Snap, id: nat)
    requires QueueOk(s.triggers, s.queue) && Known(s) && id in s.live
    ensures QueueOk(OnFire(s, id).triggers, s.queue)
  {
    assert s.live[id].OfTrigger? ==> s.live[id].o in s.triggers;
    hide Known;
  }

  lemma FireTimers(s: Snap, id: nat)
    requires TimersOk(s.triggers, s.live, {}) && Known(s) && id in s.live
    ensures TimersOk(OnFire(s, id).triggers, OnFire(s, id).live, {})
  {
    hide Known;
    if s.live[id].OfTrigger? {
      assert s.triggers[s.live[id].o].timer == Some(id);
    }
  }

  lemma FireKeeps(s: Snap, id: nat)
    requires Inv(s, {}) && Enabled(s, DoFire(id))
    ensures Known(s) && Inv(OnFire(s, id), {})
  {
    InvKnown(s, {});
    FireQueue(s, id);
    FireTimers(s, id);
    hide Known, QueueOk, TimersOk;
  }

  lemma PeriodKeeps(env: Env, s: Snap)
    requires Inv(s, {}) && Known(s)
    ensures Inv(NextPeriod(env, s), {}) && NextPeriod(env, s).firing == None
  {
    if s.firing.Some? {
      var o := s.firing.value;
      UnfiringKeeps(s);
      hide Inv, Known, Takes;
      ArmedKeeps(env, s.(firing := None), o);
    }
  }

  lemma UnfiringKeeps(s: Snap)
    requires Inv(s, {}) && s.firing.Some? && s.firing.value in s.triggers
    ensures Inv(s.(firing := None), if s.triggers[s.firing.value].timer == None then {s.firing.value} else {})
  {
    hide QueueOk;
  }

  lemma ReturnExactly(env: Env, s: Snap)
    requires Inv(s, {}) && Known(s)
    ensures Inv(OnReturn(env, s), {}) <==> !PassLoses(env, NextPeriod(env, s))
  {
    PeriodKeeps(env, s);
    var u := NextPeriod(env, s);
    hide Inv, Known, Pass, PassLoses, NextPeriod;
    PassExactly(env, u);
    PassCalls(env, u);
    NotCalling(Pass(env, u));
  }

  lemma NotCalling(s: Snap)
    requires s.firing == None
    ensures Inv(s, {}) <==> Inv(s.(calling := false), {})
  {
  }

  // Main result: a call keeps the invariant exactly when it does no harm.
  lemma StepExactly(env: Env, s: Snap, op: Op)
    requires Inv(s, {}) && Known(s) && Enabled(s, op)
    ensures Inv(Apply(env, s, op), {}) <==> Harmless(env, s, op)
  {
    hide Inv, Known, Pass, PassLoses, RearmHarmless;
    match op {
      case DoCreate(o, kind) => CreateKeeps(s, o, kind);
      case DoRegister(o) => RegisterExactly(env, s, o);
      case DoFeed(o) => FeedExactly(env, s, o);
      case DoBroke(r, id) => BrokeExactly(env, s, r, id);
      case DoEvent => PassExactly(env, s);
      case DoFire(id) => FireKeeps(s, id);
      case DoReturn => ReturnExactly(env, s);
      case DoAfter(k) => AfterKeeps(env, s, k);
      case DoHeld(r) => HeldKeeps(env, s, r);
    }
  }

  ghost predicate HasTimer(s: Snap, o: nat) {
    && o in s.triggers && s.triggers[o].timer.Some?
    && s.triggers[o].timer.value in s.live && s.live[s.triggers[o].timer.value] == OfTrigger(o)
  }

  // Every every() that a rule uses and every started, alive watchdog has a
  // timer of its own or an entry in the queue -- never two of either -- and is
  // ahead of all that is not a trigger.
  ghost predicate NoneForgotten(s: Snap) {
    && (forall o :: o in s.triggers && Needs(s.triggers[o]) && s.firing != Some(o) ==>
          HasTimer(s, o) || Rearm(o) in s.queue)
    && (forall a, b :: a in s.live && b in s.live && s.live[a] == s.live[b] && s.live[a].OfTrigger? ==> a == b)
    && (forall i, j :: 0 <= i < j < |s.queue| && s.queue[i].Rearm? ==> s.queue[i] != s.queue[j])
    && (forall i, j :: 0 <= i < j < |s.queue| && s.queue[j].Rearm? ==> s.queue[i].Rearm?)
  }

  lemma InvMeans(s: Snap)
    requires Inv(s, {})
    ensures NoneForgotten(s)
  {
  }

  ghost predicate RunHarmless(env: Env, s: Snap, ops: seq<Op>)
    requires Known(s) && Legal(env, s, ops)
    decreases |ops|
  {
    ops == [] || (Harmless(env, s, ops[0]) && RunHarmless(env, Apply(env, s, ops[0]), ops[1..]))
  }

  // The invariant holds after each call of the run.
  ghost predicate InvAlong(env: Env, s: Snap, ops: seq<Op>)
    requires Known(s) && Legal(env, s, ops)
    decreases |ops|
  {
    Inv(s, {}) && (ops == [] || InvAlong(env, Apply(env, s, ops[0]), ops[1..]))
  }

  lemma {:induction false} RunExactly(env: Env, s: Snap, ops: seq<Op>)
    requires Inv(s, {}) && Known(s) && Legal(env, s, ops)
    ensures InvAlong(env, s, ops) <==> RunHarmless(env, s, ops)
    decreases |ops|
  {
    hide Inv, Known, Harmless, Enabled, Apply;
    if ops != [] {
      StepExactly(env, s, ops[0]);
      if Harmless(env, s, ops[0]) {
        RunExactly(env, Apply(env, s, ops[0]), ops[1..]);
      } else {
        NotAlong(env, Apply(env, s, ops[0]), ops[1..]);
      }
    }
  }

  lemma NotAlong(env: Env, s: Snap, ops: seq<Op>)
    requires !Inv(s, {}) && Known(s) && Legal(env, s, ops)
    ensures !InvAlong(env, s, ops)
  {
    hide Inv, Known;
  }

  lemma {:induction false} LastAlong(env: Env, s: Snap, ops: seq<Op>)
    requires Known(s) && Legal(env, s, ops) && InvAlong(env, s, ops)
    ensures Inv(Run(env, s, ops), {})
    decreases |ops|
  {
    hide Inv, Known, Enabled, Apply;
    if ops != [] { LastAlong(env, Apply(env, s, ops[0]), ops[1..]); }
  }

  // Main result: whatever is armed, cleared, fed, registered, fired and refused,
  // in any order -- as long as no pass loses an entry and no re-arm overwrites a
  // timer, no every() and no watchdog is forgotten.
  lemma NothingForgotten(env: Env, ops: seq<Op>)
    requires Legal(env, START, ops) && RunHarmless(env, START, ops)
    ensures NoneForgotten(Run(env, START, ops))
  {
    hide RunHarmless, InvAlong, NoneForgotten;
    RunExactly(env, START, ops);
    LastAlong(env, START, ops);
    InvMeans(Run(env, START, ops));
  }

  // ------------------------------------ conditions that feed nothing do no harm

  // A later step's arm or a heldFor() rule's, whose conditions have no effect.
  lemma PureRun(env: Env, s: Snap)
    requires Known(s) && s.queue != [] && !s.queue[0].Rearm? && Pure(env)
    ensures var r := RunFirst(env, s);
            SameTimers(s, r.s) || (r.taken && SameTimers(TakenBy(s, ArmOwner(s.queue[0])), r.s))
  {
    hide Known, Sooner, Kept, Takes;
  }

  // Only timers and waiting flags differ, and a timer that is there stays.
  ghost predicate SameTriggers(a: map<nat, Trigger>, b: map<nat, Trigger>) {
    && a.Keys == b.Keys
    && forall o :: o in a ==>
         && a[o].kind == b[o].kind && a[o].alive == b[o].alive && a[o].started == b[o].started
         && (a[o].timer.Some? ==> b[o].timer == a[o].timer)
  }

  lemma TurnTriggers(env: Env, s: Snap)
    requires Known(s) && s.queue != [] && Pure(env)
    ensures SameTriggers(s.triggers, Turn(env, s).triggers)
    ensures RunFirst(env, s).taken && s.queue[0].Rearm? ==>
              s.queue[0].o in s.triggers && Turn(env, s).triggers[s.queue[0].o].timer.Some?
  {
    if s.queue[0].Rearm? {
      RearmTurn(env, s, s.queue[0].o);
      hide Known, Takes, Pure, Turn, RunFirst;
    } else {
      PureRun(env, s);
      hide Known, Sooner, Kept, Takes, RunFirst, Pure;
    }
  }

  // The first entry, then the others.
  lemma InOrderJoin(s: Snap, t: Snap, u: Snap)
    requires s.queue != [] && t.queue == s.queue[1..] && TakenInOrder(t, u) && SameTriggers(t.triggers, u.triggers)
    requires s.queue[0].Rearm? ==> s.queue[0].o in t.triggers && t.triggers[s.queue[0].o].timer.Some?
    ensures TakenInOrder(s, u)
  {
    forall i | 0 <= i < |s.queue| - |u.queue| && s.queue[i].Rearm?
      ensures s.queue[i].o in u.triggers && u.triggers[s.queue[i].o].timer.Some?
    {
      if i > 0 { assert t.queue[i - 1] == s.queue[i]; }
    }
  }

  lemma PureTurn(env: Env, s: Snap, open: set<nat>)
    requires Inv(s, open) && Known(s) && s.queue != [] && Pure(env)
    ensures RunFirst(env, s).s.queue == s.queue && !Loses(env, s)
  {
    match s.queue[0] {
      case Rearm(o) =>
        RearmTurn(env, s, o);
        WaitingHasEntry(s, o);
        hide Known, Takes, RunFirst, Inv;
      case _ =>
        PureRun(env, s);
        hide Known, Takes, RunFirst, Inv;
    }
  }

  // A pass, conditions having no effect: it loses nothing, and what it takes
  // off the queue it takes in order, each every() and watchdog armed.
  lemma {:induction false} PurePass(env: Env, s: Snap, open: set<nat>)
    requires Inv(s, open) && Known(s) && Pure(env) && AllNamed(s, open)
    ensures !PassLoses(env, s) && Inv(Pass(env, s), open) && SameTriggers(s.triggers, Pass(env, s).triggers)
    ensures TakenInOrder(s, Pass(env, s))
    decreases |s.held|, |s.queue|
  {
    if s.queue != [] {
      PureTurn(env, s, open);
      var left := TurnKeeps(env, s, open);
      TurnTriggers(env, s);
      assert env.checks(s.checked).fed == [];
      hide Known, Inv, RunFirst, TakenInOrder, Pure, Loses;
      var t := Turn(env, s);
      if RunFirst(env, s).taken {
        PurePass(env, t, open);
        InOrderJoin(s, t, Pass(env, t));
        SameJoin(s.triggers, t.triggers, Pass(env, t).triggers);
      } else {
        NothingTaken(s, t);
      }
    }
  }

  ghost predicate TakenInOrder(s: Snap, t: Snap)
  {
    && |t.queue| <= |s.queue| && t.queue == s.queue[|s.queue| - |t.queue|..]
    && forall i :: 0 <= i < |s.queue| - |t.queue| && s.queue[i].Rearm? ==>
         s.queue[i].o in t.triggers && t.triggers[s.queue[i].o].timer.Some?
  }

  lemma SameJoin(a: map<nat, Trigger>, b: map<nat, Trigger>, c: map<nat, Trigger>)
    requires SameTriggers(a, b) && SameTriggers(b, c)
    ensures SameTriggers(a, c)
  {
  }

  lemma NothingTaken(s: Snap, t: Snap)
    requires t.queue == s.queue
    ensures TakenInOrder(s, t)
  {
  }

  lemma PureRearm(env: Env, s: Snap, o: nat)
    requires Known(s) && o in s.triggers && Inv(s, if s.triggers[o].timer == None then {o} else {}) && Pure(env)
    ensures RearmHarmless(env, s, o)
  {
    if s.triggers[o].timer.Some? {
      UnsetKeeps(s, o, {});
      assert {} + {o} == {o};
      PurePass(env, Unset(s, o), {o});
      OpenHasNone(Pass(env, Unset(s, o)), o, {o});
    }
    hide Inv, Known, Pure, PassLoses, Pass;
  }

  lemma OpenHasNone(s: Snap, o: nat, open: set<nat>)
    requires Inv(s, open) && o in open
    ensures !OwnTimer(s, o)
  {
  }

  // A watchdog is started, and about to be armed.
  lemma PureStart(env: Env, s: Snap, o: nat, alive: bool)
    requires Inv(s, {}) && Known(s) && o in s.triggers && (alive || !s.triggers[o].alive) && Pure(env)
    ensures RearmHarmless(env, Started(s, o, alive), o)
  {
    StartKeeps(s, o, alive, {});
    assert {} + {o} == {o};
    hide Inv, Known, Pure, RearmHarmless;
    PureRearm(env, Started(s, o, alive), o);
  }

  lemma PureStep(env: Env, s: Snap, op: Op)
    requires Inv(s, {}) && Known(s) && Enabled(s, op) && Pure(env)
    ensures Harmless(env, s, op)
  {
    hide Inv, Known, Pure, PassLoses, RearmHarmless, Pass;
    match op {
      case DoRegister(o) => PureStart(env, s, o, s.triggers[o].alive);
      case DoFeed(o) => PureStart(env, s, o, true);
      case DoBroke(r, id) =>
        if id.Some? {
          ClearedKeeps(s, id.value);
          PurePass(env, s.(live := s.live - {id.value}), {});
        }
      case DoEvent => PurePass(env, s, {});
      case DoReturn =>
        PeriodKeeps(env, s);
        PurePass(env, NextPeriod(env, s), {});
      case _ =>
    }
  }

  // Conditions that feed no watchdog do no harm.
  lemma {:induction false} PureIsHarmless(env: Env, s: Snap, ops: seq<Op>)
    requires Inv(s, {}) && Known(s) && Legal(env, s, ops) && Pure(env)
    ensures RunHarmless(env, s, ops)
    decreases |ops|
  {
    hide Inv, Known, Harmless, Enabled, Apply, Pure;
    if ops != [] {
      PureStep(env, s, ops[0]);
      StepExactly(env, s, ops[0]);
      PureIsHarmless(env, Apply(env, s, ops[0]), ops[1..]);
    }
  }

  // --------------------------------------- when a check overflows the table

  // A watchdog with no timer in the table.
  ghost predicate Untimed(s: Snap, o: nat) {
    o in s.triggers && s.triggers[o].kind == Watchdog && !HasTimer(s, o)
  }

  // The watchdogs among those fed that need a slot of the table.
  ghost function Wants(s: Snap, fed: seq<nat>): set<nat> {
    set o | o in fed && Untimed(s, o)
  }

  // The ith watchdog fed, fed for the first time, needs a slot and has no entry,
  // and those before it have taken the slots there were.
  ghost predicate TooLate(s: Snap, fed: seq<nat>, i: nat)
    requires i < |fed|
  {
    && fed[i] !in fed[..i] && Untimed(s, fed[i]) && !s.triggers[fed[i]].waiting
    && |s.live| + |Wants(s, fed[..i])| >= MAX_TIMERS
  }

  ghost predicate Overflows(s: Snap, fed: seq<nat>) {
    exists i :: 0 <= i < |fed| && TooLate(s, fed, i)
  }

  // What one more feed adds: nothing to the others,
  ghost predicate OthersStay(u: Snap, x: nat, t: Snap) {
    && t.triggers.Keys == u.triggers.Keys
    && forall y :: y in u.triggers && y != x ==>
         t.triggers[y] == u.triggers[y] && (HasTimer(t, y) <==> HasTimer(u, y))
  }

  // and to the watchdog a timer, if the table has room, or else an entry.
  ghost predicate OneFed(u: Snap, x: nat, t: Snap)
    requires x in u.triggers
  {
    && OthersStay(u, x, t) && t.triggers[x].kind == u.triggers[x].kind
    && |t.live| == |u.live| + (if !HasTimer(u, x) && |u.live| < MAX_TIMERS then 1 else 0)
    && (HasTimer(t, x) <==> HasTimer(u, x) || |u.live| < MAX_TIMERS)
    && (!HasTimer(t, x) ==> t.triggers[x].waiting)
    && |t.queue| == |u.queue| + (if HasTimer(t, x) || u.triggers[x].waiting then 0 else 1)
  }

  lemma OthersJoin(u: Snap, x: nat, w: Snap, t: Snap)
    requires OthersStay(u, x, w) && OthersStay(w, x, t)
    ensures OthersStay(u, x, t)
  {
    hide HasTimer;
  }

  // What setting a timer does, where only a full table refuses.
  lemma SetEffect(env: Env, w: Snap, x: nat)
    requires x in w.triggers && RefusedOnlyWhenFull(env) && forall id :: id in w.live ==> id < w.next
    ensures var t := SetTimer(env, w, x);
            && OthersStay(w, x, t) && t.triggers[x].kind == w.triggers[x].kind
            && |t.live| == |w.live| + (if |w.live| < MAX_TIMERS then 1 else 0)
            && (HasTimer(t, x) <==> |w.live| < MAX_TIMERS) && (!HasTimer(t, x) ==> t.triggers[x].waiting)
            && |t.queue| == |w.queue| + (if HasTimer(t, x) || w.triggers[x].waiting then 0 else 1)
  {
    hide Known, Kept;
    var t := SetTimer(env, w, x);
    if |w.live| < MAX_TIMERS {
      assert t == Granted(w, x);
      assert |t.live| == |w.live| + 1;
    } else {
      assert t == Refused(w, x);
    }
  }

  // A watchdog about to be set again: its timer, if it has one, cleared.
  function Prepared(s: Snap, x: nat): Snap
    requires x in s.triggers
  {
    var v := Started(s, x, true);
    if v.triggers[x].timer.Some? then Unset(v, x) else v
  }

  lemma PreparedFrees(u: Snap, x: nat, open: set<nat>)
    requires Inv(u, open) && x in u.triggers
    ensures var w := Prepared(u, x);
            && OthersStay(u, x, w) && w.queue == u.queue
            && w.triggers[x].kind == u.triggers[x].kind && w.triggers[x].waiting == u.triggers[x].waiting
            && (forall id :: id in w.live ==> id < w.next)
            && |w.live| == |u.live| - (if HasTimer(u, x) then 1 else 0)
  {
    hide Known, Kept, QueueOk, Covered;
    var w, timer := Prepared(u, x), u.triggers[x].timer;
    if HasTimer(u, x) {
      assert w.live == u.live - {timer.value};
      assert |w.live| == |u.live| - 1;
    } else if timer.Some? {
      assert timer.value !in u.live;
      assert w.live == u.live;
    }
  }

  lemma FedIsSet(env: Env, u: Snap, x: nat)
    requires x in u.triggers && u.triggers[x].kind == Watchdog
    ensures x in Prepared(u, x).triggers && FedOne(env, u, x) == SetTimer(env, Prepared(u, x), x)
  {
    hide Known, Kept, SetTimer;
  }

  // What feeding one watchdog does.
  lemma FedOneEffect(env: Env, u: Snap, x: nat, open: set<nat>)
    requires Inv(u, open) && |u.live| <= MAX_TIMERS && RefusedOnlyWhenFull(env)
    requires x in u.triggers && u.triggers[x].kind == Watchdog
    ensures OneFed(u, x, FedOne(env, u, x))
  {
    hide Inv, Known, Kept, Prepared, SetTimer, FedOne, HasTimer, OthersStay, RefusedOnlyWhenFull;
    FedIsSet(env, u, x);
    PreparedFrees(u, x, open);
    SetEffect(env, Prepared(u, x), x);
    OthersJoin(u, x, Prepared(u, x), FedOne(env, u, x));
  }

  // The state fed has led to.
  ghost predicate FedTo(s: Snap, fed: seq<nat>, t: Snap) {
    && FedSame(s, fed, t) && FedFull(s, fed, t)
    && |t.live| == Least(MAX_TIMERS, |s.live| + |Wants(s, fed)|)
    && (|t.queue| > |s.queue| <==> Overflows(s, fed)) && |t.queue| >= |s.queue|
  }

  // No timer goes, and triggers that are not fed stay as they are.
  ghost predicate FedSame(s: Snap, fed: seq<nat>, t: Snap) {
    && t.triggers.Keys == s.triggers.Keys
    && (forall o :: o in s.triggers ==> t.triggers[o].kind == s.triggers[o].kind)
    && (forall o :: o in s.triggers && HasTimer(s, o) ==> HasTimer(t, o))
    && (forall o :: o in s.triggers && o !in fed ==>
          t.triggers[o].waiting == s.triggers[o].waiting && (HasTimer(t, o) <==> HasTimer(s, o)))
  }

  // A watchdog that is fed and gets no timer waits, with the table full.
  ghost predicate FedFull(s: Snap, fed: seq<nat>, t: Snap) {
    forall o :: o in fed && Untimed(s, o) && !HasTimer(t, o) ==>
      o in t.triggers && |t.live| >= MAX_TIMERS && t.triggers[o].waiting
  }

  function Least(a: nat, b: nat): nat { if a <= b then a else b }

  lemma {:induction false} FedLeads(env: Env, s: Snap, fed: seq<nat>, open: set<nat>)
    requires Inv(s, open) && |s.live| <= MAX_TIMERS && RefusedOnlyWhenFull(env)
    ensures FedTo(s, fed, FedAll(env, s, fed))
  {
    hide Inv, Known, Kept, FedOne, FedTo, OneFed;
    if fed == [] {
      NoneFed(s);
    } else {
      var f, x := fed[..|fed| - 1], fed[|fed| - 1];
      FedLeads(env, s, f, open);
      var left := FedAllKeeps(env, s, f, open);
      var u := FedAll(env, s, f);
      assert fed == f + [x];
      if x in u.triggers && u.triggers[x].kind == Watchdog {
        NotMore(s, f, u);
        FedOneEffect(env, u, x, left);
        FedMore(s, f, x, u, FedOne(env, u, x));
      } else {
        NoWatchdog(env, u, x);
        FedNone(s, f, x, u);
      }
    }
  }

  lemma NoneFed(s: Snap)
    requires |s.live| <= MAX_TIMERS
    ensures FedTo(s, [], s)
  {
    assert Wants(s, []) == {};
  }

  lemma NotMore(s: Snap, fed: seq<nat>, t: Snap)
    requires FedTo(s, fed, t)
    ensures |t.live| <= MAX_TIMERS
  {
  }

  lemma NoWatchdog(env: Env, u: Snap, x: nat)
    requires x in u.triggers ==> u.triggers[x].kind != Watchdog
    ensures FedOne(env, u, x) == u
  {
  }

  lemma FedNone(s: Snap, f: seq<nat>, x: nat, u: Snap)
    requires FedTo(s, f, u) && (x in u.triggers ==> u.triggers[x].kind != Watchdog)
    ensures FedTo(s, f + [x], u)
  {
    OverflowsMore(s, f, x);
    assert (f + [x])[|f|] == x;
    assert Wants(s, f + [x]) == Wants(s, f);
    hide HasTimer, Wants, Overflows;
  }

  lemma OverflowsMore(s: Snap, f: seq<nat>, x: nat)
    ensures Overflows(s, f + [x]) <==> Overflows(s, f) || TooLate(s, f + [x], |f|)
  {
    var fed := f + [x];
    forall i | 0 <= i < |f| ensures TooLate(s, fed, i) <==> TooLate(s, f, i) {
      assert fed[..i] == f[..i];
    }
    if Overflows(s, f) {
      var i :| 0 <= i < |f| && TooLate(s, f, i);
      assert TooLate(s, fed, i);
    }
  }

  lemma WantsMore(s: Snap, f: seq<nat>, x: nat)
    ensures |Wants(s, f + [x])| == |Wants(s, f)| + (if Untimed(s, x) && x !in f then 1 else 0)
  {
    if Untimed(s, x) && x !in f {
      assert Wants(s, f + [x]) == Wants(s, f) + {x};
    } else {
      assert Wants(s, f + [x]) == Wants(s, f);
    }
  }

  lemma FedMore(s: Snap, f: seq<nat>, x: nat, u: Snap, t: Snap)
    requires FedTo(s, f, u) && x in u.triggers && u.triggers[x].kind == Watchdog && OneFed(u, x, t)
    ensures FedTo(s, f + [x], t)
  {
    FedMoreQueue(s, f, x, u, t);
    FedMoreLive(s, f, x, u, t);
    FedMoreFull(s, f, x, u, t);
    FedMoreSame(s, f, x, u, t);
    hide FedSame, FedFull, OneFed, Wants, Overflows;
  }

  lemma FedMoreSame(s: Snap, f: seq<nat>, x: nat, u: Snap, t: Snap)
    requires FedSame(s, f, u) && x in u.triggers && u.triggers[x].kind == Watchdog && OneFed(u, x, t)
    ensures FedSame(s, f + [x], t)
  {
    hide HasTimer;
    forall o | o in s.triggers && o !in f + [x] ensures o !in f && o != x { }
  }

  lemma FedMoreFull(s: Snap, f: seq<nat>, x: nat, u: Snap, t: Snap)
    requires FedSame(s, f, u) && FedFull(s, f, u) && x in u.triggers && u.triggers[x].kind == Watchdog
    requires OneFed(u, x, t)
    ensures FedFull(s, f + [x], t)
  {
    hide HasTimer;
    forall o | o in f + [x] && Untimed(s, o) && !HasTimer(t, o)
      ensures o in t.triggers && |t.live| >= MAX_TIMERS && t.triggers[o].waiting
    {
      if o != x { assert o in f && !HasTimer(u, o); }
    }
  }

  lemma FedMoreLive(s: Snap, f: seq<nat>, x: nat, u: Snap, t: Snap)
    requires FedTo(s, f, u) && x in u.triggers && u.triggers[x].kind == Watchdog && OneFed(u, x, t)
    ensures |t.live| == Least(MAX_TIMERS, |s.live| + |Wants(s, f + [x])|)
  {
    WantsMore(s, f, x);
    hide HasTimer, Wants, Overflows;
  }

  lemma FedMoreQueue(s: Snap, f: seq<nat>, x: nat, u: Snap, t: Snap)
    requires FedTo(s, f, u) && x in u.triggers && u.triggers[x].kind == Watchdog && OneFed(u, x, t)
    ensures (|t.queue| > |s.queue| <==> Overflows(s, f + [x])) && |t.queue| >= |s.queue|
  {
    OverflowsMore(s, f, x);
    assert (f + [x])[..|f|] == f && (f + [x])[|f|] == x;
    hide HasTimer, Wants, Overflows;
  }

  // Exactly when a turn loses an entry, from what is known before it: the first
  // entry is a waiting arm whose conditions come out false, and feed a watchdog
  // for which the table has no slot any more by then.
  lemma LosesExactly(env: Env, s: Snap, open: set<nat>)
    requires Inv(s, open) && Known(s) && |s.live| <= MAX_TIMERS && RefusedOnlyWhenFull(env) && s.queue != []
    ensures Loses(env, s) <==>
              s.queue[0].HeldArm? && s.queue[0].rule in s.held &&
              !env.checks(s.checked).holds && Overflows(s, env.checks(s.checked).fed)
  {
    match s.queue[0] {
      case Rearm(o) =>
        RearmTurn(env, s, o);
        WaitingHasEntry(s, o);
        hide Known, Takes, RunFirst, Inv;
      case AfterStep(_) =>
        hide Known, Takes, Inv;
      case HeldArm(h) => HeldArmLosesExactly(env, s, h, open);
    }
  }

  lemma HeldArmLosesExactly(env: Env, s: Snap, h: nat, open: set<nat>)
    requires Inv(s, open) && Known(s) && |s.live| <= MAX_TIMERS && RefusedOnlyWhenFull(env)
    requires s.queue != [] && s.queue[0] == HeldArm(h)
    ensures Loses(env, s) <==>
              h in s.held && !env.checks(s.checked).holds && Overflows(s, env.checks(s.checked).fed)
  {
    CheckedQueue(env, s, h);
    ArmTaken(env, s, h);
    CheckOverflows(env, s, open);
    hide Known, Inv, FedAll, Overflows, Sooner, Kept, RunHeldArm;
  }

  lemma ArmTaken(env: Env, s: Snap, h: nat)
    requires Known(s) && s.queue != [] && s.queue[0] == HeldArm(h)
    ensures RunFirst(env, s) == RunHeldArm(env, s, h)
    ensures RunFirst(env, s).taken == (h !in s.held || !env.checks(s.checked).holds || Takes(env, Checked(env, s)))
  {
    hide Known, FedAll, Sooner, Kept, Takes;
  }

  lemma CheckOverflows(env: Env, s: Snap, open: set<nat>)
    requires Inv(s, open) && |s.live| <= MAX_TIMERS && RefusedOnlyWhenFull(env)
    ensures var t := Checked(env, s);
            && (|t.queue| > |s.queue| <==> Overflows(s, env.checks(s.checked).fed))
            && (|t.queue| > |s.queue| ==> !Takes(env, t))
  {
    hide Known, Inv, FedAll, FedTo, Overflows, Kept;
    var c, fed := s.(checked := s.checked + 1), env.checks(s.checked).fed;
    SameInv(s, c, open);
    FedLeads(env, c, fed, open);
    SameOverflow(s, c, fed);
    GrownExactly(c, fed, Checked(env, s));
    if Overflows(c, fed) { FullAfter(c, fed, Checked(env, s)); }
  }

  lemma GrownExactly(s: Snap, fed: seq<nat>, t: Snap)
    requires FedTo(s, fed, t)
    ensures |t.queue| > |s.queue| <==> Overflows(s, fed)
  {
  }

  lemma SameOverflow(s: Snap, t: Snap, fed: seq<nat>)
    requires SameTimers(s, t)
    ensures Overflows(s, fed) <==> Overflows(t, fed)
  {
    forall o ensures Untimed(s, o) <==> Untimed(t, o) { }
    forall i | 0 <= i < |fed| ensures TooLate(s, fed, i) <==> TooLate(t, fed, i) {
      assert Wants(s, fed[..i]) == Wants(t, fed[..i]);
    }
  }

  lemma FullAfter(s: Snap, fed: seq<nat>, t: Snap)
    requires FedTo(s, fed, t) && Overflows(s, fed)
    ensures |t.live| >= MAX_TIMERS && |t.queue| > |s.queue|
  {
    var i :| 0 <= i < |fed| && TooLate(s, fed, i);
    SetWithin(Wants(s, fed[..i]), Wants(s, fed));
  }

  // ------------------------------------------------------- the ways to lose one

  // n later steps of .after() ask for a timer.
  function Later(n: nat): (ops: seq<Op>)
    ensures |ops| == n
  {
    if n == 0 then [] else [DoAfter(n)] + Later(n - 1)
  }

  lemma {:induction false} LaterTakes(env: Env, s: Snap, n: nat)
    requires Known(s) && RefusedOnlyWhenFull(env) && |s.live| + n <= MAX_TIMERS
    requires forall id :: id in s.live ==> id < s.next
    ensures Legal(env, s, Later(n)) && Filled(s, Run(env, s, Later(n)), n)
    decreases n
  {
    if n > 0 {
      var t := Apply(env, s, DoAfter(n));
      assert t == TakenBy(s, OfStep(n));
      assert |t.live| == |s.live| + 1;
      assert Later(n)[1..] == Later(n - 1) && Later(n)[0] == DoAfter(n);
      hide Known, Apply;
      LaterTakes(env, t, n - 1);
      FilledMore(s, t, Run(env, t, Later(n - 1)), n);
    }
  }

  // n timers more, none of them a trigger's.
  ghost predicate Filled(s: Snap, t: Snap, n: nat) {
    && |t.live| == |s.live| + n && t == s.(live := t.live, next := s.next + n, asked := t.asked)
    && (forall id :: id in t.live ==> id < t.next)
    && (forall id :: id in s.live ==> id in t.live && t.live[id] == s.live[id])
    && (forall id :: s.next <= id < t.next ==> id in t.live && t.live[id].OfStep?)
  }

  lemma FilledMore(s: Snap, t: Snap, u: Snap, n: nat)
    requires n > 0 && t == TakenBy(s, OfStep(n)) && |t.live| == |s.live| + 1 && Filled(t, u, n - 1)
    requires forall id :: id in s.live ==> id < s.next
    ensures Filled(s, u, n)
  {
    hide Known;
    assert s.next in t.live && t.live[s.next] == OfStep(n);
    forall id | s.next <= id < u.next ensures id in u.live && u.live[id].OfStep? {
      if id > s.next { assert t.next <= id; }
    }
    forall id | id in s.live ensures id in u.live && u.live[id] == s.live[id] {
      assert id in t.live && t.live[id] == s.live[id];
    }
  }

  // A watchdog that is alive, with timer 0.
  const ALIVE := Trigger(Watchdog, Some(0), false, true, true)

  lemma AliveReached(env: Env) returns (ops: seq<Op>)
    requires RefusedOnlyWhenFull(env)
    ensures Legal(env, START, ops)
    ensures var t := Run(env, START, ops);
            t == START.(triggers := map[0 := ALIVE], live := map[0 := OfTrigger(0)], next := 1, asked := t.asked)
  {
    var a := [DoCreate(0, Watchdog)];
    RunOne(env, START, [], DoCreate(0, Watchdog));
    assert [] + a == a;
    RunOne(env, START, a, DoRegister(0));
    ops := a + [DoRegister(0)];
  }

  // A watchdog that expired.
  const EXPIRED := Trigger(Watchdog, None, false, false, true)

  lemma ExpiredReached(env: Env) returns (ops: seq<Op>)
    requires RefusedOnlyWhenFull(env)
    ensures Legal(env, START, ops)
    ensures var t := Run(env, START, ops);
            && t.triggers == map[0 := EXPIRED] && t.queue == [] && t.held == {} && t.live == map[]
            && t.checked == 0 && !t.calling && t.firing == None
  {
    ops := AliveReached(env);
    hide Run, Legal;
    RunOne(env, START, ops, DoFire(0));
    ops := ops + [DoFire(0)];
    RunOne(env, START, ops, DoReturn);
    ops := ops + [DoReturn];
  }

  lemma FullReached(env: Env) returns (ops: seq<Op>)
    requires RefusedOnlyWhenFull(env)
    ensures Legal(env, START, ops)
    ensures var t := Run(env, START, ops);
            && t.triggers == map[0 := EXPIRED] && t.queue == [HeldArm(0)] && t.held == {0} && |t.live| == MAX_TIMERS
            && t.checked == 0 && t.firing == None
  {
    ops := ExpiredReached(env);
    var s := Run(env, START, ops);
    LaterTakes(env, s, MAX_TIMERS);
    RunJoin(env, START, ops, Later(MAX_TIMERS));
    ops := ops + Later(MAX_TIMERS);
    RunOne(env, START, ops, DoHeld(0));
    ops := ops + [DoHeld(0)];
  }

  // A loss, from power-up: a watchdog expires, the table fills, a heldFor()
  // rule waits, and its conditions feed the watchdog and come out false. The
  // watchdog is alive then with no timer and no entry.
  lemma LossIsReachable(env: Env) returns (ops: seq<Op>)
    requires RefusedOnlyWhenFull(env) && env.checks(0) == Check([0], false)
    ensures Legal(env, START, ops)
    ensures var t := Run(env, START, ops);
            && Lost(t, 0) && t.queue == [] && t.triggers == map[0 := Trigger(Watchdog, None, true, true, true)]
            && !NoneForgotten(t)
  {
    ops := FullReached(env);
    var s := Run(env, START, ops);
    RunOne(env, START, ops, DoEvent);
    FullTurn(env, s);
    LastTurn(env, Turn(env, s));
    PassCalls(env, s);
    hide Known, RunFirst;
    assert Pass(env, s) == Pass(env, Turn(env, s));
    ops := ops + [DoEvent];
    assert Needs(Pass(env, s).triggers[0]);
  }

  // The arm itself is found done with.
  lemma LastTurn(env: Env, s: Snap)
    requires Known(s) && s.queue == [HeldArm(0)] && s.held == {}
    ensures Pass(env, s) == s.(queue := [])
  {
    assert RunFirst(env, s) == Ran(s, true);
    assert Shift(s).queue == [];
    hide Known, RunFirst;
  }

  lemma FullTurn(env: Env, s: Snap)
    requires env.checks(0) == Check([0], false) && Known(s) && s.checked == 0
    requires s.triggers == map[0 := EXPIRED] && s.queue == [HeldArm(0)] && s.held == {0} && |s.live| == MAX_TIMERS
    ensures var t := Turn(env, s);
            && RunFirst(env, s).taken && t.queue == [HeldArm(0)] && t.held == {}
            && t.triggers == map[0 := Trigger(Watchdog, None, true, true, true)]
  {
    var c := s.(checked := 1);
    assert [0][..0] == [];
    assert FedAll(env, c, [0]) == FedOne(env, c, 0);
    assert FedOne(env, c, 0) == Refused(Started(c, 0, true), 0);
    assert FedOne(env, c, 0).queue == [Rearm(0), HeldArm(0)];
    hide FedAll, FedOne, Known;
  }

  lemma BothReached(env: Env) returns (ops: seq<Op>)
    requires RefusedOnlyWhenFull(env)
    ensures Legal(env, START, ops)
    ensures var t := Run(env, START, ops);
            && t.triggers == map[0 := ALIVE] && t.queue == [HeldArm(0)] && t.held == {0}
            && |t.live| == MAX_TIMERS == t.next && (forall id :: id in t.live ==> id < t.next)
            && 0 in t.live && t.live[0] == OfTrigger(0) && 1 in t.live && t.live[1].OfStep?
            && t.checked == 0 && t.firing == None && !t.calling
  {
    ops := AliveReached(env);
    var s := Run(env, START, ops);
    hide Known, Run, Legal, Later, Apply;
    LaterTakes(env, s, MAX_TIMERS - 1);
    RunJoin(env, START, ops, Later(MAX_TIMERS - 1));
    ops := ops + Later(MAX_TIMERS - 1);
    RunOne(env, START, ops, DoHeld(0));
    AskedInVain(env, Run(env, START, ops), 0);
    ops := ops + [DoHeld(0)];
  }

  lemma AskedInVain(env: Env, s: Snap, r: nat)
    requires |s.live| >= MAX_TIMERS && r !in s.held && |s.queue| < RETRY_CAP && Known(s)
    ensures Apply(env, s, DoHeld(r)) == s.(asked := s.asked + 1, held := s.held + {r}, queue := s.queue + [HeldArm(r)])
  {
  }

  // Feeding a watchdog whose own feeding lets a check feed it again: the nested
  // timer, 48, is overwritten, here with nothing, since the table is full.
  lemma FedInItsOwnPass(env: Env, s: Snap)
    requires RefusedOnlyWhenFull(env) && env.checks(0) == Check([0], false) && Known(s) && s.checked == 0
    requires s.triggers == map[0 := ALIVE] && s.queue == [HeldArm(0)] && s.held == {0}
    requires |s.live| == MAX_TIMERS == s.next && (forall id :: id in s.live ==> id < s.next) && 0 in s.live
    ensures var u, t := Unset(s, 0), Rearmed(env, Started(s, 0, true), 0);
            && Known(u) && !Loses(env, u) && Turn(env, u).queue == []
            && t == s.(triggers := map[0 := Trigger(Watchdog, None, true, true, true)], queue := [Rearm(0)], held := {},
                       live := (s.live - {0})[48 := OfTrigger(0)], next := 49, asked := s.asked + 2, checked := 1)
  {
    hide Known, Kept, Sooner, FedAll, FedOne;
    var u := Unset(s, 0);
    assert Started(s, 0, true).triggers == s.triggers;
    assert Started(s, 0, true) == s;
    assert |u.live| == MAX_TIMERS - 1;
    NestedFeed(env, u);
    var p := Shift(RunFirst(env, u).s);
    assert p.queue == [];
    assert Pass(env, u) == p;
    assert |p.live| == MAX_TIMERS;
    assert Rearmed(env, s, 0) == Refused(p, 0);
  }

  lemma NestedFeed(env: Env, u: Snap)
    requires RefusedOnlyWhenFull(env) && env.checks(0) == Check([0], false) && Known(u) && u.checked == 0
    requires u.triggers == map[0 := ALIVE] && u.queue == [HeldArm(0)] && u.held == {0}
    requires |u.live| == MAX_TIMERS - 1 && u.next == MAX_TIMERS && 0 !in u.live
    ensures RunFirst(env, u) ==
              Ran(u.(triggers := map[0 := Trigger(Watchdog, Some(48), false, true, true)], held := {},
                     live := u.live[48 := OfTrigger(0)], next := 49, asked := u.asked + 1, checked := 1), true)
  {
    hide Known, Kept, Sooner, FedAll, RunFirst, RunHeldArm, Takes, RefusedOnlyWhenFull;
    FedIsGranted(env, u.(checked := 1));
    FalseCheck(env, u, 0);
    var t := FedAll(env, u.(checked := 1), [0]);
    assert t.held == {0} && t.held - {0} == {};
    assert RunFirst(env, u) == Ran(t.(held := t.held - {0}), true);
  }

  // A check that comes out false.
  lemma FalseCheck(env: Env, u: Snap, h: nat)
    requires Known(u) && u.queue != [] && u.queue[0] == HeldArm(h) && h in u.held && !env.checks(u.checked).holds
    ensures var t := FedAll(env, u.(checked := u.checked + 1), env.checks(u.checked).fed);
            RunFirst(env, u) == Ran(t.(held := t.held - {h}), true)
  {
    hide Known, Kept, Sooner, FedAll, Takes;
  }

  lemma FedIsGranted(env: Env, c: Snap)
    requires RefusedOnlyWhenFull(env) && c.triggers == map[0 := ALIVE]
    requires |c.live| == MAX_TIMERS - 1 && c.next == MAX_TIMERS && 0 !in c.live
    ensures FedAll(env, c, [0]) ==
              c.(triggers := map[0 := Trigger(Watchdog, Some(48), false, true, true)],
                 live := c.live[48 := OfTrigger(0)], next := 49, asked := c.asked + 1)
  {
    hide Known, Kept;
    assert [0][..0] == [];
    assert FedAll(env, c, [0]) == FedOne(env, c, 0);
    hide FedAll;
    assert Started(c, 0, true).triggers == c.triggers;
    assert Unset(c, 0).live == c.live;
    assert FedOne(env, c, 0) == Granted(c, 0);
  }

  // The other way, from power-up: nothing is lost off the queue, yet in the end
  // the watchdog has two timers. The one it does not know of no feed can clear:
  // it expires a watchdog that has just been fed.
  lemma TwoTimersAreReachable(env: Env) returns (ops: seq<Op>)
    requires RefusedOnlyWhenFull(env) && env.checks(0) == Check([0], false)
    ensures Legal(env, START, ops) && TwoTimers(env, Run(env, START, ops))
  {
    ops := BothReached(env);
    var s := Run(env, START, ops);
    OrphanMade(env, s);
    SlotFreed(env, Apply(env, s, DoFeed(0)));
    OrphanStays(env, Apply(env, Apply(env, s, DoFeed(0)), DoFire(1)));
    hide Run, Legal, Apply, TwoTimers, Rearmed;
    RunOne(env, START, ops, DoFeed(0));
    ops := ops + [DoFeed(0)];
    RunOne(env, START, ops, DoFire(1));
    ops := ops + [DoFire(1)];
    RunOne(env, START, ops, DoReturn);
    ops := ops + [DoReturn];
  }

  ghost predicate TwoTimers(env: Env, t: Snap)
    requires Known(t)
  {
    && 48 in t.live && 49 in t.live && t.live[48] == t.live[49] == OfTrigger(0) && t.queue == []
    && t.triggers == map[0 := Trigger(Watchdog, Some(49), false, true, true)] && !NoneForgotten(t)
    && Enabled(t, DoFeed(0)) && ExpiredByOrphan(env, Apply(env, t, DoFeed(0)))
  }

  // The watchdog waits with its one entry, and a timer it does not know of is
  // armed.
  predicate OrphanWaits(s: Snap) {
    && s.triggers == map[0 := Trigger(Watchdog, None, true, true, true)] && s.queue == [Rearm(0)] && s.held == {}
    && s.next == 49 && 48 in s.live && s.live[48] == OfTrigger(0)
    && s.firing == None && forall id :: id in s.live ==> id < s.next
  }

  lemma OrphanMade(env: Env, s: Snap)
    requires RefusedOnlyWhenFull(env) && env.checks(0) == Check([0], false) && Known(s) && s.checked == 0
    requires s.triggers == map[0 := ALIVE] && s.queue == [HeldArm(0)] && s.held == {0} && s.firing == None && !s.calling
    requires |s.live| == MAX_TIMERS == s.next && (forall id :: id in s.live ==> id < s.next)
    requires 0 in s.live && 1 in s.live && s.live[1].OfStep?
    ensures Enabled(s, DoFeed(0))
    ensures var v := Apply(env, s, DoFeed(0));
            && OrphanWaits(v) && |v.live| == MAX_TIMERS && 1 in v.live && v.live[1].OfStep? && !v.calling
  {
    hide Rearmed, Known, Unset, Started, RefusedOnlyWhenFull, Loses, Turn, Pass, OrphanWaits;
    FedInItsOwnPass(env, s);
    LiveSwapped(s.live);
    var v := Apply(env, s, DoFeed(0));
    assert v == Rearmed(env, Started(s, 0, true), 0);
    OrphanIs(s, v);
  }

  lemma OrphanIs(s: Snap, v: Snap)
    requires v.triggers == map[0 := Trigger(Watchdog, None, true, true, true)] && v.queue == [Rearm(0)] && v.held == {}
    requires v.live == (s.live - {0})[48 := OfTrigger(0)] && v.next == 49 && v.firing == None
    requires forall id :: id in s.live ==> id < 48
    ensures OrphanWaits(v)
  {
  }

  lemma LiveSwapped(live: map<nat, Owner>)
    requires 0 in live && 1 in live && live[1].OfStep? && |live| == MAX_TIMERS && forall id :: id in live ==> id < 48
    ensures var l := (live - {0})[48 := OfTrigger(0)];
            && |l| == MAX_TIMERS && 1 in l && l[1].OfStep? && 48 in l && l[48] == OfTrigger(0)
            && forall id :: id in l ==> id < 49
  {
    assert |live - {0}| == MAX_TIMERS - 1;
  }

  // An .after() timer runs out.
  lemma SlotFreed(env: Env, s: Snap)
    requires Known(s) && OrphanWaits(s) && |s.live| == MAX_TIMERS && 1 in s.live && s.live[1].OfStep? && !s.calling
    ensures Enabled(s, DoFire(1))
    ensures var f := Apply(env, s, DoFire(1)); OrphanWaits(f) && |f.live| == MAX_TIMERS - 1 && f.calling
  {
    assert |s.live - {1}| == |s.live| - 1;
  }

  // The watchdog's own timer is pending, and another one expires it.
  ghost predicate ExpiredByOrphan(env: Env, s: Snap)
    requires Known(s)
  {
    && HasTimer(s, 0) && s.triggers[0].alive && s.triggers[0].timer != Some(48)
    && Enabled(s, DoFire(48)) && !Apply(env, s, DoFire(48)).triggers[0].alive
  }

  lemma OrphanStays(env: Env, f: Snap)
    requires RefusedOnlyWhenFull(env) && Known(f) && f.calling && OrphanWaits(f) && |f.live| == MAX_TIMERS - 1
    ensures TwoTimers(env, Apply(env, f, DoReturn))
  {
    RearmTurn(env, f, 0);
    hide RunFirst, Sooner, Kept;
    var g := Done(Granted(f, 0));
    assert g.queue == [];
    assert Pass(env, f) == g;
    var t := g.(calling := false);
    assert Apply(env, f, DoReturn) == t;
    assert |t.live| == MAX_TIMERS;
    hide Pass, Apply, Turn;
    FedBesideOrphan(env, t);
  }

  lemma FedBesideOrphan(env: Env, t: Snap)
    requires RefusedOnlyWhenFull(env) && Known(t) && |t.live| == MAX_TIMERS && t.next == 50 && t.queue == []
    requires t.triggers == map[0 := Trigger(Watchdog, Some(49), false, true, true)] && !t.calling && t.firing == None
    requires 48 in t.live && 49 in t.live && t.live[48] == t.live[49] == OfTrigger(0)
    ensures TwoTimers(env, t)
  {
    var u := Unset(Started(t, 0, true), 0);
    assert |u.live| == MAX_TIMERS - 1;
    assert Pass(env, u) == u;
    assert Apply(env, t, DoFeed(0)) == Granted(u, 0);
    hide Pass, Kept;
  }

}
