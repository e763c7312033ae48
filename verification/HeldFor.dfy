// heldFor(): the sustained gate of a rule, its timer in the shared table, and
// the timer events that may still be on their way when a timer is cancelled.
module HeldFor {
  import opened Options
  import opened TimerTable

  // What happened to a rule, in order; a fire with the timer whose callback it
  // ran in.
  datatype Happening = SawTrue | SawFalse | ArmedAt(turn: nat) | Fired(turn: nat)

  datatype Rule = Rule(timer: Option<nat>, fired: bool, waiting: bool, hist: seq<Happening>)

  datatype Owner = Held(rule: nat) | Elsewhere
  datatype Timer = Timer(turn: nat, owner: Owner)

  // An expired timer's event, queued or deferred.
  datatype Post = Post(id: nat, turn: nat)

  datatype Sys = Sys(
    turns: nat,                 // turns of the id counter so far
    live: map<nat, Timer>,      // armed timers by id
    posts: seq<Post>,
    rules: map<nat, Rule>,
    check: Option<nat>,         // _heldCheck left behind by an interrupt
    ended: set<nat>)            // turns of timers that ran or were cancelled

  // How the conditions come out when the held period ends.
  datatype Elapse = StillHold | Broke | CutShort

  datatype Step =
    | EvalTrue(r: nat, g: Option<nat>)         // a pass found the conditions true
    | EvalFalse(r: nat)                        // a pass found them false
    | Retry(r: nat, m: bool, g: Option<nat>)   // a queued arm of r comes up
    | RetryCut(r: nat)                         // and its check is interrupted
    | Expire(id: nat)
    | Deliver(k: nat, o: Elapse)
    | Recheck(g: Option<nat>)                  // _after_interrupt()
    | ArmOther(n: nat)
    | ClearOther(id: nat)

  // The table grants the id of turn n. Ids do not come round a full wrap while
  // an event that carries one is on its way.
  predicate CanGrant(s: Sys, n: nat) {
    && s.turns <= n && IdAt(n) !in s.live
    && forall k :: 0 <= k < |s.posts| ==> n < s.posts[k].turn + INT32_MAX
  }

  predicate Grantable(s: Sys, g: Option<nat>) {
    g.Some? ==> CanGrant(s, g.value)
  }

  function Granted(s: Sys, n: nat, o: Owner): Sys {
    s.(turns := n + 1, live := s.live[IdAt(n) := Timer(n, o)])
  }

  // _schedule(r.heldFor, ...) with _held_later() when the table refuses.
  function Arm(s: Sys, r: nat, q: Rule, g: Option<nat>): Sys {
    match g
    case Some(n) =>
      Granted(s, n, Held(r)).(rules := s.rules[r := q.(timer := Some(IdAt(n)), hist := q.hist + [ArmedAt(n)])])
    case None => s.(rules := s.rules[r := q.(waiting := true)])
  }

  function Dropped(s: Sys, id: nat): Sys
    requires id in s.live
  {
    s.(live := s.live - {id}, ended := s.ended + {s.live[id].turn})
  }

  predicate Enabled(s: Sys, x: Step) {
    match x
    case EvalTrue(r, g) => r in s.rules && Grantable(s, g)
    case EvalFalse(r) => r in s.rules && (s.rules[r].timer.Some? ==> s.rules[r].timer.value in s.live)
    case Retry(r, m, g) => r in s.rules && Grantable(s, g)
    case RetryCut(r) => r in s.rules && s.rules[r].waiting && s.rules[r].timer == None && !s.rules[r].fired
    case Expire(id) => id in s.live
    case Deliver(k, _) => k < |s.posts|
    case Recheck(g) => s.check.Some? && s.check.value in s.rules && Grantable(s, g)
    case ArmOther(n) => CanGrant(s, n)
    case ClearOther(id) => id in s.live && s.live[id].owner == Elsewhere
  }

  // _apply_match(r, true)
  function OnTrue(s: Sys, r: nat, g: Option<nat>): Sys
    requires r in s.rules
  {
    var q := s.rules[r].(hist := s.rules[r].hist + [SawTrue]);
    if q.timer == None && !q.fired then Arm(s, r, q, g) else s.(rules := s.rules[r := q])
  }

  // _apply_match(r, false)
  function OnFalse(s: Sys, r: nat): Sys
    requires Enabled(s, EvalFalse(r))
  {
    var q := s.rules[r];
    var t := if q.timer.Some? then Dropped(s, q.timer.value) else s;
    t.(rules := t.rules[r := Rule(None, false, false, q.hist + [SawFalse])])
  }

  // The closure _held_later() queues.
  function OnRetry(s: Sys, r: nat, m: bool, g: Option<nat>): Sys
    requires r in s.rules
  {
    var q := s.rules[r];
    if !q.waiting || q.timer.Some? || q.fired then s.(rules := s.rules[r := q.(waiting := false)])
    else if !m then s.(check := None, rules := s.rules[r := q.(waiting := false, hist := q.hist + [SawFalse])])
    else
      var t, q' := s.(check := None), q.(hist := q.hist + [SawTrue]);
      if g.Some? then Arm(t, r, q'.(waiting := false), g) else t.(rules := s.rules[r := q'])
  }

  // run_timer() and, for a rule's own timer, _held_elapsed().
  function OnDeliver(s: Sys, k: nat, o: Elapse): Sys
    requires k < |s.posts|
  {
    var p := s.posts[k];
    var t := s.(posts := s.posts[..k] + s.posts[k + 1..]);
    if p.id !in s.live then t
    else
      var u := Dropped(t, p.id);
      match s.live[p.id].owner
      case Elsewhere => u
      case Held(r) => if r in s.rules then Elapsed(u, r, s.live[p.id].turn, o) else u
  }

  function Elapsed(s: Sys, r: nat, turn: nat, o: Elapse): Sys
    requires r in s.rules
  {
    var q := s.rules[r].(timer := None);
    match o
    case StillHold =>
      s.(check := None, rules := s.rules[r := q.(fired := true, hist := q.hist + [SawTrue, Fired(turn)])])
    case Broke => s.(check := None, rules := s.rules[r := q.(hist := q.hist + [SawFalse])])
    case CutShort => s.(rules := s.rules[r := q], check := Some(r))
  }

  function OnRecheck(s: Sys, g: Option<nat>): Sys
    requires Enabled(s, Recheck(g))
  {
    var r := s.check.value;
    var t := s.(check := None);
    if s.rules[r].timer == None && !s.rules[r].fired then Arm(t, r, s.rules[r], g) else t
  }

  function Apply(s: Sys, x: Step): Sys
    requires Enabled(s, x)
  {
    match x
    case EvalTrue(r, g) => OnTrue(s, r, g)
    case EvalFalse(r) => OnFalse(s, r)
    case Retry(r, m, g) => OnRetry(s, r, m, g)
    case RetryCut(r) => s.(check := Some(r))
    case Expire(id) => s.(posts := s.posts + [Post(id, s.live[id].turn)])
    case Deliver(k, o) => OnDeliver(s, k, o)
    case Recheck(g) => OnRecheck(s, g)
    case ArmOther(n) => Granted(s, n, Elsewhere)
    case ClearOther(id) => Dropped(s, id)
  }

  predicate Legal(s: Sys, steps: seq<Step>)
    decreases |steps|
  {
    steps == [] || (Enabled(s, steps[0]) && Legal(Apply(s, steps[0]), steps[1..]))
  }

  function Run(s: Sys, steps: seq<Step>): Sys
    requires Legal(s, steps)
    decreases |steps|
  {
    if steps == [] then s else Run(Apply(s, steps[0]), steps[1..])
  }

  predicate Initial(s: Sys) {
    && s.live == map[] && s.posts == [] && s.check == None && s.ended == {}
    && forall r :: r in s.rules ==> s.rules[r] == Rule(None, false, false, [])
  }

  // ------------------------------------------------------------------- timers

  // Every event still knows its timer: the table's entry under its id, if
  // there is one, is the timer that posted it.
  ghost predicate TimersTold(s: Sys) {
    && (forall id :: id in s.live ==> IdAt(s.live[id].turn) == id && s.live[id].turn < s.turns)
    && (forall k :: 0 <= k < |s.posts| ==> IdAt(s.posts[k].turn) == s.posts[k].id && s.posts[k].turn < s.turns)
    && (forall k :: 0 <= k < |s.posts| && s.posts[k].id in s.live ==> s.live[s.posts[k].id].turn == s.posts[k].turn)
    && (forall id :: id in s.live ==> s.live[id].turn !in s.ended)
    && (forall n :: n in s.ended ==> n < s.turns)
  }

  // A rule and its timer know of each other.
  ghost predicate TimersOwned(s: Sys) {
    && (forall id :: id in s.live && s.live[id].owner.Held? ==>
          s.live[id].owner.rule in s.rules && s.rules[s.live[id].owner.rule].timer == Some(id))
    && (forall r :: r in s.rules && s.rules[r].timer.Some? ==>
          s.rules[r].timer.value in s.live && s.live[s.rules[r].timer.value].owner == Held(r))
  }

  lemma GrantTold(s: Sys, n: nat, o: Owner)
    requires TimersTold(s) && CanGrant(s, n)
    ensures TimersTold(Granted(s, n, o))
  {
    var t := Granted(s, n, o);
    forall k | 0 <= k < |t.posts| && t.posts[k].id in t.live
      ensures t.live[t.posts[k].id].turn == t.posts[k].turn
    {
      IdsDiffer(s.posts[k].turn, n);
    }
  }

  lemma DropTold(s: Sys, id: nat)
    requires TimersTold(s) && id in s.live
    ensures TimersTold(Dropped(s, id))
  {
    forall x | x in s.live && x != id ensures s.live[x].turn != s.live[id].turn {
      assert IdAt(s.live[x].turn) == x;
    }
  }

  // The timers do not depend on the rules.
  predicate SameTimers(s: Sys, t: Sys) {
    s.live == t.live && s.posts == t.posts && s.ended == t.ended && s.turns == t.turns
  }

  lemma ArmTold(s: Sys, t: Sys, r: nat, q: Rule, g: Option<nat>)
    requires TimersTold(s) && SameTimers(s, t) && Grantable(s, g)
    ensures TimersTold(Arm(t, r, q, g))
  {
    if g.Some? {
      GrantTold(s, g.value, Held(r));
      assert SameTimers(Granted(s, g.value, Held(r)), Arm(t, r, q, g));
    }
  }

  lemma StepKeepsTold(s: Sys, x: Step)
    requires TimersTold(s) && Enabled(s, x)
    ensures TimersTold(Apply(s, x))
  {
    match x {
      case EvalTrue(r, g) => ArmTold(s, s, r, s.rules[r].(hist := s.rules[r].hist + [SawTrue]), g);
      case Retry(r, m, g) =>
        ArmTold(s, s.(check := None), r, s.rules[r].(hist := s.rules[r].hist + [SawTrue], waiting := false), g);
      case Recheck(g) => ArmTold(s, s.(check := None), s.check.value, s.rules[s.check.value], g);
      case EvalFalse(r) => if s.rules[r].timer.Some? { DropTold(s, s.rules[r].timer.value); }
      case ArmOther(n) => GrantTold(s, n, Elsewhere);
      case ClearOther(id) => DropTold(s, id);
      case Deliver(k, o) => DeliverTold(s, k, o);
      case Expire(id) =>
      case RetryCut(r) =>
    }
  }

  lemma DeliverTold(s: Sys, k: nat, o: Elapse)
    requires TimersTold(s) && k < |s.posts|
    ensures TimersTold(OnDeliver(s, k, o))
  {
    var t := s.(posts := s.posts[..k] + s.posts[k + 1..]);
    assert forall j :: 0 <= j < |t.posts| ==> t.posts[j] == s.posts[if j < k then j else j + 1];
    assert TimersTold(t);
    var id := s.posts[k].id;
    if id in s.live {
      DropTold(t, id);
      var u := Dropped(t, id);
      var v := OnDeliver(s, k, o);
      assert v.live == u.live && v.posts == u.posts && v.ended == u.ended && v.turns == u.turns;
    }
  }

  lemma ArmOwned(s: Sys, r: nat, q: Rule, g: Option<nat>)
    requires TimersOwned(s) && r in s.rules && s.rules[r].timer == None && q.timer == None && Grantable(s, g)
    ensures TimersOwned(Arm(s, r, q, g))
  {
  }

  // Only a rule's history and flags differ: it owns what it owned.
  lemma SameOwner(s: Sys, r: nat, q: Rule)
    requires TimersOwned(s) && r in s.rules && q.timer == s.rules[r].timer
    ensures TimersOwned(s.(rules := s.rules[r := q])) && TimersOwned(s.(rules := s.rules[r := q], check := None))
  {
  }

  lemma TrueOwned(s: Sys, r: nat, g: Option<nat>)
    requires TimersOwned(s) && Enabled(s, EvalTrue(r, g))
    ensures TimersOwned(OnTrue(s, r, g))
  {
    var q := s.rules[r].(hist := s.rules[r].hist + [SawTrue]);
    SameOwner(s, r, q);
    if q.timer == None { ArmOwned(s, r, q, g); }
    hide TimersOwned, Arm;
  }

  lemma RetryOwned(s: Sys, r: nat, m: bool, g: Option<nat>)
    requires TimersOwned(s) && Enabled(s, Retry(r, m, g))
    ensures TimersOwned(OnRetry(s, r, m, g))
  {
    var q := s.rules[r];
    var q' := q.(hist := q.hist + [SawTrue]);
    SameOwner(s, r, q.(waiting := false));
    SameOwner(s, r, q.(waiting := false, hist := q.hist + [SawFalse]));
    SameOwner(s, r, q');
    if q.timer == None { ArmOwned(s.(check := None), r, q'.(waiting := false), g); }
    hide TimersOwned, Arm;
  }

  lemma StepKeepsOwned(s: Sys, x: Step)
    requires TimersOwned(s) && Enabled(s, x)
    ensures TimersOwned(Apply(s, x))
  {
    match x {
      case EvalTrue(r, g) => TrueOwned(s, r, g);
      case Retry(r, m, g) => RetryOwned(s, r, m, g);
      case Recheck(g) =>
        if s.rules[s.check.value].timer == None {
          ArmOwned(s.(check := None), s.check.value, s.rules[s.check.value], g);
        }
      case Deliver(k, o) => DeliverOwned(s, k, o);
      case EvalFalse(r) => FalseOwned(s, r);
      case _ =>
    }
  }

  lemma DeliverOwned(s: Sys, k: nat, o: Elapse)
    requires TimersOwned(s) && k < |s.posts|
    ensures TimersOwned(OnDeliver(s, k, o))
  {
    var id := s.posts[k].id;
    if id in s.live && s.live[id].owner.Held? {
      var r := s.live[id].owner.rule;
      var v := OnDeliver(s, k, o);
      assert v.live == s.live - {id} && v.rules[r].timer == None;
      assert forall c :: c in s.rules && c != r ==> v.rules[c] == s.rules[c];
    }
  }

  lemma FalseOwned(s: Sys, r: nat)
    requires TimersOwned(s) && Enabled(s, EvalFalse(r))
    ensures TimersOwned(OnFalse(s, r))
  {
    var v := OnFalse(s, r);
    assert v.rules[r].timer == None;
    assert forall c :: c in s.rules && c != r ==> v.rules[c] == s.rules[c];
  }

  // ------------------------------------------------------------------ history

  // Fired, and not seen false since.
  predicate FiredSince(h: seq<Happening>) {
    h != [] && (h[|h| - 1].Fired? || (h[|h| - 1] != SawFalse && FiredSince(h[..|h| - 1])))
  }

  // The timer armed last, if the conditions were not seen false since.
  function ArmedLast(h: seq<Happening>): Option<nat> {
    if h == [] || h[|h| - 1] == SawFalse then None
    else if h[|h| - 1].ArmedAt? then Some(h[|h| - 1].turn) else ArmedLast(h[..|h| - 1])
  }

  // Every fire came from the timer armed last, since the last false
  // evaluation, and was the first since then.
  predicate Sound(h: seq<Happening>) {
    h == [] || (Sound(h[..|h| - 1]) && MayFollow(h[..|h| - 1], h[|h| - 1]))
  }

  predicate MayFollow(h: seq<Happening>, e: Happening) {
    e.Fired? ==> ArmedLast(h) == Some(e.turn) && !FiredSince(h)
  }

  predicate RuleSound(q: Rule) {
    Sound(q.hist) && q.fired == FiredSince(q.hist) && (q.timer.Some? ==> !q.fired)
  }

  // A rule's timer is the one its history says it armed last.
  ghost predicate RulesSound(s: Sys) {
    && (forall r :: r in s.rules ==> RuleSound(s.rules[r]))
    && (forall r :: r in s.rules && s.rules[r].timer.Some? ==>
          s.rules[r].timer.value in s.live && ArmedLast(s.rules[r].hist) == Some(s.live[s.rules[r].timer.value].turn))
  }

  lemma Extend(h: seq<Happening>, e: Happening)
    ensures FiredSince(h + [e]) == (e.Fired? || (e != SawFalse && FiredSince(h)))
    ensures ArmedLast(h + [e]) == if e.ArmedAt? then Some(e.turn) else if e == SawFalse then None else ArmedLast(h)
    ensures Sound(h + [e]) == (Sound(h) && MayFollow(h, e))
  {
    assert (h + [e])[..|h|] == h;
  }

  lemma ArmSound(s: Sys, r: nat, q: Rule, g: Option<nat>)
    requires TimersOwned(s) && RulesSound(s) && Grantable(s, g)
    requires Sound(q.hist) && q.fired == FiredSince(q.hist) && !q.fired && q.timer == None
    ensures RulesSound(Arm(s, r, q, g))
  {
    hide Sound, FiredSince, ArmedLast;
    if g.Some? {
      Extend(q.hist, ArmedAt(g.value));
      forall c | c in s.rules && c != r && s.rules[c].timer.Some? ensures s.rules[c].timer.value != IdAt(g.value) {
        assert s.rules[c].timer.value in s.live;
      }
    }
    hide TimersOwned, IdAt;
  }

  // A rule's evaluation that leaves its timer alone.
  lemma SawSound(s: Sys, r: nat, q: Rule, e: Happening)
    requires RulesSound(s) && r in s.rules && (e == SawTrue || e == SawFalse) && (e == SawFalse ==> q.timer == None)
    requires q.timer == s.rules[r].timer || q.timer == None
    requires q.hist == s.rules[r].hist + [e] && q.fired == (e == SawTrue && s.rules[r].fired)
    ensures RulesSound(s.(rules := s.rules[r := q]))
  {
    Extend(s.rules[r].hist, e);
  }

  lemma FalseSound(s: Sys, r: nat)
    requires TimersOwned(s) && RulesSound(s) && Enabled(s, EvalFalse(r))
    ensures RulesSound(OnFalse(s, r))
  {
    var q, v := s.rules[r], OnFalse(s, r);
    Extend(q.hist, SawFalse);
    assert v.rules[r].timer == None && RuleSound(v.rules[r]);
    assert forall c :: c in s.rules && c != r ==> v.rules[c] == s.rules[c];
    hide RuleSound, Sound, FiredSince, ArmedLast, MayFollow;
    forall c | c in v.rules && v.rules[c].timer.Some?
      ensures v.rules[c].timer.value in v.live && v.live[v.rules[c].timer.value] == s.live[s.rules[c].timer.value]
    {
      assert c != r && s.live[s.rules[c].timer.value].owner == Held(c);
    }
    hide TimersOwned, OnFalse;
  }

  lemma RetrySound(s: Sys, r: nat, m: bool, g: Option<nat>)
    requires TimersOwned(s) && RulesSound(s) && Enabled(s, Retry(r, m, g))
    ensures RulesSound(OnRetry(s, r, m, g))
  {
    var q := s.rules[r];
    if q.waiting && q.timer == None && !q.fired {
      var q' := q.(hist := q.hist + [SawTrue]);
      SawSound(s, r, q.(waiting := false, hist := q.hist + [SawFalse]), SawFalse);
      SawSound(s, r, q', SawTrue);
      Extend(q.hist, SawTrue);
      ArmSound(s.(check := None), r, q'.(waiting := false), g);
    }
    hide Sound, FiredSince, ArmedLast, MayFollow, TimersOwned;
  }

  lemma TrueSound(s: Sys, r: nat, g: Option<nat>)
    requires TimersOwned(s) && RulesSound(s) && Enabled(s, EvalTrue(r, g))
    ensures RulesSound(OnTrue(s, r, g))
  {
    var q := s.rules[r].(hist := s.rules[r].hist + [SawTrue]);
    SawSound(s, r, q, SawTrue);
    Extend(s.rules[r].hist, SawTrue);
    if q.timer == None && !q.fired { ArmSound(s, r, q, g); }
    hide Sound, FiredSince, ArmedLast, MayFollow, TimersOwned, Arm;
  }

  lemma StepKeepsSound(s: Sys, x: Step)
    requires TimersOwned(s) && RulesSound(s) && Enabled(s, x)
    ensures RulesSound(Apply(s, x))
  {
    match x {
      case EvalTrue(r, g) => TrueSound(s, r, g);
      case EvalFalse(r) => FalseSound(s, r);
      case Retry(r, m, g) => RetrySound(s, r, m, g);
      case Recheck(g) =>
        var q := s.rules[s.check.value];
        if q.timer == None && !q.fired { ArmSound(s.(check := None), s.check.value, q, g); }
      case Deliver(k, o) => DeliverSound(s, k, o);
      case ArmOther(n) =>
      case ClearOther(id) => DropSound(s, id);
      case _ =>
    }
  }

  // Another's timer goes.
  lemma DropSound(s: Sys, id: nat)
    requires TimersOwned(s) && RulesSound(s) && id in s.live && s.live[id].owner == Elsewhere
    ensures RulesSound(Dropped(s, id))
  {
    hide RuleSound, ArmedLast;
  }

  lemma DeliverSound(s: Sys, k: nat, o: Elapse)
    requires TimersOwned(s) && RulesSound(s) && k < |s.posts|
    ensures RulesSound(OnDeliver(s, k, o))
  {
    var p := s.posts[k];
    if p.id in s.live {
      if s.live[p.id].owner.Held? {
        ElapsedSound(s, s.live[p.id].owner.rule, p.id, o);
        assert OnDeliver(s, k, o).live == Elapsed(Dropped(s, p.id), s.live[p.id].owner.rule, s.live[p.id].turn, o).live;
      } else {
        DropSound(s, p.id);
        assert OnDeliver(s, k, o).live == Dropped(s, p.id).live;
      }
    }
    hide RuleSound, ArmedLast, TimersOwned;
  }

  // The rule's own timer has run.
  lemma ElapsedSound(s: Sys, r: nat, id: nat, o: Elapse)
    requires TimersOwned(s) && RulesSound(s) && id in s.live && s.live[id].owner == Held(r)
    ensures RulesSound(Elapsed(Dropped(s, id), r, s.live[id].turn, o))
  {
    var q, turn := s.rules[r], s.live[id].turn;
    Extend(q.hist, SawFalse);
    Extend(q.hist, SawTrue);
    Extend(q.hist + [SawTrue], Fired(turn));
    assert q.hist + [SawTrue] + [Fired(turn)] == q.hist + [SawTrue, Fired(turn)];
    hide Sound, FiredSince, ArmedLast;
  }

  ghost predicate Inv(s: Sys) {
    TimersTold(s) && TimersOwned(s) && RulesSound(s)
  }

  lemma {:induction false} RunsKeep(s: Sys, steps: seq<Step>)
    requires Inv(s) && Legal(s, steps)
    ensures Inv(Run(s, steps))
    decreases |steps|
  {
    if steps != [] {
      StepKeepsTold(s, steps[0]);
      StepKeepsOwned(s, steps[0]);
      StepKeepsSound(s, steps[0]);
      RunsKeep(Apply(s, steps[0]), steps[1..]);
    }
  }

  lemma {:induction false} LastFire(h: seq<Happening>, i: nat)
    requires i < |h| && h[i].Fired? && forall k :: i < k < |h| ==> h[k] != SawFalse
    ensures FiredSince(h)
  {
    if i < |h| - 1 { LastFire(h[..|h| - 1], i); }
  }

  lemma {:induction false} LastArm(h: seq<Happening>) returns (i: nat)
    requires ArmedLast(h).Some?
    ensures i < |h| && h[i] == ArmedAt(ArmedLast(h).value)
    ensures forall k :: i < k < |h| ==> h[k] != SawFalse && !h[k].ArmedAt?
  {
    if h[|h| - 1].ArmedAt? { i := |h| - 1; } else { i := LastArm(h[..|h| - 1]); }
  }

  lemma {:induction false} SoundAt(h: seq<Happening>, i: nat)
    requires Sound(h) && i < |h| && h[i].Fired?
    ensures ArmedLast(h[..i]) == Some(h[i].turn) && !FiredSince(h[..i])
  {
    if i < |h| - 1 {
      SoundAt(h[..|h| - 1], i);
      assert h[..|h| - 1][..i] == h[..i];
    }
  }

  // Main result: a heldFor rule fires at most once between two evaluations
  // that found its conditions false, and only in the callback of the timer it
  // armed last, since whose arming no evaluation found them false.
  lemma FiresOncePerHold(s: Sys, steps: seq<Step>, r: nat, j: nat)
    requires Initial(s) && Legal(s, steps) && r in Run(s, steps).rules
    requires var h := Run(s, steps).rules[r].hist; j < |h| && h[j].Fired?
    ensures var h := Run(s, steps).rules[r].hist;
            && (forall i :: 0 <= i < j && h[i].Fired? ==> exists k :: i < k < j && h[k] == SawFalse)
            && exists a :: 0 <= a < j && h[a] == ArmedAt(h[j].turn) &&
                    forall k :: a < k < j ==> h[k] != SawFalse && !h[k].ArmedAt?
  {
    RunsKeep(s, steps);
    var h := Run(s, steps).rules[r].hist;
    SoundAt(h, j);
    forall i | 0 <= i < j && h[i].Fired? ensures exists k :: i < k < j && h[k] == SawFalse {
      if forall k :: i < k < j ==> h[k] != SawFalse { LastFire(h[..j], i); }
    }
    var a := LastArm(h[..j]);
    assert h[a] == ArmedAt(h[j].turn) && forall k :: a < k < j ==> h[k] == h[..j][k];
  }

  // Main result: an event that finds a timer finds the one that posted it, so
  // one whose timer was cancelled, or has run, finds none.
  lemma CancelledNeverRuns(s: Sys, steps: seq<Step>, k: nat)
    requires Initial(s) && Legal(s, steps) && k < |Run(s, steps).posts|
    ensures var t := Run(s, steps); var p := t.posts[k];
            && (p.id in t.live ==> t.live[p.id].turn == p.turn)
            && (p.turn in t.ended ==> p.id !in t.live)
  {
    RunsKeep(s, steps);
  }

  // What one evaluation does: found true, a rule that has neither a timer nor
  // its latch is armed, or waits for a slot; found false, it is back at rest.
  lemma FoundTrue(s: Sys, r: nat, g: Option<nat>)
    requires Enabled(s, EvalTrue(r, g))
    ensures var q, p := s.rules[r], Apply(s, EvalTrue(r, g)).rules[r];
            && p.fired == q.fired
            && if q.timer.Some? || q.fired then p.timer == q.timer && p.hist == q.hist + [SawTrue]
               else if g == None then p.waiting && p.timer == None && p.hist == q.hist + [SawTrue]
               else p.timer == Some(IdAt(g.value)) && p.hist == q.hist + [SawTrue] + [ArmedAt(g.value)]
  {
  }

  lemma FoundFalse(s: Sys, r: nat)
    requires Enabled(s, EvalFalse(r))
    ensures var q, t := s.rules[r], Apply(s, EvalFalse(r));
            && t.rules[r] == Rule(None, false, false, q.hist + [SawFalse])
            && t.live == (if q.timer.Some? then s.live - {q.timer.value} else s.live)
  {
  }

  // Main result: in every reachable state, an event whose timer is a rule's own
  // fires and latches the rule if the conditions still hold, and otherwise
  // takes its timer only; cut short, the check is left behind to be set again.
  lemma OwnTimerRuns(s: Sys, steps: seq<Step>, k: nat, o: Elapse, r: nat)
    requires Initial(s) && Legal(s, steps) && k < |Run(s, steps).posts|
    requires var t := Run(s, steps); t.posts[k].id in t.live && t.live[t.posts[k].id].owner == Held(r)
    ensures var t := Run(s, steps); var u := Apply(t, Deliver(k, o));
            && r in t.rules && t.rules[r].timer == Some(t.posts[k].id) && !t.rules[r].fired
            && r in u.rules && u.rules[r].timer == None && t.posts[k].id !in u.live
            && match o
               case StillHold =>
                 u.rules[r].fired && u.rules[r].hist == t.rules[r].hist + [SawTrue, Fired(t.posts[k].turn)]
               case Broke => !u.rules[r].fired && u.rules[r].hist == t.rules[r].hist + [SawFalse]
               case CutShort => !u.rules[r].fired && u.rules[r].hist == t.rules[r].hist && u.check == Some(r)
  {
    RunsKeep(s, steps);
  }

  // ------------------------------------------------- a hold that is seen out

  // Found false, or its timer's event delivered.
  predicate Disturbs(s: Sys, x: Step, r: nat, n: nat) {
    x == EvalFalse(r) || (x.Deliver? && x.k < |s.posts| && s.posts[x.k].turn == n)
  }

  predicate Undisturbed(s: Sys, steps: seq<Step>, r: nat, n: nat)
    requires Legal(s, steps)
    decreases |steps|
  {
    steps == [] || (!Disturbs(s, steps[0], r, n) && Undisturbed(Apply(s, steps[0]), steps[1..], r, n))
  }

  // The rule's timer is that of turn n; since its history was h it was only
  // found true.
  ghost predicate Holding(s: Sys, r: nat, n: nat, h: seq<Happening>) {
    && r in s.rules && s.rules[r].timer == Some(IdAt(n)) && !s.rules[r].fired
    && IdAt(n) in s.live && s.live[IdAt(n)] == Timer(n, Held(r))
    && OnlyTrue(h, s.rules[r].hist)
  }

  predicate OnlyTrue(h: seq<Happening>, more: seq<Happening>) {
    |h| <= |more| && more[..|h|] == h && forall i :: |h| <= i < |more| ==> more[i] == SawTrue
  }

  lemma StepHolds(s: Sys, x: Step, r: nat, n: nat, h: seq<Happening>)
    requires Inv(s) && Holding(s, r, n, h) && Enabled(s, x) && !Disturbs(s, x, r, n)
    ensures Holding(Apply(s, x), r, n, h)
  {
    hide RulesSound;
    match x {
      case EvalFalse(c) => if s.rules[c].timer.Some? { assert s.live[s.rules[c].timer.value].owner == Held(c); }
      case Deliver(k, o) => DeliverHolds(s, k, o, r, n, h);
      case _ => hide TimersTold, TimersOwned;
    }
  }

  // Another timer's event.
  lemma DeliverHolds(s: Sys, k: nat, o: Elapse, r: nat, n: nat, h: seq<Happening>)
    requires Inv(s) && Holding(s, r, n, h) && k < |s.posts| && s.posts[k].turn != n
    ensures Holding(OnDeliver(s, k, o), r, n, h)
  {
    hide RulesSound, OnlyTrue;
    var id := s.posts[k].id;
    if id in s.live {
      assert s.live[id].turn == s.posts[k].turn && id != IdAt(n);
      assert s.live[id].owner.Held? ==> s.rules[s.live[id].owner.rule].timer == Some(id);
    }
  }

  lemma {:induction false} RunHolds(s: Sys, steps: seq<Step>, r: nat, n: nat, h: seq<Happening>)
    requires Inv(s) && Holding(s, r, n, h) && Legal(s, steps) && Undisturbed(s, steps, r, n)
    ensures Inv(Run(s, steps)) && Holding(Run(s, steps), r, n, h)
    decreases |steps|
  {
    if steps != [] {
      StepKeepsTold(s, steps[0]);
      StepKeepsOwned(s, steps[0]);
      StepKeepsSound(s, steps[0]);
      StepHolds(s, steps[0], r, n, h);
      hide Holding, TimersTold, TimersOwned, RulesSound, Apply, Enabled, Disturbs;
      RunHolds(Apply(s, steps[0]), steps[1..], r, n, h);
    }
  }

  // What the delivery of its timer's event makes of a rule that is holding.
  lemma HoldEnds(s: Sys, r: nat, n: nat, h: seq<Happening>, k: nat)
    requires Inv(s) && Holding(s, r, n, h) && k < |s.posts| && s.posts[k].turn == n
    ensures var u := Apply(s, Deliver(k, StillHold));
            r in u.rules && u.rules[r] == Rule(None, true, s.rules[r].waiting, s.rules[r].hist + [SawTrue, Fired(n)])
  {
    hide RulesSound, TimersOwned;
  }

  lemma FiredAfter(h: seq<Happening>, more: seq<Happening>, n: nat)
    requires OnlyTrue(h, more)
    ensures var g := more + [SawTrue, Fired(n)];
            && |g| >= |h| + 2 && g[..|h|] == h && g[|g| - 1] == Fired(n)
            && forall i :: |h| <= i < |g| - 1 ==> g[i] == SawTrue
  {
  }

  // Main result: a rule that was granted a timer, and is neither found false
  // nor has that timer's event delivered until one delivery finds the
  // conditions holding, fires then, for the first time since it was armed, and
  // is latched.
  lemma HoldFires(s: Sys, before: seq<Step>, r: nat, n: nat, during: seq<Step>, k: nat)
    requires Initial(s) && Legal(s, before)
    requires var a := Run(s, before);
             && r in a.rules && a.rules[r].timer == Some(IdAt(n))
             && IdAt(n) in a.live && a.live[IdAt(n)].turn == n
             && Legal(a, during) && Undisturbed(a, during, r, n)
             && k < |Run(a, during).posts| && Run(a, during).posts[k].turn == n
    ensures var a := Run(s, before);
            var u := Apply(Run(a, during), Deliver(k, StillHold));
            && r in u.rules && u.rules[r].fired && u.rules[r].timer == None
            && FiresOnce(a.rules[r].hist, u.rules[r].hist, n)
  {
    RunsKeep(s, before);
    var a := Run(s, before);
    var h := a.rules[r].hist;
    assert Holding(a, r, n, h);
    var i := NoneFiredSince(a.rules[r]);
    assert ArmedLast(h) == Some(n);
    hide RuleSound, ArmedLast, Sound, FiredSince, Holding, TimersTold, TimersOwned, RulesSound, Apply, Run, Legal,
      Undisturbed, Initial;
    RunHolds(a, during, r, n, h);
    var t := Run(a, during);
    HoldEnds(t, r, n, h, k);
    HoldingTrue(t, r, n, h);
    FiredAfter(h, t.rules[r].hist, n);
    assert h[i] == ArmedAt(n);
  }

  lemma HoldingTrue(s: Sys, r: nat, n: nat, h: seq<Happening>)
    requires Holding(s, r, n, h)
    ensures r in s.rules && OnlyTrue(h, s.rules[r].hist)
  {
  }

  // From a history h whose last timer is that of turn n: found true only, then
  // one fire, in that timer's callback, and none between its arming and that.
  ghost predicate FiresOnce(h: seq<Happening>, g: seq<Happening>, n: nat) {
    && |g| >= |h| + 2 && g[..|h|] == h && g[|g| - 1] == Fired(n)
    && (forall i :: |h| <= i < |g| - 1 ==> g[i] == SawTrue)
    && exists i :: 0 <= i < |h| && h[i] == ArmedAt(n) && forall j :: i < j < |h| ==> !h[j].Fired? && h[j] != SawFalse
  }

  // A rule that is not latched has not fired since it was armed last.
  lemma NoneFiredSince(q: Rule) returns (i: nat)
    requires RuleSound(q) && !q.fired && ArmedLast(q.hist).Some?
    ensures i < |q.hist| && q.hist[i] == ArmedAt(ArmedLast(q.hist).value)
    ensures forall j :: i < j < |q.hist| ==> !q.hist[j].Fired? && q.hist[j] != SawFalse
  {
    i := LastArm(q.hist);
    forall j | i < j < |q.hist| ensures !q.hist[j].Fired? {
      if q.hist[j].Fired? { LastFire(q.hist, j); }
    }
  }

  // --------------------------------------------------- no hold is forgotten

  // How the conditions came out last.
  predicate LastSaw(h: seq<Happening>) {
    h != [] && (h[|h| - 1] == SawTrue || (h[|h| - 1] != SawFalse && LastSaw(h[..|h| - 1])))
  }

  lemma SawMore(h: seq<Happening>, e: Happening)
    ensures LastSaw(h + [e]) == (e == SawTrue || (e != SawFalse && LastSaw(h)))
  {
    assert (h + [e])[..|h|] == h;
  }

  // Armed, waiting for a slot, latched, or to be checked again.
  predicate Pending(s: Sys, r: nat)
    requires r in s.rules
  {
    s.rules[r].timer.Some? || s.rules[r].waiting || s.rules[r].fired || s.check == Some(r)
  }

  ghost predicate HoldsPending(s: Sys) {
    forall r :: r in s.rules && LastSaw(s.rules[r].hist) ==> Pending(s, r)
  }

  // An interrupt is recovered from before anything else is evaluated.
  predicate InTurn(s: Sys, x: Step) {
    s.check.Some? ==> x.Recheck? || x.Expire?
  }

  predicate Recovering(s: Sys, steps: seq<Step>)
    requires Legal(s, steps)
    decreases |steps|
  {
    steps == [] || (InTurn(s, steps[0]) && Recovering(Apply(s, steps[0]), steps[1..]))
  }

  lemma StepPending(s: Sys, x: Step)
    requires HoldsPending(s) && TimersOwned(s) && Enabled(s, x) && InTurn(s, x)
    ensures HoldsPending(Apply(s, x))
  {
    var t := Apply(s, x);
    forall r | r in t.rules && LastSaw(t.rules[r].hist) ensures Pending(t, r) {
      RulePending(s, x, r);
    }
  }

  lemma RulePending(s: Sys, x: Step, r: nat)
    requires HoldsPending(s) && TimersOwned(s) && Enabled(s, x) && InTurn(s, x)
    requires r in Apply(s, x).rules && LastSaw(Apply(s, x).rules[r].hist)
    ensures Pending(Apply(s, x), r)
  {
    var h := s.rules[r].hist;
    SawMore(h, SawFalse);
    hide LastSaw;
    match x {
      case EvalTrue(c, g) => FoundPending(s, x, r);
      case Retry(c, m, g) => FoundPending(s, x, r);
      case Deliver(k, o) => DeliverPending(s, k, o, r);
      case _ => hide TimersOwned;
    }
  }

  lemma FoundPending(s: Sys, x: Step, r: nat)
    requires HoldsPending(s) && Enabled(s, x) && (x.EvalTrue? || x.Retry?) && InTurn(s, x)
    requires r in Apply(s, x).rules && LastSaw(Apply(s, x).rules[r].hist)
    ensures Pending(Apply(s, x), r)
  {
    SawMore(s.rules[r].hist, SawFalse);
    hide LastSaw;
    if r != x.r { assert Apply(s, x).rules[r] == s.rules[r] && s.check == None; }
  }

  lemma DeliverPending(s: Sys, k: nat, o: Elapse, r: nat)
    requires HoldsPending(s) && TimersOwned(s) && Enabled(s, Deliver(k, o)) && s.check == None
    requires r in Apply(s, Deliver(k, o)).rules && LastSaw(Apply(s, Deliver(k, o)).rules[r].hist)
    ensures Pending(Apply(s, Deliver(k, o)), r)
  {
    SawMore(s.rules[r].hist, SawFalse);
    hide LastSaw, TimersOwned;
  }

  lemma {:induction false} RunsPending(s: Sys, steps: seq<Step>)
    requires Inv(s) && HoldsPending(s) && Legal(s, steps) && Recovering(s, steps)
    ensures HoldsPending(Run(s, steps))
    decreases |steps|
  {
    if steps != [] {
      StepKeepsTold(s, steps[0]);
      StepKeepsOwned(s, steps[0]);
      StepKeepsSound(s, steps[0]);
      StepPending(s, steps[0]);
      hide HoldsPending, TimersTold, TimersOwned, RulesSound, Apply, Enabled, InTurn;
      RunsPending(Apply(s, steps[0]), steps[1..]);
    }
  }

  // Main result: whatever is found, refused, delivered and interrupted -- a
  // rule whose conditions were found true last has its timer, waits for one,
  // has fired since, or is about to be checked again.
  lemma HoldIsPending(s: Sys, steps: seq<Step>, r: nat)
    requires Initial(s) && Legal(s, steps) && Recovering(s, steps)
    requires r in Run(s, steps).rules && LastSaw(Run(s, steps).rules[r].hist)
    ensures Pending(Run(s, steps), r)
  {
    RunsPending(s, steps);
  }

  // ------------------------------------------------------- the code itself

  // dsl.js and the timer calls under it, each proved to be the step it is
  // taken for. g: the turn at which the table grants a timer, or none.
  class Engine {
    var turns: nat
    var live: map<nat, Timer>
    var posts: seq<Post>
    var rules: map<nat, Rule>
    var check: Option<nat>           // _heldCheck
    ghost var ended: set<nat>

    ghost function State(): Sys
      reads this
    {
      Sys(turns, live, posts, rules, check, ended)
    }

    constructor (rules: map<nat, Rule>)
      requires forall r :: r in rules ==> rules[r] == Rule(None, false, false, [])
      ensures Initial(State()) && this.rules == rules
    {
      turns, live, posts, this.rules, check, ended := 0, map[], [], rules, None, {};
    }

    // _schedule()
    method Schedule(o: Owner, g: Option<nat>) returns (id: Option<nat>)
      modifies this`turns, this`live
      ensures g == None ==> id == None && State() == old(State())
      ensures g.Some? ==> id == Some(IdAt(g.value)) && State() == Granted(old(State()), g.value, o)
    {
      if g == None { return None; }
      id := Some(IdAt(g.value));
      live := live[IdAt(g.value) := Timer(g.value, o)];
      turns := g.value + 1;
    }

    // js_clear_timer(), and the slot freed by run_timer()
    method Free(id: nat)
      requires id in live
      modifies this`live, this`ended
      ensures State() == Dropped(old(State()), id)
    {
      ended := ended + {live[id].turn};
      live := live - {id};
    }

    // _held_later(): queued once.
    method HeldLater(r: nat)
      requires r in rules
      modifies this`rules
      ensures rules == old(rules)[r := old(rules)[r].(waiting := true)]
    {
      if rules[r].waiting {
        assert rules[r := rules[r].(waiting := true)] == rules;
        return;
      }
      rules := rules[r := rules[r].(waiting := true)];
    }

    // The arm of a heldFor() rule, or its place in the queue of those waiting.
    method ArmHeld(r: nat, g: Option<nat>)
      requires r in rules && rules[r].timer == None
      modifies this`rules, this`turns, this`live
      ensures State() == Arm(old(State()), r, old(rules)[r], g)
    {
      var q := rules[r];
      var id := Schedule(Held(r), g);
      if id.Some? {
        rules := rules[r := q.(timer := id, hist := q.hist + [ArmedAt(g.value)])];
      } else {
        HeldLater(r);
      }
    }

    // _apply_match() of a heldFor() rule
    method ApplyMatch(r: nat, matched: bool, g: Option<nat>)
      requires Enabled(State(), if matched then EvalTrue(r, g) else EvalFalse(r))
      modifies this
      ensures State() == if matched then OnTrue(old(State()), r, g) else OnFalse(old(State()), r)
    {
      var q := rules[r];
      if matched {
        rules := rules[r := q.(hist := q.hist + [SawTrue])];
        if q.timer == None && !q.fired { ArmHeld(r, g); }
        assert old(rules)[r := rules[r]] == old(rules)[r := q.(hist := q.hist + [SawTrue])][r := rules[r]];
      } else {
        if q.timer.Some? { Free(q.timer.value); }
        rules := rules[r := q.(timer := None, fired := false, waiting := false, hist := q.hist + [SawFalse])];
      }
    }

    // The closure _held_later() queues: whether it is done with.
    method RetryArm(r: nat, m: bool, g: Option<nat>) returns (done: bool)
      requires Enabled(State(), Retry(r, m, g))
      modifies this
      ensures State() == OnRetry(old(State()), r, m, g)
      ensures done <==> !rules[r].waiting
    {
      var q := rules[r];
      if !q.waiting || q.timer.Some? || q.fired {
        rules := rules[r := q.(waiting := false)];
        return true;
      }
      check := None;                     // named while the conditions are evaluated
      if !m {
        rules := rules[r := q.(waiting := false, hist := q.hist + [SawFalse])];
        return true;
      }
      q := q.(hist := q.hist + [SawTrue]);
      var id := Schedule(Held(r), g);
      if id == None {
        rules := rules[r := q];
        return false;
      }
      rules := rules[r := q.(timer := id, waiting := false, hist := q.hist + [ArmedAt(g.value)])];
      done := true;
    }

    // run_timer(), with _held_elapsed() as the callback of a rule's own timer.
    method RunTimer(k: nat, o: Elapse)
      requires k < |posts|
      modifies this
      ensures State() == OnDeliver(old(State()), k, o)
    {
      var id := posts[k].id;
      posts := posts[..k] + posts[k + 1..];
      if id !in live { return; }         // cleared before it fired
      var timer := live[id];
      Free(id);
      match timer.owner {
        case Elsewhere =>
        case Held(r) => if r in rules { HeldElapsed(r, timer.turn, o); }
      }
    }

    method HeldElapsed(r: nat, turn: nat, o: Elapse)
      requires r in rules
      modifies this`rules, this`check
      ensures State() == Elapsed(old(State()), r, turn, o)
    {
      var q := rules[r].(timer := None);
      rules := rules[r := q];
      if o == CutShort {
        check := Some(r);                // the interrupt leaves it set
        return;
      }
      check := None;
      if o == StillHold {
        rules := rules[r := q.(fired := true, hist := q.hist + [SawTrue, Fired(turn)])];
      } else {
        rules := rules[r := q.(hist := q.hist + [SawFalse])];
      }
      assert old(rules)[r := rules[r]] == old(rules)[r := q][r := rules[r]];
    }

    // The part of _after_interrupt() that sets a cut-short check again.
    method AfterInterrupt(g: Option<nat>)
      requires Enabled(State(), Recheck(g))
      modifies this
      ensures State() == OnRecheck(old(State()), g)
    {
      var r := check.value;
      check := None;
      if rules[r].timer == None && !rules[r].fired { ArmHeld(r, g); }
    }

    // An armed timer runs out: its event goes to the queue or the ring.
    method TimerFired(id: nat)
      requires id in live
      modifies this`posts
      ensures State() == Apply(old(State()), Expire(id)) && posts == old(posts) + [Post(id, live[id].turn)]
    {
      posts := posts + [Post(id, live[id].turn)];
    }

    // One step, by the code it stands for.
    method Take(x: Step)
      requires Enabled(State(), x)
      modifies this
      ensures State() == Apply(old(State()), x)
    {
      match x {
        case EvalTrue(r, g) => ApplyMatch(r, true, g);
        case EvalFalse(r) => ApplyMatch(r, false, None);
        case Retry(r, m, g) => var _ := RetryArm(r, m, g);
        case RetryCut(r) => check := Some(r);
        case Expire(id) => TimerFired(id);
        case Deliver(k, o) => RunTimer(k, o);
        case Recheck(g) => AfterInterrupt(g);
        case ArmOther(n) => var _ := Schedule(Elsewhere, Some(n));
        case ClearOther(id) => Free(id);
      }
    }

    // The code, called in any order it can be called in, makes the run of
    // these steps: what is proved of runs holds of it.
    method Execute(steps: seq<Step>)
      requires Legal(State(), steps)
      modifies this
      ensures State() == Run(old(State()), steps)
    {
      ghost var s := State();
      for n := 0 to |steps|
        invariant Legal(State(), steps[n..]) && Run(State(), steps[n..]) == Run(s, steps)
      {
        assert steps[n..][0] == steps[n] && steps[n..][1..] == steps[n + 1..];
        Take(steps[n]);
      }
    }
  }
}
