// The rule-timer table: 48 slots, ids in 1..INT32_MAX that come round.
module TimerTable {
  import opened Collections
  import opened Options

  const MAX_TIMERS := 48
  const INT32_MAX := 0x7FFF_FFFF

  // The id handed out at the n-th turn of the counter.
  function IdAt(n: nat): nat {
    n % INT32_MAX + 1
  }

  // One slot of s_timers[]: an armed timer's id and the callback it owns.
  datatype Slot = Slot(used: bool, id: nat, fn: nat)

  ghost function LiveOf(slots: seq<Slot>): set<(nat, nat)> {
    set i | 0 <= i < |slots| && slots[i].used :: (slots[i].id, slots[i].fn)
  }

  ghost function IdsOf(slots: seq<Slot>): set<nat> {
    set i | 0 <= i < |slots| && slots[i].used :: slots[i].id
  }

  lemma {:induction false} IdsBounded(slots: seq<Slot>)
    ensures |IdsOf(slots)| <= |slots|
  {
    if slots != [] {
      var n := |slots| - 1;
      IdsBounded(slots[..n]);
      assert IdsOf(slots) == IdsOf(slots[..n]) + (if slots[n].used then {slots[n].id} else {});
    }
  }

  // Fewer than a full turn apart, two turns give different ids.
  lemma IdsDiffer(m: nat, n: nat)
    requires m < n < m + INT32_MAX
    ensures IdAt(m) != IdAt(n)
  {
  }

  // The ids of k turns from the m-th on.
  ghost function IdsFrom(m: nat, k: nat): set<nat> {
    if k == 0 then {} else IdsFrom(m, k - 1) + {IdAt(m + k - 1)}
  }

  lemma {:induction false} IdsFromAre(m: nat, k: nat)
    requires k <= INT32_MAX
    ensures |IdsFrom(m, k)| == k
    ensures forall n :: m <= n < m + k ==> IdAt(n) in IdsFrom(m, k)
    ensures forall x :: x in IdsFrom(m, k) ==> exists n :: m <= n < m + k && x == IdAt(n)
  {
    hide IdAt;
    if k > 0 {
      IdsFromAre(m, k - 1);
      var here := m + k - 1;
      if IdAt(here) in IdsFrom(m, k - 1) {
        var n :| m <= n < here && IdAt(here) == IdAt(n);
        IdsDiffer(n, here);
      }
    }
  }

  lemma OneMoreId(m: nat, k: nat, n: nat)
    requires n == m + k
    ensures IdsFrom(m, k + 1) == IdsFrom(m, k) + {IdAt(n)}
  {
  }

  lemma IdSteps(n: nat)
    ensures IdAt(n + 1) == (if IdAt(n) >= INT32_MAX then 1 else IdAt(n) + 1)
  {
  }

  // The ids passed over are distinct and armed: no more of them than slots.
  lemma OnePassed(m: nat, k: nat, n: nat, inUse: set<nat>)
    requires n == m + k && k <= MAX_TIMERS && |inUse| <= MAX_TIMERS
    requires IdsFrom(m, k) <= inUse && IdAt(n) in inUse
    ensures k < MAX_TIMERS && IdsFrom(m, k + 1) <= inUse
  {
    OneMoreId(m, k, n);
    IdsFromAre(m, k + 1);
    SetWithin(IdsFrom(m, k + 1), inUse);
  }

  class Table {
    const slots: array<Slot>
    var next: nat              // s_next_timer_id
    ghost var turns: nat       // how often the counter has moved

    ghost predicate Valid()
      reads this, slots
    {
      && slots.Length == MAX_TIMERS
      && next == IdAt(turns)
      && (forall i :: 0 <= i < MAX_TIMERS && slots[i].used ==> 1 <= slots[i].id <= INT32_MAX)
      && (forall i, j :: 0 <= i < j < MAX_TIMERS && slots[i].used && slots[j].used ==> slots[i].id != slots[j].id)
    }

    // The armed timers: each id with its callback.
    ghost function Live(): set<(nat, nat)>
      reads this, slots
    {
      LiveOf(slots[..])
    }

    ghost function Ids(): set<nat>
      reads this, slots
    {
      IdsOf(slots[..])
    }

    constructor ()
      ensures Valid() && fresh(slots) && Live() == {} && turns == 0
    {
      slots := new Slot[MAX_TIMERS](_ => Slot(false, 0, 0));
      next := 1;
      turns := 0;
    }

    // timer_find(): the slot, or -1.
    method Find(id: nat) returns (slot: int)
      requires Valid()
      ensures slot == -1 <==> id !in Ids()
      ensures slot != -1 ==> 0 <= slot < MAX_TIMERS && slots[slot].used && slots[slot].id == id
    {
      for i := 0 to MAX_TIMERS
        invariant forall k :: 0 <= k < i ==> !(slots[k].used && slots[k].id == id)
      {
        if slots[i].used && slots[i].id == id {
          assert slots[..][i].id in Ids();
          return i;
        }
      }
      return -1;
    }

    // One turn of the counter.
    method Turn() returns (id: nat)
      requires Valid()
      modifies this
      ensures Valid() && turns == old(turns) + 1
      ensures id == IdAt(old(turns))
    {
      IdSteps(turns);
      id := next;
      next := if next >= INT32_MAX then 1 else next + 1;
      turns := turns + 1;
    }

    // The do-while of js_set_timer(): it ends, on an id no armed timer has,
    // having passed over armed ids only.
    method NextId() returns (id: nat, ghost turn: nat)
      requires Valid()
      modifies this
      ensures Valid() && id !in Ids()
      ensures id == IdAt(turn) && turns == turn + 1
      ensures old(turns) <= turn <= old(turns) + MAX_TIMERS
      ensures IdsFrom(old(turns), turn - old(turns)) <= Ids()
    {
      ghost var start, inUse := turns, Ids();
      ghost var k := 0;      // armed ids passed over
      IdsBounded(slots[..]);
      turn := turns;
      id := Turn();
      var at := Find(id);
      while at != -1
        invariant Valid() && k <= MAX_TIMERS && turn == start + k && turns == turn + 1
        invariant Ids() == inUse && id == IdAt(turn)
        invariant at == -1 <==> id !in inUse
        invariant IdsFrom(start, k) <= inUse
        decreases MAX_TIMERS - k
      {
        OnePassed(start, k, turn, inUse);
        k := k + 1;
        turn := turns;
        id := Turn();
        at := Find(id);
      }
    }

    // js_set_timer(): -1 when no slot is free or the timer could not be made,
    // otherwise a new armed timer under an id no other armed timer has.
    method Set(fn: nat, made: bool) returns (id: int, ghost turn: nat)
      requires Valid()
      modifies this, slots
      ensures Valid() && old(turns) <= turns
      ensures id == -1 <==> !made || forall i :: 0 <= i < MAX_TIMERS ==> old(slots[i].used)
      ensures id == -1 ==> Live() == old(Live())
      ensures id != -1 ==> 1 <= id <= INT32_MAX && id !in old(Ids()) && Live() == old(Live()) + {(id, fn)}
      ensures id != -1 ==> old(turns) <= turn < turns && id == IdAt(turn)
    {
      var slot := -1;
      turn := turns;
      for i := 0 to MAX_TIMERS
        invariant slot == -1 && forall k :: 0 <= k < i ==> slots[k].used
      {
        if !slots[i].used { slot := i; break; }
      }
      if slot < 0 { id := -1; return; }
      var got;
      got, turn := NextId();
      if !made { id := -1; return; }
      ghost var before := slots[..];
      slots[slot] := Slot(true, got, fn);
      Filled(before, slot, got, fn);
      assert slots[..] == before[slot := Slot(true, got, fn)];
      id := got;
    }

    // js_clear_timer(), and the first half of run_timer(): the slot is freed
    // and its callback handed over, or nothing happens for an id not armed.
    method Take(id: nat) returns (fn: Option<nat>)
      requires Valid()
      modifies slots
      ensures Valid()
      ensures fn == None <==> id !in old(Ids())
      ensures fn.Some? ==> (id, fn.value) in old(Live())
      ensures Live() == if fn.Some? then old(Live()) - {(id, fn.value)} else old(Live())
      ensures id !in Ids()
    {
      var at := Find(id);
      if at == -1 { return None; }
      ghost var before := slots[..];
      fn := Some(slots[at].fn);
      slots[at] := slots[at].(used := false);
      assert slots[..] == before[at := before[at].(used := false)];
      Freed(before, at);
    }
  }

  lemma Filled(slots: seq<Slot>, i: nat, id: nat, fn: nat)
    requires i < |slots| && !slots[i].used
    ensures LiveOf(slots[i := Slot(true, id, fn)]) == LiveOf(slots) + {(id, fn)}
  {
    var after := slots[i := Slot(true, id, fn)];
    forall p ensures p in LiveOf(after) <==> p in LiveOf(slots) + {(id, fn)} {
      if p in LiveOf(slots) {
        var j :| 0 <= j < |slots| && slots[j].used && p == (slots[j].id, slots[j].fn);
        assert after[j] == slots[j];
      }
      if p == (id, fn) { assert after[i].used; }
    }
  }

  lemma Freed(slots: seq<Slot>, i: nat)
    requires i < |slots| && slots[i].used
    requires forall j, k :: 0 <= j < k < |slots| && slots[j].used && slots[k].used ==> slots[j].id != slots[k].id
    ensures var after := slots[i := slots[i].(used := false)];
            LiveOf(after) == LiveOf(slots) - {(slots[i].id, slots[i].fn)} && slots[i].id !in IdsOf(after)
            && (slots[i].id, slots[i].fn) in LiveOf(slots)
  {
    var after := slots[i := slots[i].(used := false)];
    forall p ensures p in LiveOf(after) <==> p in LiveOf(slots) && p != (slots[i].id, slots[i].fn) {
      if p in LiveOf(slots) && p != (slots[i].id, slots[i].fn) {
        var j :| 0 <= j < |slots| && slots[j].used && p == (slots[j].id, slots[j].fn);
        assert after[j] == slots[j];
      }
    }
  }
}
