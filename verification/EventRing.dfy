// The code under the event plumbing: numbering and queueing an event, and the
// ring of timers that found the queue full.
module EventRing {
  import opened Inputs
  import opened Options
  import opened RuleEvents

  function Next(i: nat): (r: nat)
    requires i < RING_SLOTS
    ensures r == if i == RING_SLOTS - 1 then 0 else i + 1
  {
    (i + 1) % RING_SLOTS
  }

  predicate Indices(slots: seq<Deferred>, tail: nat, head: nat) {
    |slots| == RING_SLOTS && head < RING_SLOTS && tail < RING_SLOTS
  }

  // The entries from tail up to head, going round.
  function Between(slots: seq<Deferred>, tail: nat, head: nat): seq<Deferred>
    requires Indices(slots, tail, head)
  {
    if tail <= head then slots[tail..head] else slots[tail..] + slots[..head]
  }

  lemma PushedBetween(slots: seq<Deferred>, tail: nat, head: nat, d: Deferred)
    requires Indices(slots, tail, head)
    ensures Next(head) == tail <==> |Between(slots, tail, head)| == RING_SLOTS - 1
    ensures Next(head) != tail ==> Between(slots[head := d], tail, Next(head)) == Between(slots, tail, head) + [d]
  {
    hide Next;
  }

  lemma PoppedBetween(slots: seq<Deferred>, tail: nat, head: nat)
    requires Indices(slots, tail, head) && head != tail
    ensures var b := Between(slots, tail, head);
            b != [] && b[0] == slots[tail] && Between(slots, Next(tail), head) == b[1..]
  {
    hide Next;
    var b := Between(slots, tail, head);
    if tail < head {
      assert b == [slots[tail]] + slots[tail + 1..head];
    } else {
      assert b == [slots[tail]] + slots[tail + 1..] + slots[..head];
    }
  }

  class Ring {
    const slots: array<Deferred>     // s_overflow[] and s_overflow_seq[]
    var head: nat
    var tail: nat

    ghost predicate Valid()
      reads this
    {
      slots.Length == RING_SLOTS && head < RING_SLOTS && tail < RING_SLOTS
    }

    // What waits in the ring, first in first.
    ghost function Contents(): seq<Deferred>
      requires Valid()
      reads this, slots
    {
      Between(slots[..], tail, head)
    }

    constructor ()
      ensures Valid() && Contents() == [] && fresh(slots)
    {
      slots := new Deferred[RING_SLOTS](_ => Deferred(0, 0));
      head, tail := 0, 0;
    }

    // The second half of timer_fired_cb(): refused only when all but the
    // marker slot are taken.
    method Push(d: Deferred) returns (ok: bool)
      requires Valid()
      modifies this`head, slots
      ensures Valid()
      ensures ok <==> |old(Contents())| < RING_SLOTS - 1
      ensures Contents() == if ok then old(Contents()) + [d] else old(Contents())
    {
      PushedBetween(slots[..], tail, head, d);
      hide Between, Next;
      var next := Next(head);
      if next == tail { return false; }
      slots[head] := d;
      assert slots[..] == old(slots[..])[head := d];
      head := next;
      ok := true;
    }

    predicate Empty()
      reads this
    {
      head == tail
    }

    lemma EmptyContents()
      requires Valid()
      ensures Empty() <==> Contents() == []
    {
    }

    method Front() returns (d: Deferred)
      requires Valid() && !Empty()
      ensures Contents() != [] && d == Contents()[0]
    {
      d := slots[tail];
    }

    // The step of drain_overflow() that takes the first one.
    method Pop() returns (d: Deferred)
      requires Valid() && !Empty()
      modifies this`tail
      ensures Valid() && old(Contents()) != [] && d == old(Contents())[0]
      ensures Contents() == old(Contents())[1..]
    {
      PoppedBetween(slots[..], tail, head);
      hide Between, Next;
      d := slots[tail];
      tail := Next(tail);
    }
  }

  class Plumbing {
    var last: nat                    // s_evt_seq
    var queue: seq<Event>
    const ring: Ring

    ghost predicate Valid()
      reads this, ring
    {
      ring.Valid() && |queue| <= QUEUE_DEPTH
    }

    // The whole system, when no timer is between queue and ring; the other
    // tasks' part is rest's.
    ghost function Whole(rest: Sys): Sys
      requires ring.Valid()
      reads this, ring, ring.slots
    {
      rest.(last := last, queue := queue, ring := ring.Contents(), failed := None)
    }

    constructor ()
      ensures Valid() && last == 0 && queue == [] && fresh(ring) && fresh(ring.slots) && ring.Contents() == []
    {
      last, queue := 0, [];
      ring := new Ring();
    }

    // evt_send(): under the lock, numbering and queueing are one step.
    method EvtSend(p: Payload, ghost rest: Sys) returns (ok: bool, number: nat)
      requires Valid()
      modifies this`last, this`queue
      ensures Whole(rest) == Sent(old(Whole(rest)), p)
      ensures Valid() && last == number == old(last) + 1
      ensures ok <==> |old(queue)| < QUEUE_DEPTH
      ensures queue == if ok then old(queue) + [Event(number, p)] else old(queue)
    {
      last := last + 1;
      number := last;
      ok := |queue| < QUEUE_DEPTH;
      if ok { queue := queue + [Event(number, p)]; }
    }

    // timer_fired_cb(): lost only when the queue and the ring are both full.
    // What it does is what the steps of the timer task do.
    method TimerFired(id: nat, ghost rest: Sys) returns (lost: bool)
      requires Valid()
      modifies this`last, this`queue, ring`head, ring.slots
      ensures Valid() && last == old(last) + 1
      ensures var s := old(Whole(rest));
              && Enabled(s, TimerFires(id))
              && var t := Apply(s, TimerFires(id)); Whole(rest) == if t.failed.Some? then Apply(t, Defer) else t
      ensures lost <==> |old(queue)| == QUEUE_DEPTH && |old(ring.Contents())| == RING_SLOTS - 1
      ensures |old(queue)| < QUEUE_DEPTH ==>
                queue == old(queue) + [Event(last, Timer(id))] && ring.Contents() == old(ring.Contents())
      ensures |old(queue)| == QUEUE_DEPTH && !lost ==>
                queue == old(queue) && ring.Contents() == old(ring.Contents()) + [Deferred(last, id)]
      ensures lost ==> queue == old(queue) && ring.Contents() == old(ring.Contents())
    {
      var ok, number := EvtSend(Timer(id), rest);
      if ok { return false; }
      var kept := ring.Push(Deferred(number, id));
      lost := !kept;
    }

    // drain_overflow(), with nothing coming in meanwhile: of the ring exactly
    // the timers numbered before the first event still queued, in order; one
    // whose turn has not come holds up the ones behind it. It takes the steps of
    // the engine task.
    method Drain(ghost others: Sys) returns (ran: seq<Deferred>, ghost steps: seq<Step>)
      requires Valid() && RisingDeferred(ring.Contents()) && others.pc == Idle && others.taken == {}
      modifies ring`tail
      ensures Valid() && queue == old(queue) && old(ring.Contents()) == ran + ring.Contents()
      ensures queue == [] ==> ring.Contents() == []
      ensures queue != [] ==> forall i :: 0 <= i < |ran| ==> ran[i].number < queue[0].number
      ensures queue != [] ==> forall i :: 0 <= i < |ring.Contents()| ==> queue[0].number <= ring.Contents()[i].number
      ensures Legal(old(Whole(others)), steps)
      ensures Run(old(Whole(others)), steps) == Whole(others.(ran := others.ran + ran))
    {
      hide Ring.Contents, Ring.Empty, Legal, Run;
      ghost var all, s := ring.Contents(), Whole(others);
      ran, steps := [], [];
      NoStepsYet(s);
      assert others.ran + [] == others.ran;
      ring.EmptyContents();
      while !ring.Empty()
        invariant Valid() && all == ran + ring.Contents() && (ring.Empty() <==> ring.Contents() == [])
        invariant queue != [] ==> forall i :: 0 <= i < |ran| ==> ran[i].number < queue[0].number
        invariant Legal(s, steps) && Run(s, steps) == Whole(others.(ran := others.ran + ran))
        decreases |ring.Contents()|
      {
        var d := ring.Front();
        if queue != [] && !(queue[0].number > d.number) {
          NotDue(all, ran, ring.Contents(), queue[0].number);
          return;
        }
        d, steps := TakeDue(others, s, steps, ran);
        ran := ran + [d];
      }
    }

    // The first deferred timer, when its turn has come.
    method TakeDue(ghost others: Sys, ghost s: Sys, ghost steps: seq<Step>, ghost ran: seq<Deferred>)
      returns (d: Deferred, ghost more: seq<Step>)
      requires Valid() && !ring.Empty() && ring.Contents() != [] && others.pc == Idle && others.taken == {}
      requires Legal(s, steps) && Run(s, steps) == Whole(others.(ran := others.ran + ran))
      requires queue != [] ==> queue[0].number > ring.Contents()[0].number
      modifies ring`tail
      ensures Valid() && d == old(ring.Contents())[0] && ring.Contents() == old(ring.Contents())[1..]
      ensures ran + old(ring.Contents()) == ran + [d] + ring.Contents() && (ring.Empty() <==> ring.Contents() == [])
      ensures Legal(s, more) && Run(s, more) == Whole(others.(ran := others.ran + (ran + [d])))
    {
      hide Ring.Contents, Ring.Empty, Legal, Run;
      ghost var rest := ring.Contents();
      more := OneDue(s, steps);
      d := ring.Pop();
      ring.EmptyContents();
      MovedOne(ran, rest);
      assert others.ran + ran + [d] == others.ran + (ran + [d]);
    }
  }

  // A deferred timer whose turn has come runs.
  lemma OneDue(s: Sys, steps: seq<Step>) returns (more: seq<Step>)
    requires Legal(s, steps)
    requires var t := Run(s, steps); t.pc == Idle && t.taken == {} && t.ring != [] && !HeadWaitsBefore(t, t.ring[0])
    ensures var t := Run(s, steps);
            Legal(s, more) && Run(s, more) == t.(ran := t.ran + [t.ring[0]], ring := t.ring[1..])
  {
    var t := Run(s, steps);
    var due, done := Apply(t, Peek), Apply(Apply(t, Peek), RunDeferred);
    assert Enabled(t, Peek) && Enabled(due, RunDeferred) && done == t.(ran := t.ran + [t.ring[0]], ring := t.ring[1..]);
    hide Legal, Run, Apply, Enabled;
    OneMoreStep(s, steps, Peek);
    OneMoreStep(s, steps + [Peek], RunDeferred);
    more := steps + [Peek] + [RunDeferred];
  }

  lemma MovedOne(ran: seq<Deferred>, rest: seq<Deferred>)
    requires rest != []
    ensures ran + rest == ran + [rest[0]] + rest[1..]
  {
  }

  lemma NotDue(all: seq<Deferred>, ran: seq<Deferred>, rest: seq<Deferred>, n: nat)
    requires RisingDeferred(all) && all == ran + rest && rest != [] && n <= rest[0].number
    ensures forall i :: 0 <= i < |rest| ==> n <= rest[i].number
  {
    assert forall i :: 0 <= i < |rest| ==> rest[i] == all[|ran| + i];
  }
}
