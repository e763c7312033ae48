// The Modbus TCP server's connection slots: one poller, any number of workers,
// and the jobs between them.
module TcpSlots {
  import opened Options

  const QUEUE_LEN := 4          // MB_TCP_WORKERS
  const EVICT_IDLE_US := 2000 * 1000

  datatype State = Free | Idle | Busy

  // conn tells the connections apart that use a slot one after the other;
  // frame is the request that lies in the slot's frame buffer; out the request
  // that the answer in its out buffer belongs to, while one is pending.
  datatype Slot = Slot(st: State, conn: nat, partial: bool, frame: nat, out: Option<nat>)

  // Which request the job was made for is not part of the queued job: the
  // worker answers what it finds in the slot's buffer.
  datatype Job = Job(slot: nat, frame: nat)

  datatype Poller = At | Queueing(job: Job)    // the slot marked busy, the job not queued yet
  datatype Worker = Waiting | Working(job: Job) | Done(job: Job)   // answer armed, slot not handed back

  // An answer, or a piece of one, that left on a connection; last: the end of it.
  datatype Sent = Sent(conn: nat, frame: nat, last: bool)

  datatype Sys = Sys(
    slots: seq<Slot>,
    jobs: seq<Job>,
    poller: Poller,
    workers: seq<Worker>,
    conns: nat,              // connections accepted so far
    frames: seq<nat>,        // the connection each whole frame came in on
    armed: set<nat>,         // frames that were answered
    sent: seq<Sent>)

  datatype Step =
    | Accept(i: nat)
    | Evict(i: nat)
    | Close(i: nat)              // the peer is gone, or a deadline has passed
    | Receive(i: nat)            // some bytes, but no whole frame
    | Serve(i: nat)              // a whole frame the board answers itself
    | Forward(i: nat)            // a whole frame for a worker
    | Enqueue
    | Flush(i: nat, whole: bool)
    | Take(w: nat)
    | Answer(w: nat)
    | Release(w: nat)

  predicate IdleSlot(s: Sys, i: nat) { i < |s.slots| && s.slots[i].st == Idle }

  predicate Enabled(s: Sys, x: Step) {
    match x
    case Accept(i) => s.poller == At && i < |s.slots| && s.slots[i].st == Free
    case Evict(i) => s.poller == At && IdleSlot(s, i) && !s.slots[i].partial && s.slots[i].out == None
    case Close(i) => s.poller == At && IdleSlot(s, i)
    case Receive(i) => s.poller == At && IdleSlot(s, i) && s.slots[i].out == None
    case Serve(i) => s.poller == At && IdleSlot(s, i) && s.slots[i].out == None
    case Forward(i) => s.poller == At && IdleSlot(s, i) && s.slots[i].out == None
    case Enqueue => s.poller.Queueing? && s.poller.job.slot < |s.slots|
    case Flush(i, _) => s.poller == At && IdleSlot(s, i) && s.slots[i].out.Some?
    case Take(w) => w < |s.workers| && s.workers[w] == Waiting && s.jobs != []
    case Answer(w) => w < |s.workers| && s.workers[w].Working? && s.workers[w].job.slot < |s.slots|
    case Release(w) => w < |s.workers| && s.workers[w].Done? && s.workers[w].job.slot < |s.slots|
  }

  // The answer to what lies in the frame buffer is in the out buffer.
  function Armed(c: Slot): Slot { c.(out := Some(c.frame)) }

  function NewFrame(s: Sys, i: nat): Slot
    requires i < |s.slots|
  {
    s.slots[i].(frame := |s.frames|, partial := false)
  }

  function Apply(s: Sys, x: Step): Sys
    requires Enabled(s, x)
  {
    match x
    case Accept(i) =>
      s.(slots := s.slots[i := Slot(Idle, s.conns, false, s.slots[i].frame, None)], conns := s.conns + 1)
    case Evict(i) => s.(slots := s.slots[i := Slot(Idle, s.conns, false, s.slots[i].frame, None)], conns := s.conns + 1)
    case Close(i) => s.(slots := s.slots[i := s.slots[i].(st := Free, partial := false, out := None)])
    case Receive(i) => s.(slots := s.slots[i := s.slots[i].(partial := true)])
    case Serve(i) =>
      s.(slots := s.slots[i := Armed(NewFrame(s, i))],
         frames := s.frames + [s.slots[i].conn], armed := s.armed + {|s.frames|})
    case Forward(i) =>
      s.(slots := s.slots[i := NewFrame(s, i).(st := Busy)], frames := s.frames + [s.slots[i].conn],
         poller := Queueing(Job(i, |s.frames|)))
    case Enqueue =>
      var j := s.poller.job;
      if |s.jobs| < QUEUE_LEN then s.(jobs := s.jobs + [j], poller := At)
      else var c := s.slots[j.slot];
        s.(slots := s.slots[j.slot := Armed(c).(st := Idle)], armed := s.armed + {c.frame}, poller := At)
    case Flush(i, whole) =>
      var c := s.slots[i];
      s.(slots := s.slots[i := if whole then c.(out := None) else c],
         sent := s.sent + [Sent(c.conn, c.out.value, whole)])
    case Take(w) => s.(workers := s.workers[w := Working(s.jobs[0])], jobs := s.jobs[1..])
    case Answer(w) =>
      var j := s.workers[w].job;
      var c := s.slots[j.slot];
      s.(slots := s.slots[j.slot := Armed(c)], armed := s.armed + {c.frame}, workers := s.workers[w := Done(j)])
    case Release(w) =>
      var j := s.workers[w].job;
      s.(slots := s.slots[j.slot := s.slots[j.slot].(st := Idle)], workers := s.workers[w := Waiting])
  }

  predicate Initial(s: Sys) {
    && (forall i :: 0 <= i < |s.slots| ==> s.slots[i].st == Free && s.slots[i].out == None)
    && s.jobs == [] && s.poller == At && s.conns == 0 && s.frames == [] && s.armed == {} && s.sent == []
    && (forall w :: 0 <= w < |s.workers| ==> s.workers[w] == Waiting)
  }

  predicate Legal(s: Sys, steps: seq<Step>)
    decreases |steps|
  {
    steps == [] || (Enabled(s, steps[0]) && Legal(Apply(s, steps[0]), steps[1..]))
  }

  function Run(s: Sys, steps: seq<Step>): Sys
    requires Legal(s, steps)
    decreases |steps|
  {
    if steps == [] then s else Run(Apply(s, steps[0]), steps[1..])
  }

  // ------------------------------------------------- who names a slot

  function Names(b: bool): nat { if b then 1 else 0 }

  function InJobs(jobs: seq<Job>, i: nat): nat {
    if jobs == [] then 0 else InJobs(jobs[1..], i) + Names(jobs[0].slot == i)
  }

  predicate WorksOn(w: Worker, i: nat) { w != Waiting && w.job.slot == i }

  function InWorkers(workers: seq<Worker>, i: nat): nat {
    if workers == [] then 0 else InWorkers(workers[1..], i) + Names(WorksOn(workers[0], i))
  }

  // How many jobs name slot i: the one about to be queued, those queued, those
  // a worker has.
  function Named(s: Sys, i: nat): nat {
    Names(s.poller.Queueing? && s.poller.job.slot == i) + InJobs(s.jobs, i) + InWorkers(s.workers, i)
  }

  lemma {:induction false} JobsBack(jobs: seq<Job>, j: Job, i: nat)
    ensures InJobs(jobs + [j], i) == InJobs(jobs, i) + Names(j.slot == i)
  {
    if jobs == [] {
      assert (jobs + [j])[1..] == [];
    } else {
      assert (jobs + [j])[1..] == jobs[1..] + [j];
      JobsBack(jobs[1..], j, i);
    }
  }

  lemma {:induction false} JobsHave(jobs: seq<Job>, k: nat)
    requires k < |jobs|
    ensures InJobs(jobs, jobs[k].slot) >= 1
  {
    if k > 0 { JobsHave(jobs[1..], k - 1); }
  }

  lemma {:induction false} WorkersUpdate(workers: seq<Worker>, w: nat, x: Worker, i: nat)
    requires w < |workers|
    ensures InWorkers(workers[w := x], i) + Names(WorksOn(workers[w], i)) ==
                InWorkers(workers, i) + Names(WorksOn(x, i))
  {
    if w == 0 {
      assert workers[w := x][1..] == workers[1..];
    } else {
      assert workers[w := x][1..] == workers[1..][w - 1 := x];
      WorkersUpdate(workers[1..], w - 1, x, i);
    }
  }

  lemma {:induction false} WorkersHave(workers: seq<Worker>, w: nat)
    requires w < |workers| && workers[w] != Waiting
    ensures InWorkers(workers, workers[w].job.slot) >= 1
  {
    if w > 0 { WorkersHave(workers[1..], w - 1); }
  }

  lemma {:induction false} NobodyWorks(workers: seq<Worker>, i: nat)
    requires forall w :: 0 <= w < |workers| ==> workers[w] == Waiting
    ensures InWorkers(workers, i) == 0
  {
    if workers != [] { NobodyWorks(workers[1..], i); }
  }

  ghost predicate BusyIsNamed(s: Sys) {
    forall i :: 0 <= i < |s.slots| ==> Named(s, i) == Names(s.slots[i].st == Busy)
  }

  lemma StepNamed(s: Sys, x: Step, i: nat)
    requires BusyIsNamed(s) && Enabled(s, x) && i < |s.slots|
    ensures Named(Apply(s, x), i) == Names(Apply(s, x).slots[i].st == Busy)
  {
    match x {
      case Enqueue => JobsBack(s.jobs, s.poller.job, i);
      case Take(w) =>
        JobsFront(s.jobs, i);
        WorkersUpdate(s.workers, w, Working(s.jobs[0]), i);
      case Answer(w) => WorkersUpdate(s.workers, w, Done(s.workers[w].job), i);
      case Release(w) => WorkersUpdate(s.workers, w, Waiting, i); WorkersHave(s.workers, w);
      case _ =>
    }
    hide InJobs, InWorkers;
  }

  lemma JobsFront(jobs: seq<Job>, i: nat)
    requires jobs != []
    ensures InJobs(jobs, i) == InJobs(jobs[1..], i) + Names(jobs[0].slot == i)
  {
  }

  lemma {:induction false} TwoWork(workers: seq<Worker>, v: nat, w: nat)
    requires v < w < |workers| && workers[v] != Waiting
    requires workers[w] != Waiting && workers[v].job.slot == workers[w].job.slot
    ensures InWorkers(workers, workers[w].job.slot) >= 2
  {
    if v == 0 { WorkersHave(workers[1..], w - 1); } else { TwoWork(workers[1..], v - 1, w - 1); }
  }

  // A slot that a worker has is named by nobody else.
  lemma OnlyWorker(s: Sys, w: nat)
    requires BusyIsNamed(s) && w < |s.workers| && s.workers[w] != Waiting && s.workers[w].job.slot < |s.slots|
    ensures var i := s.workers[w].job.slot;
            && !(s.poller.Queueing? && s.poller.job.slot == i)
            && (forall k :: 0 <= k < |s.jobs| ==> s.jobs[k].slot != i)
            && (forall v :: 0 <= v < |s.workers| && v != w && s.workers[v] != Waiting ==> s.workers[v].job.slot != i)
  {
    var i := s.workers[w].job.slot;
    WorkersHave(s.workers, w);
    assert Named(s, i) <= 1;
    forall k | 0 <= k < |s.jobs| ensures s.jobs[k].slot != i { JobsHave(s.jobs, k); }
    forall v | 0 <= v < |s.workers| && v != w && s.workers[v] != Waiting ensures s.workers[v].job.slot != i {
      if s.workers[v].job.slot == i { if v < w { TwoWork(s.workers, v, w); } else { TwoWork(s.workers, w, v); } }
    }
  }

  // The slot the poller is about to queue is named by nobody else.
  lemma OnlyPoller(s: Sys)
    requires BusyIsNamed(s) && s.poller.Queueing? && s.poller.job.slot < |s.slots|
    ensures var i := s.poller.job.slot;
            && (forall k :: 0 <= k < |s.jobs| ==> s.jobs[k].slot != i)
            && (forall v :: 0 <= v < |s.workers| && s.workers[v] != Waiting ==> s.workers[v].job.slot != i)
  {
    var i := s.poller.job.slot;
    assert Named(s, i) <= 1;
    forall k | 0 <= k < |s.jobs| ensures s.jobs[k].slot != i { JobsHave(s.jobs, k); }
    forall v | 0 <= v < |s.workers| && s.workers[v] != Waiting
      ensures s.workers[v].job.slot != i
    {
      WorkersHave(s.workers, v);
    }
  }

  // ------------------------------------------------ what is in the buffers

  // A job's request still lies in its slot's frame buffer, on the connection
  // it came in on, and is answered when and only when the worker has done so.
  ghost predicate JobOk(s: Sys, j: Job, answered: bool) {
    && j.slot < |s.slots| && s.slots[j.slot].st == Busy && s.slots[j.slot].frame == j.frame
    && j.frame < |s.frames| && s.frames[j.frame] == s.slots[j.slot].conn
    && s.slots[j.slot].out == (if answered then Some(j.frame) else None)
    && (j.frame in s.armed <==> answered)
  }

  ghost predicate JobsOk(s: Sys) {
    && (s.poller.Queueing? ==> JobOk(s, s.poller.job, false))
    && (forall k :: 0 <= k < |s.jobs| ==> JobOk(s, s.jobs[k], false))
    && (forall w :: 0 <= w < |s.workers| && s.workers[w] != Waiting ==> JobOk(s, s.workers[w].job, s.workers[w].Done?))
  }

  ghost predicate SlotOk(s: Sys, i: nat)
    requires i < |s.slots|
  {
    var c := s.slots[i];
    && (c.st == Free ==> c.out == None)
    && (c.st != Free ==> c.conn < s.conns)
    && (c.out.Some? ==> c.out.value < |s.frames| && s.frames[c.out.value] == c.conn)
  }

  predicate SameConn(s: Sys, i: nat, j: nat) {
    i < |s.slots| && j < |s.slots| &&
    s.slots[i].st != Free && s.slots[j].st != Free && s.slots[i].conn == s.slots[j].conn
  }

  ghost predicate SlotsOk(s: Sys) {
    && (forall i :: 0 <= i < |s.slots| ==> SlotOk(s, i))
    && (forall i, j :: 0 <= i < |s.slots| && 0 <= j < |s.slots| && SameConn(s, i, j) ==> i == j)
    && (forall f :: f in s.armed ==> f < |s.frames|)
    && (forall k :: 0 <= k < |s.sent| ==> s.sent[k].frame < |s.frames| && s.frames[s.sent[k].frame] == s.sent[k].conn)
  }

  ghost predicate Inv(s: Sys) {
    BusyIsNamed(s) && JobsOk(s) && SlotsOk(s)
  }

  // The slot a step works on.
  function Target(s: Sys, x: Step): nat
    requires Enabled(s, x)
  {
    match x
    case Accept(i) => i
    case Evict(i) => i
    case Close(i) => i
    case Receive(i) => i
    case Serve(i) => i
    case Forward(i) => i
    case Enqueue => s.poller.job.slot
    case Flush(i, _) => i
    case Take(w) => s.jobs[0].slot
    case Answer(w) => s.workers[w].job.slot
    case Release(w) => s.workers[w].job.slot
  }

  // A step leaves the jobs of all other slots alone.
  lemma Elsewhere(s: Sys, x: Step, j: Job, answered: bool)
    requires SlotsOk(s) && JobsOk(s) && Enabled(s, x) && JobOk(s, j, answered) && j.slot != Target(s, x)
    ensures JobOk(Apply(s, x), j, answered)
  {
    match x {
      case Enqueue => NotSameFrame(s, s.poller.job, j, answered);
      case Answer(w) => NotSameFrame(s, s.workers[w].job, j, answered);
      case _ =>
    }
  }

  lemma NotSameFrame(s: Sys, a: Job, b: Job, answered: bool)
    requires SlotsOk(s) && JobOk(s, a, false) && JobOk(s, b, answered) && a.slot != b.slot
    ensures s.slots[a.slot].frame != b.frame
  {
    assert !SameConn(s, a.slot, b.slot);
  }

  // Steps of the poller, other than queueing, work on slots that no job names.
  predicate PollerStep(x: Step) {
    x.Accept? || x.Evict? || x.Close? || x.Receive? || x.Serve? || x.Forward? || x.Flush?
  }

  lemma StepJobs(s: Sys, x: Step)
    requires Inv(s) && Enabled(s, x)
    ensures JobsOk(Apply(s, x))
  {
    var t := Apply(s, x);
    match x {
      case Enqueue => EnqueueJobs(s);
      case Take(w) => TakeJobs(s, w);
      case Answer(w) => AnswerJobs(s, w);
      case Release(w) => ReleaseJobs(s, w);
      case _ => PollerJobs(s, x);
    }
  }

  lemma PollerJobs(s: Sys, x: Step)
    requires Inv(s) && Enabled(s, x) && PollerStep(x)
    ensures JobsOk(Apply(s, x))
  {
    var t := Apply(s, x);
    forall k | 0 <= k < |t.jobs| ensures JobOk(t, t.jobs[k], false) { Elsewhere(s, x, s.jobs[k], false); }
    forall w | 0 <= w < |t.workers| && t.workers[w] != Waiting ensures JobOk(t, t.workers[w].job, t.workers[w].Done?) {
      Elsewhere(s, x, s.workers[w].job, s.workers[w].Done?);
    }
  }

  lemma EnqueueJobs(s: Sys)
    requires Inv(s) && Enabled(s, Enqueue)
    ensures JobsOk(Apply(s, Enqueue))
  {
    var t := Apply(s, Enqueue);
    OnlyPoller(s);
    if |s.jobs| >= QUEUE_LEN {
      forall k | 0 <= k < |t.jobs| ensures JobOk(t, t.jobs[k], false) { Elsewhere(s, Enqueue, s.jobs[k], false); }
      forall w | 0 <= w < |t.workers| && t.workers[w] != Waiting
        ensures JobOk(t, t.workers[w].job, t.workers[w].Done?)
      {
        Elsewhere(s, Enqueue, s.workers[w].job, s.workers[w].Done?);
      }
    } else {
      assert forall k :: 0 <= k < |t.jobs| ==> t.jobs[k] == if k < |s.jobs| then s.jobs[k] else s.poller.job;
      assert forall j, a :: JobOk(s, j, a) ==> JobOk(t, j, a);
    }
  }

  lemma TakeJobs(s: Sys, w: nat)
    requires Inv(s) && Enabled(s, Take(w))
    ensures JobsOk(Apply(s, Take(w)))
  {
    var t := Apply(s, Take(w));
    assert forall j, a :: JobOk(s, j, a) ==> JobOk(t, j, a);
    assert forall k :: 0 <= k < |t.jobs| ==> t.jobs[k] == s.jobs[k + 1];
  }

  lemma AnswerJobs(s: Sys, w: nat)
    requires Inv(s) && Enabled(s, Answer(w))
    ensures JobsOk(Apply(s, Answer(w)))
  {
    var t := Apply(s, Answer(w));
    OnlyWorker(s, w);
    if t.poller.Queueing? { Elsewhere(s, Answer(w), s.poller.job, false); }
    forall k | 0 <= k < |t.jobs| ensures JobOk(t, t.jobs[k], false) { Elsewhere(s, Answer(w), s.jobs[k], false); }
    forall v | 0 <= v < |t.workers| && t.workers[v] != Waiting ensures JobOk(t, t.workers[v].job, t.workers[v].Done?) {
      if v != w { Elsewhere(s, Answer(w), s.workers[v].job, s.workers[v].Done?); }
    }
  }

  lemma ReleaseJobs(s: Sys, w: nat)
    requires Inv(s) && Enabled(s, Release(w))
    ensures JobsOk(Apply(s, Release(w)))
  {
    var t := Apply(s, Release(w));
    OnlyWorker(s, w);
    if t.poller.Queueing? { Elsewhere(s, Release(w), s.poller.job, false); }
    forall k | 0 <= k < |t.jobs| ensures JobOk(t, t.jobs[k], false) { Elsewhere(s, Release(w), s.jobs[k], false); }
    forall v | 0 <= v < |t.workers| && t.workers[v] != Waiting ensures JobOk(t, t.workers[v].job, t.workers[v].Done?) {
      Elsewhere(s, Release(w), s.workers[v].job, s.workers[v].Done?);
    }
  }

  lemma StepSlots(s: Sys, x: Step)
    requires Inv(s) && Enabled(s, x)
    ensures SlotsOk(Apply(s, x))
  {
    hide BusyIsNamed;
    var t := Apply(s, x);
    forall i, j | 0 <= i < |t.slots| && 0 <= j < |t.slots| && SameConn(t, i, j) ensures i == j {
      assert SlotOk(s, i) && SlotOk(s, j);
      assert SameConn(s, i, j) ==> i == j;
    }
    forall i | 0 <= i < |t.slots| ensures SlotOk(t, i) { assert SlotOk(s, i); }
    SentRight(s, x);
    if x.Answer? { assert JobOk(s, s.workers[x.w].job, false); }
  }

  lemma SentRight(s: Sys, x: Step)
    requires SlotsOk(s) && Enabled(s, x)
    ensures var t := Apply(s, x);
            forall k :: 0 <= k < |t.sent| ==>
              t.sent[k].frame < |t.frames| && t.frames[t.sent[k].frame] == t.sent[k].conn
  {
    if x.Flush? { assert SlotOk(s, x.i); }
  }

  lemma StepInv(s: Sys, x: Step)
    requires Inv(s) && Enabled(s, x)
    ensures Inv(Apply(s, x))
  {
    var t := Apply(s, x);
    forall i | 0 <= i < |t.slots| ensures Named(t, i) == Names(t.slots[i].st == Busy) { StepNamed(s, x, i); }
    StepJobs(s, x);
    StepSlots(s, x);
    hide JobsOk, SlotsOk;
  }

  lemma {:induction false} RunsKeep(s: Sys, steps: seq<Step>)
    requires Inv(s) && Legal(s, steps)
    ensures Inv(Run(s, steps))
    decreases |steps|
  {
    if steps != [] {
      StepInv(s, steps[0]);
      hide Inv, Apply, Enabled;
      RunsKeep(Apply(s, steps[0]), steps[1..]);
    }
  }

  lemma InitialInv(s: Sys)
    requires Initial(s)
    ensures Inv(s)
  {
    forall i | 0 <= i < |s.slots| ensures Named(s, i) == 0 { NobodyWorks(s.workers, i); }
  }

  // Main result: in every reachable state a busy slot is named by exactly one
  // job -- about to be queued, queued or with a worker -- and any other slot by
  // none; and every answer that has left went out on the connection its
  // request came in on.
  lemma OneJobPerBusySlot(s: Sys, steps: seq<Step>)
    requires Initial(s) && Legal(s, steps)
    ensures var t := Run(s, steps);
            && (forall i :: 0 <= i < |t.slots| ==> Named(t, i) == Names(t.slots[i].st == Busy))
            && (forall k :: 0 <= k < |t.sent| ==>
                  t.sent[k].frame < |t.frames| && t.frames[t.sent[k].frame] == t.sent[k].conn)
  {
    InitialInv(s);
    RunsKeep(s, steps);
  }

  predicate Queued(s: Sys, i: nat) {
    || (exists k :: 0 <= k < |s.jobs| && s.jobs[k].slot == i)
    || (exists w :: 0 <= w < |s.workers| && s.workers[w] != Waiting && s.workers[w].job.slot == i)
  }

  // Main result: no accept, eviction, close, receive, flush or queueing step
  // of the poller touches a slot while its job is queued or with a worker.
  lemma PollerLeavesJobsAlone(s: Sys, steps: seq<Step>, x: Step, i: nat)
    requires Initial(s) && Legal(s, steps) && Enabled(Run(s, steps), x) && (PollerStep(x) || x == Enqueue)
    requires i < |Run(s, steps).slots| && Queued(Run(s, steps), i)
    ensures Apply(Run(s, steps), x).slots[i] == Run(s, steps).slots[i]
  {
    InitialInv(s);
    RunsKeep(s, steps);
    var t := Run(s, steps);
    if x == Enqueue { OnlyPoller(t); }
  }

  predicate Arms(s: Sys, x: Step) {
    x.Serve? || x.Answer? || (x == Enqueue && |s.jobs| >= QUEUE_LEN)
  }

  // Main result: an answer is armed only where none is pending, it answers the
  // very request the job was made for, and that request was not answered
  // before.
  lemma AnswersOnceAndOverNothing(s: Sys, steps: seq<Step>, x: Step)
    requires Initial(s) && Legal(s, steps) && Enabled(Run(s, steps), x) && Arms(Run(s, steps), x)
    ensures var t := Run(s, steps); var i := Target(t, x); var f := Apply(t, x).slots[i].frame;
            && t.slots[i].out == None && Apply(t, x).slots[i].out == Some(f) && f !in t.armed
            && (x.Answer? ==> f == t.workers[x.w].job.frame) && (x == Enqueue ==> f == t.poller.job.frame)
  {
    InitialInv(s);
    RunsKeep(s, steps);
    var t := Run(s, steps);
    if x.Answer? {
      OnlyWorker(t, x.w);
      assert JobOk(t, t.workers[x.w].job, false);
    }
  }

  // ------------------------------------------------------- the end of an answer

  // What has left was armed, and what has ended is not pending anywhere and has
  // sent nothing since.
  ghost predicate Ended(s: Sys) {
    && (forall i :: 0 <= i < |s.slots| && s.slots[i].out.Some? ==> s.slots[i].out.value in s.armed)
    && (forall k :: 0 <= k < |s.sent| ==> s.sent[k].frame in s.armed)
    && (forall k, i :: 0 <= k < |s.sent| && 0 <= i < |s.slots| && s.sent[k].last ==>
          s.slots[i].out != Some(s.sent[k].frame))
    && (forall k, l :: 0 <= k < l < |s.sent| && s.sent[k].last ==> s.sent[l].frame != s.sent[k].frame)
  }

  // A request that is answered now was not answered before.
  lemma ArmedNew(s: Sys, x: Step)
    requires Inv(s) && Enabled(s, x) && Arms(s, x)
    ensures var i := Target(s, x); i < |s.slots| && Apply(s, x).slots[i].frame !in s.armed
  {
    if x.Answer? { assert JobOk(s, s.workers[x.w].job, false); }
    hide BusyIsNamed;
  }

  lemma StepEnds(s: Sys, x: Step)
    requires Inv(s) && Ended(s) && Enabled(s, x)
    ensures Ended(Apply(s, x))
  {
    hide BusyIsNamed, JobsOk;
    if Arms(s, x) { ArmedNew(s, x); }
    if x.Flush? { FlushEnds(s, x.i, x.whole); }
    hide SlotsOk;
  }

  lemma FlushEnds(s: Sys, i: nat, whole: bool)
    requires SlotsOk(s) && Ended(s) && Enabled(s, Flush(i, whole))
    ensures Ended(Apply(s, Flush(i, whole)))
  {
    forall j | 0 <= j < |s.slots| && s.slots[j].out == s.slots[i].out ensures j == i {
      assert SlotOk(s, i) && SlotOk(s, j);
      assert SameConn(s, i, j);
    }
    hide SlotsOk;
  }

  lemma {:induction false} RunsEnd(s: Sys, steps: seq<Step>)
    requires Inv(s) && Ended(s) && Legal(s, steps)
    ensures Ended(Run(s, steps))
    decreases |steps|
  {
    if steps != [] {
      var t := Apply(s, steps[0]);
      StepEnds(s, steps[0]);
      StepInv(s, steps[0]);
      hide Inv, Ended, Apply, Enabled;
      RunsEnd(t, steps[1..]);
    }
  }

  // Main result: once the end of an answer has left, nothing of it ever leaves
  // again, and it is pending nowhere.
  lemma NothingAfterTheEnd(s: Sys, steps: seq<Step>, k: nat)
    requires Initial(s) && Legal(s, steps) && k < |Run(s, steps).sent| && Run(s, steps).sent[k].last
    ensures var t := Run(s, steps);
            && (forall l :: k < l < |t.sent| ==> t.sent[l].frame != t.sent[k].frame)
            && (forall i :: 0 <= i < |t.slots| ==> t.slots[i].out != Some(t.sent[k].frame))
  {
    InitialInv(s);
    RunsEnd(s, steps);
  }

  // Part of a frame lies in slot i.
  predicate HasPart(s: Sys, i: nat) {
    i < |s.slots| && s.slots[i].st == Idle && s.slots[i].partial
  }

  predicate Finishes(x: Step, i: nat) {
    x == Serve(i) || x == Forward(i) || x == Close(i)
  }

  lemma PartStays(s: Sys, x: Step, i: nat)
    requires Inv(s) && Enabled(s, x) && HasPart(s, i) && !Finishes(x, i)
    ensures HasPart(Apply(s, x), i)
  {
    match x {
      case Enqueue => assert JobOk(s, s.poller.job, false);
      case Answer(w) => assert JobOk(s, s.workers[w].job, false);
      case Release(w) => assert JobOk(s, s.workers[w].job, true);
      case _ => hide Inv;
    }
    hide BusyIsNamed, SlotsOk;
  }

  lemma {:induction false} PartKept(s: Sys, steps: seq<Step>, i: nat)
    requires Inv(s) && Legal(s, steps) && HasPart(s, i)
    requires forall k :: 0 <= k < |steps| ==> !Finishes(steps[k], i)
    ensures HasPart(Run(s, steps), i)
    decreases |steps|
  {
    if steps != [] {
      var t := Apply(s, steps[0]);
      PartStays(s, steps[0], i);
      StepInv(s, steps[0]);
      hide Inv, HasPart, Apply, Enabled, Finishes;
      PartKept(t, steps[1..], i);
    }
  }

  // Main result: a connection of which some bytes of a frame have come keeps its
  // slot until the frame is whole or the connection is closed; no newcomer takes
  // it.
  lemma PartIsNotEvicted(s: Sys, before: seq<Step>, i: nat, during: seq<Step>)
    requires Initial(s) && Legal(s, before) && Enabled(Run(s, before), Receive(i))
    requires Legal(Apply(Run(s, before), Receive(i)), during)
    requires forall k :: 0 <= k < |during| ==> !Finishes(during[k], i)
    ensures var t := Run(Apply(Run(s, before), Receive(i)), during);
            && i < |t.slots| && t.slots[i].conn == Run(s, before).slots[i].conn
            && !Enabled(t, Evict(i)) && !Enabled(t, Accept(i))
  {
    InitialInv(s);
    RunsKeep(s, before);
    var u := Run(s, before);
    StepInv(u, Receive(i));
    PartKept(Apply(u, Receive(i)), during, i);
    ConnKept(Apply(u, Receive(i)), during, i);
  }

  lemma {:induction false} ConnKept(s: Sys, steps: seq<Step>, i: nat)
    requires Inv(s) && Legal(s, steps) && HasPart(s, i)
    requires forall k :: 0 <= k < |steps| ==> !Finishes(steps[k], i)
    ensures i < |Run(s, steps).slots| && Run(s, steps).slots[i].conn == s.slots[i].conn
    decreases |steps|
  {
    if steps != [] {
      var t := Apply(s, steps[0]);
      PartStays(s, steps[0], i);
      StepInv(s, steps[0]);
      assert t.slots[i].conn == s.slots[i].conn;
      hide Inv, Apply, Finishes;
      ConnKept(t, steps[1..], i);
    }
  }

  // A newcomer's slot has nothing left over: no part of a frame, no answer, no
  // job; and its connection is no other slot's.
  lemma StartsClean(s: Sys, steps: seq<Step>, x: Step)
    requires Initial(s) && Legal(s, steps) && Enabled(Run(s, steps), x) && (x.Accept? || x.Evict?)
    ensures var t := Apply(Run(s, steps), x); var c := t.slots[x.i];
            && c.st == Idle && !c.partial && c.out == None && Named(t, x.i) == 0
            && forall j :: 0 <= j < |t.slots| && j != x.i && t.slots[j].st != Free ==> t.slots[j].conn != c.conn
  {
    InitialInv(s);
    RunsKeep(s, steps);
    var u := Run(s, steps);
    StepNamed(u, x, x.i);
    hide BusyIsNamed, JobsOk, Named, Run, Legal;
    forall j | 0 <= j < |u.slots| && u.slots[j].st != Free ensures u.slots[j].conn < u.conns {
      assert SlotOk(u, j);
    }
  }

  // --------------------------------------------- whose place a newcomer takes

  // Quiet for long enough, with nothing half received or going out.
  predicate MayBeEvicted(c: Slot, lastUse: int, now: int) {
    c.st == Idle && !c.partial && c.out == None && now - lastUse >= EVICT_IDLE_US
  }

  // oldest_idle()
  method OldestIdle(slots: seq<Slot>, lastUse: seq<int>, now: int) returns (best: int)
    requires |lastUse| == |slots|
    ensures -1 <= best < |slots|
    ensures best == -1 <==> forall i :: 0 <= i < |slots| ==> !MayBeEvicted(slots[i], lastUse[i], now)
    ensures best >= 0 ==> MayBeEvicted(slots[best], lastUse[best], now)
    ensures best >= 0 ==> forall i :: 0 <= i < |slots| && MayBeEvicted(slots[i], lastUse[i], now) ==>
              lastUse[best] <= lastUse[i]
  {
    best := -1;
    for i := 0 to |slots|
      invariant -1 <= best < i
      invariant best == -1 ==> forall k :: 0 <= k < i ==> !MayBeEvicted(slots[k], lastUse[k], now)
      invariant best >= 0 ==> MayBeEvicted(slots[best], lastUse[best], now)
      invariant best >= 0 ==> forall k :: 0 <= k < i && MayBeEvicted(slots[k], lastUse[k], now) ==>
                  lastUse[best] <= lastUse[k]
    {
      var c := slots[i];
      if c.st != Idle || c.partial || c.out.Some? { continue; }
      if now - lastUse[i] < EVICT_IDLE_US { continue; }
      if best < 0 || lastUse[i] < lastUse[best] { best := i; }
    }
  }

  // accept_one(): a free slot if there is one, else the place of the
  // connection quiet longest, else the newcomer is refused. What it does is a
  // step of the protocol above.
  method PlaceFor(s: Sys, lastUse: seq<int>, now: int) returns (x: Option<Step>)
    requires s.poller == At && |lastUse| == |s.slots|
    ensures x.Some? ==> Enabled(s, x.value) && (x.value.Accept? || x.value.Evict?)
    ensures (x.Some? && x.value.Accept?) <==> exists i :: 0 <= i < |s.slots| && s.slots[i].st == Free
    ensures x.Some? && x.value.Evict? ==> MayBeEvicted(s.slots[x.value.i], lastUse[x.value.i], now)
    ensures x.Some? && x.value.Evict? ==>
              forall i :: 0 <= i < |s.slots| && MayBeEvicted(s.slots[i], lastUse[i], now) ==>
                lastUse[x.value.i] <= lastUse[i]
    ensures x == None ==> forall i :: 0 <= i < |s.slots| ==>
              s.slots[i].st != Free && !MayBeEvicted(s.slots[i], lastUse[i], now)
  {
    for i := 0 to |s.slots|
      invariant forall k :: 0 <= k < i ==> s.slots[k].st != Free
    {
      if s.slots[i].st == Free { return Some(Accept(i)); }
    }
    var slot := OldestIdle(s.slots, lastUse, now);
    if slot < 0 { return None; }
    return Some(Evict(slot));
  }
}
