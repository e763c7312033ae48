// Coils over Modbus: the shadow and the pending counts that let a read give
// back what was written before the command task has carried it out.
module CoilShadow {
  import opened Options

  const NUM_DO := 8
  const NUM_COILS := 11            // and three pads
  const QUEUE_DEPTH := 8

  const EXC_NONE: nat := 0x00
  const EXC_ILLEGAL_ADDR: nat := 0x02
  const EXC_ILLEGAL_VALUE: nat := 0x03
  const EXC_DEVICE_BUSY: nat := 0x06

  // One value for each relay coil.
  type Coils = s: seq<bool> | |s| == NUM_DO witness seq(NUM_DO, _ => false)
  type Counts = s: seq<nat> | |s| == NUM_DO witness seq(NUM_DO, _ => 0)

  // A queued command: relay coils from offset on, or holding registers.
  datatype Cmd = Relays(offset: nat, bits: seq<bool>) | Holding

  predicate CmdOk(c: Cmd) { c.Relays? ==> c.offset + |c.bits| <= NUM_DO }

  predicate Covers(c: Cmd, ch: nat) { c.Relays? && c.offset <= ch < c.offset + |c.bits| }

  function Bit(c: Cmd, ch: nat): bool
    requires Covers(c, ch)
  {
    c.bits[ch - c.offset]
  }

  // A write as the client asks for it: relay coils, pads, or both.
  datatype Write = Write(addr: nat, bits: seq<bool>)

  predicate Writes(w: Write, coil: nat) { w.addr <= coil < w.addr + |w.bits| }

  // The command task: waiting, about to make the transfer, about to take its
  // coils off the pending counts.
  datatype Hand = Free | Taken(c: Cmd) | Tried(c: Cmd)

  datatype Sys = Sys(
    port: Coils,               // s_port: what the relays are doing
    shadow: Coils,             // s_do_shadow
    pending: Counts,           // s_do_pending[]
    queue: seq<Cmd>,           // s_cmd_q
    hand: Hand,
    writing: Option<Write>,    // a writer between its room check and its enqueue, holding the lock
    pads: seq<bool>,
    accepted: seq<Write>)      // the writes carried out or queued so far

  // The relay part of a write of bits from coil addr on.
  function RelayPart(addr: nat, bits: seq<bool>): seq<bool> {
    if addr >= NUM_DO then [] else if |bits| <= NUM_DO - addr then bits else bits[..NUM_DO - addr]
  }

  function RelayCmd(w: Write): Cmd { Relays(w.addr, RelayPart(w.addr, w.bits)) }

  predicate InRange(addr: nat, bits: seq<bool>) { addr + |bits| <= NUM_COILS }

  // The pads once a write has set them.
  function PadsAfter(pads: seq<bool>, addr: nat, bits: seq<bool>): seq<bool> {
    seq(|pads|, i requires 0 <= i < |pads| =>
        if addr <= NUM_DO + i < addr + |bits| then bits[NUM_DO + i - addr] else pads[i])
  }

  function Overlay(v: Coils, c: Cmd): (r: Coils)
    ensures forall ch :: 0 <= ch < NUM_DO ==> r[ch] == if Covers(c, ch) then Bit(c, ch) else v[ch]
  {
    seq(NUM_DO, ch requires 0 <= ch < NUM_DO => if Covers(c, ch) then Bit(c, ch) else v[ch])
  }

  function Bumped(p: Counts, c: Cmd): (r: Counts)
    ensures forall ch :: 0 <= ch < NUM_DO ==> r[ch] == p[ch] + if Covers(c, ch) then 1 else 0
  {
    seq(NUM_DO, ch requires 0 <= ch < NUM_DO => p[ch] + if Covers(c, ch) then 1 else 0)
  }

  function Lowered(p: Counts, c: Cmd): (r: Counts)
    ensures forall ch :: 0 <= ch < NUM_DO ==> r[ch] == if Covers(c, ch) && p[ch] > 0 then p[ch] - 1 else p[ch]
  {
    seq(NUM_DO, ch requires 0 <= ch < NUM_DO => if Covers(c, ch) && p[ch] > 0 then p[ch] - 1 else p[ch])
  }

  // The shadow is put back in step where nothing is outstanding any more.
  function InStep(shadow: Coils, port: Coils, lowered: Counts, c: Cmd): (r: Coils)
    ensures forall ch :: 0 <= ch < NUM_DO ==>
              r[ch] == if Covers(c, ch) && lowered[ch] == 0 then port[ch] else shadow[ch]
  {
    seq(NUM_DO, ch requires 0 <= ch < NUM_DO => if Covers(c, ch) && lowered[ch] == 0 then port[ch] else shadow[ch])
  }

  datatype Step =
    | Begin(addr: nat, bits: seq<bool>, padsOk: bool)   // checked; the pads are set
    | Commit                                            // and the relay part is queued
    | WriteHolding
    | Receive
    | Transfer(ok: bool)
    | Finish
    | Other(port: Coils)                                // MQTT, a rule, CAN, the web page

  predicate Enabled(s: Sys, x: Step) {
    match x
    case Begin(_, _, _) => s.writing == None
    case Commit => s.writing.Some?
    case WriteHolding => s.writing == None
    case Receive => s.hand == Free && s.queue != []
    case Transfer(_) => s.hand.Taken?
    case Finish => s.hand.Tried? && s.writing == None
    case Other(_) => true
  }

  predicate Room(s: Sys) { |s.queue| < QUEUE_DEPTH }

  // Refused writes change nothing.
  predicate Refused(s: Sys, addr: nat, bits: seq<bool>, padsOk: bool) {
    !InRange(addr, bits) || (addr + |bits| > NUM_DO && !padsOk) || (RelayPart(addr, bits) != [] && !Room(s))
  }

  function Apply(s: Sys, x: Step): Sys
    requires Enabled(s, x)
  {
    match x
    case Begin(addr, bits, padsOk) =>
      if Refused(s, addr, bits, padsOk) then s
      else if RelayPart(addr, bits) == []
      then s.(pads := PadsAfter(s.pads, addr, bits), accepted := s.accepted + [Write(addr, bits)])
      else s.(pads := PadsAfter(s.pads, addr, bits), writing := Some(Write(addr, bits)))
    case Commit => Committed(s)
    case WriteHolding => if Room(s) then s.(queue := s.queue + [Holding]) else s
    case Receive => s.(hand := Taken(s.queue[0]), queue := s.queue[1..])
    case Transfer(ok) =>
      if s.hand.c == Holding then s.(hand := Free)
      else s.(port := if ok then Overlay(s.port, s.hand.c) else s.port, hand := Tried(s.hand.c))
    case Finish =>
      var low := Lowered(s.pending, s.hand.c);
      s.(pending := low, shadow := InStep(s.shadow, s.port, low, s.hand.c), hand := Free)
    case Other(port) => s.(port := port)
  }

  function Committed(s: Sys): Sys
    requires s.writing.Some?
  {
    var c := RelayCmd(s.writing.value);
    if !Room(s) then s.(writing := None)
    else s.(writing := None, queue := s.queue + [c], shadow := Overlay(s.shadow, c),
            pending := Bumped(s.pending, c), accepted := s.accepted + [s.writing.value])
  }

  // A coil as a read finds it.
  function ReadCoil(s: Sys, ch: nat): bool
    requires ch < NUM_DO
  {
    if s.pending[ch] > 0 then s.shadow[ch] else s.port[ch]
  }

  // A relay coil or a pad, as a read finds it.
  function ReadAt(s: Sys, coil: nat): bool
    requires coil < NUM_COILS && |s.pads| == NUM_COILS - NUM_DO
  {
    if coil < NUM_DO then ReadCoil(s, coil) else s.pads[coil - NUM_DO]
  }

  // Boot: the shadow starts in step with the relays.
  function Start(port: Coils, pads: seq<bool>): Sys {
    Sys(port, port, seq(NUM_DO, _ => 0), [], Free, None, pads, [])
  }

  predicate Legal(s: Sys, steps: seq<Step>)
    decreases |steps|
  {
    steps == [] || (Enabled(s, steps[0]) && Legal(Apply(s, steps[0]), steps[1..]))
  }

  function Run(s: Sys, steps: seq<Step>): Sys
    requires Legal(s, steps)
    decreases |steps|
  {
    if steps == [] then s else Run(Apply(s, steps[0]), steps[1..])
  }

  // ------------------------------------------------- accepted and unfinished

  function Outstanding(s: Sys): seq<Cmd> {
    (if s.hand == Free then [] else [s.hand.c]) + s.queue
  }

  function Count(q: seq<Cmd>, ch: nat): nat {
    if q == [] then 0 else Count(q[..|q| - 1], ch) + if Covers(q[|q| - 1], ch) then 1 else 0
  }

  lemma CountBack(q: seq<Cmd>, c: Cmd, ch: nat)
    ensures Count(q + [c], ch) == Count(q, ch) + if Covers(c, ch) then 1 else 0
  {
    assert (q + [c])[..|q|] == q;
  }

  lemma {:induction false} CountFront(q: seq<Cmd>, ch: nat)
    requires q != []
    ensures Count(q, ch) == Count(q[1..], ch) + if Covers(q[0], ch) then 1 else 0
  {
    if |q| == 1 {
      assert q[..0] == q[1..] == [];
    } else {
      CountFront(q[..|q| - 1], ch);
      assert q[..|q| - 1][1..] == q[1..][..|q| - 2];
    }
  }

  lemma {:induction false} CountAtMost(q: seq<Cmd>, ch: nat)
    ensures Count(q, ch) <= |q|
  {
    if q != [] { CountAtMost(q[..|q| - 1], ch); }
  }

  ghost predicate Counted(s: Sys) {
    && |s.queue| <= QUEUE_DEPTH && (s.writing.Some? ==> Room(s))
    && (s.hand.Tried? ==> s.hand.c.Relays?)
    && forall ch :: 0 <= ch < NUM_DO ==> s.pending[ch] == Count(Outstanding(s), ch)
  }

  lemma HoldingCoversNone(ch: nat)
    ensures !Covers(Holding, ch)
  {
  }

  lemma HoldingCovers(q: seq<Cmd>, ch: nat)
    ensures Count(q + [Holding], ch) == Count(q, ch)
  {
    CountBack(q, Holding, ch);
  }

  lemma StepCounted(s: Sys, x: Step)
    requires Counted(s) && Enabled(s, x)
    ensures Counted(Apply(s, x))
  {
    var t := Apply(s, x);
    forall ch | 0 <= ch < NUM_DO ensures t.pending[ch] == Count(Outstanding(t), ch) {
      CoilCounted(s, x, ch);
    }
  }

  // What a step leaves outstanding.
  lemma OutstandingAfter(s: Sys, x: Step)
    requires Counted(s) && Enabled(s, x)
    ensures var q, p := Outstanding(s), Outstanding(Apply(s, x));
            match x
            case Commit => p == q + [RelayCmd(s.writing.value)]
            case WriteHolding => p == q || p == q + [Holding]
            case Transfer(_) => q != [] && q[0] == s.hand.c && p == if s.hand.c == Holding then q[1..] else q
            case Finish => q != [] && q[0] == s.hand.c && p == q[1..]
            case _ => p == q
  {
    match x {
      case Commit => assert Outstanding(Apply(s, x)) == Outstanding(s) + [RelayCmd(s.writing.value)];
      case WriteHolding => if Room(s) { assert Outstanding(Apply(s, x)) == Outstanding(s) + [Holding]; }
      case _ =>
    }
  }

  lemma PendingAfter(s: Sys, x: Step, ch: nat)
    requires Counted(s) && Enabled(s, x) && ch < NUM_DO
    ensures var p, n := s.pending[ch], Apply(s, x).pending[ch];
            match x
            case Commit => n == p + if Covers(RelayCmd(s.writing.value), ch) then 1 else 0
            case Finish => n == if Covers(s.hand.c, ch) && p > 0 then p - 1 else p
            case _ => n == p
  {
    hide Count, Outstanding;
  }

  lemma CoilCounted(s: Sys, x: Step, ch: nat)
    requires Counted(s) && Enabled(s, x) && ch < NUM_DO
    ensures Apply(s, x).pending[ch] == Count(Outstanding(Apply(s, x)), ch)
  {
    var q := Outstanding(s);
    OutstandingAfter(s, x);
    PendingAfter(s, x, ch);
    hide Outstanding, Count, Apply, Covers;
    match x {
      case Commit => CountBack(q, RelayCmd(s.writing.value), ch);
      case WriteHolding => HoldingCovers(q, ch);
      case Transfer(_) => if s.hand.c == Holding { CountFront(q, ch); HoldingCoversNone(ch); }
      case Finish => CountFront(q, ch);
      case _ =>
    }
  }

  // The bit of the last of some writes to a coil, or what it was before them.
  function LastBit(v: bool, ws: seq<Write>, coil: nat): bool {
    if ws == [] then v
    else if Writes(ws[|ws| - 1], coil) then ws[|ws| - 1].bits[coil - ws[|ws| - 1].addr]
    else LastBit(v, ws[..|ws| - 1], coil)
  }

  // The same, said of any one of them.
  ghost predicate IsLast(v: bool, before: bool, ws: seq<Write>, coil: nat) {
    && (forall k :: 0 <= k < |ws| && LastWrite(ws, k, coil) ==> v == ws[k].bits[coil - ws[k].addr])
    && ((forall k :: 0 <= k < |ws| ==> !Writes(ws[k], coil)) ==> v == before)
  }

  predicate LastWrite(ws: seq<Write>, k: nat, coil: nat)
    requires k < |ws|
  {
    Writes(ws[k], coil) && forall j :: k < j < |ws| ==> !Writes(ws[j], coil)
  }

  lemma {:induction false} LastBitIsLast(before: bool, ws: seq<Write>, coil: nat)
    ensures IsLast(LastBit(before, ws, coil), before, ws, coil)
  {
    if ws != [] {
      var n := |ws| - 1;
      if Writes(ws[n], coil) {
        assert forall k :: 0 <= k < n ==> !LastWrite(ws, k, coil);
      } else {
        LastBitIsLast(before, ws[..n], coil);
        assert forall k :: 0 <= k < n ==> ws[..n][k] == ws[k];
        hide LastBit;
        forall k | 0 <= k < n && LastWrite(ws, k, coil) ensures LastWrite(ws[..n], k, coil) {
        }
      }
    }
  }

  lemma OneMoreWrite(before: bool, ws: seq<Write>, w: Write, coil: nat)
    ensures LastBit(before, ws + [w], coil) ==
            if Writes(w, coil) then w.bits[coil - w.addr] else LastBit(before, ws, coil)
  {
    assert (ws + [w])[..|ws|] == ws;
  }

  // A write's command has its bits for the relay coils it writes.
  lemma RelayCmdHas(w: Write, ch: nat)
    requires ch < NUM_DO
    ensures Covers(RelayCmd(w), ch) <==> Writes(w, ch)
    ensures Writes(w, ch) ==> Bit(RelayCmd(w), ch) == w.bits[ch - w.addr]
  {
  }

  // What is outstanding reads as accepted; a pad is what was accepted for it,
  // the write that is under way included.
  ghost predicate ShadowTells(port: Coils, pads: seq<bool>, s: Sys) {
    && (forall ch :: 0 <= ch < NUM_DO && s.pending[ch] > 0 ==> s.shadow[ch] == LastBit(port[ch], s.accepted, ch))
    && |s.pads| == |pads| == NUM_COILS - NUM_DO
    && (forall i :: 0 <= i < |pads| ==> s.pads[i] == LastBit(pads[i], Begun(s), NUM_DO + i))
  }

  function Begun(s: Sys): seq<Write> {
    if s.writing.Some? then s.accepted + [s.writing.value] else s.accepted
  }

  lemma StepTells(port: Coils, pads: seq<bool>, s: Sys, x: Step)
    requires ShadowTells(port, pads, s) && Counted(s) && Enabled(s, x)
    ensures ShadowTells(port, pads, Apply(s, x))
  {
    hide LastBit;
    match x {
      case Begin(addr, bits, padsOk) => BeginTells(port, pads, s, addr, bits, padsOk);
      case Commit => CommitTells(port, pads, s);
      case _ =>
    }
  }

  lemma BeginTells(port: Coils, pads: seq<bool>, s: Sys, addr: nat, bits: seq<bool>, padsOk: bool)
    requires ShadowTells(port, pads, s) && s.writing == None
    ensures ShadowTells(port, pads, Apply(s, Begin(addr, bits, padsOk)))
  {
    var w := Write(addr, bits);
    forall ch | 0 <= ch < NUM_DO
      ensures RelayPart(addr, bits) == [] ==>
                LastBit(port[ch], s.accepted + [w], ch) == LastBit(port[ch], s.accepted, ch)
    {
      OneMoreWrite(port[ch], s.accepted, w, ch);
    }
    forall i | 0 <= i < |pads|
      ensures LastBit(pads[i], s.accepted + [w], NUM_DO + i) == PadsAfter(s.pads, addr, bits)[i]
    {
      OneMoreWrite(pads[i], s.accepted, w, NUM_DO + i);
    }
    hide LastBit;
  }

  lemma CommitTells(port: Coils, pads: seq<bool>, s: Sys)
    requires ShadowTells(port, pads, s) && Enabled(s, Commit) && Room(s)
    ensures ShadowTells(port, pads, Apply(s, Commit))
  {
    var w := s.writing.value;
    forall ch | 0 <= ch < NUM_DO
      ensures LastBit(port[ch], s.accepted + [w], ch) ==
              if Covers(RelayCmd(w), ch) then Bit(RelayCmd(w), ch) else LastBit(port[ch], s.accepted, ch)
    {
      OneMoreWrite(port[ch], s.accepted, w, ch);
      RelayCmdHas(w, ch);
    }
    hide LastBit, Covers, Bit, RelayCmd;
  }

  lemma {:induction false} RunsKeep(port: Coils, pads: seq<bool>, s: Sys, steps: seq<Step>)
    requires Counted(s) && ShadowTells(port, pads, s) && Legal(s, steps)
    ensures Counted(Run(s, steps)) && ShadowTells(port, pads, Run(s, steps))
    decreases |steps|
  {
    if steps != [] {
      StepCounted(s, steps[0]);
      StepTells(port, pads, s, steps[0]);
      hide Counted, ShadowTells;
      RunsKeep(port, pads, Apply(s, steps[0]), steps[1..]);
    }
  }

  lemma StartTells(port: Coils, pads: seq<bool>)
    requires |pads| == NUM_COILS - NUM_DO
    ensures Counted(Start(port, pads)) && ShadowTells(port, pads, Start(port, pads))
  {
  }

  // Main result: over every interleaving each pending count is the number of
  // accepted, unfinished commands covering its coil, never above nine; and a
  // coil with one outstanding reads as the bit accepted last for it.
  lemma PendingIsOutstanding(port: Coils, pads: seq<bool>, steps: seq<Step>, ch: nat)
    requires |pads| == NUM_COILS - NUM_DO && Legal(Start(port, pads), steps) && ch < NUM_DO
    ensures var t := Run(Start(port, pads), steps);
            && t.pending[ch] == Count(Outstanding(t), ch) <= QUEUE_DEPTH + 1
            && (Count(Outstanding(t), ch) > 0 ==> IsLast(ReadCoil(t, ch), port[ch], t.accepted, ch))
  {
    StartTells(port, pads);
    RunsKeep(port, pads, Start(port, pads), steps);
    CountAtMost(Outstanding(Run(Start(port, pads), steps)), ch);
    LastBitIsLast(port[ch], Run(Start(port, pads), steps).accepted, ch);
  }

  // Pads are set at once: they read as accepted last, whatever the relays do.
  lemma PadsReadLastAccepted(port: Coils, pads: seq<bool>, steps: seq<Step>, i: nat)
    requires |pads| == NUM_COILS - NUM_DO && Legal(Start(port, pads), steps) && i < |pads|
    requires Run(Start(port, pads), steps).writing == None
    ensures var t := Run(Start(port, pads), steps);
            |t.pads| == |pads| && IsLast(t.pads[i], pads[i], t.accepted, NUM_DO + i)
  {
    StartTells(port, pads);
    RunsKeep(port, pads, Start(port, pads), steps);
    LastBitIsLast(pads[i], Run(Start(port, pads), steps).accepted, NUM_DO + i);
  }

  // Once the pads of a write are set its relay part is not refused: nobody can
  // take the free place in between.
  lemma NothingHalfDone(port: Coils, pads: seq<bool>, steps: seq<Step>)
    requires |pads| == NUM_COILS - NUM_DO
    requires Legal(Start(port, pads), steps) && Run(Start(port, pads), steps).writing.Some?
    ensures var t := Run(Start(port, pads), steps);
            && Apply(t, Commit).queue == t.queue + [RelayCmd(t.writing.value)]
            && Apply(t, Commit).accepted == t.accepted + [t.writing.value]
  {
    StartTells(port, pads);
    RunsKeep(port, pads, Start(port, pads), steps);
  }

  // ------------------------------------------- agreement with one register

  // The commands whose transfer is still to come.
  function ToDo(s: Sys): seq<Cmd> {
    (if s.hand.Taken? then [s.hand.c] else []) + s.queue
  }

  // What a coil will be once they have been carried out.
  function Final(v: bool, q: seq<Cmd>, ch: nat): bool {
    if q == [] then v
    else if Covers(q[|q| - 1], ch) then Bit(q[|q| - 1], ch)
    else Final(v, q[..|q| - 1], ch)
  }

  lemma {:induction false} FinalFront(v: bool, q: seq<Cmd>, ch: nat)
    requires q != []
    ensures Final(v, q, ch) == Final(if Covers(q[0], ch) then Bit(q[0], ch) else v, q[1..], ch)
  {
    if |q| == 1 {
      assert q[..0] == q[1..] == [];
    } else {
      FinalFront(v, q[..|q| - 1], ch);
      assert q[..|q| - 1][1..] == q[1..][..|q| - 2];
    }
  }

  lemma FinalBack(v: bool, q: seq<Cmd>, c: Cmd, ch: nat)
    ensures Final(v, q + [c], ch) == if Covers(c, ch) then Bit(c, ch) else Final(v, q, ch)
  {
    assert (q + [c])[..|q|] == q;
  }

  ghost predicate WillBeLast(port: Coils, s: Sys) {
    forall ch :: 0 <= ch < NUM_DO ==> Final(s.port[ch], ToDo(s), ch) == LastBit(port[ch], s.accepted, ch)
  }

  // No transfer fails and nobody else writes.
  predicate Clean(x: Step) {
    x != Transfer(false) && !x.Other?
  }

  lemma StepWillBe(port: Coils, s: Sys, x: Step)
    requires Counted(s) && WillBeLast(port, s) && Enabled(s, x) && Clean(x)
    ensures WillBeLast(port, Apply(s, x))
  {
    var t := Apply(s, x);
    forall ch | 0 <= ch < NUM_DO ensures Final(t.port[ch], ToDo(t), ch) == LastBit(port[ch], t.accepted, ch) {
      CoilWillBe(port, s, x, ch);
    }
  }

  // What a step leaves to do.
  lemma ToDoAfter(s: Sys, x: Step)
    requires Counted(s) && Enabled(s, x)
    ensures var q, p := ToDo(s), ToDo(Apply(s, x));
            match x
            case Commit => p == q + [RelayCmd(s.writing.value)]
            case WriteHolding => p == q || p == q + [Holding]
            case Transfer(_) => q != [] && q[0] == s.hand.c && p == q[1..]
            case _ => p == q
  {
    match x {
      case Commit => assert ToDo(Apply(s, x)) == ToDo(s) + [RelayCmd(s.writing.value)];
      case WriteHolding => if Room(s) { assert ToDo(Apply(s, x)) == ToDo(s) + [Holding]; }
      case _ =>
    }
  }

  lemma CommitWillBe(port: Coils, s: Sys, q: seq<Cmd>, ch: nat)
    requires s.writing.Some? && ch < NUM_DO && Final(s.port[ch], q, ch) == LastBit(port[ch], s.accepted, ch)
    ensures Final(s.port[ch], q + [RelayCmd(s.writing.value)], ch) ==
              LastBit(port[ch], s.accepted + [s.writing.value], ch)
  {
    FinalBack(s.port[ch], q, RelayCmd(s.writing.value), ch);
    OneMoreWrite(port[ch], s.accepted, s.writing.value, ch);
    RelayCmdHas(s.writing.value, ch);
    hide Final, LastBit, RelayCmd;
  }

  lemma CoilWillBe(port: Coils, s: Sys, x: Step, ch: nat)
    requires Counted(s) && WillBeLast(port, s) && Enabled(s, x) && Clean(x) && ch < NUM_DO
    ensures Final(Apply(s, x).port[ch], ToDo(Apply(s, x)), ch) == LastBit(port[ch], Apply(s, x).accepted, ch)
  {
    var q := ToDo(s);
    ToDoAfter(s, x);
    hide ToDo, Final, LastBit;
    match x {
      case Begin(addr, bits, padsOk) => OneMoreWrite(port[ch], s.accepted, Write(addr, bits), ch);
      case Commit => CommitWillBe(port, s, q, ch);
      case WriteHolding => FinalBack(s.port[ch], q, Holding, ch);
      case Transfer(_) => FinalFront(s.port[ch], q, ch);
      case _ =>
    }
  }

  lemma {:induction false} CleanRunsKeep(port: Coils, s: Sys, steps: seq<Step>)
    requires Counted(s) && WillBeLast(port, s) && Legal(s, steps)
    requires forall k :: 0 <= k < |steps| ==> Clean(steps[k])
    ensures WillBeLast(port, Run(s, steps))
    decreases |steps|
  {
    if steps != [] {
      StepCounted(s, steps[0]);
      StepWillBe(port, s, steps[0]);
      hide Counted, WillBeLast;
      CleanRunsKeep(port, Apply(s, steps[0]), steps[1..]);
    }
  }

  lemma {:induction false} NothingToDo(v: bool, q: seq<Cmd>, ch: nat)
    requires Count(q, ch) == 0
    ensures Final(v, q, ch) == v
  {
    if q != [] { NothingToDo(v, q[..|q| - 1], ch); }
  }

  // Main result: as long as no transfer fails and nobody else writes, every
  // read returns the bit accepted last -- the shadow, the counts, the queue and
  // the relays together are one register per coil.
  lemma ReadsLastAccepted(port: Coils, pads: seq<bool>, steps: seq<Step>, ch: nat)
    requires |pads| == NUM_COILS - NUM_DO && Legal(Start(port, pads), steps) && ch < NUM_DO
    requires forall k :: 0 <= k < |steps| ==> Clean(steps[k])
    ensures var t := Run(Start(port, pads), steps); IsLast(ReadCoil(t, ch), port[ch], t.accepted, ch)
  {
    StartTells(port, pads);
    RunsKeep(port, pads, Start(port, pads), steps);
    CleanRunsKeep(port, Start(port, pads), steps);
    var t := Run(Start(port, pads), steps);
    LastBitIsLast(port[ch], t.accepted, ch);
    hide IsLast, LastBit;
    if t.pending[ch] == 0 {
      if t.hand.Tried? {
        CountFront(Outstanding(t), ch);
        assert Outstanding(t)[1..] == ToDo(t);
      } else {
        assert Outstanding(t) == ToDo(t);
      }
      NothingToDo(t.port[ch], ToDo(t), ch);
    }
  }

  // ------------------------------------------------------ the code itself

  // ((before & ~turnOff) | turnOn) ^ toggle
  function Modified(before: Coils, turnOn: Coils, turnOff: Coils, toggle: Coils): (r: Coils)
    ensures forall i :: 0 <= i < NUM_DO ==> r[i] == (((before[i] && !turnOff[i]) || turnOn[i]) != toggle[i])
  {
    seq(NUM_DO, i requires 0 <= i < NUM_DO => ((before[i] && !turnOff[i]) || turnOn[i]) != toggle[i])
  }

  function Written(s: Sys, addr: nat, bits: seq<bool>, padsOk: bool): Sys
    requires s.writing == None
  {
    var b := Apply(s, Begin(addr, bits, padsOk));
    if b.writing.Some? then Committed(b) else b
  }

  // An accepted write reads as asked for, and leaves all other coils alone.
  lemma AcceptedReads(s: Sys, addr: nat, bits: seq<bool>, padsOk: bool)
    requires s.writing == None && |s.pads| == NUM_COILS - NUM_DO && !Refused(s, addr, bits, padsOk)
    ensures |Written(s, addr, bits, padsOk).pads| == |s.pads|
    ensures forall coil: nat :: coil < NUM_COILS ==>
              ReadAt(Written(s, addr, bits, padsOk), coil) ==
              if addr <= coil < addr + |bits| then bits[coil - addr] else ReadAt(s, coil)
  {
  }

  // The command sets the relay coils among these to these bits, and no others.
  predicate Carries(c: Cmd, addr: nat, bits: seq<bool>) {
    && c.Relays? && c.offset == addr && |c.bits| == (if addr + |bits| <= NUM_DO then |bits| else NUM_DO - addr)
    && forall i :: 0 <= i < |c.bits| && i < |bits| ==> c.bits[i] == bits[i]
  }

  class LocalIo {
    var state: Coils               // s_state[]
    var port: Coils
    var shadow: Coils
    var pending: Counts
    var queue: seq<Cmd>
    var hand: Hand
    var pads: seq<bool>
    ghost var accepted: seq<Write>

    ghost predicate Valid()
      reads this
    {
      state == port && |pads| == NUM_COILS - NUM_DO && |queue| <= QUEUE_DEPTH
      && (hand != Free ==> CmdOk(hand.c)) && forall k :: 0 <= k < |queue| ==> CmdOk(queue[k])
    }

    // Between two calls nobody is in the middle of a write.
    ghost function State(): Sys
      reads this
    {
      Sys(port, shadow, pending, queue, hand, None, pads, accepted)
    }

    constructor (port: Coils, pads: seq<bool>)
      requires |pads| == NUM_COILS - NUM_DO
      ensures Valid() && State() == Start(port, pads)
    {
      state, this.port, shadow := port, port, port;
      pending, queue, hand, this.pads, accepted := seq(NUM_DO, _ => 0), [], Free, pads, [];
    }

    // dout_modify(): a transfer that fails leaves everything as it was.
    method DoutModify(turnOn: Coils, turnOff: Coils, toggle: Coils, ok: bool)
      requires state == port
      modifies this`state, this`port
      ensures state == port == if ok then Modified(old(port), turnOn, turnOff, toggle) else old(port)
      ensures forall i :: 0 <= i < NUM_DO && ok && !toggle[i] ==>
                port[i] == if turnOn[i] then true else if turnOff[i] then false else old(port)[i]
      ensures forall i :: 0 <= i < NUM_DO && ok && toggle[i] && !turnOn[i] && !turnOff[i] ==> port[i] != old(port)[i]
    {
      var before := state;
      var after := before;
      for i := 0 to NUM_DO
        invariant |after| == NUM_DO
        invariant forall k :: 0 <= k < NUM_DO ==>
                    after[k] == if k < i then (((before[k] && !turnOff[k]) || turnOn[k]) != toggle[k]) else before[k]
      {
        after := after[i := ((before[i] && !turnOff[i]) || turnOn[i]) != toggle[i]];
      }
      assert after == Modified(before, turnOn, turnOff, toggle);
      state := after;
      if !ok {
        state := before;
        after := before;
      }
      port := after;
    }

    // local_read_coils()
    method ReadCoils(addr: nat, count: nat) returns (ok: bool, out: seq<bool>)
      requires Valid()
      ensures ok <==> addr + count <= NUM_COILS
      ensures ok ==> |out| == count
      ensures ok ==> forall i :: 0 <= i < count ==>
                out[i] == Now(addr + i)
    {
      if addr + count > NUM_COILS { return false, []; }
      out := [];
      var live := port;
      for i := 0 to count
        invariant |out| == i
        invariant forall k :: 0 <= k < i ==>
                    out[k] == Now(addr + k)
      {
        var ch := addr + i;
        var v;
        if ch >= NUM_DO {
          v := pads[ch - NUM_DO];
        } else {
          v := if pending[ch] > 0 then shadow[ch] else live[ch];
        }
        out := out + [v];
      }
      ok := true;
    }

    // What a read gives for a coil now.
    ghost function Now(coil: nat): bool
      requires coil < NUM_COILS && |pads| == NUM_COILS - NUM_DO
      reads this
    {
      ReadAt(State(), coil)
    }

    // local_write_coils(): refused as a whole, or accepted as a whole, and then
    // its coils read as the bits asked for at once, and all others as before.
    // The exception says why.
    method WriteCoils(addr: nat, bits: seq<bool>, padsOk: bool) returns (exc: nat)
      requires Valid()
      modifies this
      ensures Valid() && exc in {EXC_NONE, EXC_ILLEGAL_ADDR, EXC_ILLEGAL_VALUE, EXC_DEVICE_BUSY}
      ensures exc == EXC_NONE <==> !Refused(old(State()), addr, bits, padsOk)
      ensures exc == EXC_ILLEGAL_ADDR <==> addr + |bits| > NUM_COILS
      ensures exc == EXC_ILLEGAL_VALUE <==> NUM_DO < addr + |bits| <= NUM_COILS && !padsOk
      ensures exc == EXC_DEVICE_BUSY <==>
                && addr + |bits| <= 11 && (addr + |bits| > 8 ==> padsOk)
                && addr < 8 && bits != [] && |old(queue)| == 8
      ensures exc != EXC_NONE ==> State() == old(State())
      ensures State() == Written(old(State()), addr, bits, padsOk)
      ensures exc == EXC_NONE ==> forall i :: 0 <= i < |bits| ==> Now(addr + i) == bits[i]
      ensures forall coil :: 0 <= coil < NUM_COILS && !(addr <= coil < addr + |bits|) ==> Now(coil) == old(Now(coil))
      ensures exc == EXC_NONE && addr < NUM_DO && bits != [] ==>
                |queue| == |old(queue)| + 1 && Carries(queue[|queue| - 1], addr, bits)
    {
      if addr + |bits| > NUM_COILS { return EXC_ILLEGAL_ADDR; }
      if addr + |bits| > NUM_DO && !padsOk { return EXC_ILLEGAL_VALUE; }
      var doN := if addr < NUM_DO then NUM_DO - addr else 0;
      if doN > |bits| { doN := |bits|; }
      if doN > 0 && |queue| >= QUEUE_DEPTH { return EXC_DEVICE_BUSY; }
      AcceptedReads(State(), addr, bits, padsOk);
      hide ReadAt, PadsAfter, Overlay, Bumped;
      SetPads(addr, bits);
      accepted := accepted + [Write(addr, bits)];
      if doN == 0 { return EXC_NONE; }
      var cmd := Relays(addr, bits[..doN]);
      assert bits[..doN] == RelayPart(addr, bits);
      queue := queue + [cmd];
      Remember(cmd);
      exc := EXC_NONE;
    }

    method SetPads(addr: nat, bits: seq<bool>)
      requires |pads| == NUM_COILS - NUM_DO
      modifies this`pads
      ensures pads == PadsAfter(old(pads), addr, bits)
    {
      for i := 0 to |bits|
        invariant |pads| == |old(pads)|
        invariant forall k :: 0 <= k < |pads| ==>
                    pads[k] == if addr <= NUM_DO + k < addr + i then bits[NUM_DO + k - addr] else old(pads)[k]
      {
        var ch := addr + i;
        if NUM_DO <= ch < NUM_COILS { pads := pads[ch - NUM_DO := bits[i]]; }
      }
    }

    // The shadow and the counts take an accepted command.
    method Remember(cmd: Cmd)
      requires cmd.Relays? && CmdOk(cmd)
      modifies this`shadow, this`pending
      ensures shadow == Overlay(old(shadow), cmd) && pending == Bumped(old(pending), cmd)
    {
      for i := 0 to |cmd.bits|
        invariant forall ch :: 0 <= ch < NUM_DO ==>
                    shadow[ch] == if cmd.offset <= ch < cmd.offset + i then cmd.bits[ch - cmd.offset]
                                  else old(shadow)[ch]
        invariant forall ch :: 0 <= ch < NUM_DO ==>
                    pending[ch] == old(pending)[ch] + if cmd.offset <= ch < cmd.offset + i then 1 else 0
      {
        var ch := cmd.offset + i;
        shadow := shadow[ch := cmd.bits[i]];
        pending := pending[ch := pending[ch] + 1];
      }
    }

    // The command task takes the next command.
    method TakeNext()
      requires Valid() && Enabled(State(), Receive)
      modifies this`queue, this`hand
      ensures Valid() && State() == Apply(old(State()), Receive)
    {
      hand := Taken(queue[0]);
      queue := queue[1..];
    }

    // The first half of run_coil_cmd(): all of its coils in one transfer.
    method TransferCmd(ok: bool)
      requires Valid() && hand.Taken?
      modifies this`state, this`port, this`hand
      ensures Valid() && State() == Apply(old(State()), Transfer(ok))
    {
      if hand.c == Holding {
        hand := Free;
        return;
      }
      var c := hand.c;
      var mask: Coils := seq(NUM_DO, ch requires 0 <= ch < NUM_DO => Covers(c, ch));
      var none: Coils := seq(NUM_DO, _ => false);
      var on: Coils := seq(NUM_DO, ch requires 0 <= ch < NUM_DO => Covers(c, ch) && Bit(c, ch));
      var off: Coils := seq(NUM_DO, ch requires 0 <= ch < NUM_DO => Covers(c, ch) && !Bit(c, ch));
      assert Modified(port, on, off, none) == Overlay(port, c);
      DoutModify(on, off, none, ok);
      hand := Tried(c);
    }

    // Its second half, under the lock.
    method FinishCmd()
      requires Valid() && hand.Tried? && hand.c.Relays?
      modifies this`shadow, this`pending, this`hand
      ensures Valid() && State() == Apply(old(State()), Finish)
    {
      var c := hand.c;
      var live := port;
      ghost var low := Lowered(pending, c);
      for i := 0 to |c.bits|
        invariant forall ch :: 0 <= ch < NUM_DO ==>
                    pending[ch] == if c.offset <= ch < c.offset + i then low[ch] else old(pending)[ch]
        invariant forall ch :: 0 <= ch < NUM_DO ==>
                    shadow[ch] == if c.offset <= ch < c.offset + i && low[ch] == 0 then live[ch] else old(shadow)[ch]
      {
        var ch := c.offset + i;
        if pending[ch] > 0 { pending := pending[ch := pending[ch] - 1]; }
        if pending[ch] == 0 { shadow := shadow[ch := live[ch]]; }
      }
      hand := Free;
      assert pending == low && shadow == InStep(old(shadow), live, low, c);
    }

    // A turn of the command task.
    method RunCommand(ok: bool)
      requires Valid() && Enabled(State(), Receive)
      modifies this
      ensures Valid() && hand == Free
      ensures forall addr: nat, bits: seq<bool> :: Carries(old(queue)[0], addr, bits) && addr < NUM_DO && ok ==>
                forall ch :: 0 <= ch < NUM_DO ==>
                  port[ch] == if addr <= ch < addr + |bits| then bits[ch - addr] else old(port)[ch]
      ensures !ok || old(queue)[0] == Holding ==> port == old(port)
      ensures var t := Apply(Apply(old(State()), Receive), Transfer(ok));
              State() == if t.hand.Tried? then Apply(t, Finish) else t
    {
      TakeNext();
      TransferCmd(ok);
      if hand.Tried? { FinishCmd(); }
    }
  }
}
