// NMEA 2000 address claiming (ISO 11783-5): one board's handler, and any
// number of boards exchanging broadcast claims.
module AddressClaim {
  import opened Collections
  import opened Options

  type uint8 = x: int | 0 <= x < 256

  const ADDR_NULL: uint8 := 0xFE
  const ADDR_LAST: uint8 := 251

  datatype AcState = Uninit | Claiming | Active | Failed

  datatype Node = Node(name: nat, addr: uint8, st: AcState)

  // What a handler leaves behind: the node, and the source address of the
  // claim it broadcast, if it did.
  datatype Sent = Quiet | Claim(src: uint8)
  datatype Reply = Reply(node: Node, sent: Sent)

  // can_server_init(): claim the preferred address.
  function OnInit(n: Node): Reply {
    Reply(n.(st := Claiming), Claim(n.addr))
  }

  function NextAddr(a: uint8): uint8 { (a + 1) % 256 }

  // The address-claim branch of n2k_handle_rx().
  function OnClaim(n: Node, src: uint8, their: nat): Reply {
    if src != n.addr || (n.st != Active && n.st != Claiming) then Reply(n, Quiet)
    else if n.name >= their then
      if NextAddr(n.addr) > ADDR_LAST then Reply(n.(addr := ADDR_NULL, st := Failed), Claim(ADDR_NULL))
      else Reply(n.(addr := NextAddr(n.addr), st := Claiming), Claim(NextAddr(n.addr)))
    else Reply(n, Claim(n.addr))
  }

  // An ISO request for the address claim, from another address.
  function OnRequest(n: Node): Reply {
    Reply(n, Claim(n.addr))
  }

  // can_tick(): 250 ms after the last claim without a conflict.
  function OnTick(n: Node): Node {
    if n.st == Claiming then n.(st := Active) else n
  }

  // The board as the firmware keeps it.
  class Board {
    const name: nat
    var addr: uint8
    var st: AcState

    function State(): Node
      reads this
    {
      Node(name, addr, st)
    }

    constructor (name: nat, preferred: uint8)
      ensures State() == Node(name, preferred, Uninit)
    {
      this.name := name;
      addr, st := preferred, Uninit;
    }

    method Start() returns (sent: Sent)
      modifies this
      ensures Reply(State(), sent) == OnInit(old(State()))
    {
      st := Claiming;
      sent := Claim(addr);
    }

    method HandleClaim(src: uint8, their: nat) returns (sent: Sent)
      modifies this
      ensures Reply(State(), sent) == OnClaim(old(State()), src, their)
    {
      if src != addr { return Quiet; }
      if st != Active && st != Claiming { return Quiet; }
      if name >= their {
        addr := (addr + 1) % 256;
        if addr > ADDR_LAST {
          addr := ADDR_NULL;
          st := Failed;
          return Claim(ADDR_NULL);
        }
        st := Claiming;
        sent := Claim(addr);
      } else {
        sent := Claim(addr);
      }
    }

    method HandleRequest() returns (sent: Sent)
      modifies this
      ensures Reply(State(), sent) == OnRequest(old(State()))
    {
      sent := Claim(addr);
    }

    method Tick()
      modifies this
      ensures State() == OnTick(old(State()))
    {
      if st == Claiming { st := Active; }
    }
  }

  // ----------------------------------------------------------------- the bus

  // A claim on its way to one board.
  datatype Frame = Frame(to: nat, src: uint8, name: nat)

  // claims: how many claims were broadcast so far.
  datatype Bus = Bus(nodes: seq<Node>, flight: seq<Frame>, claims: nat)

  datatype Step =
    | Start(i: nat)
    | Deliver(k: nat)       // any claim on its way, not only the oldest
    | Request(i: nat)
    | Tick(i: nat)

  predicate Running(n: Node) { n.st != Uninit }
  predicate Holds(n: Node) { n.st == Active || n.st == Claiming }

  // One copy of a claim for every running board below k but the sender.
  function Copies(nodes: seq<Node>, from: nat, src: uint8, k: nat): seq<Frame>
    requires from < |nodes| && k <= |nodes|
  {
    if k == 0 then []
    else Copies(nodes, from, src, k - 1)
         + (if k - 1 != from && Running(nodes[k - 1]) then [Frame(k - 1, src, nodes[from].name)] else [])
  }

  // Board i has become what its handler made of it, and its claim goes out.
  function After(b: Bus, i: nat, flight: seq<Frame>, r: Reply): Bus
    requires i < |b.nodes|
  {
    var nodes := b.nodes[i := r.node];
    match r.sent
    case Quiet => Bus(nodes, flight, b.claims)
    case Claim(src) => Bus(nodes, flight + Copies(nodes, i, src, |nodes|), b.claims + 1)
  }

  function Without(flight: seq<Frame>, k: nat): seq<Frame>
    requires k < |flight|
  {
    flight[..k] + flight[k + 1..]
  }

  predicate Enabled(b: Bus, s: Step) {
    match s
    case Start(i) => i < |b.nodes| && b.nodes[i].st == Uninit
    case Deliver(k) => k < |b.flight| && b.flight[k].to < |b.nodes|
    case Request(i) => i < |b.nodes| && Running(b.nodes[i])
    case Tick(i) => i < |b.nodes|
  }

  function Apply(b: Bus, s: Step): Bus
    requires Enabled(b, s)
  {
    match s
    case Start(i) => After(b, i, b.flight, OnInit(b.nodes[i]))
    case Deliver(k) => var f := b.flight[k]; After(b, f.to, Without(b.flight, k), OnClaim(b.nodes[f.to], f.src, f.name))
    case Request(i) => After(b, i, b.flight, OnRequest(b.nodes[i]))
    case Tick(i) => b.(nodes := b.nodes[i := OnTick(b.nodes[i])])
  }

  predicate Initial(b: Bus) {
    && b.flight == [] && b.claims == 0
    && forall i :: 0 <= i < |b.nodes| ==> b.nodes[i].st == Uninit
  }

  predicate Legal(b: Bus, steps: seq<Step>)
    decreases |steps|
  {
    steps == [] || (Enabled(b, steps[0]) && Legal(Apply(b, steps[0]), steps[1..]))
  }

  function Run(b: Bus, steps: seq<Step>): (c: Bus)
    requires Legal(b, steps)
    ensures |c.nodes| == |b.nodes|
    decreases |steps|
  {
    if steps == [] then b else Run(Apply(b, steps[0]), steps[1..])
  }

  // ------------------------------------------------------------------ safety

  // A claim for address a by board i is on its way to board j.
  predicate Told(b: Bus, i: nat, j: nat, a: uint8)
    requires i < |b.nodes|
  {
    Frame(j, a, b.nodes[i].name) in b.flight
  }

  // Of two boards that hold the same address, one is about to hear of it.
  predicate Settling(b: Bus) {
    forall i, j :: 0 <= i < |b.nodes| && 0 <= j < |b.nodes| && Conflict(b, i, j) ==> EitherTold(b, i, j)
  }

  lemma {:induction false} CopiesReach(nodes: seq<Node>, from: nat, src: uint8, k: nat)
    requires from < |nodes| && k <= |nodes|
    ensures forall f :: f in Copies(nodes, from, src, k) <==>
              f.to < k && f.to != from && Running(nodes[f.to]) && f.src == src && f.name == nodes[from].name
  {
    if k > 0 { CopiesReach(nodes, from, src, k - 1); }
  }

  predicate Conflict(b: Bus, i: nat, j: nat) {
    && i < |b.nodes| && j < |b.nodes| && i != j
    && Holds(b.nodes[i]) && Holds(b.nodes[j]) && b.nodes[i].addr == b.nodes[j].addr
  }

  predicate EitherTold(b: Bus, i: nat, j: nat)
    requires i < |b.nodes| && j < |b.nodes|
  {
    Told(b, i, j, b.nodes[i].addr) || Told(b, j, i, b.nodes[i].addr)
  }

  // A board that has just broadcast from its address has told every other.
  lemma BroadcastTells(b: Bus, i: nat, flight: seq<Frame>, r: Reply, j: nat)
    requires i < |b.nodes| && j < |b.nodes| && i != j
    requires r.sent == Claim(r.node.addr) && r.node.name == b.nodes[i].name && Running(b.nodes[j])
    ensures Told(After(b, i, flight, r), i, j, r.node.addr)
  {
    var c := After(b, i, flight, r);
    CopiesReach(c.nodes, i, r.node.addr, |c.nodes|);
    assert Frame(j, r.node.addr, r.node.name) in Copies(c.nodes, i, r.node.addr, |c.nodes|);
  }

  lemma DeliverSettles(b: Bus, k: nat, i: nat, j: nat)
    requires Settling(b) && Enabled(b, Deliver(k)) && Conflict(Apply(b, Deliver(k)), i, j)
    ensures EitherTold(Apply(b, Deliver(k)), i, j)
  {
    var f := b.flight[k];
    var r := OnClaim(b.nodes[f.to], f.src, f.name);
    if f.to == i && r.sent.Claim? {
      BroadcastTells(b, i, Without(b.flight, k), r, j);
    } else if f.to == j && r.sent.Claim? {
      BroadcastTells(b, j, Without(b.flight, k), r, i);
    } else {
      UnansweredKeeps(b, k, i, j);
    }
  }

  lemma StillThere(flight: seq<Frame>, k: nat, g: Frame)
    requires k < |flight| && g in flight && g != flight[k]
    ensures g in Without(flight, k)
  {
    var m :| 0 <= m < |flight| && flight[m] == g;
    assert Without(flight, k)[if m < k then m else m - 1] == g;
  }

  // A claim that i and j do not answer is not the one either waits for.
  lemma UnansweredKeeps(b: Bus, k: nat, i: nat, j: nat)
    requires Settling(b) && Enabled(b, Deliver(k)) && Conflict(Apply(b, Deliver(k)), i, j)
    requires var f := b.flight[k]; f.to == i || f.to == j ==> OnClaim(b.nodes[f.to], f.src, f.name).sent.Quiet?
    ensures EitherTold(Apply(b, Deliver(k)), i, j)
  {
    var c := Apply(b, Deliver(k));
    var a := b.nodes[i].addr;
    assert c.nodes[i] == b.nodes[i] && c.nodes[j] == b.nodes[j];
    assert Conflict(b, i, j) && EitherTold(b, i, j);
    var g := if Told(b, i, j, a) then Frame(j, a, b.nodes[i].name) else Frame(i, a, b.nodes[j].name);
    StillThere(b.flight, k, g);
    assert g in c.flight;
  }

  lemma StepSettles(b: Bus, s: Step)
    requires Settling(b) && Enabled(b, s)
    ensures Settling(Apply(b, s))
  {
    var c := Apply(b, s);
    forall i, j | 0 <= i < |c.nodes| && 0 <= j < |c.nodes| && Conflict(c, i, j)
      ensures EitherTold(c, i, j)
    {
      match s {
        case Deliver(k) => DeliverSettles(b, k, i, j);
        case Tick(k) => assert Conflict(b, i, j);
        case Start(k) => BroadcastSettles(b, k, OnInit(b.nodes[k]), i, j);
        case Request(k) => BroadcastSettles(b, k, OnRequest(b.nodes[k]), i, j);
      }
    }
  }

  lemma BroadcastSettles(b: Bus, k: nat, r: Reply, i: nat, j: nat)
    requires Settling(b) && k < |b.nodes|
    requires r.sent == Claim(r.node.addr) && r.node.name == b.nodes[k].name
    requires Conflict(After(b, k, b.flight, r), i, j)
    ensures EitherTold(After(b, k, b.flight, r), i, j)
  {
    if k == i {
      BroadcastTells(b, k, b.flight, r, j);
    } else if k == j {
      BroadcastTells(b, k, b.flight, r, i);
    } else {
      assert Conflict(b, i, j) && EitherTold(b, i, j);
    }
  }

  lemma {:induction false} RunsSettle(b: Bus, steps: seq<Step>)
    requires Settling(b) && Legal(b, steps)
    ensures Settling(Run(b, steps))
    decreases |steps|
  {
    if steps != [] {
      StepSettles(b, steps[0]);
      RunsSettle(Apply(b, steps[0]), steps[1..]);
    }
  }

  // Main result: whatever the boards, their names and preferred addresses, and
  // in whatever order claims and requests arrive -- once no claim is on its
  // way, no two boards that have not failed share an address.
  lemma QuietMeansDistinct(b: Bus, steps: seq<Step>)
    requires Initial(b) && Legal(b, steps) && Run(b, steps).flight == []
    ensures var c := Run(b, steps);
            forall i, j :: 0 <= i < j < |c.nodes| && Holds(c.nodes[i]) && Holds(c.nodes[j])
                           ==> c.nodes[i].addr != c.nodes[j].addr
  {
    RunsSettle(b, steps);
    var c := Run(b, steps);
    forall i, j | 0 <= i < j < |c.nodes| && Holds(c.nodes[i]) && Holds(c.nodes[j])
      ensures c.nodes[i].addr != c.nodes[j].addr
    {
      assert Conflict(c, i, j) ==> EitherTold(c, i, j);
    }
  }

  // ---------------------------------------------------------------- priority

  predicate Named(b: Bus, names: seq<nat>) {
    && |b.nodes| == |names|
    && (forall i :: 0 <= i < |names| ==> b.nodes[i].name == names[i])
    && (forall k :: 0 <= k < |b.flight| ==> FromOther(b.flight[k], names))
  }

  // A claim carries the name of a board other than the one it goes to.
  predicate FromOther(f: Frame, names: seq<nat>) {
    f.to < |names| && exists j :: 0 <= j < |names| && j != f.to && names[j] == f.name
  }

  function NamesOf(b: Bus): (names: seq<nat>)
    ensures |names| == |b.nodes|
  {
    seq(|b.nodes|, i requires 0 <= i < |b.nodes| => b.nodes[i].name)
  }

  lemma {:induction false} CopiesFromOther(nodes: seq<Node>, from: nat, src: uint8, k: nat, names: seq<nat>)
    requires from < |nodes| == |names| && k <= |nodes| && nodes[from].name == names[from]
    ensures forall f :: f in Copies(nodes, from, src, k) ==> FromOther(f, names)
  {
    if k > 0 { CopiesFromOther(nodes, from, src, k - 1, names); }
  }

  lemma AfterNamed(b: Bus, i: nat, flight: seq<Frame>, r: Reply, names: seq<nat>)
    requires Named(b.(flight := flight), names) && i < |names| && r.node.name == names[i]
    ensures Named(After(b, i, flight, r), names)
  {
    if r.sent.Claim? {
      CopiesFromOther(b.nodes[i := r.node], i, r.sent.src, |names|, names);
    }
  }

  lemma StepNamed(b: Bus, s: Step, names: seq<nat>)
    requires Named(b, names) && Enabled(b, s)
    ensures Named(Apply(b, s), names)
  {
    match s {
      case Start(i) => AfterNamed(b, i, b.flight, OnInit(b.nodes[i]), names);
      case Request(i) => AfterNamed(b, i, b.flight, OnRequest(b.nodes[i]), names);
      case Tick(i) =>
      case Deliver(k) =>
        var f := b.flight[k];
        AfterNamed(b, f.to, Without(b.flight, k), OnClaim(b.nodes[f.to], f.src, f.name), names);
    }
  }

  // Main result: a board gives up an address, or fails, only on a claim for
  // that very address whose NAME is not higher than its own, sent by another
  // board.
  lemma YieldsOnlyToLower(b: Bus, s: Step, names: seq<nat>, i: nat)
    requires Named(b, names) && Enabled(b, s) && i < |names|
    requires Apply(b, s).nodes[i].addr != b.nodes[i].addr ||
                 (Apply(b, s).nodes[i].st == Failed && b.nodes[i].st != Failed)
    ensures s.Deliver? && b.flight[s.k].to == i && b.flight[s.k].src == b.nodes[i].addr
    ensures exists j :: 0 <= j < |names| && j != i && names[j] == b.flight[s.k].name && names[j] <= names[i]
  {
    assert s.Deliver?;
    assert FromOther(b.flight[s.k], names);
  }

  // So the board with the lowest NAME keeps its preferred address in every run.
  lemma {:induction false} LowestKeepsAddress(b: Bus, steps: seq<Step>, names: seq<nat>, i: nat)
    requires Named(b, names) && Legal(b, steps) && i < |names| && b.nodes[i].st != Failed
    requires forall j :: 0 <= j < |names| && j != i ==> names[i] < names[j]
    ensures Run(b, steps).nodes[i].addr == b.nodes[i].addr && Run(b, steps).nodes[i].st != Failed
    decreases |steps|
  {
    if steps != [] {
      var c := Apply(b, steps[0]);
      StepNamed(b, steps[0], names);
      if c.nodes[i].addr != b.nodes[i].addr || c.nodes[i].st == Failed {
        YieldsOnlyToLower(b, steps[0], names, i);
        assert false;
      }
      LowestKeepsAddress(c, steps[1..], names, i);
    }
  }

  // ------------------------------------------------------------- termination

  // How often a board can still move on from its address.
  function Moves(a: uint8): nat {
    if a == 255 then 253 else if a <= ADDR_LAST then 252 - a else 1
  }

  function Budget(n: Node): nat {
    match n.st
    case Uninit => Moves(n.addr) + 1
    case Failed => 0
    case _ => Moves(n.addr)
  }

  function Budgets(nodes: seq<Node>): nat {
    if nodes == [] then 0 else Budget(nodes[0]) + Budgets(nodes[1..])
  }

  function Pow(base: nat, e: nat): nat {
    if e == 0 then 1 else base * Pow(base, e - 1)
  }

  // How many boards have a lower NAME.
  function Rank(names: seq<nat>, name: nat): (r: nat)
    ensures r <= |names|
  {
    if names == [] then 0 else (if names[0] < name then 1 else 0) + Rank(names[1..], name)
  }

  // Answering a claim takes a lower NAME: a claim weighs more than all the
  // copies of any claim that can answer it.
  function Weight(names: seq<nat>, f: Frame): nat {
    Pow(|names| + 1, Rank(names, f.name))
  }

  function Weights(names: seq<nat>, flight: seq<Frame>): nat {
    if flight == [] then 0 else Weight(names, flight[0]) + Weights(names, flight[1..])
  }

  function Potential(b: Bus, names: seq<nat>): nat {
    Budgets(b.nodes) * Pow(|names| + 1, |names|) + Weights(names, b.flight)
  }

  lemma {:induction false} BudgetsUpdate(nodes: seq<Node>, i: nat, n: Node)
    requires i < |nodes|
    ensures Budgets(nodes[i := n]) + Budget(nodes[i]) == Budgets(nodes) + Budget(n)
  {
    if i == 0 {
      assert nodes[i := n][1..] == nodes[1..];
    } else {
      assert nodes[i := n][1..] == nodes[1..][i - 1 := n];
      BudgetsUpdate(nodes[1..], i - 1, n);
    }
  }

  lemma {:induction false} WeightsJoin(names: seq<nat>, a: seq<Frame>, b: seq<Frame>)
    ensures Weights(names, a + b) == Weights(names, a) + Weights(names, b)
  {
    if a == [] {
      assert a + b == b;
    } else {
      assert (a + b)[1..] == a[1..] + b;
      WeightsJoin(names, a[1..], b);
    }
  }

  lemma WeightsWithout(names: seq<nat>, flight: seq<Frame>, k: nat)
    requires k < |flight|
    ensures Weights(names, flight) == Weights(names, Without(flight, k)) + Weight(names, flight[k])
  {
    assert flight == flight[..k] + flight[k..];
    WeightsJoin(names, flight[..k], flight[k..]);
    WeightsJoin(names, flight[..k], flight[k + 1..]);
  }

  lemma OneMoreCopy(names: seq<nat>, flight: seq<Frame>, f: Frame)
    ensures Weights(names, flight + [f]) == Weights(names, flight) + Weight(names, f)
  {
    WeightsJoin(names, flight, [f]);
  }

  lemma NoCopies(names: seq<nat>)
    ensures Weights(names, []) == 0
  {
  }

  lemma SameWeight(names: seq<nat>, f: Frame, g: Frame)
    requires f.name == g.name
    ensures Weight(names, f) == Weight(names, g)
  {
  }

  lemma OneMoreTime(k: nat, w: nat)
    requires k > 0
    ensures k * w == (k - 1) * w + w
  {
  }

  lemma {:induction false} CopiesWeigh(names: seq<nat>, nodes: seq<Node>, from: nat, src: uint8, k: nat)
    requires from < |nodes| && k <= |nodes|
    ensures Weights(names, Copies(nodes, from, src, k)) <= k * Weight(names, Frame(from, src, nodes[from].name))
  {
    hide Weight, Weights;
    var w := Weight(names, Frame(from, src, nodes[from].name));
    if k == 0 {
      NoCopies(names);
    } else {
      CopiesWeigh(names, nodes, from, src, k - 1);
      var one := Frame(k - 1, src, nodes[from].name);
      SameWeight(names, one, Frame(from, src, nodes[from].name));
      var before := Copies(nodes, from, src, k - 1);
      OneMoreCopy(names, before, one);
      assert before + [] == before;
      OneMoreTime(k, w);
    }
  }

  lemma {:induction false} PowGrows(base: nat, a: nat, b: nat)
    requires base >= 1 && a <= b
    ensures 1 <= Pow(base, a) <= Pow(base, b)
    decreases b
  {
    if a < b {
      PowGrows(base, a, b - 1);
      var p := Pow(base, b - 1);
      assert base * p == p + (base - 1) * p;
    } else if b > 0 {
      PowGrows(base, a - 1, b - 1);
      var p := Pow(base, b - 1);
      assert base * p == p + (base - 1) * p;
    }
  }

  lemma {:induction false} RankGrows(names: seq<nat>, x: nat, y: nat)
    requires x <= y
    ensures Rank(names, x) <= Rank(names, y)
    ensures x < y && x in names ==> Rank(names, x) < Rank(names, y)
  {
    if names != [] {
      RankGrows(names[1..], x, y);
      assert x in names ==> x == names[0] || x in names[1..];
    }
  }

  lemma {:induction false} RankBelow(names: seq<nat>, x: nat)
    requires x in names
    ensures Rank(names, x) < |names|
  {
    if names[0] != x { RankBelow(names[1..], x); }
  }

  // n copies of a claim of rank r weigh less than one of any higher rank.
  lemma CopiesOutweighed(n: nat, r: nat, q: nat)
    requires r < q
    ensures n * Pow(n + 1, r) < Pow(n + 1, q)
  {
    var p := Pow(n + 1, r);
    PowGrows(n + 1, r, r);
    assert Pow(n + 1, r + 1) == (n + 1) * p == n * p + p;
    PowGrows(n + 1, r + 1, q);
  }

  lemma AfterPotential(b: Bus, i: nat, flight: seq<Frame>, r: Reply, names: seq<nat>)
    requires Named(b, names) && i < |names| && r.node.name == names[i]
    ensures var n := |names|; var w := Pow(n + 1, Rank(names, names[i]));
            Potential(After(b, i, flight, r), names)
            <= (Budgets(b.nodes) - (Budget(b.nodes[i]) - Budget(r.node))) * Pow(n + 1, n)
               + Weights(names, flight) + (if r.sent.Claim? then n * w else 0)
  {
    BudgetsUpdate(b.nodes, i, r.node);
    if r.sent.Claim? {
      var nodes := b.nodes[i := r.node];
      CopiesWeigh(names, nodes, i, r.sent.src, |nodes|);
      WeightsJoin(names, flight, Copies(nodes, i, r.sent.src, |nodes|));
    }
  }

  // A board that moves on (or starts) pays for its claim with its budget.
  lemma MovingShrinks(b: Bus, i: nat, flight: seq<Frame>, r: Reply, names: seq<nat>)
    requires Named(b, names) && i < |names| && r.node.name == names[i]
    requires Budget(r.node) < Budget(b.nodes[i]) && Weights(names, flight) <= Weights(names, b.flight)
    ensures Potential(After(b, i, flight, r), names) < Potential(b, names)
  {
    var n := |names|;
    var big := Pow(n + 1, n);
    AfterPotential(b, i, flight, r, names);
    RankBelow(names, names[i]);
    CopiesOutweighed(n, Rank(names, names[i]), n);
    PowGrows(n + 1, n, n);
    Pays(Potential(After(b, i, flight, r), names), Budgets(b.nodes), Budget(b.nodes[i]) - Budget(r.node), big,
         if r.sent.Claim? then n * Pow(n + 1, Rank(names, names[i])) else 0,
         Weights(names, flight), Weights(names, b.flight));
  }

  lemma Pays(p: int, x: int, d: int, big: int, copies: int, w: int, w': int)
    requires d >= 1 && copies < big && 0 <= big && w <= w'
    requires p <= (x - d) * big + w + copies
    ensures p < x * big + w'
  {
    assert x * big == (x - d) * big + d * big;
    assert d * big == big + (d - 1) * big;
    assert (d - 1) * big >= 0;
  }

  // A board that stands by its address answers a heavier claim.
  lemma StandingShrinks(b: Bus, k: nat, names: seq<nat>)
    requires Named(b, names) && Enabled(b, Deliver(k))
    requires var f := b.flight[k]; OnClaim(b.nodes[f.to], f.src, f.name).node == b.nodes[f.to]
    ensures Potential(Apply(b, Deliver(k)), names) < Potential(b, names)
  {
    var f := b.flight[k];
    var n := |names|;
    var r := OnClaim(b.nodes[f.to], f.src, f.name);
    AfterPotential(b, f.to, Without(b.flight, k), r, names);
    WeightsWithout(names, b.flight, k);
    PowGrows(n + 1, Rank(names, f.name), Rank(names, f.name));
    if r.sent.Claim? {
      RankGrows(names, names[f.to], f.name);
      CopiesOutweighed(n, Rank(names, names[f.to]), Rank(names, f.name));
    }
  }

  // Every start and every delivery uses the potential up.
  lemma WorkShrinks(b: Bus, s: Step, names: seq<nat>)
    requires Named(b, names) && Enabled(b, s) && (s.Start? || s.Deliver?)
    ensures Potential(Apply(b, s), names) < Potential(b, names)
  {
    match s {
      case Start(i) => MovingShrinks(b, i, b.flight, OnInit(b.nodes[i]), names);
      case Deliver(k) =>
        var f := b.flight[k];
        var r := OnClaim(b.nodes[f.to], f.src, f.name);
        if r.node == b.nodes[f.to] {
          StandingShrinks(b, k, names);
        } else {
          WeightsWithout(names, b.flight, k);
          MovingShrinks(b, f.to, Without(b.flight, k), r, names);
        }
    }
  }

  function Work(steps: seq<Step>): nat {
    if steps == [] then 0 else (if steps[0].Start? || steps[0].Deliver? then 1 else 0) + Work(steps[1..])
  }

  // Main result: without address requests every run makes only so many starts
  // and deliveries, and sends only so many claims.
  lemma {:induction false} ClaimsAreFinite(b: Bus, steps: seq<Step>, names: seq<nat>)
    requires Named(b, names) && Legal(b, steps)
    requires forall k :: 0 <= k < |steps| ==> !steps[k].Request?
    ensures Work(steps) + Potential(Run(b, steps), names) <= Potential(b, names)
    ensures Run(b, steps).claims <= b.claims + Work(steps)
    decreases |steps|
  {
    if steps != [] {
      var s, c := steps[0], Apply(b, steps[0]);
      StepNamed(b, s, names);
      if s.Tick? { BudgetsUpdate(b.nodes, s.i, OnTick(b.nodes[s.i])); } else { WorkShrinks(b, s, names); }
      ClaimsAreFinite(c, steps[1..], names);
    }
  }

  // From power-up: the number of claims has a bound that only depends on the
  // boards' names and preferred addresses.
  lemma ClaimsFromPowerUp(b: Bus, steps: seq<Step>)
    requires Initial(b) && Legal(b, steps)
    requires forall k :: 0 <= k < |steps| ==> !steps[k].Request?
    ensures Run(b, steps).claims <= Budgets(b.nodes) * Pow(|b.nodes| + 1, |b.nodes|)
  {
    ClaimsAreFinite(b, steps, NamesOf(b));
  }

  // ------------------------------------------------- where a board moves to

  // A claim for the board's own address, by a NAME that is not higher.
  predicate Challenged(b: Bus, s: Step, i: nat) {
    && s.Deliver? && s.k < |b.flight| && b.flight[s.k].to == i < |b.nodes|
    && Holds(b.nodes[i]) && b.flight[s.k].src == b.nodes[i].addr && b.flight[s.k].name <= b.nodes[i].name
  }

  // Board i's claim for address a goes out to every other running board.
  ghost predicate Announces(b: Bus, c: Bus, i: nat, a: uint8)
    requires i < |b.nodes|
  {
    && c.claims == b.claims + 1
    && forall j: nat :: j < |b.nodes| && j != i && Running(b.nodes[j]) ==>
         Frame(j, a, b.nodes[i].name) in c.flight
  }

  // Challenged, a board claims the next address, or, from the last one on,
  // says from the null address that it cannot claim.
  lemma ChallengedMovesOn(b: Bus, s: Step, i: nat)
    requires Challenged(b, s, i) && Enabled(b, s)
    ensures var n, c := b.nodes[i], Apply(b, s);
            if n.addr < 251 || n.addr == 255
            then c.nodes[i] == Node(n.name, (n.addr + 1) % 256, Claiming) && Announces(b, c, i, (n.addr + 1) % 256)
            else c.nodes[i] == Node(n.name, 0xFE, Failed) && Announces(b, c, i, 0xFE)
  {
    var c := Apply(b, s);
    CopiesReach(c.nodes, i, c.nodes[i].addr, |c.nodes|);
  }

  // A claim for its address by a higher NAME is answered from where it is.
  lemma StandsItsGround(b: Bus, k: nat, i: nat)
    requires Enabled(b, Deliver(k)) && b.flight[k].to == i && Holds(b.nodes[i])
    requires b.flight[k].src == b.nodes[i].addr && b.flight[k].name > b.nodes[i].name
    ensures var c := Apply(b, Deliver(k)); c.nodes == b.nodes && Announces(b, c, i, b.nodes[i].addr)
  {
    var c := Apply(b, Deliver(k));
    assert c.nodes == b.nodes;
    CopiesReach(c.nodes, i, c.nodes[i].addr, |c.nodes|);
  }

  // A start and a request tell every running board the address as well; a
  // claim that stood becomes active.
  lemma TellsItsAddress(b: Bus, s: Step, i: nat)
    requires Enabled(b, s) && (s == Start(i) || s == Request(i))
    ensures var c := Apply(b, s);
            && Announces(b, c, i, b.nodes[i].addr)
            && c.nodes[i] == if s.Start? then b.nodes[i].(st := Claiming) else b.nodes[i]
  {
    var c := Apply(b, s);
    CopiesReach(c.nodes, i, b.nodes[i].addr, |c.nodes|);
  }

  lemma UnchallengedIsActive(b: Bus, i: nat)
    requires i < |b.nodes| && Holds(b.nodes[i])
    ensures Apply(b, Tick(i)).nodes[i] == Node(b.nodes[i].name, b.nodes[i].addr, Active)
  {
  }

  // The addresses at which board i was challenged.
  function Challenges(b: Bus, steps: seq<Step>, i: nat): seq<uint8>
    requires Legal(b, steps) && i < |b.nodes|
    decreases |steps|
  {
    if steps == [] then []
    else (if Challenged(b, steps[0], i) then [b.nodes[i].addr] else []) + Challenges(Apply(b, steps[0]), steps[1..], i)
  }

  // The board was challenged at every address from first on, once at each, and
  // has moved on from all of them.
  ghost predicate MovedAlong(first: uint8, at: seq<uint8>, n: Node) {
    && |at| <= ADDR_LAST + 1 - first && (forall m :: 0 <= m < |at| ==> at[m] as int == first + m)
    && if first + |at| <= ADDR_LAST then n.st != Failed && n.addr as int == first + |at|
          else n.st == Failed && n.addr == ADDR_NULL
  }

  lemma Unchallenged(b: Bus, s: Step, i: nat)
    requires Enabled(b, s) && i < |b.nodes| && !Challenged(b, s, i)
    ensures var n, m := b.nodes[i], Apply(b, s).nodes[i]; m.addr == n.addr && (m.st == Failed <==> n.st == Failed)
  {
  }

  lemma {:induction false} FailedStays(b: Bus, steps: seq<Step>, i: nat)
    requires Legal(b, steps) && i < |b.nodes| && b.nodes[i].st == Failed
    ensures Challenges(b, steps, i) == [] && Run(b, steps).nodes[i].st == Failed
    ensures Run(b, steps).nodes[i].addr == b.nodes[i].addr
    decreases |steps|
  {
    if steps != [] {
      Unchallenged(b, steps[0], i);
      FailedStays(Apply(b, steps[0]), steps[1..], i);
    }
  }

  // A step moves a board that has not failed on if it challenges it, and not
  // otherwise.
  predicate MovesOnIf(challenged: bool, m: Node, n: Node) {
    if !challenged then n.addr == m.addr && n.st != Failed
    else if m.addr < ADDR_LAST then n.addr == m.addr + 1 && n.st != Failed
    else n.addr == ADDR_NULL && n.st == Failed
  }

  lemma StepMoves(b: Bus, s: Step, i: nat)
    requires Enabled(b, s) && i < |b.nodes| && b.nodes[i].st != Failed && b.nodes[i].addr <= ADDR_LAST
    ensures MovesOnIf(Challenged(b, s, i), b.nodes[i], Apply(b, s).nodes[i])
  {
    if Challenged(b, s, i) { ChallengedMovesOn(b, s, i); } else { Unchallenged(b, s, i); }
  }

  // A step, and what came after it.
  lemma AlongFrom(challenged: bool, m: Node, n: Node, at: seq<uint8>, end: Node)
    requires m.st != Failed && m.addr <= ADDR_LAST && MovesOnIf(challenged, m, n)
    requires if n.st == Failed then at == [] && end.st == Failed && end.addr == n.addr
             else MovedAlong(n.addr, at, end)
    ensures MovedAlong(m.addr, (if challenged then [m.addr] else []) + at, end)
  {
  }

  // Main result: a board is where its challenges have moved it, and fails
  // exactly when it was challenged at every address from its own on.
  lemma {:induction false} ChallengesMove(b: Bus, steps: seq<Step>, i: nat)
    requires Legal(b, steps) && i < |b.nodes| && b.nodes[i].st != Failed && b.nodes[i].addr <= ADDR_LAST
    ensures MovedAlong(b.nodes[i].addr, Challenges(b, steps, i), Run(b, steps).nodes[i])
    decreases |steps|
  {
    if steps == [] {
      assert MovedAlong(b.nodes[i].addr, [], b.nodes[i]);
    } else {
      var c, rest := Apply(b, steps[0]), steps[1..];
      hide MovedAlong, Apply, Challenged, Enabled;
      StepMoves(b, steps[0], i);
      if c.nodes[i].st == Failed { FailedStays(c, rest, i); } else { ChallengesMove(c, rest, i); }
      AlongFrom(Challenged(b, steps[0], i), b.nodes[i], c.nodes[i], Challenges(c, rest, i), Run(c, rest).nodes[i]);
    }
  }

  // -------------------------------------------------- where boards end up

  predicate AllDiffer(names: seq<nat>) {
    forall i, j :: 0 <= i < j < |names| ==> names[i] != names[j]
  }

  // Where the boards start: at their preferred addresses.
  function HomesOf(b: Bus): (homes: seq<uint8>)
    ensures |homes| == |b.nodes|
  {
    seq(|b.nodes|, i requires 0 <= i < |b.nodes| => b.nodes[i].addr)
  }

  // A board with that home has claimed address a so far, and has left it.
  predicate Been(n: Node, home: uint8, a: uint8) {
    Running(n) && home <= a <= ADDR_LAST && (n.st == Failed || a <= n.addr)
  }

  predicate Left(n: Node, home: uint8, a: uint8) {
    Been(n, home, a) && (n.st == Failed || a < n.addr)
  }

  predicate Placed(n: Node, home: uint8) {
    match n.st
    case Uninit => n.addr == home
    case Failed => n.addr == ADDR_NULL
    case _ => home <= n.addr <= ADDR_LAST
  }

  // A board with a lower NAME than i's has been at address a.
  ghost predicate LowerBeen(b: Bus, names: seq<nat>, homes: seq<uint8>, i: nat, a: uint8)
    requires |b.nodes| == |names| == |homes| && i < |names|
  {
    exists j: nat :: j < |names| && names[j] < names[i] && Been(b.nodes[j], homes[j], a)
  }

  // A claim comes from a board that has been at its address.
  ghost predicate SentFrom(b: Bus, names: seq<nat>, homes: seq<uint8>, f: Frame)
    requires |b.nodes| == |names| == |homes|
  {
    f.src == ADDR_NULL ||
    exists j: nat :: j < |names| && j != f.to && names[j] == f.name && Been(b.nodes[j], homes[j], f.src)
  }

  ghost predicate Beaten(b: Bus, names: seq<nat>, homes: seq<uint8>) {
    && |b.nodes| == |names| == |homes|
    && (forall i :: 0 <= i < |names| ==> homes[i] <= ADDR_LAST && b.nodes[i].name == names[i])
    && (forall i :: 0 <= i < |names| ==> Placed(b.nodes[i], homes[i]))
    && (forall i: nat, a: uint8 :: i < |names| && Left(b.nodes[i], homes[i], a) ==> LowerBeen(b, names, homes, i, a))
    && (forall f :: f in b.flight ==> SentFrom(b, names, homes, f))
  }

  // Where boards have been they have been for good.
  ghost predicate BeenStays(b: Bus, c: Bus, homes: seq<uint8>) {
    && |b.nodes| == |c.nodes| == |homes|
    && forall j: nat, a: uint8 :: j < |homes| && Been(b.nodes[j], homes[j], a) ==> Been(c.nodes[j], homes[j], a)
  }

  lemma StepNodes(b: Bus, s: Step, homes: seq<uint8>)
    requires Enabled(b, s) && |homes| == |b.nodes|
    requires forall i :: 0 <= i < |homes| ==> homes[i] <= ADDR_LAST && Placed(b.nodes[i], homes[i])
    ensures var c := Apply(b, s);
            && (forall i :: 0 <= i < |homes| ==> Placed(c.nodes[i], homes[i]) && c.nodes[i].name == b.nodes[i].name)
            && BeenStays(b, c, homes)
            && forall i: nat, a: uint8 :: i < |homes| && Left(c.nodes[i], homes[i], a) ==>
                 Left(b.nodes[i], homes[i], a) || (Challenged(b, s, i) && a == b.nodes[i].addr)
  {
    hide Copies;
  }

  // What is on its way after a step was before, or is the sender's claim for
  // the address it now has.
  lemma NewFrames(b: Bus, s: Step, f: Frame)
    requires Enabled(b, s) && f in Apply(b, s).flight && f !in b.flight
    ensures var c := Apply(b, s);
            exists i: nat :: i < |c.nodes| && i != f.to && f.src == c.nodes[i].addr && f.name == b.nodes[i].name &&
                             Running(c.nodes[i])
  {
    match s {
      case Start(i) => CopiesReach(Apply(b, s).nodes, i, b.nodes[i].addr, |b.nodes|);
      case Request(i) => CopiesReach(Apply(b, s).nodes, i, b.nodes[i].addr, |b.nodes|);
      case Deliver(k) =>
        var g := b.flight[k];
        var r := OnClaim(b.nodes[g.to], g.src, g.name);
        if r.sent.Claim? { CopiesReach(Apply(b, s).nodes, g.to, r.sent.src, |b.nodes|); }
      case Tick(i) =>
    }
  }

  lemma StepBeaten(b: Bus, s: Step, names: seq<nat>, homes: seq<uint8>)
    requires Beaten(b, names, homes) && AllDiffer(names) && Enabled(b, s)
    ensures Beaten(Apply(b, s), names, homes)
  {
    var c := Apply(b, s);
    StepNodes(b, s, homes);
    hide Apply;
    forall i: nat, a: uint8 | i < |names| && Left(c.nodes[i], homes[i], a)
      ensures LowerBeen(c, names, homes, i, a)
    {
      if !Left(b.nodes[i], homes[i], a) { assert SentFrom(b, names, homes, b.flight[s.k]); }
    }
    forall f | f in c.flight ensures SentFrom(c, names, homes, f) {
      if f in b.flight { assert SentFrom(b, names, homes, f); } else { NewFrames(b, s, f); }
    }
  }

  lemma {:induction false} RunsBeaten(b: Bus, steps: seq<Step>, names: seq<nat>, homes: seq<uint8>)
    requires Beaten(b, names, homes) && AllDiffer(names) && Legal(b, steps)
    ensures Beaten(Run(b, steps), names, homes)
    decreases |steps|
  {
    if steps != [] {
      StepBeaten(b, steps[0], names, homes);
      RunsBeaten(Apply(b, steps[0]), steps[1..], names, homes);
    }
  }

  predicate HeldBelow(b: Bus, i: nat, a: uint8) {
    && i < |b.nodes|
    && exists w :: 0 <= w < |b.nodes| && b.nodes[w].name < b.nodes[i].name && Holds(b.nodes[w]) && b.nodes[w].addr == a
  }

  // Of the boards that have been at an address the one with the lowest NAME is
  // there still.
  lemma {:induction false} StillHeld(b: Bus, names: seq<nat>, homes: seq<uint8>, i: nat, a: uint8)
    requires Beaten(b, names, homes) && i < |names| && Left(b.nodes[i], homes[i], a)
    ensures HeldBelow(b, i, a)
    decreases names[i]
  {
    assert LowerBeen(b, names, homes, i, a);
    var j: nat :| j < |names| && names[j] < names[i] && Been(b.nodes[j], homes[j], a);
    if Left(b.nodes[j], homes[j], a) { StillHeld(b, names, homes, j, a); }
  }

  // Boards with different NAMEs and the preferred addresses a board can have.
  predicate Proper(b: Bus) {
    Initial(b) && AllDiffer(NamesOf(b)) && forall i :: 0 <= i < |b.nodes| ==> b.nodes[i].addr <= ADDR_LAST
  }

  lemma ProperBeaten(b: Bus, steps: seq<Step>)
    requires Proper(b) && Legal(b, steps)
    ensures Beaten(Run(b, steps), NamesOf(b), HomesOf(b))
  {
    RunsBeaten(b, steps, NamesOf(b), HomesOf(b));
  }

  // Main result: at any moment of any run, every address a board has moved on
  // from is held by a board with a lower NAME.
  lemma LeftMeansHeld(b: Bus, steps: seq<Step>, i: nat, a: uint8)
    requires Proper(b) && Legal(b, steps) && i < |b.nodes| && Left(Run(b, steps).nodes[i], b.nodes[i].addr, a)
    ensures HeldBelow(Run(b, steps), i, a)
  {
    ProperBeaten(b, steps);
    StillHeld(Run(b, steps), NamesOf(b), HomesOf(b), i, a);
  }

  // Below k boards, all but i.
  function Others(k: nat, i: nat): (s: set<nat>)
    ensures (forall j :: j in s <==> 0 <= j < k && j != i) && |s| == if i < k then k - 1 else k
  {
    if k == 0 then {} else if k - 1 == i then Others(k - 1, i) else Others(k - 1, i) + {k - 1}
  }

  // Another board for each address from a on.
  lemma {:induction false} OneEach(b: Bus, names: seq<nat>, homes: seq<uint8>, i: nat, a: nat) returns (ws: set<nat>)
    requires Beaten(b, names, homes) && i < |names| && b.nodes[i].st == Failed && homes[i] <= a <= ADDR_LAST + 1
    ensures |ws| == ADDR_LAST + 1 - a
    ensures forall w :: w in ws ==> w < |names| && w != i && Holds(b.nodes[w]) && b.nodes[w].addr >= a
    decreases ADDR_LAST + 1 - a
  {
    ws := {};
    if a <= ADDR_LAST {
      var more := OneEach(b, names, homes, i, a + 1);
      StillHeld(b, names, homes, i, a);
      var w :| 0 <= w < |b.nodes| && b.nodes[w].name < b.nodes[i].name && Holds(b.nodes[w]) && b.nodes[w].addr == a;
      ws := more + {w};
    }
  }

  // Main result: a board fails only on a bus with as many other boards as there
  // are addresses from its preferred one on.
  lemma RoomMeansNoFailure(b: Bus, steps: seq<Step>, i: nat)
    requires Proper(b) && Legal(b, steps) && i < |b.nodes| && |b.nodes| - 1 < ADDR_LAST + 1 - b.nodes[i].addr
    ensures Run(b, steps).nodes[i].st != Failed
  {
    ProperBeaten(b, steps);
    if Run(b, steps).nodes[i].st == Failed {
      var ws := OneEach(Run(b, steps), NamesOf(b), HomesOf(b), i, b.nodes[i].addr);
      SetWithin(ws, Others(|b.nodes|, i));
    }
  }

  // The first address from its home on that no board with a lower NAME holds,
  // and none when all of them are held.
  ghost predicate Seated(c: Bus, home: uint8, i: nat)
    requires i < |c.nodes|
  {
    var n := c.nodes[i];
    if n.st == Failed then forall a: uint8 :: home <= a <= ADDR_LAST ==> HeldBelow(c, i, a)
    else home <= n.addr <= ADDR_LAST && !HeldBelow(c, i, n.addr) &&
         forall a: uint8 :: home <= a < n.addr ==> HeldBelow(c, i, a)
  }

  // At rest: every board has started, and no claim is on its way.
  ghost predicate AtRest(c: Bus) {
    c.flight == [] && forall i :: 0 <= i < |c.nodes| ==> Running(c.nodes[i])
  }

  lemma RestIsSeated(b: Bus, steps: seq<Step>, i: nat)
    requires Proper(b) && Legal(b, steps) && AtRest(Run(b, steps)) && i < |b.nodes|
    ensures Seated(Run(b, steps), b.nodes[i].addr, i)
  {
    var c, home := Run(b, steps), b.nodes[i].addr;
    ProperBeaten(b, steps);
    QuietMeansDistinct(b, steps);
    assert HomesOf(b)[i] == home && Placed(c.nodes[i], home);
    forall a: uint8 | Left(c.nodes[i], home, a) ensures HeldBelow(c, i, a) { LeftMeansHeld(b, steps, i, a); }
  }

  predicate SameSeat(m: Node, n: Node) {
    m.addr == n.addr && (m.st == Failed <==> n.st == Failed)
  }

  // Boards that are all seated are seated in one way only.
  lemma {:induction false} OneSeating(c: Bus, d: Bus, homes: seq<uint8>, i: nat)
    requires |c.nodes| == |d.nodes| == |homes| && NamesOf(c) == NamesOf(d) && i < |homes|
    requires forall j :: 0 <= j < |homes| ==> Running(c.nodes[j]) && Running(d.nodes[j])
    requires forall j :: 0 <= j < |homes| ==> Placed(c.nodes[j], homes[j]) && Placed(d.nodes[j], homes[j])
    requires forall j :: 0 <= j < |homes| ==> Seated(c, homes[j], j) && Seated(d, homes[j], j)
    ensures SameSeat(c.nodes[i], d.nodes[i])
    decreases NamesOf(c)[i]
  {
    assert forall j :: 0 <= j < |homes| ==>
        c.nodes[j].name == NamesOf(c)[j] == NamesOf(d)[j] == d.nodes[j].name;
    forall j | 0 <= j < |homes| && c.nodes[j].name < c.nodes[i].name ensures SameSeat(c.nodes[j], d.nodes[j]) {
      OneSeating(c, d, homes, j);
    }
    assert forall a: uint8 :: HeldBelow(c, i, a) <==> HeldBelow(d, i, a);
  }

  // Main result: in whatever order boards start and claims arrive, the boards
  // come to rest in the same places.
  lemma OrderDoesNotMatter(b: Bus, steps: seq<Step>, others: seq<Step>, i: nat)
    requires Proper(b) && Legal(b, steps) && Legal(b, others) && i < |b.nodes|
    requires AtRest(Run(b, steps)) && AtRest(Run(b, others))
    ensures SameSeat(Run(b, steps).nodes[i], Run(b, others).nodes[i])
  {
    var c, d := Run(b, steps), Run(b, others);
    ProperBeaten(b, steps);
    ProperBeaten(b, others);
    forall j | 0 <= j < |b.nodes| ensures Seated(c, b.nodes[j].addr, j) && Seated(d, b.nodes[j].addr, j) {
      RestIsSeated(b, steps, j);
      RestIsSeated(b, others, j);
    }
    OneSeating(c, d, HomesOf(b), i);
  }

  // Any run goes on to rest: boards that are not running start, and claims on
  // their way arrive, until there are none.
  lemma {:induction false} ComesToRest(b: Bus, names: seq<nat>) returns (more: seq<Step>)
    requires Named(b, names)
    ensures Legal(b, more) && AtRest(Run(b, more))
    decreases Potential(b, names)
  {
    hide Potential;
    var s: Step;
    if i: nat :| i < |b.nodes| && b.nodes[i].st == Uninit {
      s := Start(i);
    } else if b.flight != [] {
      s := Deliver(0);
      assert FromOther(b.flight[0], names);
    } else {
      return [];
    }
    StepNamed(b, s, names);
    WorkShrinks(b, s, names);
    more := ComesToRest(Apply(b, s), names);
    hide Apply, Enabled, AtRest;
    OneStepMore(b, s, more);
    more := [s] + more;
  }

  // The first address from home on that is not taken.
  function FirstFree(home: nat, taken: set<uint8>): (a: Option<uint8>)
    ensures a.Some? ==> home <= a.value <= ADDR_LAST && a.value !in taken
    ensures forall x: uint8 :: home <= x <= ADDR_LAST && (a.Some? ==> x < a.value) ==> x in taken
    decreases ADDR_LAST + 1 - home
  {
    if home > ADDR_LAST then None else if home !in taken then Some(home) else FirstFree(home + 1, taken)
  }

  // Where board i belongs, from NAMEs and preferred addresses alone: the boards
  // with lower NAMEs choose first.
  ghost function SeatOf(names: seq<nat>, homes: seq<uint8>, i: nat): Option<uint8>
    requires |names| == |homes| && i < |names|
    decreases names[i]
  {
    FirstFree(homes[i], TakenBefore(names, homes, i))
  }

  ghost function TakenBefore(names: seq<nat>, homes: seq<uint8>, i: nat): set<uint8>
    requires |names| == |homes| && i < |names|
    decreases names[i], 0
  {
    set a: uint8 | exists j: nat :: j < |names| && names[j] < names[i] && SeatOf(names, homes, j) == Some(a)
  }

  // Seated boards are where they belong.
  lemma {:induction false} SeatedWhereItBelongs(c: Bus, homes: seq<uint8>, i: nat)
    requires |c.nodes| == |homes| && i < |homes|
    requires forall j :: 0 <= j < |homes| ==>
               Running(c.nodes[j]) && Placed(c.nodes[j], homes[j]) && Seated(c, homes[j], j)
    ensures SeatOf(NamesOf(c), homes, i) == if c.nodes[i].st == Failed then None else Some(c.nodes[i].addr)
    decreases c.nodes[i].name
  {
    var names := NamesOf(c);
    forall j | 0 <= j < |homes| && names[j] < names[i]
      ensures SeatOf(names, homes, j) == if c.nodes[j].st == Failed then None else Some(c.nodes[j].addr)
    {
      SeatedWhereItBelongs(c, homes, j);
    }
    forall a: uint8 | a <= ADDR_LAST ensures a in TakenBefore(names, homes, i) <==> HeldBelow(c, i, a) {
      if HeldBelow(c, i, a) {
        var w :| 0 <= w < |c.nodes| && c.nodes[w].name < c.nodes[i].name && Holds(c.nodes[w]) && c.nodes[w].addr == a;
        assert SeatOf(names, homes, w) == Some(a);
      }
    }
  }

  // Main result: there is a run in which a board fails exactly when the boards
  // with lower NAMEs leave it no address.
  lemma FailsExactly(b: Bus, i: nat)
    requires Proper(b) && i < |b.nodes|
    ensures (exists steps :: Legal(b, steps) && Run(b, steps).nodes[i].st == Failed) <==>
              SeatOf(NamesOf(b), HomesOf(b), i) == None
  {
    if steps :| Legal(b, steps) && Run(b, steps).nodes[i].st == Failed {
      var _ := RestOf(b, steps, i);
    }
    if SeatOf(NamesOf(b), HomesOf(b), i) == None {
      var all := RestOf(b, [], i);
      assert Legal(b, all) && Run(b, all).nodes[i].st == Failed;
    }
  }

  // A run, gone on to rest.
  lemma RestOf(b: Bus, steps: seq<Step>, i: nat) returns (all: seq<Step>)
    requires Proper(b) && Legal(b, steps) && i < |b.nodes|
    ensures Legal(b, all) && (Run(b, steps).nodes[i].st == Failed ==> Run(b, all).nodes[i].st == Failed)
    ensures SeatOf(NamesOf(b), HomesOf(b), i) ==
              if Run(b, all).nodes[i].st == Failed then None else Some(Run(b, all).nodes[i].addr)
  {
    RunNamed(b, steps, NamesOf(b));
    var more := ComesToRest(Run(b, steps), NamesOf(b));
    RunsJoin(b, steps, more);
    all := steps + more;
    if Run(b, steps).nodes[i].st == Failed { FailedStays(Run(b, steps), more, i); }
    var c := Run(b, all);
    ProperBeaten(b, all);
    hide Run, Legal, Beaten, Proper, AtRest;
    SeatedAll(b, all);
    SeatedWhereItBelongs(c, HomesOf(b), i);
    NamesStay(b, all);
  }

  lemma SeatedAll(b: Bus, steps: seq<Step>)
    requires Proper(b) && Legal(b, steps) && AtRest(Run(b, steps))
    ensures forall j :: 0 <= j < |b.nodes| ==>
              Running(Run(b, steps).nodes[j]) && Placed(Run(b, steps).nodes[j], HomesOf(b)[j])
              && Seated(Run(b, steps), HomesOf(b)[j], j)
  {
    ProperBeaten(b, steps);
    forall j | 0 <= j < |b.nodes| ensures Seated(Run(b, steps), HomesOf(b)[j], j) { RestIsSeated(b, steps, j); }
  }

  lemma {:induction false} RunNamed(b: Bus, steps: seq<Step>, names: seq<nat>)
    requires Named(b, names) && Legal(b, steps)
    ensures Named(Run(b, steps), names)
    decreases |steps|
  {
    if steps != [] {
      StepNamed(b, steps[0], names);
      hide Named, Apply, Enabled;
      RunNamed(Apply(b, steps[0]), steps[1..], names);
    }
  }

  lemma NamesStay(b: Bus, steps: seq<Step>)
    requires Proper(b) && Legal(b, steps)
    ensures NamesOf(Run(b, steps)) == NamesOf(b)
  {
    RunNamed(b, steps, NamesOf(b));
  }

  lemma {:induction false} RunsJoin(b: Bus, steps: seq<Step>, more: seq<Step>)
    requires Legal(b, steps) && Legal(Run(b, steps), more)
    ensures Legal(b, steps + more) && Run(b, steps + more) == Run(Run(b, steps), more)
    decreases |steps|
  {
    hide Apply, Enabled;
    if steps == [] {
      assert [] + more == more;
    } else {
      assert (steps + more)[1..] == steps[1..] + more;
      RunsJoin(Apply(b, steps[0]), steps[1..], more);
    }
  }

  // Two boards with one NAME, each about to hear the other claim the address
  // both are at.
  function Twins(name: nat, a: uint8, claims: nat): Bus {
    Bus([Node(name, a, Claiming), Node(name, a, Claiming)], [Frame(1, a, name), Frame(0, a, name)], claims)
  }

  lemma CopiesOfTwo(nodes: seq<Node>, i: nat, a: uint8)
    requires |nodes| == 2 && i < 2 && Running(nodes[1 - i])
    ensures Copies(nodes, i, a, 2) == [Frame(1 - i, a, nodes[i].name)]
  {
    assert Copies(nodes, i, a, 0) == [];
    assert Copies(nodes, i, a, 1) == if i == 0 then [] else [Frame(0, a, nodes[i].name)];
  }

  predicate BothFailed(b: Bus) {
    |b.nodes| == 2 && b.nodes[0].st == Failed && b.nodes[1].st == Failed
  }

  // A board of the two that hears the other at its own address.
  lemma TwinMoves(b: Bus, k: nat, i: nat, name: nat, a: uint8)
    requires |b.nodes| == 2 && i < 2 && a <= ADDR_LAST && k < |b.flight| && b.flight[k] == Frame(i, a, name)
    requires b.nodes[i] == Node(name, a, Claiming) && Running(b.nodes[1 - i])
    ensures Enabled(b, Deliver(k))
    ensures var n := if a < ADDR_LAST then Node(name, a + 1, Claiming) else Node(name, ADDR_NULL, Failed);
            Apply(b, Deliver(k)) ==
              Bus(b.nodes[i := n], Without(b.flight, k) + [Frame(1 - i, n.addr, name)], b.claims + 1)
  {
    var n := if a < ADDR_LAST then Node(name, a + 1, Claiming) else Node(name, ADDR_NULL, Failed);
    CopiesOfTwo(b.nodes[i := n], i, n.addr);
    hide Copies, Without;
  }

  lemma WithoutOfTwo(x: Frame, y: Frame)
    ensures Without([x, y], 0) == [y] && Without([x, y], 1) == [x]
  {
  }

  lemma TwoNodes(x: Node, y: Node, m: Node, n: Node)
    ensures [x, y][0 := m] == [m, y] && [m, y][1 := n] == [m, n]
  {
  }

  lemma TwinsMeetAgain(name: nat, a: uint8, claims: nat)
    requires a <= ADDR_LAST
    ensures var b := Twins(name, a, claims);
            && Enabled(b, Deliver(1)) && Enabled(Apply(b, Deliver(1)), Deliver(0))
            && var c := Apply(Apply(b, Deliver(1)), Deliver(0));
               if a < ADDR_LAST then c == Twins(name, a + 1, claims + 2) else BothFailed(c)
  {
    hide Apply, Enabled;
    var o := Node(name, a, Claiming);
    var n := if a < ADDR_LAST then Node(name, a + 1, Claiming) else Node(name, ADDR_NULL, Failed);
    FirstTwinMoves(name, a, claims, o, n);
    SecondTwinMoves(name, a, claims, o, n);
  }

  lemma FirstTwinMoves(name: nat, a: uint8, claims: nat, o: Node, n: Node)
    requires a <= ADDR_LAST && o == Node(name, a, Claiming)
    requires n == if a < ADDR_LAST then Node(name, a + 1, Claiming) else Node(name, ADDR_NULL, Failed)
    ensures Enabled(Twins(name, a, claims), Deliver(1))
    ensures Apply(Twins(name, a, claims), Deliver(1)) ==
              Bus([n, o], [Frame(1, a, name), Frame(1, n.addr, name)], claims + 1)
  {
    TwinMoves(Twins(name, a, claims), 1, 0, name, a);
    WithoutOfTwo(Frame(1, a, name), Frame(0, a, name));
    TwoNodes(o, o, n, n);
    assert [Frame(1, a, name)] + [Frame(1, n.addr, name)] == [Frame(1, a, name), Frame(1, n.addr, name)];
    hide Apply, Enabled, Without;
  }

  lemma SecondTwinMoves(name: nat, a: uint8, claims: nat, o: Node, n: Node)
    requires a <= ADDR_LAST && o == Node(name, a, Claiming)
    requires n == if a < ADDR_LAST then Node(name, a + 1, Claiming) else Node(name, ADDR_NULL, Failed)
    ensures var m := Bus([n, o], [Frame(1, a, name), Frame(1, n.addr, name)], claims + 1);
            && Enabled(m, Deliver(0))
            && Apply(m, Deliver(0)) == Bus([n, n], [Frame(1, n.addr, name), Frame(0, n.addr, name)], claims + 2)
  {
    TwinMoves(Bus([n, o], [Frame(1, a, name), Frame(1, n.addr, name)], claims + 1), 0, 1, name, a);
    WithoutOfTwo(Frame(1, a, name), Frame(1, n.addr, name));
    TwoNodes(o, o, n, n);
    assert [Frame(1, n.addr, name)] + [Frame(0, n.addr, name)] == [Frame(1, n.addr, name), Frame(0, n.addr, name)];
    hide Apply, Enabled, Without;
  }

  lemma OneStepMore(b: Bus, s: Step, steps: seq<Step>)
    requires Enabled(b, s) && Legal(Apply(b, s), steps)
    ensures Legal(b, [s] + steps) && Run(b, [s] + steps) == Run(Apply(b, s), steps)
  {
    assert ([s] + steps)[1..] == steps;
    hide Apply, Enabled;
  }

  // Two deliveries more in front of a run.
  lemma TwoStepsMore(b: Bus, x: Step, y: Step, steps: seq<Step>)
    requires Enabled(b, x) && Enabled(Apply(b, x), y) && Legal(Apply(Apply(b, x), y), steps)
    ensures Legal(b, [x] + ([y] + steps)) && Run(b, [x] + ([y] + steps)) == Run(Apply(Apply(b, x), y), steps)
  {
    hide Apply, Enabled, Legal, Run;
    OneStepMore(Apply(b, x), y, steps);
    OneStepMore(b, x, [y] + steps);
  }

  lemma {:induction false} TwinsFail(name: nat, a: uint8, claims: nat) returns (steps: seq<Step>)
    requires a <= ADDR_LAST
    ensures Legal(Twins(name, a, claims), steps) && BothFailed(Run(Twins(name, a, claims), steps))
    decreases ADDR_LAST - a
  {
    hide Apply, Enabled, Twins;
    TwinsMeetAgain(name, a, claims);
    steps := [];
    if a < ADDR_LAST { steps := TwinsFail(name, a + 1, claims + 2); }
    hide Legal, Run, BothFailed;
    var c := Apply(Apply(Twins(name, a, claims), Deliver(1)), Deliver(0));
    assert Legal(c, steps) && BothFailed(Run(c, steps)) by { if a == ADDR_LAST { NoSteps(c); } }
    TwoStepsMore(Twins(name, a, claims), Deliver(1), Deliver(0), steps);
    steps := [Deliver(1)] + ([Deliver(0)] + steps);
  }

  lemma NoSteps(b: Bus)
    ensures Legal(b, []) && Run(b, []) == b
  {
  }

  lemma TwinsStart(name: nat, home: uint8)
    ensures var b := Bus([Node(name, home, Uninit), Node(name, home, Uninit)], [], 0);
            && Enabled(b, Start(1)) && Enabled(Apply(b, Start(1)), Start(0))
            && var m := Apply(Apply(b, Start(1)), Start(0));
               Enabled(m, Request(1)) && Apply(m, Request(1)) == Twins(name, home, 3)
  {
    var b := Bus([Node(name, home, Uninit), Node(name, home, Uninit)], [], 0);
    var l := Apply(b, Start(1));
    assert Copies(l.nodes, 1, home, 0) == [] && Copies(l.nodes, 1, home, 1) == [];
    assert Copies(l.nodes, 1, home, 2) == [];
    hide Copies;
    var m := Apply(l, Start(0));
    CopiesOfTwo(m.nodes, 0, home);
    CopiesOfTwo(Apply(m, Request(1)).nodes, 1, home);
  }

  // The NAMEs must differ: two boards that share one can both fail on a bus of
  // their own, whatever address they prefer.
  lemma EqualNamesCanFail(name: nat, home: uint8) returns (b: Bus, steps: seq<Step>)
    requires home <= ADDR_LAST
    ensures Initial(b) && b.nodes == [Node(name, home, Uninit), Node(name, home, Uninit)]
    ensures Legal(b, steps) && BothFailed(Run(b, steps))
  {
    b := Bus([Node(name, home, Uninit), Node(name, home, Uninit)], [], 0);
    assert Initial(b);
    hide Apply, Enabled, Twins, Legal, Run, BothFailed, Initial;
    TwinsStart(name, home);
    steps := TwinsFail(name, home, 3);
    var l := Apply(b, Start(1));
    OneStepMore(Apply(l, Start(0)), Request(1), steps);
    steps := [Request(1)] + steps;
    OneStepMore(l, Start(0), steps);
    steps := [Start(0)] + steps;
    OneStepMore(b, Start(1), steps);
    steps := [Start(1)] + steps;
  }

  // ------------------------------------------------------- boards on one bus

  // The boards themselves, each changing only itself, and the wire between
  // them.
  class Network {
    const boards: seq<Board>
    var flight: seq<Frame>
    var claims: nat

    ghost predicate Apart() {
      forall i, j :: 0 <= i < j < |boards| ==> boards[i] != boards[j]
    }

    function State(): Bus
      reads this, boards
    {
      Bus(seq(|boards|, i requires 0 <= i < |boards| reads boards => boards[i].State()), flight, claims)
    }

    constructor (boards: seq<Board>)
      requires forall i :: 0 <= i < |boards| ==> boards[i].st == Uninit
      ensures this.boards == boards && Initial(State())
    {
      this.boards := boards;
      flight, claims := [], 0;
    }

    // What board i has sent reaches every other running board.
    method Broadcast(i: nat, sent: Sent)
      requires i < |boards|
      modifies this
      ensures var b := old(State()); State() == After(b, i, b.flight, Reply(b.nodes[i], sent))
    {
      ghost var b := State();
      assert b.nodes[i := b.nodes[i]] == b.nodes;
      if sent.Claim? {
        var copies := [];
        for k := 0 to |boards|
          invariant State() == b && copies == Copies(b.nodes, i, sent.src, k)
        {
          if k != i && boards[k].st != Uninit { copies := copies + [Frame(k, sent.src, boards[i].name)]; }
        }
        flight := flight + copies;
        claims := claims + 1;
        assert State().nodes == b.nodes;
      }
    }

    // One step, by the code of the board it happens to.
    method Take(s: Step)
      requires Apart() && Enabled(State(), s)
      modifies this, boards
      ensures State() == Apply(old(State()), s)
    {
      ghost var b := State();
      var i, sent;
      match s {
        case Start(k) => i := k; sent := boards[i].Start();
        case Deliver(k) =>
          var f := flight[k];
          flight := flight[..k] + flight[k + 1..];
          i := f.to;
          sent := boards[i].HandleClaim(f.src, f.name);
        case Request(k) => i := k; sent := boards[i].HandleRequest();
        case Tick(k) => i, sent := k, Quiet; boards[i].Tick();
      }
      ghost var c := State();
      assert c.nodes == b.nodes[i := c.nodes[i]] && c.nodes[i := c.nodes[i]] == c.nodes;
      Broadcast(i, sent);
    }

    // Main result: whatever happens to the boards, in whatever order -- once no
    // claim is on its way, no two of them hold the same address; and with
    // different NAMEs each has the first address from its preferred one on that
    // no board with a lower NAME has. None fails that has room above it.
    method Execute(steps: seq<Step>)
      requires Apart() && Initial(State()) && Legal(State(), steps)
      modifies this, boards
      ensures State() == Run(old(State()), steps)
      ensures flight == [] ==>
                forall i, j :: 0 <= i < j < |boards| && Holds(boards[i].State()) && Holds(boards[j].State()) ==>
                  boards[i].addr != boards[j].addr
      ensures Proper(old(State())) && AtRest(State()) ==>
                forall i :: 0 <= i < |boards| ==> Seated(State(), old(boards[i].addr), i)
      ensures Proper(old(State())) ==>
                forall i :: 0 <= i < |boards| && old(boards[i].addr) + |boards| <= 252 ==> boards[i].st != Failed
    {
      ghost var b := State();
      assert forall i :: 0 <= i < |boards| ==> b.nodes[i] == boards[i].State();
      for n := 0 to |steps|
        invariant Legal(State(), steps[n..]) && Run(State(), steps[n..]) == Run(b, steps)
      {
        assert steps[n..][0] == steps[n] && steps[n..][1..] == steps[n + 1..];
        Take(steps[n]);
      }
      if flight == [] { QuietMeansDistinct(b, steps); }
      ghost var c := State();
      assert forall i :: 0 <= i < |boards| ==> c.nodes[i] == boards[i].State();
      hide AtRest, Seated, Proper, Run, Legal;
      if Proper(b) && AtRest(c) {
        forall i | 0 <= i < |boards| ensures Seated(c, b.nodes[i].addr, i) { RestIsSeated(b, steps, i); }
      }
      if Proper(b) {
        forall i | 0 <= i < |boards| && b.nodes[i].addr + |boards| <= 252 ensures c.nodes[i].st != Failed {
          RoomMeansNoFailure(b, steps, i);
        }
      }
    }
  }
}
