// The walks of the rule engine over the rules, and what happens to the rules on
// the way, as values.
module RuleWalks {
  import opened Collections
  import opened Options

  const CASCADE_CAP := 16
  const CASCADE_TOTAL_CAP := 256
  const RESUME_TRIES := 3

  // delays[i]: step i of the action's timeline waits for a timer.
  datatype Rule = Rule(noLoop: bool, heldFor: bool, wildcard: bool, facts: set<nat>, delays: seq<bool>)

  // An entry of _passes: an event's walk, and the next rule it takes. id tells
  // the walks apart, as the objects' identities do.
  datatype Frame = Frame(id: nat, key: Option<nat>, next: nat)

  // Where the time budget's interrupt lands: while every unfinished pass is on
  // the stack -- in a condition, a step, anywhere in the loop of _pass() -- or
  // while one is off it, between its making or its pop and its push.
  datatype Cut = No | OnStack | OffStack

  // What happens to the rules. Entered: a rule's action, by which walk (none
  // for a heldFor() rule whose time has come), and whether an action or a
  // delayed step of the same rule was still running then. Armed: the timer of a
  // delayed step. Ran: a step, and whether the rule's flag was up for it.
  // Coded: a piece of code begins that is to write these facts.
  // Emitted: it writes a fact, which has its walk. Dropped: it has none, so deep
  // and after so many passes.
  // run tells apart an action, a delayed step on its timer, or a piece of code,
  // by the place of its first entry: whatever it does bears its number.
  datatype Entry =
    | Entered(run: nat, walk: Option<nat>, rule: nat, whileRunning: bool)
    | Armed(run: nat, rule: nat, step: nat)
    | Ran(run: nat, rule: nat, step: nat, held: bool)
    | Coded(run: nat, keys: seq<nat>)
    | Emitted(run: nat, key: nat, made: nat)
    | Dropped(run: nat, key: nat, depth: nat, total: nat)

  // ------------------------------------------------- what one run has done

  datatype Deed = Arms(rule: nat, step: nat) | Runs(rule: nat, step: nat) | Writes(key: nat)

  function DeedsOf(e: Entry): seq<Deed> {
    match e
    case Armed(_, r, i) => [Arms(r, i)]
    case Ran(_, r, i, _) => [Runs(r, i)]
    case Emitted(_, key, _) => [Writes(key)]
    case Dropped(_, key, _, _) => [Writes(key)]
    case _ => []
  }

  // In order, whatever others did in between.
  function Of(entries: seq<Entry>, run: nat): seq<Deed> {
    if entries == [] then []
    else
      var n := |entries| - 1;
      Of(entries[..n], run) + if entries[n].run == run then DeedsOf(entries[n]) else []
  }

  lemma OneMoreDeed(entries: seq<Entry>, e: Entry, run: nat)
    ensures Of(entries + [e], run) == Of(entries, run) + if e.run == run then DeedsOf(e) else []
  {
    assert (entries + [e])[..|entries|] == entries;
  }

  // The first step at or after i that waits for a timer.
  function FirstDelayed(delays: seq<bool>, i: nat): (k: nat)
    requires i <= |delays|
    ensures i <= k <= |delays| && (k < |delays| ==> delays[k]) && forall j :: i <= j < k ==> !delays[j]
    decreases |delays| - i
  {
    if i == |delays| || delays[i] then i else FirstDelayed(delays, i + 1)
  }

  // Steps i up to k, once each and in order.
  function RunsOf(r: nat, i: nat, k: nat): (s: seq<Deed>)
    requires i <= k
    ensures |s| == k - i && forall j :: 0 <= j < k - i ==> s[j] == Runs(r, i + j)
  {
    seq(k - i, j requires 0 <= j => Runs(r, i + j))
  }

  // What is done from step i on, with i itself run: the steps up to the next one
  // that waits for a timer; that timer is armed before the last of them runs.
  function FromStep(r: nat, delays: seq<bool>, i: nat): seq<Deed>
    requires i < |delays|
  {
    var k := FirstDelayed(delays, i + 1);
    if k == |delays| then RunsOf(r, i, k) else RunsOf(r, i, k - 1) + [Arms(r, k), Runs(r, k - 1)]
  }

  // What is done of a timeline from step i on, before a timer runs out.
  function Timeline(r: nat, delays: seq<bool>, i: nat): seq<Deed>
    requires i <= |delays|
  {
    if i == |delays| then [] else if delays[i] then [Arms(r, i)] else FromStep(r, delays, i)
  }

  lemma RunsFirst(r: nat, i: nat, k: nat)
    requires i < k
    ensures RunsOf(r, i, k) == [Runs(r, i)] + RunsOf(r, i + 1, k)
  {
  }

  lemma StepAndRest(r: nat, delays: seq<bool>, i: nat)
    requires i < |delays|
    ensures i + 1 < |delays| && delays[i + 1] ==> FromStep(r, delays, i) == [Arms(r, i + 1)] + [Runs(r, i)]
    ensures !(i + 1 < |delays| && delays[i + 1]) ==>
              FromStep(r, delays, i) == [Runs(r, i)] + Timeline(r, delays, i + 1)
  {
    if i + 1 < |delays| && delays[i + 1] {
      assert RunsOf(r, i, i) == [];
      assert [] + [Arms(r, i + 1), Runs(r, i)] == [Arms(r, i + 1)] + [Runs(r, i)];
    } else if i + 1 == |delays| {
      assert RunsOf(r, i, i + 1) == [Runs(r, i)] && [Runs(r, i)] + [] == [Runs(r, i)];
    } else {
      NextRuns(r, delays, i, FirstDelayed(delays, i + 2));
    }
  }

  lemma NextRuns(r: nat, delays: seq<bool>, i: nat, k: nat)
    requires i + 1 < |delays| && !delays[i + 1] && k == FirstDelayed(delays, i + 2)
    ensures FromStep(r, delays, i) == [Runs(r, i)] + Timeline(r, delays, i + 1)
  {
    assert FirstDelayed(delays, i + 1) == k;
    RunsFirst(r, i, if k == |delays| then k else k - 1);
    hide RunsOf;
    if k < |delays| { Regroup([Runs(r, i)], RunsOf(r, i + 1, k - 1), [Arms(r, k), Runs(r, k - 1)]); }
  }

  lemma Regroup(a: seq<Deed>, b: seq<Deed>, c: seq<Deed>)
    ensures a + b + c == a + (b + c)
  {
  }

  function WritesOf(keys: seq<nat>): (s: seq<Deed>)
    ensures |s| == |keys| && forall j :: 0 <= j < |s| ==> s[j] == Writes(keys[j])
  {
    seq(|keys|, j requires 0 <= j < |keys| => Writes(keys[j]))
  }

  // All of them, or, cut short, the first of them.
  predicate Did(cut: Cut, before: seq<Deed>, after: seq<Deed>, deeds: seq<Deed>) {
    before <= after <= before + deeds && (cut == No ==> after == before + deeds)
  }

  lemma DidNone(cut: Cut, a: seq<Deed>, deeds: seq<Deed>)
    requires cut != No || deeds == []
    ensures Did(cut, a, a, deeds)
  {
    assert a + [] == a && a <= a + deeds;
  }

  lemma DidOne(a: seq<Deed>, d: Deed)
    ensures Did(No, a, a + [d], [d])
  {
  }

  lemma DidIs(a: seq<Deed>, deeds: seq<Deed>)
    requires Did(No, [], a, deeds)
    ensures a == deeds
  {
    assert [] + deeds == deeds;
  }

  lemma DidCut(cut: Cut, a: seq<Deed>, b: seq<Deed>, first: seq<Deed>, rest: seq<Deed>)
    requires cut != No && Did(cut, a, b, first)
    ensures Did(cut, a, b, first + rest)
  {
    assert a + first <= a + (first + rest);
  }

  // ------------------------------------------------- the walks, as values

  // What the walks have done. taken: the rules each walk took, in order. lost:
  // walks an interrupt found off the stack. givenUp: walks the last try of a
  // recovery drops. keys: the fact each walk is for.
  datatype Walks = Walks(
    taken: map<nat, seq<nat>>, lost: set<nat>, givenUp: set<nat>,
    made: nat, keys: map<nat, Option<nat>>)

  // A rule's conditions were evaluated for a walk.
  datatype Check = Check(walk: nat, rule: nat)

  // The rule is evaluated for an event of that fact, or of none in particular.
  predicate Listens(r: Rule, key: Option<nat>) {
    key == None || r.wildcard || key.value in r.facts
  }

  // Rules 0, 1, 2, ... once each, some way along the rule list.
  predicate InOrder(count: nat, rules: seq<nat>) {
    |rules| <= count && rules == UpTo(|rules|)
  }

  predicate OnStack(stack: seq<Frame>, id: nat) {
    exists i :: 0 <= i < |stack| && stack[i].id == id
  }

  // A walk on the stack has taken exactly the rules below its next.
  ghost predicate FramesOk(stack: seq<Frame>, w: Walks) {
    && (forall i, j :: 0 <= i < j < |stack| ==> stack[i].id != stack[j].id)
    && (forall i :: 0 <= i < |stack| ==> stack[i].id in w.taken && |w.taken[stack[i].id]| == stack[i].next)
    && w.keys.Keys == w.taken.Keys && (forall i :: 0 <= i < |stack| ==> stack[i].key == w.keys[stack[i].id])
    && (forall i :: 0 <= i < |stack| ==> stack[i].id !in w.lost && stack[i].id !in w.givenUp)
  }

  // Whatever became of a walk, the rules it took are 0, 1, 2, ... once each.
  ghost predicate WalksOk(count: nat, w: Walks) {
    && (forall id :: id in w.taken <==> 0 <= id < w.made)
    && (forall id :: id in w.lost ==> id < w.made) && (forall id :: id in w.givenUp ==> id < w.made)
    && (forall id :: id in w.taken ==> InOrder(count, w.taken[id]))
  }

  // A walk that is not on the stack any more has taken them all, unless it was
  // lost or given up.
  ghost predicate Accounted(count: nat, stack: seq<Frame>, w: Walks) {
    forall id :: id in w.taken ==> |w.taken[id]| == count || id in w.lost || id in w.givenUp || OnStack(stack, id)
  }

  ghost predicate Sound(count: nat, stack: seq<Frame>, w: Walks) {
    FramesOk(stack, w) && WalksOk(count, w) && Accounted(count, stack, w)
  }

  // Walks begun and neither lost nor given up nor left on the stack are through.
  lemma NewWalksDone(count: nat, stack: seq<Frame>, v: Walks, w: Walks)
    requires Sound(count, stack, v) && Sound(count, stack, w)
    requires v.lost == w.lost && v.givenUp == w.givenUp && v.made <= w.made
    ensures forall k :: v.made <= k < w.made ==> k in w.taken && w.taken[k] == UpTo(count)
  {
    forall k | v.made <= k < w.made ensures k in w.taken && w.taken[k] == UpTo(count) {
      assert k !in v.lost && k !in v.givenUp && k !in v.taken;
    }
  }

  function Begun(w: Walks, key: Option<nat>): Walks {
    w.(taken := w.taken[w.made := []], made := w.made + 1, keys := w.keys[w.made := key])
  }

  lemma BeginFrames(count: nat, stack: seq<Frame>, w: Walks, key: Option<nat>)
    requires FramesOk(stack, w) && WalksOk(count, w)
    ensures FramesOk(stack + [Frame(w.made, key, 0)], Begun(w, key)) && WalksOk(count, Begun(w, key))
  {
    hide UpTo;
  }

  lemma BeginSound(count: nat, stack: seq<Frame>, w: Walks, key: Option<nat>)
    requires Sound(count, stack, w)
    ensures Sound(count, stack + [Frame(w.made, key, 0)], Begun(w, key))
  {
    BeginFrames(count, stack, w, key);
    hide FramesOk, WalksOk;
    var s := stack + [Frame(w.made, key, 0)];
    assert s[|stack|].id == w.made;
    forall id | OnStack(stack, id) ensures OnStack(s, id) {
      var i :| 0 <= i < |stack| && stack[i].id == id;
      assert s[i].id == id;
    }
  }

  // The top walk is lost.
  lemma LoseSound(count: nat, stack: seq<Frame>, w: Walks)
    requires stack != [] && Sound(count, stack, w)
    ensures stack[|stack| - 1].id !in w.lost
    ensures Sound(count, stack[..|stack| - 1], w.(lost := w.lost + {stack[|stack| - 1].id}))
  {
    var s := stack[..|stack| - 1];
    forall id | OnStack(stack, id) && id != stack[|stack| - 1].id ensures OnStack(s, id) {
      var i :| 0 <= i < |stack| && stack[i].id == id;
      assert s[i].id == id;
    }
  }

  // A walk that stays on the stack takes nothing.
  lemma TakenStays(count: nat, a: seq<Frame>, v: Walks, b: seq<Frame>, w: Walks, i: nat, j: nat)
    requires Sound(count, a, v) && Sound(count, b, w) && i < |a| && j < |b| && a[i] == b[j]
    ensures a[i].id in v.taken && a[i].id in w.taken && v.taken[a[i].id] == w.taken[a[i].id]
  {
  }

  // The top walk is through.
  lemma PopSound(count: nat, stack: seq<Frame>, w: Walks)
    requires stack != [] && Sound(count, stack, w) && stack[|stack| - 1].next >= count
    ensures Sound(count, stack[..|stack| - 1], w)
  {
    var s := stack[..|stack| - 1];
    forall id | OnStack(stack, id) && id != stack[|stack| - 1].id ensures OnStack(s, id) {
      var i :| 0 <= i < |stack| && stack[i].id == id;
      assert s[i].id == id;
    }
  }

  function Advanced(stack: seq<Frame>): seq<Frame>
    requires stack != []
  {
    var p := stack[|stack| - 1];
    stack[..|stack| - 1] + [p.(next := p.next + 1)]
  }

  lemma OneMore(count: nat, taken: seq<nat>, r: nat)
    requires InOrder(count, taken) && |taken| == r < count
    ensures InOrder(count, taken + [r])
  {
    assert UpTo(r + 1) == UpTo(r) + [r];
  }

  function Took(w: Walks, p: Frame): Walks
    requires p.id in w.taken
  {
    w.(taken := w.taken[p.id := w.taken[p.id] + [p.next]])
  }

  lemma TakeFrames(stack: seq<Frame>, w: Walks)
    requires stack != [] && FramesOk(stack, w)
    ensures FramesOk(Advanced(stack), Took(w, stack[|stack| - 1]))
  {
    AdvancedIs(stack);
    hide Advanced;
    assert Took(w, stack[|stack| - 1]).taken.Keys == w.taken.Keys;
  }

  lemma TakeAccounted(count: nat, stack: seq<Frame>, w: Walks)
    requires stack != [] && FramesOk(stack, w) && Accounted(count, stack, w)
    ensures Accounted(count, Advanced(stack), Took(w, stack[|stack| - 1]))
  {
    AdvancedIs(stack);
    hide Advanced;
    var s, p := Advanced(stack), stack[|stack| - 1];
    assert s[|s| - 1].id == p.id;
    forall id | OnStack(stack, id) ensures OnStack(s, id) {
      var i :| 0 <= i < |stack| && stack[i].id == id;
      assert s[i].id == id;
    }
  }

  // The top walk takes its next rule.
  lemma TakeSound(count: nat, stack: seq<Frame>, w: Walks)
    requires stack != [] && Sound(count, stack, w) && stack[|stack| - 1].next < count
    ensures stack[|stack| - 1].id in w.taken && Sound(count, Advanced(stack), Took(w, stack[|stack| - 1]))
  {
    var p := stack[|stack| - 1];
    OneMore(count, w.taken[p.id], p.next);
    TakeFrames(stack, w);
    TakeAccounted(count, stack, w);
    hide InOrder, Advanced, Accounted;
  }

  lemma AdvancedIs(stack: seq<Frame>)
    requires stack != []
    ensures var s, p := Advanced(stack), stack[|stack| - 1];
            |s| == |stack| && s[|s| - 1] == p.(next := p.next + 1) &&
            forall i :: 0 <= i < |stack| - 1 ==> s[i] == stack[i]
  {
  }

  function IdsOf(stack: seq<Frame>): set<nat> {
    set i | 0 <= i < |stack| :: stack[i].id
  }

  lemma AllGivenUp(count: nat, stack: seq<Frame>, w: Walks)
    requires Sound(count, stack, w)
    ensures Sound(count, [], w.(givenUp := w.givenUp + IdsOf(stack)))
  {
    assert forall i :: 0 <= i < |stack| ==> stack[i].id in w.taken;
  }

  // Every walk has taken every rule, once and in order, but for those lost and
  // those given up.
  ghost predicate AllThrough(count: nat, w: Walks) {
    forall id :: 0 <= id < w.made && id !in w.lost && id !in w.givenUp ==> id in w.taken && w.taken[id] == UpTo(count)
  }

  lemma EmptyMeansThrough(count: nat, w: Walks)
    requires Sound(count, [], w)
    ensures AllThrough(count, w)
  {
  }

  predicate ByWalk(e: Entry) {
    e.Entered? && e.walk.Some?
  }

  predicate SameWalk(a: Entry, b: Entry) {
    ByWalk(a) && ByWalk(b) && a.walk == b.walk
  }

  // An action is entered only for a rule its walk has taken; and no walk
  // enters a rule's action twice.
  ghost predicate Once(entries: seq<Entry>, taken: map<nat, seq<nat>>) {
    && (forall k :: 0 <= k < |entries| && ByWalk(entries[k]) ==>
          entries[k].walk.value in taken && entries[k].rule < |taken[entries[k].walk.value]|)
    && (forall k, l :: 0 <= k < l < |entries| && SameWalk(entries[k], entries[l]) ==> entries[k].rule < entries[l].rule)
  }

  ghost predicate NotYet(entries: seq<Entry>, walk: nat, r: nat) {
    forall k :: 0 <= k < |entries| && ByWalk(entries[k]) && entries[k].walk == Some(walk) ==> entries[k].rule < r
  }

  // Whose an entry may be.
  datatype Own = OfWalk(walk: Option<nat>) | OfRun(run: nat)

  predicate NoRuns(own: set<Own>) {
    forall o :: o in own ==> o.OfWalk?
  }

  predicate MayBeNew(e: Entry, from: nat, made: nat, own: set<Own>) {
    && (e.run >= from || OfRun(e.run) in own)
    && (e.Entered? ==> OfWalk(e.walk) in own || (e.walk.Some? && e.walk.value >= made))
  }

  // Only own, and walks begun since, have entered actions; only own runs, and
  // those begun since, have done anything.
  ghost predicate NewEntries(before: seq<Entry>, after: seq<Entry>, made: nat, own: set<Own>) {
    && |before| <= |after| && after[..|before|] == before
    && forall k :: |before| <= k < |after| ==> MayBeNew(after[k], |before|, made, own)
  }

  lemma NewEntriesJoin(a: seq<Entry>, b: seq<Entry>, c: seq<Entry>, m: nat, n: nat, own: set<Own>)
    requires NewEntries(a, b, m, own) && NewEntries(b, c, n, own) && m <= n
    ensures NewEntries(a, c, m, own)
  {
    assert a == b[..|a|] == c[..|b|][..|a|];
    forall k | |a| <= k < |c| ensures MayBeNew(c[k], |a|, m, own) {
      if k < |b| { assert c[..|b|][k] == b[k]; } else { assert MayBeNew(c[k], |b|, n, own); }
    }
  }

  lemma NothingNew(a: seq<Entry>, made: nat, own: set<Own>)
    ensures NewEntries(a, a, made, own)
  {
  }

  lemma Widen(a: seq<Entry>, b: seq<Entry>, made: nat, own: set<Own>, more: set<Own>)
    requires NewEntries(a, b, made, own) && own <= more
    ensures NewEntries(a, b, made, more)
  {
  }

  lemma MadeBefore(a: seq<Entry>, b: seq<Entry>, made: nat, earlier: nat, own: set<Own>)
    requires NewEntries(a, b, made, own) && earlier <= made
    ensures NewEntries(a, b, earlier, own)
  {
    forall k | |a| <= k < |b| ensures MayBeNew(b[k], |a|, earlier, own) { assert MayBeNew(b[k], |a|, made, own); }
  }

  // A run begun since is none of its own.
  lemma BegunSince(a: seq<Entry>, b: seq<Entry>, made: nat, own: set<Own>, run: nat)
    requires NewEntries(a, b, made, own + {OfRun(run)}) && |a| <= run
    ensures NewEntries(a, b, made, own)
  {
    forall k | |a| <= k < |b| ensures MayBeNew(b[k], |a|, made, own) {
      assert MayBeNew(b[k], |a|, made, own + {OfRun(run)});
    }
  }

  // What has been done by a run that is not own stays.
  lemma {:induction false} DeedsStay(a: seq<Entry>, b: seq<Entry>, made: nat, own: set<Own>, run: nat)
    requires NewEntries(a, b, made, own) && run < |a| && OfRun(run) !in own
    ensures Of(b, run) == Of(a, run)
    decreases |b|
  {
    if a == b { return; }
    var n := |b| - 1;
    assert |b| > |a|;
    var c := b[..n];
    assert NewEntries(a, c, made, own);
    DeedsStay(a, c, made, own, run);
    assert MayBeNew(b[n], |a|, made, own);
  }

  // Of a new walk's and later ones, all are new.
  lemma NewOnly(a: seq<Entry>, b: seq<Entry>, made: nat, id: nat)
    requires NewEntries(a, b, made + 1, {OfWalk(Some(id))}) && made <= id
    ensures NewEntries(a, b, made, {})
  {
    forall k | |a| <= k < |b| ensures MayBeNew(b[k], |a|, made, {}) {
      assert MayBeNew(b[k], |a|, made + 1, {OfWalk(Some(id))});
    }
  }

  function OwnOf(a: seq<Entry>, e: Entry): set<Own> {
    (if e.Entered? then {OfWalk(e.walk)} else {}) + (if e.run < |a| then {OfRun(e.run)} else {})
  }

  lemma OneNew(a: seq<Entry>, e: Entry, made: nat)
    ensures NewEntries(a, a + [e], made, OwnOf(a, e))
  {
  }

  // The entries made first after before.
  ghost predicate Began(before: seq<Entry>, after: seq<Entry>, lead: seq<Entry>) {
    |before| + |lead| <= |after| && after[..|before| + |lead|] == before + lead
  }

  lemma BeganStays(a: seq<Entry>, b: seq<Entry>, c: seq<Entry>, lead: seq<Entry>, made: nat, own: set<Own>)
    requires Began(a, b, lead) && NewEntries(b, c, made, own)
    ensures Began(a, c, lead)
  {
    var n := |a| + |lead|;
    assert c[..n] == c[..|b|][..n];
  }

  lemma JustBegan(a: seq<Entry>, e: Entry)
    ensures Began(a, a + [e], [e])
  {
  }

  predicate NextDelayed(rule: Rule, i: nat) {
    i + 1 < |rule.delays| && rule.delays[i + 1]
  }

  // The walk has entered the rule's action, and it has run: all its steps up to
  // the first that waits for a timer, in order.
  ghost predicate HasActed(rules: seq<Rule>, entries: seq<Entry>, from: nat, walk: Option<nat>, r: nat) {
    exists k :: from <= k < |entries| && ActedAt(rules, entries, k, walk, r)
  }

  ghost predicate ActedAt(rules: seq<Rule>, entries: seq<Entry>, k: nat, walk: Option<nat>, r: nat) {
    && k < |entries| && r < |rules| && entries[k].Entered? && entries[k].walk == walk && entries[k].rule == r
    && Of(entries, k) == Timeline(r, rules[r].delays, 0)
  }

  lemma StillActed(rules: seq<Rule>, a: seq<Entry>, b: seq<Entry>, made: nat, own: set<Own>, from: nat,
          walk: Option<nat>, r: nat)
    requires NewEntries(a, b, made, own) && NoRuns(own) && HasActed(rules, a, from, walk, r)
    ensures HasActed(rules, b, from, walk, r)
  {
    var k :| from <= k < |a| && ActedAt(rules, a, k, walk, r);
    DeedsStay(a, b, made, own, k);
    assert b[..|a|][k] == a[k];
    assert ActedAt(rules, b, k, walk, r);
  }

  lemma BeginOnce(count: nat, stack: seq<Frame>, entries: seq<Entry>, w: Walks, key: Option<nat>)
    requires Sound(count, stack, w) && Once(entries, w.taken)
    ensures Once(entries, Begun(w, key).taken)
  {
  }

  // The walk's turn of the rule ends in its action: the rule listens, its
  // conditions come out true, and it does not wait for a held period.
  predicate Fires(rules: seq<Rule>, matches: (nat, nat) -> bool, keys: map<nat, Option<nat>>, walk: nat, r: nat) {
    walk in keys && r < |rules| && Listens(rules[r], keys[walk]) && matches(walk, r) && !rules[r].heldFor
  }

  // An action is entered by a walk only when its rule fires for it; a no-loop
  // rule's never while it, or a step of the rule, is still running, and with
  // the flag up for its steps. A written fact has its walk, but for a write
  // nested too deep or after too many.
  ghost predicate EntryOk(rules: seq<Rule>, matches: (nat, nat) -> bool, keys: map<nat, Option<nat>>, e: Entry) {
    && (e.Entered? || e.Armed? || e.Ran? ==> e.rule < |rules|)
    && (ByWalk(e) ==> Fires(rules, matches, keys, e.walk.value, e.rule))
    && (e.Entered? && rules[e.rule].noLoop ==> !e.whileRunning)
    && (e.Ran? && rules[e.rule].noLoop ==> e.held)
    && (e.Emitted? ==> e.made in keys && keys[e.made] == Some(e.key))
    && (e.Dropped? ==> e.depth >= CASCADE_CAP || e.total >= CASCADE_TOTAL_CAP)
  }

  ghost predicate Right(rules: seq<Rule>, matches: (nat, nat) -> bool, keys: map<nat, Option<nat>>,
          entries: seq<Entry>) {
    forall k :: 0 <= k < |entries| ==> EntryOk(rules, matches, keys, entries[k]) && entries[k].run <= k
  }

  // A run that is about to begin has done nothing.
  lemma {:induction false} NoDeedsYet(entries: seq<Entry>, run: nat)
    requires forall k :: 0 <= k < |entries| ==> entries[k].run < run
    ensures Of(entries, run) == []
  {
    if entries != [] { NoDeedsYet(entries[..|entries| - 1], run); }
  }

  lemma NewRun(rules: seq<Rule>, matches: (nat, nat) -> bool, keys: map<nat, Option<nat>>, entries: seq<Entry>)
    requires Right(rules, matches, keys, entries)
    ensures Of(entries, |entries|) == []
  {
    NoDeedsYet(entries, |entries|);
  }

  lemma RightBegun(rules: seq<Rule>, matches: (nat, nat) -> bool, keys: map<nat, Option<nat>>,
          entries: seq<Entry>, id: nat, key: Option<nat>)
    requires Right(rules, matches, keys, entries) && id !in keys
    ensures Right(rules, matches, keys[id := key], entries)
  {
  }

  lemma RightMore(rules: seq<Rule>, matches: (nat, nat) -> bool, keys: map<nat, Option<nat>>,
          entries: seq<Entry>, e: Entry)
    requires Right(rules, matches, keys, entries) && EntryOk(rules, matches, keys, e) && e.run <= |entries|
    ensures Right(rules, matches, keys, entries + [e])
  {
  }

  // Every rule a walk has taken and that listens to it has had its conditions
  // evaluated for it, with at most one exception.
  ghost predicate Seen(rules: seq<Rule>, w: Walks, checked: set<Check>, but: Option<Check>)
    requires w.keys.Keys == w.taken.Keys
  {
    forall id: nat, r: nat ::
      (id in w.taken && r < |w.taken[id]| && r < |rules| && Listens(rules[r], w.keys[id]) && Some(Check(id, r)) != but)
      ==> Check(id, r) in checked
  }

  lemma BeginSeen(stack: seq<Frame>, rules: seq<Rule>, w: Walks, checked: set<Check>, key: Option<nat>)
    requires Sound(|rules|, stack, w) && Seen(rules, w, checked, None)
    ensures Begun(w, key).keys.Keys == Begun(w, key).taken.Keys && Seen(rules, Begun(w, key), checked, None)
  {
  }

  lemma TakeSeen(rules: seq<Rule>, w: Walks, checked: set<Check>, walk: nat, r: nat)
    requires w.keys.Keys == w.taken.Keys && Seen(rules, w, checked, None) && walk in w.taken && |w.taken[walk]| == r
    ensures Seen(rules, w.(taken := w.taken[walk := w.taken[walk] + [r]]), checked, Some(Check(walk, r)))
  {
  }

  lemma CheckSeen(rules: seq<Rule>, w: Walks, checked: set<Check>, but: Check)
    requires w.keys.Keys == w.taken.Keys && Seen(rules, w, checked, Some(but))
    ensures Seen(rules, w, checked + {but}, None)
  {
  }

  lemma NoNeed(rules: seq<Rule>, w: Walks, checked: set<Check>, id: nat, r: nat)
    requires w.keys.Keys == w.taken.Keys && Seen(rules, w, checked, Some(Check(id, r)))
    requires id in w.keys && r < |rules| && !Listens(rules[r], w.keys[id])
    ensures Seen(rules, w, checked, None)
  {
  }

  // A walk that is through has had every rule that listens evaluate it.
  lemma ThroughMeansSeen(rules: seq<Rule>, w: Walks, checked: set<Check>, id: nat)
    requires w.keys.Keys == w.taken.Keys && Seen(rules, w, checked, None)
    requires id in w.taken && w.taken[id] == UpTo(|rules|)
    ensures forall r: nat :: r < |rules| && Listens(rules[r], w.keys[id]) ==> Check(id, r) in checked
  {
  }

  lemma TakeOnce(entries: seq<Entry>, taken: map<nat, seq<nat>>, walk: nat, r: nat)
    requires Once(entries, taken) && walk in taken && |taken[walk]| == r
    ensures Once(entries, taken[walk := taken[walk] + [r]]) && NotYet(entries, walk, r)
  {
  }

  lemma StillNotYet(a: seq<Entry>, b: seq<Entry>, made: nat, walk: nat, r: nat)
    requires NewEntries(a, b, made, {}) && NotYet(a, walk, r) && walk < made
    ensures NotYet(b, walk, r)
  {
    forall k | 0 <= k < |b| && ByWalk(b[k]) && b[k].walk == Some(walk) ensures b[k].rule < r {
      assert b[..|a|] == a;
      if k < |a| { assert a[k] == b[k]; }
    }
  }

  lemma EnterOnce(entries: seq<Entry>, taken: map<nat, seq<nat>>, e: Entry)
    requires Once(entries, taken)
    requires ByWalk(e) ==>
               e.walk.value in taken && e.rule < |taken[e.walk.value]| && NotYet(entries, e.walk.value, e.rule)
    ensures Once(entries + [e], taken)
  {
  }

  ghost predicate SameKeys(before: map<nat, Option<nat>>, after: map<nat, Option<nat>>) {
    forall id :: id in before ==> id in after && after[id] == before[id]
  }

  // Entries and walks are only added, and to no run that has begun.
  ghost predicate Later(a: seq<Entry>, before: map<nat, Option<nat>>, b: seq<Entry>, after: map<nat, Option<nat>>) {
    a <= b && SameKeys(before, after) && RunsOver(a, b)
  }

  // What has begun does no more.
  ghost predicate RunsOver(a: seq<Entry>, b: seq<Entry>) {
    forall run: nat :: run < |a| ==> Of(b, run) == Of(a, run)
  }

  lemma LaterStill(a: seq<Entry>, b: seq<Entry>, c: seq<Entry>,
                   k: map<nat, Option<nat>>, l: map<nat, Option<nat>>, m: map<nat, Option<nat>>)
    requires Later(a, k, b, l) && Later(b, l, c, m)
    ensures Later(a, k, c, m)
  {
    assert a == b[..|a|] == c[..|b|][..|a|];
  }

  lemma NewIsLater(a: seq<Entry>, b: seq<Entry>, k: map<nat, Option<nat>>, l: map<nat, Option<nat>>, made: nat,
          own: set<Own>)
    requires NewEntries(a, b, made, own) && NoRuns(own) && SameKeys(k, l)
    ensures Later(a, k, b, l)
  {
    forall run: nat | run < |a| ensures Of(b, run) == Of(a, run) { DeedsStay(a, b, made, own, run); }
  }

  lemma NothingLater(a: seq<Entry>, k: map<nat, Option<nat>>)
    ensures Later(a, k, a, k)
  {
  }

  lemma NoFewer(a: seq<Entry>, b: seq<Entry>, k: map<nat, Option<nat>>, l: map<nat, Option<nat>>)
    requires Later(a, k, b, l)
    ensures |a| <= |b|
  {
  }

  lemma KeyStays(a: seq<Entry>, b: seq<Entry>, k: map<nat, Option<nat>>, l: map<nat, Option<nat>>, id: nat)
    requires Later(a, k, b, l) && id in k
    ensures id in l && l[id] == k[id]
  {
  }

  lemma LaterActed(rules: seq<Rule>, a: seq<Entry>, b: seq<Entry>, k: map<nat, Option<nat>>, l: map<nat, Option<nat>>,
          from: nat, walk: Option<nat>, r: nat)
    requires Later(a, k, b, l) && HasActed(rules, a, from, walk, r)
    ensures HasActed(rules, b, from, walk, r)
  {
    var i :| from <= i < |a| && ActedAt(rules, a, i, walk, r);
    assert b[i] == a[i] && Of(b, i) == Of(a, i);
    assert ActedAt(rules, b, i, walk, r);
  }

  // One walk was lost: one of mine that has taken nothing since, or one begun
  // since that has taken nothing at all.
  ghost predicate OneLost(v: Walks, w: Walks, id: nat, mine: set<nat>) {
    && id !in v.lost && w.lost == v.lost + {id} && id in w.taken
    && (if id in mine then id in v.taken && w.taken[id] == v.taken[id] else v.made <= id && w.taken[id] == [])
  }

  // Walks are lost only by an interrupt that finds one off the stack, one at a
  // time, and nothing is given up.
  ghost predicate Losses(cut: Cut, v: Walks, w: Walks, mine: set<nat>) {
    && w.givenUp == v.givenUp
    && (cut != OffStack ==> w.lost == v.lost)
    && (cut == OffStack ==> exists id :: OneLost(v, w, id, mine))
  }

  lemma NothingLost(cut: Cut, v: Walks, w: Walks, mine: set<nat>)
    requires cut != OffStack && w.lost == v.lost && w.givenUp == v.givenUp
    ensures Losses(cut, v, w, mine)
  {
  }

  // What a piece loses after one that lost nothing.
  lemma LossesJoin(cut: Cut, u: Walks, v: Walks, w: Walks, mine: set<nat>)
    requires Losses(No, u, v, mine) && Losses(cut, v, w, {}) && u.made <= v.made && forall x :: x in mine ==> x < v.made
    ensures Losses(cut, u, w, mine)
  {
    if cut == OffStack {
      var id :| OneLost(v, w, id, {});
      assert OneLost(u, w, id, mine);
    }
  }

  lemma KnownIds(count: nat, stack: seq<Frame>, w: Walks)
    requires Sound(count, stack, w)
    ensures forall id :: id in IdsOf(stack) ==> id in w.taken && id < w.made
  {
  }

  // Lost while what was left of the passes was resumed, or after it was dropped.
  lemma LostSince(count: nat, stack: seq<Frame>, u: Walks, left: seq<Frame>, v: Walks, w: Walks)
    requires Sound(count, stack, u) && v == u.(givenUp := v.givenUp) && (left == stack || left == [])
    requires exists id :: OneLost(v, w, id, IdsOf(left))
    ensures exists id :: OneLost(u, w, id, IdsOf(stack))
  {
    KnownIds(count, stack, u);
    var id :| OneLost(v, w, id, IdsOf(left));
    assert OneLost(u, w, id, IdsOf(stack));
  }

  // How many interrupts found a walk off the stack.
  function Offs(landed: seq<Cut>): nat {
    if landed == [] then 0 else Offs(landed[..|landed| - 1]) + if landed[|landed| - 1] == OffStack then 1 else 0
  }

  // The interrupts so far, and the one that cut this piece short.
  function Landed(landed: seq<Cut>, cut: Cut): (after: seq<Cut>)
    ensures |after| == |landed| + if cut == No then 0 else 1
    ensures Offs(after) == Offs(landed) + if cut == OffStack then 1 else 0
  {
    if cut == No then landed else assert (landed + [cut])[..|landed|] == landed; landed + [cut]
  }

  // Lost while it was taken up again, or within its pass.
  lemma LostResumed(count: nat, stack: seq<Frame>, u: Walks, v: Walks, w: Walks, i: nat)
    requires Sound(count, stack, u) && i < |stack| && v.lost == u.lost && u.made <= v.made && stack[i].id in u.taken
    requires stack[i].id in v.taken && u.taken[stack[i].id] == v.taken[stack[i].id]
    requires exists id :: OneLost(v, w, id, {stack[i].id})
    ensures exists id :: OneLost(u, w, id, IdsOf(stack))
  {
    KnownIds(count, stack, u);
    var id :| OneLost(v, w, id, {stack[i].id});
    assert stack[i].id in IdsOf(stack);
    assert OneLost(u, w, id, IdsOf(stack));
  }

  lemma LostNone(v: Walks, w: Walks)
    requires Losses(No, v, w, {})
    ensures v.lost == w.lost && v.givenUp == w.givenUp
  {
  }

  // A walk just begun and lost at once has taken nothing.
  lemma LossesBegun(cut: Cut, u: Walks, w: Walks, key: Option<nat>)
    requires Losses(cut, Begun(u, key), w, {u.made})
    ensures Losses(cut, u, w, {})
  {
    if cut == OffStack {
      var id :| OneLost(Begun(u, key), w, id, {u.made});
      assert OneLost(u, w, id, {});
    }
  }

  // Of the rules from from up to to, those that fire for the walk have had
  // their action entered, unless the no-loop flag was up.
  ghost predicate Acted(rules: seq<Rule>, matches: (nat, nat) -> bool, keys: map<nat, Option<nat>>, entries: seq<Entry>,
                        firing: seq<bool>, id: nat, from: nat, to: nat)
    requires |firing| == |rules| && to <= |rules|
  {
    forall r: nat :: from <= r < to && Fires(rules, matches, keys, id, r) && !(rules[r].noLoop && firing[r])
                     ==> HasActed(rules, entries, 0, Some(id), r)
  }

  // Other pieces of the call take none of that back.
  lemma ActedMore(rules: seq<Rule>, matches: (nat, nat) -> bool,
                  keys: map<nat, Option<nat>>, keys': map<nat, Option<nat>>,
                  a: seq<Entry>, b: seq<Entry>, made: nat, own: set<Own>, firing: seq<bool>,
                  id: nat, from: nat, to: nat)
    requires |firing| == |rules| && to <= |rules| && id in keys && SameKeys(keys, keys')
    requires NewEntries(a, b, made, own) && NoRuns(own)
    requires Acted(rules, matches, keys, a, firing, id, from, to)
    ensures Acted(rules, matches, keys', b, firing, id, from, to)
  {
    forall r: nat | from <= r < to && Fires(rules, matches, keys', id, r) && !(rules[r].noLoop && firing[r])
      ensures HasActed(rules, b, 0, Some(id), r)
    {
      StillActed(rules, a, b, made, own, 0, Some(id), r);
    }
  }

  lemma NoneYet(rules: seq<Rule>, matches: (nat, nat) -> bool, keys: map<nat, Option<nat>>, entries: seq<Entry>,
                firing: seq<bool>, id: nat, from: nat)
    requires |firing| == |rules| && from <= |rules|
    ensures Acted(rules, matches, keys, entries, firing, id, from, from)
  {
  }

  lemma OneMoreActed(rules: seq<Rule>, matches: (nat, nat) -> bool, keys: map<nat, Option<nat>>, entries: seq<Entry>,
                     firing: seq<bool>, id: nat, from: nat, n: nat)
    requires |firing| == |rules| && n < |rules| && Acted(rules, matches, keys, entries, firing, id, from, n)
    requires Fires(rules, matches, keys, id, n) && !(rules[n].noLoop && firing[n]) ==>
               HasActed(rules, entries, 0, Some(id), n)
    ensures Acted(rules, matches, keys, entries, firing, id, from, n + 1)
  {
  }

  // A pass that was not cut short: its walk has taken every rule, those that
  // listen were evaluated for it, and those that fire were acted on.
  ghost predicate Served(rules: seq<Rule>, matches: (nat, nat) -> bool, w: Walks, checked: set<Check>,
          entries: seq<Entry>,
                         firing: seq<bool>, id: nat)
    requires |firing| == |rules|
  {
    && id in w.taken && id in w.keys && w.taken[id] == UpTo(|rules|)
    && (forall r: nat :: r < |rules| && Listens(rules[r], w.keys[id]) ==> Check(id, r) in checked)
    && Acted(rules, matches, w.keys, entries, firing, id, 0, |rules|)
  }

  // Every rule that fires for the walk has been acted on.
  ghost predicate ActedAll(rules: seq<Rule>, matches: (nat, nat) -> bool, keys: map<nat, Option<nat>>,
          entries: seq<Entry>, id: nat) {
    forall r: nat :: r < |rules| && Fires(rules, matches, keys, id, r) ==> HasActed(rules, entries, 0, Some(id), r)
  }

  lemma ActedMeans(rules: seq<Rule>, matches: (nat, nat) -> bool, w: Walks, checked: set<Check>, entries: seq<Entry>,
                   firing: seq<bool>, id: nat)
    requires |firing| == |rules| && Served(rules, matches, w, checked, entries, firing, id)
    requires forall r :: 0 <= r < |rules| && rules[r].noLoop ==> !firing[r]
    ensures ActedAll(rules, matches, w.keys, entries, id)
  {
  }

  lemma ActedLater(rules: seq<Rule>, matches: (nat, nat) -> bool, a: seq<Entry>, b: seq<Entry>,
                   k: map<nat, Option<nat>>, l: map<nat, Option<nat>>, id: nat)
    requires Later(a, k, b, l) && id in k && ActedAll(rules, matches, k, a, id)
    ensures ActedAll(rules, matches, l, b, id)
  {
    forall r: nat | r < |rules| && Fires(rules, matches, l, id, r) ensures HasActed(rules, b, 0, Some(id), r) {
      assert Fires(rules, matches, k, id, r);
      LaterActed(rules, a, b, k, l, 0, Some(id), r);
    }
  }

  // What the host calls in with: an input change or analog reading, a message,
  // an upstream command, every() or cron(), a watchdog's timer, a delayed
  // step's timer, a heldFor() rule's timer.
  datatype Call =
    | Event(key: Option<nat>)
    | Message(topic: nat)
    | Activity
    | Tick(key: Option<nat>)
    | Expired(fact: nat)
    | DelayedStep(rule: nat, step: nat)
    | HeldElapsed(rule: nat, matched: bool)

  // The fact a call's own event is for.
  function RootKey(call: Call): Option<Option<nat>> {
    match call
    case Event(key) => Some(key)
    case Message(topic) => Some(Some(topic))
    case Tick(key) => Some(key)
    case Expired(fact) => Some(Some(fact))
    case _ => None
  }

  // How a turn of the host's loop went: the interrupts in the recovery before
  // the call, where the call itself was cut short, its event's walk, and the
  // place of its first entry.
  datatype Trace = Trace(tries: nat, cut: Cut, root: Option<nat>, from: nat)

  // A call that was not cut short has had its event walk the rules, and, the
  // interrupt before it recovered from, every rule that fires was acted on; a
  // delayed step has run, with those after it up to the next that waits; and a
  // heldFor() rule whose conditions still held has acted.
  ghost predicate TraceOk(rules: seq<Rule>, matches: (nat, nat) -> bool, w: Walks, entries: seq<Entry>,
          call: Call, t: Trace) {
    && (t.root.Some? ==> t.root.value < w.made && RootKey(call).Some? &&
                         t.root.value in w.keys && w.keys[t.root.value] == RootKey(call).value)
    && (RootKey(call).Some? && t.cut == No ==> t.root.Some?)
    && (t.root.Some? && t.cut == No && t.tries <= RESUME_TRIES ==>
          ActedAll(rules, matches, w.keys, entries, t.root.value))
    && t.from <= |entries| && (t.cut == No ==> CallDone(rules, entries, call, t.from, t.tries <= RESUME_TRIES))
  }

  // A piece of code has written what it was to write.
  ghost predicate PieceAt(entries: seq<Entry>, k: nat) {
    k < |entries| && entries[k].Coded? && Of(entries, k) == WritesOf(entries[k].keys)
  }

  ghost predicate OnePiece(entries: seq<Entry>, from: nat) {
    exists k: nat :: from <= k && PieceAt(entries, k)
  }

  ghost predicate TwoPieces(entries: seq<Entry>, from: nat) {
    exists j: nat, k: nat :: from <= j < k && PieceAt(entries, j) && PieceAt(entries, k)
  }

  lemma PieceIsAt(a: seq<Entry>, b: seq<Entry>, keys: seq<nat>)
    requires Began(a, b, [Coded(|a|, keys)]) && Did(No, [], Of(b, |a|), WritesOf(keys))
    ensures PieceAt(b, |a|)
  {
    assert b[..|a| + 1][|a|] == Coded(|a|, keys);
    assert [] + WritesOf(keys) == WritesOf(keys);
  }

  lemma PieceStays(a: seq<Entry>, b: seq<Entry>, k: map<nat, Option<nat>>, l: map<nat, Option<nat>>, at: nat)
    requires Later(a, k, b, l) && PieceAt(a, at)
    ensures PieceAt(b, at)
  {
    assert b[at] == a[at];
  }

  lemma PiecesStay(a: seq<Entry>, b: seq<Entry>, k: map<nat, Option<nat>>, l: map<nat, Option<nat>>, from: nat)
    requires Later(a, k, b, l)
    ensures OnePiece(a, from) ==> OnePiece(b, from)
    ensures TwoPieces(a, from) ==> TwoPieces(b, from)
  {
    if OnePiece(a, from) {
      var i: nat :| from <= i && PieceAt(a, i);
      PieceStays(a, b, k, l, i);
    }
    if TwoPieces(a, from) {
      var i: nat, j: nat :| from <= i < j && PieceAt(a, i) && PieceAt(a, j);
      PieceStays(a, b, k, l, i);
      PieceStays(a, b, k, l, j);
    }
  }

  // One before, and one since.
  lemma PieceMore(a: seq<Entry>, b: seq<Entry>, k: map<nat, Option<nat>>, l: map<nat, Option<nat>>, from: nat)
    requires Later(a, k, b, l) && OnePiece(b, |a|) && from <= |a|
    ensures OnePiece(b, from) && (OnePiece(a, from) ==> TwoPieces(b, from))
  {
    var j: nat :| |a| <= j && PieceAt(b, j);
    if OnePiece(a, from) {
      var i: nat :| from <= i && PieceAt(a, i);
      PieceStays(a, b, k, l, i);
    }
  }

  // What a call has done, its event's walk apart: it has tried waiting arms
  // again, fed watchdogs if it is to, and run what a timer is for; the no-loop
  // flags are down if settled.
  ghost predicate CallDone(rules: seq<Rule>, entries: seq<Entry>, call: Call, from: nat, settled: bool) {
    InRange(rules, call) ==>
      && OnePiece(entries, from) && (call.Message? || call.Activity? ==> TwoPieces(entries, from))
      && TimerDone(rules, entries, call, from, settled)
  }

  predicate InRange(rules: seq<Rule>, call: Call) {
    match call
    case DelayedStep(r, i) => r < |rules| && i < |rules[r].delays|
    case HeldElapsed(r, _) => r < |rules|
    case _ => true
  }

  ghost predicate TimerDone(rules: seq<Rule>, entries: seq<Entry>, call: Call, from: nat, settled: bool) {
    match call
    case DelayedStep(r, i) =>
      r < |rules| && i < |rules[r].delays| ==>
        from < |entries| && Of(entries, from) == FromStep(r, rules[r].delays, i)
    case HeldElapsed(r, matched) => r < |rules| && matched && settled ==> HasActed(rules, entries, from, None, r)
    case _ => true
  }

  lemma CallDoneLess(rules: seq<Rule>, entries: seq<Entry>, call: Call, from: nat, settled: bool, less: bool)
    requires CallDone(rules, entries, call, from, settled) && (less ==> settled)
    ensures CallDone(rules, entries, call, from, less)
  {
    hide OnePiece, TwoPieces, HasActed, Of;
  }

  lemma CallDoneLater(rules: seq<Rule>, a: seq<Entry>, b: seq<Entry>, k: map<nat, Option<nat>>,
          l: map<nat, Option<nat>>, call: Call, from: nat, settled: bool)
    requires Later(a, k, b, l) && CallDone(rules, a, call, from, settled)
    ensures CallDone(rules, b, call, from, settled)
  {
    PiecesStay(a, b, k, l, from);
    if call.HeldElapsed? && HasActed(rules, a, from, None, call.rule) {
      LaterActed(rules, a, b, k, l, from, None, call.rule);
    }
    hide OnePiece, TwoPieces, HasActed, Of;
  }

  lemma TraceLater(rules: seq<Rule>, matches: (nat, nat) -> bool, v: Walks, a: seq<Entry>, w: Walks,
          b: seq<Entry>, call: Call, t: Trace)
    requires TraceOk(rules, matches, v, a, call, t) && v.made <= w.made && Later(a, v.keys, b, w.keys)
    ensures TraceOk(rules, matches, w, b, call, t)
  {
    if t.root.Some? && t.cut == No && t.tries <= RESUME_TRIES {
      ActedLater(rules, matches, a, b, v.keys, w.keys, t.root.value);
    }
    if t.cut == No { CallDoneLater(rules, a, b, v.keys, w.keys, call, t.from, t.tries <= RESUME_TRIES); }
    NoFewer(a, b, v.keys, w.keys);
  }

  function Interrupts(traces: seq<Trace>): nat {
    if traces == [] then 0
    else var t := traces[|traces| - 1];
      Interrupts(traces[..|traces| - 1]) + t.tries + if t.cut == No then 0 else 1
  }

  // Each call's walk is its own.
  predicate RootsApart(traces: seq<Trace>) {
    forall i, j :: 0 <= i < j < |traces| && traces[i].root.Some? && traces[j].root.Some? ==>
      traces[i].root.value < traces[j].root.value
  }

  lemma OneMoreTrace(traces: seq<Trace>, t: Trace, made: nat)
    requires RootsApart(traces)
    requires forall i :: 0 <= i < |traces| && traces[i].root.Some? ==> traces[i].root.value < made
    requires t.root.Some? ==> made <= t.root.value
    ensures RootsApart(traces + [t])
  {
  }

  lemma OneMoreCounted(traces: seq<Trace>, t: Trace)
    ensures Interrupts(traces + [t]) == Interrupts(traces) + t.tries + if t.cut == No then 0 else 1
  {
    assert (traces + [t])[..|traces|] == traces;
  }

  // The calls so far went as they should.
  ghost predicate AllOk(rules: seq<Rule>, matches: (nat, nat) -> bool, w: Walks, entries: seq<Entry>,
          calls: seq<Call>, traces: seq<Trace>)
  {
    |traces| <= |calls| && forall n :: 0 <= n < |traces| ==> TraceOk(rules, matches, w, entries, calls[n], traces[n])
  }

  lemma AllLater(rules: seq<Rule>, matches: (nat, nat) -> bool, v: Walks, a: seq<Entry>, w: Walks, b: seq<Entry>,
                 calls: seq<Call>, traces: seq<Trace>)
    requires AllOk(rules, matches, v, a, calls, traces) && v.made <= w.made && Later(a, v.keys, b, w.keys)
    ensures AllOk(rules, matches, w, b, calls, traces)
  {
    forall n | 0 <= n < |traces| ensures TraceOk(rules, matches, w, b, calls[n], traces[n]) {
      TraceLater(rules, matches, v, a, w, b, calls[n], traces[n]);
    }
  }

  lemma OneMoreOk(rules: seq<Rule>, matches: (nat, nat) -> bool, w: Walks, entries: seq<Entry>, calls: seq<Call>,
                  traces: seq<Trace>, t: Trace)
    requires |traces| < |calls| && AllOk(rules, matches, w, entries, calls, traces)
    requires TraceOk(rules, matches, w, entries, calls[|traces|], t)
    ensures AllOk(rules, matches, w, entries, calls, traces + [t])
  {
    hide TraceOk;
  }

  lemma RootsBelow(rules: seq<Rule>, matches: (nat, nat) -> bool, w: Walks, entries: seq<Entry>,
          calls: seq<Call>, traces: seq<Trace>)
    requires AllOk(rules, matches, w, entries, calls, traces)
    ensures forall i :: 0 <= i < |traces| && traces[i].root.Some? ==> traces[i].root.value < w.made
  {
  }

  // No recovery took its last try.
  predicate NoLastTry(traces: seq<Trace>) {
    forall n :: 0 <= n < |traces| ==> traces[n].tries < RESUME_TRIES
  }

  lemma OneMoreTry(traces: seq<Trace>, t: Trace)
    requires NoLastTry(traces + [t])
    ensures NoLastTry(traces) && t.tries < RESUME_TRIES
  {
    assert forall n :: 0 <= n < |traces| ==> (traces + [t])[n] == traces[n];
    assert (traces + [t])[|traces|] == t;
  }

  // ------------------------------------------------- what a piece of code writes

  function OwnBy(writer: Option<nat>): set<Own> {
    if writer.Some? then {OfRun(writer.value)} else {}
  }

  // Since before the code began, its own run is a new one.
  lemma SinceBegun(a: seq<Entry>, began: seq<Entry>, b: seq<Entry>, made: nat, e: Entry)
    requires began == a + [e] && e.Coded? && e.run == |a| && NewEntries(began, b, made, {OfRun(|a|)})
    ensures NewEntries(a, b, made, {}) && Began(a, b, [e]) && |a| < |b|
  {
    assert b[..|a|] == b[..|began|][..|a|];
    forall k | |a| <= k < |b| ensures MayBeNew(b[k], |a|, made, {}) {
      if k == |a| { assert b[..|began|][k] == e; } else { assert MayBeNew(b[k], |began|, made, {OfRun(|a|)}); }
    }
  }

  lemma NothingWritten(keys: seq<nat>)
    ensures WritesOf(keys[..0]) == []
  {
  }

  lemma OneMoreWritten(cut: Cut, keys: seq<nat>, i: nat, deeds: seq<Deed>)
    requires i < |keys| && deeds == WritesOf(keys[..i]) + [Writes(keys[i])]
    ensures deeds == WritesOf(keys[..i + 1]) && (cut != No ==> Did(cut, [], deeds, WritesOf(keys)))
  {
    assert WritesOf(keys[..i + 1]) == deeds;
    WritesBegin(keys, i + 1);
    hide WritesOf;
    assert [] + WritesOf(keys) == WritesOf(keys);
  }

  lemma WritesBegin(keys: seq<nat>, i: nat)
    requires i <= |keys|
    ensures WritesOf(keys[..i]) <= WritesOf(keys)
  {
  }

  lemma AllWritten(keys: seq<nat>, deeds: seq<Deed>)
    requires deeds == WritesOf(keys[..|keys|])
    ensures forall cut: Cut :: Did(cut, [], deeds, WritesOf(keys))
  {
    assert keys[..|keys|] == keys && [] + WritesOf(keys) == WritesOf(keys);
  }

  // ------------------------------------------------------- the parts of a step

  // What comes before a step runs, and after it.
  ghost method Parts(rule: Rule, r: nat, i: nat) returns (lead: seq<Deed>, rest: seq<Deed>)
    requires i < |rule.delays|
    ensures lead == if NextDelayed(rule, i) then [Arms(r, i + 1)] else []
    ensures rest == if NextDelayed(rule, i) then [] else Timeline(r, rule.delays, i + 1)
    ensures FromStep(r, rule.delays, i) == lead + ([Runs(r, i)] + rest)
  {
    StepAndRest(r, rule.delays, i);
    lead := if NextDelayed(rule, i) then [Arms(r, i + 1)] else [];
    rest := if NextDelayed(rule, i) then [] else Timeline(r, rule.delays, i + 1);
    hide FromStep, Timeline;
    assert [Runs(r, i)] + [] == [Runs(r, i)];
    assert [] + ([Runs(r, i)] + rest) == [Runs(r, i)] + rest;
  }

  lemma StepDid(cut: Cut, a: seq<Deed>, b: seq<Deed>, c: seq<Deed>, lead: seq<Deed>, step: Deed, rest: seq<Deed>)
    requires Did(No, a, b, lead) && c == b + [step]
    ensures cut != No ==> Did(cut, a, c, lead + ([step] + rest))
    ensures c == a + lead + [step]
  {
    assert a + (lead + ([step] + rest)) == c + rest;
  }

  lemma RestDid(cut: Cut, a: seq<Deed>, c: seq<Deed>, d: seq<Deed>, lead: seq<Deed>, step: Deed, rest: seq<Deed>)
    requires c == a + lead + [step] && Did(cut, c, d, rest)
    ensures Did(cut, a, d, lead + ([step] + rest))
  {
    assert a + (lead + ([step] + rest)) == c + rest;
  }

  // An action entered after before that was not cut short has run.
  lemma ActsIsActed(rules: seq<Rule>, a: seq<Entry>, b: seq<Entry>, walk: Option<nat>, r: nat, running: bool, from: nat)
    requires r < |rules| && from <= |a| && Began(a, b, [Entered(|a|, walk, r, running)])
    requires Did(No, [], Of(b, |a|), Timeline(r, rules[r].delays, 0))
    ensures HasActed(rules, b, from, walk, r)
  {
    assert b[..|a| + 1][|a|] == Entered(|a|, walk, r, running);
    assert [] + Timeline(r, rules[r].delays, 0) == Timeline(r, rules[r].delays, 0);
    assert ActedAt(rules, b, |a|, walk, r);
  }

  lemma AllDid(cut: Cut, deeds: seq<Deed>)
    ensures Did(cut, [], deeds, deeds)
  {
    assert [] + deeds == deeds;
  }

  lemma DidAll(cut: Cut, a: seq<Deed>, b: seq<Deed>, deeds: seq<Deed>)
    requires Did(No, a, b, deeds)
    ensures Did(cut, a, b, deeds)
  {
  }

  // An action's own entries, and those of its run, are its walk's.
  lemma ActionEntries(a: seq<Entry>, began: seq<Entry>, b: seq<Entry>, made: nat, later: nat, e: Entry)
    requires e.Entered? && began == a + [e] && NewEntries(a, began, made, {OfWalk(e.walk)})
    requires NewEntries(began, b, later, {OfRun(|a|)}) && made <= later
    ensures NewEntries(a, b, made, {OfWalk(e.walk)}) && Began(a, b, [e])
  {
    var own := {OfWalk(e.walk)} + {OfRun(|a|)};
    JustBegan(a, e);
    BeganStays(a, began, b, [e], later, {OfRun(|a|)});
    Widen(a, began, made, {OfWalk(e.walk)}, own);
    Widen(began, b, later, {OfRun(|a|)}, own);
    hide NewEntries, Began;
    NewEntriesJoin(a, began, b, made, later, own);
    BegunSince(a, b, made, {OfWalk(e.walk)}, |a|);
  }

  // A step's own entry, and those of its code.
  lemma StepEntries(a: seq<Entry>, began: seq<Entry>, b: seq<Entry>, made: nat, later: nat, e: Entry)
    requires began == a + [e] && e.run <= |a| && NewEntries(a, began, made, {OfRun(e.run)})
    requires NewEntries(began, b, later, {}) && made <= later
    ensures NewEntries(a, b, made, {OfRun(e.run)}) && Began(a, b, [e]) && Of(b, e.run) == Of(began, e.run)
  {
    JustBegan(a, e);
    BeganStays(a, began, b, [e], later, {});
    DeedsStay(began, b, later, {}, e.run);
    Widen(began, b, later, {}, {OfRun(e.run)});
    hide NewEntries, Began;
    NewEntriesJoin(a, began, b, made, later, {OfRun(e.run)});
  }

  lemma TwoAreOne(entries: seq<Entry>, from: nat)
    requires TwoPieces(entries, from)
    ensures OnePiece(entries, from)
  {
  }

  lemma RunIsOver(a: seq<Entry>, b: seq<Entry>, k: map<nat, Option<nat>>, l: map<nat, Option<nat>>, run: nat)
    requires Later(a, k, b, l) && run < |a|
    ensures Of(b, run) == Of(a, run)
  {
  }

  // A run that began when it did is new.
  lemma OwnRunIsNew(a: seq<Entry>, b: seq<Entry>, made: nat)
    requires NewEntries(a, b, made, {OfRun(|a|)})
    ensures NewEntries(a, b, made, {})
  {
    forall k | |a| <= k < |b| ensures MayBeNew(b[k], |a|, made, {}) {
      assert MayBeNew(b[k], |a|, made, {OfRun(|a|)});
    }
  }

  // A write's entry, and then those of its walk.
  lemma FiredEntries(a: seq<Entry>, e: seq<Entry>, b: seq<Entry>, made: nat, writer: Option<nat>)
    requires NewEntries(a, e, made + 1, OwnBy(writer)) && NewEntries(e, b, made + 1, {OfWalk(Some(made))})
    ensures NewEntries(a, b, made, OwnBy(writer))
    ensures writer.Some? && writer.value < |e| ==> Of(b, writer.value) == Of(e, writer.value)
  {
    NewOnly(e, b, made, made);
    MadeBefore(a, e, made + 1, made, OwnBy(writer));
    if writer.Some? && writer.value < |e| { DeedsStay(e, b, made, {}, writer.value); }
    Widen(e, b, made, {}, OwnBy(writer));
    hide NewEntries;
    NewEntriesJoin(a, e, b, made, made, OwnBy(writer));
  }
}
