// The names of the inputs and outputs: each is a topic of its own, and a
// stored configuration that breaks this is put right.
module IoNames {
  import opened Utf8

  type Name = seq<bv8>

  const IO_SPACE_MAX := 11
  const SLASH: bv8 := 0x2F
  const PLUS: bv8 := 0x2B
  const HASH: bv8 := 0x23

  const READ: Name := [0x72, 0x65, 0x61, 0x64]
  const SET: Name := [0x73, 0x65, 0x74]
  const INPUT_RESERVED: seq<Name> := [READ]
  const OUTPUT_RESERVED: seq<Name> := [READ, SET]

  const DIGITS: seq<bv8> := [0x30, 0x31, 0x32, 0x33, 0x34, 0x35, 0x36, 0x37, 0x38, 0x39]

  // snprintf("%d") of a channel number.
  function Decimal(n: nat): Name
    requires n < 100
  {
    if n < 10 then [DIGITS[n]] else [DIGITS[n / 10], DIGITS[n % 10]]
  }

  // The digits, in ASCII.
  lemma DecimalSpells(n: nat)
    requires n < 100
    ensures n < 10 ==> Decimal(n) == [0x30 + n as bv8]
    ensures n >= 10 ==> Decimal(n) == [0x30 + (n / 10) as bv8, 0x30 + (n % 10) as bv8]
  {
    if n < 10 {
      DigitIs(n);
    } else {
      DigitIs(n % 10);
      DigitIs(n / 10);
    }
    hide DIGITS;
  }

  lemma DigitIs(d: nat)
    requires d < 10
    ensures DIGITS[d] == 0x30 + d as bv8
  {
  }

  lemma DigitsDiffer(m: nat, n: nat)
    requires m < 10 && n < 10 && DIGITS[m] == DIGITS[n]
    ensures m == n
  {
  }

  lemma NumbersDiffer(m: nat, n: nat)
    requires m < 100 && n < 100 && Decimal(m) == Decimal(n)
    ensures m == n
  {
    if m < 10 {
      DigitsDiffer(m, n);
    } else {
      assert Decimal(m)[0] == DIGITS[m / 10] && Decimal(m)[1] == DIGITS[m % 10];
      DigitsDiffer(m / 10, n / 10);
      DigitsDiffer(m % 10, n % 10);
    }
  }

  // io_fragment(): a channel's topic is its name, or its number without one.
  function Fragment(names: seq<Name>, i: nat): Name
    requires i < |names| <= IO_SPACE_MAX
  {
    if names[i] != [] then names[i] else Decimal(i + 1)
  }

  predicate NulFree(n: Name) {
    forall k :: 0 <= k < |n| ==> n[k] != 0
  }

  // A name that cannot be a topic.
  ghost predicate Problem(n: Name, reserved: seq<Name>) {
    n != [] && (SLASH in n || PLUS in n || HASH in n || !Encodable(n) || n in reserved)
  }

  predicate SameTopic(names: seq<Name>, i: nat, j: nat)
    requires i < |names| <= IO_SPACE_MAX && j < |names|
  {
    i != j && Fragment(names, i) == Fragment(names, j)
  }

  ghost predicate Clashes(names: seq<Name>, i: nat)
    requires i < |names| <= IO_SPACE_MAX
  {
    exists j :: 0 <= j < |names| && SameTopic(names, i, j)
  }

  // What io_space_ok() accepts: names that can be topics, no two alike.
  ghost predicate SpaceOk(names: seq<Name>, reserved: seq<Name>)
    requires |names| <= IO_SPACE_MAX
  {
    forall i :: 0 <= i < |names| ==> !Problem(names[i], reserved) && !Clashes(names, i)
  }

  // io_name_problem()
  method NameProblem(n: Name, reserved: seq<Name>) returns (bad: bool)
    requires NulFree(n)
    ensures bad <==> Problem(n, reserved)
  {
    if n == [] { return false; }
    if SLASH in n || PLUS in n || HASH in n { return true; }
    hide Encodable;
    var buffer := n + [0];
    var valid := Utf8Ok(buffer, |n|);
    assert buffer[..|n|] == n;
    if !valid { return true; }
    for r := 0 to |reserved|
      invariant forall k :: 0 <= k < r ==> n != reserved[k]
    {
      if n == reserved[r] { return true; }
    }
    bad := false;
  }

  // io_clash(): another channel with the same topic, or -1.
  method Clash(names: seq<Name>, i: nat) returns (j: int)
    requires i < |names| <= IO_SPACE_MAX
    ensures j == -1 <==> !Clashes(names, i)
    ensures j != -1 ==> 0 <= j < |names| && SameTopic(names, i, j)
  {
    var a := Fragment(names, i);
    for k := 0 to |names|
      invariant forall m :: 0 <= m < k ==> !SameTopic(names, i, m)
    {
      if k == i { continue; }
      var b := Fragment(names, k);
      if a == b {
        assert SameTopic(names, i, k);
        return k;
      }
    }
    j := -1;
  }

  // io_space_ok()
  method CheckSpace(names: seq<Name>, reserved: seq<Name>) returns (ok: bool)
    requires |names| <= IO_SPACE_MAX && forall i :: 0 <= i < |names| ==> NulFree(names[i])
    ensures ok <==> SpaceOk(names, reserved)
  {
    for i := 0 to |names|
      invariant forall k :: 0 <= k < i ==> !Problem(names[k], reserved) && !Clashes(names, k)
    {
      var bad := NameProblem(names[i], reserved);
      if bad { return false; }
      var j := Clash(names, i);
      if j >= 0 { return false; }
    }
    ok := true;
  }

  // ------------------------------------------------------------ putting right

  // Only names were cleared.
  predicate Cleared(before: seq<Name>, after: seq<Name>) {
    |before| == |after| && forall i :: 0 <= i < |after| ==> after[i] == before[i] || after[i] == []
  }

  // A proper name that is no other channel's name, nor any other's number.
  ghost predicate Undisputed(names: seq<Name>, reserved: seq<Name>, i: nat)
    requires i < |names| <= IO_SPACE_MAX
  {
    && names[i] != [] && !Problem(names[i], reserved)
    && forall j :: 0 <= j < |names| && j != i ==> Distinct(names, i, j)
  }

  predicate Distinct(names: seq<Name>, i: nat, j: nat)
    requires i < |names| <= IO_SPACE_MAX && j < |names|
  {
    names[i] != names[j] && names[i] != Decimal(j + 1)
  }

  // Whatever else was cleared, an undisputed name does not clash.
  lemma UndisputedStays(before: seq<Name>, after: seq<Name>, reserved: seq<Name>, i: nat)
    requires i < |before| == |after| <= IO_SPACE_MAX && Cleared(before, after)
    requires Undisputed(before, reserved, i) && after[i] == before[i]
    ensures !Clashes(after, i)
  {
    forall j | 0 <= j < |after| ensures !SameTopic(after, i, j) {
      if j != i { assert Distinct(before, i, j); }
    }
  }

  function Named(names: seq<Name>): (n: nat)
    ensures n <= |names|
  {
    if names == [] then 0 else (if names[0] != [] then 1 else 0) + Named(names[1..])
  }

  lemma {:induction false} FewerNamed(before: seq<Name>, after: seq<Name>)
    requires Cleared(before, after)
    ensures Named(after) <= Named(before)
    ensures before != after ==> Named(after) < Named(before)
  {
    if before != [] {
      FewerNamed(before[1..], after[1..]);
      assert before == [before[0]] + before[1..] && after == [after[0]] + after[1..];
    }
  }

  lemma {:induction false} NoneNamed(names: seq<Name>, i: nat)
    requires Named(names) == 0 && i < |names|
    ensures names[i] == []
  {
    if i > 0 { NoneNamed(names[1..], i - 1); }
  }

  // Numbers do not clash with each other: without a clashing name there is no
  // clash at all.
  lemma NamesClashOrNobody(names: seq<Name>, i: nat)
    requires i < |names| <= IO_SPACE_MAX
    requires forall k :: 0 <= k < |names| && names[k] != [] ==> !Clashes(names, k)
    ensures !Clashes(names, i)
  {
    if Clashes(names, i) {
      var j :| 0 <= j < |names| && SameTopic(names, i, j);
      if names[i] == [] {
        if names[j] == [] { NumbersDiffer(i + 1, j + 1); }
        assert SameTopic(names, j, i);
      }
    }
  }

  // A set of names is dropped together.
  method DropAll(names: array<Name>, drop: array<bool>)
    requires drop.Length == names.Length
    modifies names
    ensures forall i :: 0 <= i < names.Length ==> names[i] == if drop[i] then [] else old(names[i])
  {
    for i := 0 to names.Length
      invariant forall k :: 0 <= k < names.Length ==> names[k] == if k < i && drop[k] then [] else old(names[k])
    {
      if drop[i] { names[i] := []; }
    }
  }

  // One round: every name that clashes, dropped together.
  method DropClashing(names: array<Name>) returns (any: bool)
    requires names.Length <= IO_SPACE_MAX
    modifies names
    ensures forall i :: 0 <= i < names.Length ==>
              names[i] == if old(names[i]) != [] && Clashes(old(names[..]), i) then [] else old(names[i])
    ensures !any ==> names[..] == old(names[..])
    ensures any ==> names[..] != old(names[..])
  {
    hide Clashes;
    ghost var before := names[..];
    var drop := new bool[names.Length](_ => false);
    any := false;
    for i := 0 to names.Length
      invariant names[..] == before
      invariant forall k :: 0 <= k < i ==> drop[k] == (before[k] != [] && Clashes(before, k))
      invariant any <==> exists k :: 0 <= k < i && drop[k]
    {
      var j := -1;
      if names[i] != [] { j := Clash(names[..], i); }
      drop[i] := j >= 0;
      if j >= 0 { any := true; }
    }
    if any {
      ghost var k :| 0 <= k < names.Length && drop[k];
      DropAll(names, drop);
      assert names[..][k] != before[k];
    }
  }

  // io_space_normalize(): within its rounds the space becomes one that
  // io_space_ok() accepts. Names are only ever cleared, none in a space that
  // was accepted already, and never an undisputed one.
  method Normalize(names: array<Name>, reserved: seq<Name>)
    requires names.Length <= IO_SPACE_MAX && forall i :: 0 <= i < names.Length ==> NulFree(names[i])
    modifies names
    ensures SpaceOk(names[..], reserved)
    ensures Cleared(old(names[..]), names[..])
    ensures SpaceOk(old(names[..]), reserved) ==> names[..] == old(names[..])
    ensures forall i :: 0 <= i < names.Length && Undisputed(old(names[..]), reserved, i) ==> names[i] == old(names[i])
  {
    ghost var before := names[..];
    ClearProblems(names, reserved);
    var round := 0;
    var any := true;
    while round < IO_SPACE_MAX && any
      invariant 0 <= round <= IO_SPACE_MAX
      invariant Cleared(before, names[..]) && forall i :: 0 <= i < names.Length ==> !Problem(names[i], reserved)
      invariant SpaceOk(before, reserved) ==> names[..] == before
      invariant forall i :: 0 <= i < names.Length && Undisputed(before, reserved, i) ==> names[i] == before[i]
      invariant any ==> Named(names[..]) <= IO_SPACE_MAX - round
      invariant !any ==> forall k :: 0 <= k < names.Length && names[k] != [] ==> !Clashes(names[..], k)
    {
      ghost var now := names[..];
      forall i | 0 <= i < names.Length && Undisputed(before, reserved, i) ensures !Clashes(now, i) {
        UndisputedStays(before, now, reserved, i);
      }
      any := DropClashing(names);
      FewerNamed(now, names[..]);
      round := round + 1;
    }
    NoClashLeft(names[..], any);
  }

  // io_names_normalize(): a stored configuration's inputs and its outputs.
  method NormalizeAll(inputs: array<Name>, outputs: array<Name>)
    requires inputs != outputs && inputs.Length <= IO_SPACE_MAX && outputs.Length <= IO_SPACE_MAX
    requires forall i :: 0 <= i < inputs.Length ==> NulFree(inputs[i])
    requires forall i :: 0 <= i < outputs.Length ==> NulFree(outputs[i])
    modifies inputs, outputs
    ensures SpaceOk(inputs[..], INPUT_RESERVED) && SpaceOk(outputs[..], OUTPUT_RESERVED)
    ensures Cleared(old(inputs[..]), inputs[..]) && Cleared(old(outputs[..]), outputs[..])
  {
    Normalize(inputs, INPUT_RESERVED);
    Normalize(outputs, OUTPUT_RESERVED);
  }

  lemma NoClashLeft(names: seq<Name>, any: bool)
    requires |names| <= IO_SPACE_MAX && (any ==> Named(names) == 0)
    requires !any ==> forall k :: 0 <= k < |names| && names[k] != [] ==> !Clashes(names, k)
    ensures forall i :: 0 <= i < |names| ==> !Clashes(names, i)
  {
    if any { forall k | 0 <= k < |names| ensures names[k] == [] { NoneNamed(names, k); } }
    forall i | 0 <= i < |names| ensures !Clashes(names, i) { NamesClashOrNobody(names, i); }
  }

  // The first pass: names that cannot be topics.
  method ClearProblems(names: array<Name>, reserved: seq<Name>)
    requires forall i :: 0 <= i < names.Length ==> NulFree(names[i])
    modifies names
    ensures forall i :: 0 <= i < names.Length ==>
              names[i] == if Problem(old(names[i]), reserved) then [] else old(names[i])
  {
    for i := 0 to names.Length
      invariant forall k :: 0 <= k < names.Length ==>
                  names[k] == if k < i && Problem(old(names[k]), reserved) then [] else old(names[k])
    {
      var bad := NameProblem(names[i], reserved);
      if bad { names[i] := []; }
    }
  }

  // A name that is dropped frees its number, which can clash in turn: three
  // names that need a second round.
  lemma ChainOfClashes()
    ensures var names: seq<Name> := [[0x33], [0x78], [0x78]];
            !Clashes(names, 0) && Clashes(names, 1) && Clashes(names, 2) && Clashes([[0x33], [], []], 0)
  {
    var names: seq<Name> := [[0x33], [0x78], [0x78]];
    assert SameTopic(names, 1, 2) && SameTopic(names, 2, 1);
    var after: seq<Name> := [[0x33], [], []];
    assert Fragment(after, 2) == [0x33];
    assert SameTopic(after, 0, 2);
  }
}
