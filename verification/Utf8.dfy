// The UTF-8 check for names, against the encoder of RFC 3629, sections 3 and 4.
module Utf8 {

  // A Unicode scalar value a NUL-terminated string can hold.
  predicate Scalar(c: bv32) {
    0 < c <= 0x10FFFF && !(0xD800 <= c <= 0xDFFF)
  }

  function Cont(c: bv32): bv8 { (0x80 | (c & 0x3F)) as bv8 }

  // RFC 3629, section 3.
  function Encode(c: bv32): (e: seq<bv8>)
    requires Scalar(c)
  {
    if c < 0x80 then [c as bv8]
    else if c < 0x800 then [(0xC0 | (c >> 6)) as bv8, Cont(c)]
    else if c < 0x10000 then [(0xE0 | (c >> 12)) as bv8, Cont(c >> 6), Cont(c)]
    else [(0xF0 | (c >> 18)) as bv8, Cont(c >> 12), Cont(c >> 6), Cont(c)]
  }

  predicate AllScalars(cs: seq<bv32>) {
    forall i :: 0 <= i < |cs| ==> Scalar(cs[i])
  }

  function EncodeAll(cs: seq<bv32>): seq<bv8>
    requires AllScalars(cs)
  {
    if cs == [] then [] else Encode(cs[0]) + EncodeAll(cs[1..])
  }

  ghost predicate Encodes(cs: seq<bv32>, t: seq<bv8>) {
    AllScalars(cs) && EncodeAll(cs) == t
  }

  ghost predicate Encodable(t: seq<bv8>) {
    exists cs :: Encodes(cs, t)
  }

  // ------------------------------------------------------- one character

  // How many continuation bytes the lead byte announces, the least value they
  // may spell, and the bits of the value it holds itself.
  datatype Lead = Lead(n: nat, min: bv32, bits: bv32) | NoLead

  function LeadOf(b: bv8): (l: Lead)
    ensures l.Lead? ==> l.n <= 3
  {
    var c := b as bv32;
    if c < 0x80 then Lead(0, 0, c)
    else if c & 0xE0 == 0xC0 then Lead(1, 0x80, c & 0x1F)
    else if c & 0xF0 == 0xE0 then Lead(2, 0x800, c & 0x0F)
    else if c & 0xF8 == 0xF0 then Lead(3, 0x10000, c & 0x07)
    else NoLead
  }

  predicate IsCont(b: bv8) { b & 0xC0 == 0x80 }

  function More(c: bv32, b: bv8): bv32 { (c << 6) | ((b as bv32) & 0x3F) }

  // The value the bits of a lead byte and its continuation bytes spell.
  function Value(bits: bv32, conts: seq<bv8>): bv32 {
    if conts == [] then bits else More(Value(bits, conts[..|conts| - 1]), conts[|conts| - 1])
  }

  predicate Accepted(min: bv32, c: bv32) {
    !(c < min || c > 0x10FFFF || (0xD800 <= c && c <= 0xDFFF))
  }

  // What an encoded character looks like to the check.
  ghost predicate Spells(e: seq<bv8>, c: bv32) {
    && e != [] && LeadOf(e[0]).Lead? && |e| == 1 + LeadOf(e[0]).n
    && (forall i :: 1 <= i < |e| ==> IsCont(e[i]))
    && Value(LeadOf(e[0]).bits, e[1..]) == c && Accepted(LeadOf(e[0]).min, c)
  }

  lemma ValueOf(bits: bv32, xs: seq<bv8>)
    requires |xs| <= 3
    ensures |xs| == 0 ==> Value(bits, xs) == bits
    ensures |xs| == 1 ==> Value(bits, xs) == More(bits, xs[0])
    ensures |xs| == 2 ==> Value(bits, xs) == More(More(bits, xs[0]), xs[1])
    ensures |xs| == 3 ==> Value(bits, xs) == More(More(More(bits, xs[0]), xs[1]), xs[2])
  {
    if |xs| > 0 { ValueOf(bits, xs[..|xs| - 1]); }
  }

  lemma ValueMore(bits: bv32, s: seq<bv8>, a: nat, p: nat)
    requires a <= p < |s|
    ensures Value(bits, s[a..p + 1]) == More(Value(bits, s[a..p]), s[p])
  {
    assert s[a..p + 1][..p - a] == s[a..p];
  }

  lemma EncodeSpells(c: bv32)
    requires Scalar(c)
    ensures Spells(Encode(c), c)
  {
    hide LeadOf, More, Cont, IsCont, Value;
    var e := Encode(c);
    if c < 0x80 {
      OneBack(c);
    } else if c < 0x800 {
      TwoBack(c);
    } else if c < 0x10000 {
      ThreeBack(c);
    } else {
      FourBack(c);
    }
    ValueOf(LeadOf(e[0]).bits, e[1..]);
  }

  lemma OneBack(c: bv32)
    requires c < 0x80
    ensures LeadOf(c as bv8) == Lead(0, 0, c)
  {
  }

  lemma TwoBack(c: bv32)
    requires 0x80 <= c < 0x800
    ensures LeadOf((0xC0 | (c >> 6)) as bv8) == Lead(1, 0x80, c >> 6)
    ensures IsCont(Cont(c)) && More(c >> 6, Cont(c)) == c
  {
  }

  lemma ThreeBack(c: bv32)
    requires 0x800 <= c < 0x10000
    ensures LeadOf((0xE0 | (c >> 12)) as bv8) == Lead(2, 0x800, c >> 12)
    ensures IsCont(Cont(c >> 6)) && IsCont(Cont(c)) && More(More(c >> 12, Cont(c >> 6)), Cont(c)) == c
  {
  }

  lemma FourBack(c: bv32)
    requires 0x10000 <= c <= 0x10FFFF
    ensures LeadOf((0xF0 | (c >> 18)) as bv8) == Lead(3, 0x10000, c >> 18)
    ensures IsCont(Cont(c >> 12)) && IsCont(Cont(c >> 6)) && IsCont(Cont(c))
    ensures More(More(More(c >> 18, Cont(c >> 12)), Cont(c >> 6)), Cont(c)) == c
  {
  }

  lemma SpellsEncode(e: seq<bv8>, c: bv32)
    requires Spells(e, c) && c != 0
    ensures Scalar(c) && Encode(c) == e
  {
    ValueOf(LeadOf(e[0]).bits, e[1..]);
    hide More, Cont, IsCont, Value, LeadOf, Encode, Scalar, Accepted;
    match LeadOf(e[0]).n {
      case 0 => OneForth(e[0], c); assert e == [e[0]];
      case 1 => TwoForth(e[0], e[1], c); assert e == [e[0], e[1]];
      case 2 => ThreeForth(e[0], e[1], e[2], c); assert e == [e[0], e[1], e[2]];
      case _ => FourForth(e[0], e[1], e[2], e[3], c); assert e == [e[0], e[1], e[2], e[3]];
    }
  }

  lemma OneForth(b: bv8, c: bv32)
    requires LeadOf(b).Lead? && LeadOf(b).n == 0 && c == LeadOf(b).bits && c != 0
    ensures Scalar(c) && Encode(c) == [b]
  {
  }

  lemma TwoForth(b: bv8, x: bv8, c: bv32)
    requires LeadOf(b).Lead? && LeadOf(b).n == 1 && IsCont(x)
    requires c == More(LeadOf(b).bits, x) && Accepted(LeadOf(b).min, c)
    ensures Scalar(c) && Encode(c) == [b, x]
  {
    assert c < 0x800 && (0xC0 | (c >> 6)) as bv8 == b && Cont(c) == x;
  }

  lemma ThreeForth(b: bv8, x: bv8, y: bv8, c: bv32)
    requires LeadOf(b).Lead? && LeadOf(b).n == 2 && IsCont(x) && IsCont(y)
    requires c == More(More(LeadOf(b).bits, x), y) && Accepted(LeadOf(b).min, c)
    ensures Scalar(c) && Encode(c) == [b, x, y]
  {
    ThreeBits(b, x, y, c);
    hide LeadOf, IsCont, More, Cont;
  }

  lemma ThreeBits(b: bv8, x: bv8, y: bv8, c: bv32)
    requires LeadOf(b).Lead? && LeadOf(b).n == 2 && IsCont(x) && IsCont(y)
    requires c == More(More(LeadOf(b).bits, x), y)
    ensures LeadOf(b).min == 0x800 && c < 0x10000
    ensures (0xE0 | (c >> 12)) as bv8 == b && Cont(c >> 6) == x && Cont(c) == y
  {
  }

  lemma FourForth(b: bv8, x: bv8, y: bv8, z: bv8, c: bv32)
    requires LeadOf(b).Lead? && LeadOf(b).n == 3 && IsCont(x) && IsCont(y) && IsCont(z)
    requires c == More(More(More(LeadOf(b).bits, x), y), z) && Accepted(LeadOf(b).min, c)
    ensures Scalar(c) && Encode(c) == [b, x, y, z]
  {
    FourBits(b, x, y, z, c);
    hide LeadOf, IsCont, More, Cont;
  }

  lemma FourBits(b: bv8, x: bv8, y: bv8, z: bv8, c: bv32)
    requires b & 0xF8 == 0xF0 && IsCont(x) && IsCont(y) && IsCont(z)
    requires c == More(More(More((b as bv32) & 0x07, x), y), z) && 0x10000 <= c <= 0x10FFFF
    ensures (0xF0 | (c >> 18)) as bv8 == b && Cont(c >> 12) == x && Cont(c >> 6) == y && Cont(c) == z
  {
    var a := (b as bv32) & 0x07;
    var d := More(a, x);
    var f := More(d, y);
    MoreBack(a, x);
    MoreBack(d, y);
    MoreBack(f, z);
    ShiftTwice(c);
    assert (0xF0 | a) as bv8 == b;
    hide More, Cont, IsCont;
  }

  lemma MoreBack(c: bv32, b: bv8)
    requires c < 0x40000 && IsCont(b)
    ensures More(c, b) >> 6 == c && Cont(More(c, b)) == b
    ensures c < 0x40 ==> More(c, b) < 0x1000
    ensures c < 0x1000 ==> More(c, b) < 0x40000
  {
  }

  lemma ShiftTwice(c: bv32)
    ensures c >> 12 == (c >> 6) >> 6 && c >> 18 == ((c >> 6) >> 6) >> 6
  {
  }

  // ------------------------------------------------------------ whole texts

  // Where the text ends.
  ghost predicate EndsAt(s: seq<bv8>, k: nat) {
    k < |s| && s[k] == 0 && forall i :: 0 <= i < k ==> s[i] != 0
  }

  // Two characters whose bytes begin the same text are the same.
  lemma SameStart(a: bv32, b: bv32, x: seq<bv8>, y: seq<bv8>)
    requires Scalar(a) && Scalar(b) && Encode(a) + x == Encode(b) + y
    ensures a == b && x == y
  {
    var e, f := Encode(a), Encode(b);
    EncodeSpells(a);
    EncodeSpells(b);
    hide Encode, LeadOf, Value, IsCont, Scalar;
    assert (e + x)[0] == e[0] && (f + y)[0] == f[0];
    assert |e| == |f|;
    assert e == (e + x)[..|e|] && f == (f + y)[..|f|];
    assert x == (e + x)[|e|..] && y == (f + y)[|f|..];
  }

  // A character in front makes no difference to what follows it.
  lemma Peel(c: bv32, t: seq<bv8>)
    requires Scalar(c)
    ensures Encodable(Encode(c) + t) <==> Encodable(t)
  {
    hide Encode, Scalar;
    if Encodable(t) {
      var cs :| Encodes(cs, t);
      assert ([c] + cs)[1..] == cs;
      assert Encodes([c] + cs, Encode(c) + t);
    }
    if Encodable(Encode(c) + t) {
      var cs :| Encodes(cs, Encode(c) + t);
      NotEmpty(c);
      assert cs != [];
      SameStart(cs[0], c, EncodeAll(cs[1..]), t);
      assert Encodes(cs[1..], t);
    }
  }

  lemma NotEmpty(c: bv32)
    requires Scalar(c)
    ensures Encode(c) != []
  {
  }

  // Non-empty text that is an encoding begins with a character.
  lemma StartsWithCharacter(t: seq<bv8>)
    requires t != [] && Encodable(t)
    ensures exists c, x :: Scalar(c) && t == Encode(c) + x
  {
    var cs :| Encodes(cs, t);
    assert t == Encode(cs[0]) + EncodeAll(cs[1..]);
  }

  // The first character of an encodable text, as the check sees it.
  lemma FirstSpells(t: seq<bv8>)
    requires t != [] && Encodable(t)
    ensures LeadOf(t[0]).Lead? && |t| >= 1 + LeadOf(t[0]).n
    ensures forall i :: 1 <= i <= LeadOf(t[0]).n ==> IsCont(t[i])
    ensures var l := LeadOf(t[0]); Accepted(l.min, Value(l.bits, t[1..1 + l.n]))
  {
    StartsWithCharacter(t);
    var c, x :| Scalar(c) && t == Encode(c) + x;
    EncodeSpells(c);
    var e := Encode(c);
    hide Encode, LeadOf, Value, IsCont, Scalar;
    assert t[0] == e[0];
    assert t[1..|e|] == e[1..];
    assert forall i :: 0 <= i < |e| ==> t[i] == e[i];
  }

  lemma ZeroIsNoCont(b: bv8)
    requires IsCont(b)
    ensures b != 0
  {
  }

  // The whole of a character is there, and is one.
  lemma Character(s: seq<bv8>, p0: nat, p: nat, k: nat, c: bv32)
    requires p0 < p <= k <= |s| && LeadOf(s[p0]).Lead? && p == p0 + 1 + LeadOf(s[p0]).n && s[p0] != 0
    requires forall i :: p0 < i < p ==> IsCont(s[i])
    requires c == Value(LeadOf(s[p0]).bits, s[p0 + 1..p]) && Accepted(LeadOf(s[p0]).min, c)
    ensures Encodable(s[p0..k]) <==> Encodable(s[p..k])
  {
    var e := s[p0..p];
    NotZero(s[p0], s[p0 + 1..p], c);
    hide Encode, LeadOf, Value, IsCont, Scalar, Accepted, Encodable;
    assert e[1..] == s[p0 + 1..p];
    assert Spells(e, c);
    SpellsEncode(e, c);
    assert s[p0..k] == e + s[p..k];
    Peel(c, s[p..k]);
  }

  lemma NotZero(b: bv8, conts: seq<bv8>, c: bv32)
    requires b != 0 && LeadOf(b).Lead? && |conts| == LeadOf(b).n
    requires c == Value(LeadOf(b).bits, conts) && Accepted(LeadOf(b).min, c)
    ensures c != 0
  {
    if LeadOf(b).n == 0 { ValueOf(LeadOf(b).bits, conts); }
  }

  // app_config_utf8_ok(): reads no further than the terminating NUL, and
  // accepts exactly the encodings of sequences of non-zero scalar values.
  method Utf8Ok(s: seq<bv8>, ghost k: nat) returns (ok: bool)
    requires EndsAt(s, k)
    ensures ok <==> Encodable(s[..k])
  {
    hide LeadOf, Encodable, Value, IsCont, More, Accepted;
    var p := 0;
    assert s[0..k] == s[..k];
    while s[p] != 0
      invariant 0 <= p <= k
      invariant Encodable(s[..k]) <==> Encodable(s[p..k])
      decreases k - p
    {
      ghost var p0 := p;
      var lead := LeadOf(s[p]);
      p := p + 1;
      if lead.NoLead? { NoLeadNoText(s[p0..k]); return false; }
      var c, n := lead.bits, lead.n;
      assert s[p0 + 1..p] == [];
      ValueNone(c);
      while n > 0
        invariant 0 <= n <= lead.n && p == p0 + 1 + lead.n - n <= k
        invariant forall i :: p0 < i < p ==> IsCont(s[i])
        invariant c == Value(lead.bits, s[p0 + 1..p])
      {
        if !IsCont(s[p]) { CutShort(s, p0, p, k); return false; }
        ZeroIsNoCont(s[p]);
        ValueMore(lead.bits, s, p0 + 1, p);
        c := More(c, s[p]);
        p := p + 1;
        n := n - 1;
      }
      if !Accepted(lead.min, c) { BadValue(s, p0, p, k, c); return false; }
      Character(s, p0, p, k, c);
    }
    ok := true;
    assert s[k..k] == [];
    EmptyEncodable();
  }

  lemma ValueNone(bits: bv32)
    ensures Value(bits, []) == bits
  {
  }

  lemma EmptyEncodable()
    ensures Encodable([])
  {
    assert Encodes([], []);
  }

  lemma NoLeadNoText(t: seq<bv8>)
    requires t != [] && LeadOf(t[0]).NoLead?
    ensures !Encodable(t)
  {
    if Encodable(t) { FirstSpells(t); }
  }

  // A continuation byte is missing.
  lemma CutShort(s: seq<bv8>, p0: nat, p: nat, k: nat)
    requires p0 < p <= k < |s| && LeadOf(s[p0]).Lead? && p <= p0 + LeadOf(s[p0]).n && !IsCont(s[p])
    ensures !Encodable(s[p0..k])
  {
    hide LeadOf, Value, IsCont, Accepted, Encodable;
    assert s[p0..k][0] == s[p0];
    assert p < k ==> s[p0..k][p - p0] == s[p];
    if Encodable(s[p0..k]) { FirstSpells(s[p0..k]); }
  }

  lemma Within(s: seq<bv8>, a: nat, b: nat, c: nat)
    requires a < b <= c <= |s|
    ensures s[a..c][0] == s[a] && s[a..c][1..b - a] == s[a + 1..b]
  {
    var t, u := s[a..c][1..b - a], s[a + 1..b];
    assert forall i :: 0 <= i < |u| ==> t[i] == s[a..c][i + 1];
    assert t == u;
  }

  // Overlong, a surrogate, or too large.
  lemma BadValue(s: seq<bv8>, p0: nat, p: nat, k: nat, c: bv32)
    requires p0 < p <= k < |s| && LeadOf(s[p0]).Lead? && p == p0 + 1 + LeadOf(s[p0]).n
    requires c == Value(LeadOf(s[p0]).bits, s[p0 + 1..p]) && !Accepted(LeadOf(s[p0]).min, c)
    ensures !Encodable(s[p0..k])
  {
    hide LeadOf, Value, IsCont, Accepted, Encodable;
    Within(s, p0, p, k);
    if Encodable(s[p0..k]) { FirstSpells(s[p0..k]); }
  }
}
