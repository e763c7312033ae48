// Read Device Identification (Modbus Application Protocol V1.1b3, section
// 6.21): a table of objects delivered in pages of one PDU each.
module DeviceId {
  import opened Bytes
  import opened MbPdu

  const EXC_ILLEGAL_ADDR: byte := 0x02
  const EXC_DEVICE_FAILURE: byte := 0x04

  const BASIC: byte := 1
  const REGULAR: byte := 2
  const EXTENDED: byte := 3
  const INDIVIDUAL: byte := 4

  const OBJ_REVISION := 0x02
  const OBJ_VENDOR_URL := 0x03
  const OBJ_USER_APP_NAME := 0x06
  const OBJ_PRIVATE_FIRST := 0x80

  const HDR := 6

  datatype Obj = Obj(id: byte, value: seq<byte>)

  predicate InCategory(code: byte, id: byte) {
    if code == BASIC then id <= OBJ_REVISION
    else if code == REGULAR then OBJ_VENDOR_URL <= id <= OBJ_USER_APP_NAME
    else code == EXTENDED && id >= OBJ_PRIVATE_FIRST
  }

  // The ids of the three streams, which share none; objects 7 to 127 are in no
  // stream.
  lemma StreamsApart(id: byte)
    ensures InCategory(1, id) <==> id in {0, 1, 2}
    ensures InCategory(2, id) <==> id in {3, 4, 5, 6}
    ensures InCategory(3, id) <==> 0x80 <= id
    ensures forall code: byte :: code == 0 || code > 3 ==> !InCategory(code, id)
  {
  }

  predicate Sorted(objs: seq<Obj>) {
    forall i, j :: 0 <= i < j < |objs| ==> objs[i].id < objs[j].id
  }

  // The value fits one PDU behind the response header.
  predicate Deliverable(o: Obj) {
    HDR + 2 + |o.value| <= DATA_MAX
  }

  predicate AllDeliverable(objs: seq<Obj>) {
    forall i :: 0 <= i < |objs| ==> Deliverable(objs[i])
  }

  predicate Has(objs: seq<Obj>, code: byte, i: nat) {
    i < |objs| && InCategory(code, objs[i].id)
  }

  ghost predicate HasAny(objs: seq<Obj>, code: byte) {
    exists i: nat :: Has(objs, code, i)
  }

  // ------------------------------------------------------------- the layout

  function One(o: Obj): seq<byte>
    requires |o.value| < 256
  {
    [o.id, |o.value|] + o.value
  }

  function Body(objs: seq<Obj>): (s: seq<byte>)
    requires forall i :: 0 <= i < |objs| ==> |objs[i].value| < 256
  {
    if objs == [] then [] else Body(objs[..|objs| - 1]) + One(objs[|objs| - 1])
  }

  // What a client makes of count objects laid out one after the other.
  function Decode(s: seq<byte>, count: nat): seq<Obj> {
    if count == 0 || |s| < 2 || |s| < 2 + s[1] as int then []
    else [Obj(s[0], s[2..2 + s[1] as int])] + Decode(s[2 + s[1] as int..], count - 1)
  }

  lemma {:induction false} BodyFront(objs: seq<Obj>)
    requires objs != [] && forall i :: 0 <= i < |objs| ==> |objs[i].value| < 256
    ensures Body(objs) == One(objs[0]) + Body(objs[1..])
  {
    var n := |objs| - 1;
    if n == 0 {
      assert objs[..n] == [] && objs[1..] == [];
    } else {
      var front, rest := objs[..n], objs[1..];
      BodyFront(front);
      assert front[1..] == rest[..n - 1] && rest[n - 1] == objs[n] && front[0] == objs[0];
      assert Body(rest) == Body(rest[..n - 1]) + One(objs[n]);
      Regroup(One(objs[0]), Body(rest[..n - 1]), One(objs[n]));
      hide One;
    }
  }

  lemma Regroup(a: seq<byte>, b: seq<byte>, c: seq<byte>)
    ensures (a + b) + c == a + (b + c)
  {
  }

  // The objects laid out are the objects read back.
  lemma {:induction false} DecodeBody(objs: seq<Obj>)
    requires forall i :: 0 <= i < |objs| ==> |objs[i].value| < 256
    ensures Decode(Body(objs), |objs|) == objs
  {
    if objs != [] {
      BodyFront(objs);
      DecodeBody(objs[1..]);
      var s := Body(objs);
      assert s[2 + |objs[0].value|..] == Body(objs[1..]);
      assert s[2..2 + |objs[0].value|] == objs[0].value;
    }
  }

  lemma BodyMore(objs: seq<Obj>, first: nat, i: nat)
    requires first <= i < |objs| && AllDeliverable(objs)
    ensures Body(objs[first..i + 1]) == Body(objs[first..i]) + One(objs[i])
  {
    assert objs[first..i + 1][..i - first] == objs[first..i];
  }

  // --------------------------------------------------------- what to deliver

  // [first, last) is what a stream read from startId is to deliver: the
  // category's objects from the first one at or after startId, or from its
  // very first when there is none.
  ghost predicate StreamRange(objs: seq<Obj>, code: byte, startId: byte, first: nat, last: nat) {
    && first < last && Has(objs, code, first) && Has(objs, code, last - 1)
    && (forall i: nat :: Has(objs, code, i) ==> i < last)
    && ((objs[first].id >= startId && forall i: nat :: Has(objs, code, i) && objs[i].id >= startId ==> first <= i)
        || (forall i: nat :: Has(objs, code, i) ==> first <= i && objs[i].id < startId))
  }

  // The category has an object of that id.
  predicate HasId(objs: seq<Obj>, code: byte, id: byte) {
    exists i :: 0 <= i < |objs| && Has(objs, code, i) && objs[i].id == id
  }

  // What mb_pdu.h promises of a stream read: from the start object on, or, when
  // the category does not have it, from the category's first object.
  ghost predicate AsPromised(objs: seq<Obj>, code: byte, startId: byte, first: nat) {
    && Has(objs, code, first)
    && if HasId(objs, code, startId) then objs[first].id == startId
          else forall i: nat :: Has(objs, code, i) ==> first <= i
  }

  // The promise is not kept: with objects 3, 4 and 6, a read of the regular
  // category from 5 delivers object 6 and leaves out 3 and 4.
  lemma StartsInAGap(first: nat, last: nat)
    ensures var objs := [Obj(3, []), Obj(4, []), Obj(6, [])];
            StreamRange(objs, REGULAR, 5, first, last) <==> first == 2 && last == 3
    ensures !AsPromised([Obj(3, []), Obj(4, []), Obj(6, [])], REGULAR, 5, 2)
  {
    var objs := [Obj(3, []), Obj(4, []), Obj(6, [])];
    assert Has(objs, REGULAR, 0) && Has(objs, REGULAR, 1) && Has(objs, REGULAR, 2);
  }

  // It is kept exactly when the start id is not in such a gap: one of the
  // category's own, or not above its first, or above its last (a and z).
  lemma PromiseKept(objs: seq<Obj>, code: byte, startId: byte, first: nat, last: nat, a: nat, z: nat)
    requires Sorted(objs) && StreamRange(objs, code, startId, first, last)
    requires Has(objs, code, a) && Has(objs, code, z) && forall i: nat :: Has(objs, code, i) ==> a <= i <= z
    ensures AsPromised(objs, code, startId, first) <==>
            HasId(objs, code, startId) || startId <= objs[a].id || objs[z].id < startId
  {
    hide InCategory;
    if HasId(objs, code, startId) {
      var i :| 0 <= i < |objs| && Has(objs, code, i) && objs[i].id == startId;
      assert first == i;
    } else if AsPromised(objs, code, startId, first) {
      assert first == a;
    }
  }

  // An individual read delivers exactly the object asked for.
  ghost predicate IndividualRange(objs: seq<Obj>, id: byte, first: nat, last: nat) {
    first < |objs| && last == first + 1 && objs[first].id == id && forall i :: 0 <= i < first ==> objs[i].id != id
  }

  ghost predicate Range(objs: seq<Obj>, code: byte, startId: byte, first: nat, last: nat) {
    if code == INDIVIDUAL then IndividualRange(objs, startId, first, last)
    else StreamRange(objs, code, startId, first, last)
  }

  // next is where the page that begins at first ends: as far as it fits.
  ghost predicate PageEnds(objs: seq<Obj>, first: nat, last: nat, next: nat)
    requires AllDeliverable(objs)
  {
    && first <= next <= last <= |objs|
    && HDR + |Body(objs[first..next])| <= DATA_MAX
    && (next < last ==> HDR + |Body(objs[first..next])| + |One(objs[next])| > DATA_MAX)
  }

  ghost predicate Conforms(objs: seq<Obj>, level: byte) {
    if exists i :: 0 <= i < |objs| && objs[i].id >= OBJ_PRIVATE_FIRST then level == 0x83
    else if exists i :: 0 <= i < |objs| && objs[i].id >= OBJ_VENDOR_URL then level == 0x82
    else level == 0x81
  }

  ghost predicate NothingAsked(objs: seq<Obj>, code: byte, startId: byte) {
    if code == INDIVIDUAL then forall i :: 0 <= i < |objs| ==> objs[i].id != startId else !HasAny(objs, code)
  }

  // devid_conformity()
  method Conformity(objs: seq<Obj>) returns (level: byte)
    ensures Conforms(objs, level)
  {
    level := 0x81;
    for i := 0 to |objs|
      invariant level == 0x81 || level == 0x82
      invariant forall k :: 0 <= k < i ==> objs[k].id < OBJ_PRIVATE_FIRST
      invariant level == 0x82 <==> exists k :: 0 <= k < i && objs[k].id >= OBJ_VENDOR_URL
    {
      if objs[i].id >= OBJ_PRIVATE_FIRST { return 0x83; }
      if objs[i].id >= OBJ_VENDOR_URL { level := 0x82; }
    }
  }

  // The individual object's place in the table, or its length.
  method FindObject(objs: seq<Obj>, id: byte) returns (first: nat, last: nat)
    ensures first <= |objs|
    ensures first < |objs| ==> IndividualRange(objs, id, first, last)
    ensures first == |objs| ==> forall i :: 0 <= i < |objs| ==> objs[i].id != id
  {
    first, last := |objs|, |objs|;
    for i := 0 to |objs|
      invariant first == |objs| && forall k :: 0 <= k < i ==> objs[k].id != id
    {
      if objs[i].id == id { return i, i + 1; }
    }
  }

  // The category's range in the table.
  method FindStream(objs: seq<Obj>, code: byte, startId: byte) returns (first: nat, last: nat)
    ensures first <= |objs|
    ensures first < |objs| ==> StreamRange(objs, code, startId, first, last)
    ensures first == |objs| <==> !HasAny(objs, code)
  {
    var n := |objs|;
    var catFirst: nat := n;
    first, last := n, n;
    for i := 0 to n
      invariant catFirst <= n && first <= n && last <= n
      invariant catFirst == n ==> first == n && last == n && forall k: nat :: k < i ==> !Has(objs, code, k)
      invariant catFirst < n ==> catFirst < last <= i && Has(objs, code, catFirst) && Has(objs, code, last - 1)
      invariant catFirst < n ==> forall k: nat :: k < i && Has(objs, code, k) ==> catFirst <= k < last
      invariant first < n ==> first < last && Has(objs, code, first) && objs[first].id >= startId
      invariant forall k: nat :: k < i && Has(objs, code, k) && objs[k].id >= startId ==> first <= k
    {
      if InCategory(code, objs[i].id) {
        assert Has(objs, code, i);
        if catFirst == n { catFirst := i; }
        if first == n && objs[i].id >= startId { first := i; }
        last := i + 1;
      }
    }
    if catFirst == n { return n, n; }
    if first == n { first := catFirst; }
  }

  function Header(code: byte, level: byte, objs: seq<Obj>, first: nat, last: nat, next: nat): seq<byte>
    requires first <= next <= last <= |objs| && next - first < 256
  {
    [MEI_DEVICE_ID, code, level, if next < last then 0xFF else 0x00,
     if next < last then objs[next].id else 0x00, next - first]
  }

  // Objects of at least two bytes: no more than fit a count.
  lemma {:induction false} AtLeastTwo(objs: seq<Obj>)
    requires AllDeliverable(objs)
    ensures |Body(objs)| >= 2 * |objs|
  {
    if objs != [] { AtLeastTwo(objs[..|objs| - 1]); }
  }

  method PutObject(out: array<byte>, p: nat, o: Obj)
    requires |o.value| < 256 && p + 2 + |o.value| <= out.Length
    modifies out
    ensures out[p..p + 2 + |o.value|] == One(o)
    ensures forall i :: 0 <= i < p ==> out[i] == old(out[i])
  {
    out[p] := o.id;
    out[p + 1] := |o.value|;
    CopyInto(out, p + 2, o.value);
    assert out[p..p + 2 + |o.value|] == [out[p], out[p + 1]] + out[p + 2..p + 2 + |o.value|];
  }

  lemma Joined(s: seq<byte>, a: nat, b: nat, c: nat, x: seq<byte>, y: seq<byte>)
    requires a <= b <= c <= |s| && s[a..b] == x && s[b..c] == y
    ensures s[a..c] == x + y
  {
    assert s[a..c] == s[a..b] + s[b..c];
  }

  // The objects of [first, last) that fit, laid out behind the header.
  method FillPage(objs: seq<Obj>, first: nat, last: nat, out: array<byte>) returns (next: nat, p: nat)
    requires AllDeliverable(objs) && first < last <= |objs| && out.Length >= DATA_MAX
    modifies out
    ensures PageEnds(objs, first, last, next) && first < next
    ensures p == HDR + |Body(objs[first..next])| && out[HDR..p] == Body(objs[first..next])
  {
    assert objs[first..first] == [];
    assert Deliverable(objs[first]);
    p := HDR;
    next := first;
    while next < last
      invariant first <= next <= last
      invariant p == HDR + |Body(objs[first..next])| <= DATA_MAX
      invariant out[HDR..p] == Body(objs[first..next])
      invariant next == first ==> p == HDR
    {
      hide Body;
      BodyMore(objs, first, next);
      var vl := |objs[next].value|;
      if p + 2 + vl > DATA_MAX { break; }
      ghost var laid := out[HDR..p];
      PutObject(out, p, objs[next]);
      assert out[HDR..p] == laid;
      Joined(out[..], HDR, p, p + 2 + vl, laid, One(objs[next]));
      p := p + 2 + vl;
      next := next + 1;
    }
  }

  // mb_devid_encode(): what it delivers, and exactly when it refuses.
  method DevIdEncode(objs: seq<Obj>, code: byte, startId: byte, out: array<byte>)
    returns (exc: byte, n: nat, ghost first: nat, ghost last: nat, ghost next: nat)
    requires out.Length >= DATA_MAX
    modifies out
    ensures exc == EXC_ILLEGAL_VALUE <==> !(BASIC <= code <= INDIVIDUAL)
    ensures exc == EXC_DEVICE_FAILURE <==> BASIC <= code <= INDIVIDUAL && !AllDeliverable(objs)
    ensures exc == EXC_ILLEGAL_ADDR <==>
                BASIC <= code <= INDIVIDUAL && AllDeliverable(objs) && NothingAsked(objs, code, startId)
    ensures exc in {EXC_NONE, EXC_ILLEGAL_ADDR, EXC_ILLEGAL_VALUE, EXC_DEVICE_FAILURE}
    ensures exc != EXC_NONE ==> n == 0
    ensures exc == EXC_NONE ==>
              && AllDeliverable(objs) && Range(objs, code, startId, first, last) && PageEnds(objs, first, last, next)
              && first < next < first + 256 && n <= DATA_MAX
              && exists level :: Conforms(objs, level)
                                 && out[..n] == Header(code, level, objs, first, last, next) + Body(objs[first..next])
  {
    n, first, last, next := 0, 0, 0, 0;
    if code < BASIC || code > INDIVIDUAL { return EXC_ILLEGAL_VALUE, n, first, last, next; }
    for i := 0 to |objs|
      invariant forall k :: 0 <= k < i ==> Deliverable(objs[k])
    {
      if HDR + 2 + |objs[i].value| > DATA_MAX { return EXC_DEVICE_FAILURE, n, first, last, next; }
    }
    var from, to, end;
    if code == INDIVIDUAL {
      from, to := FindObject(objs, startId);
    } else {
      from, to := FindStream(objs, code, startId);
    }
    if from == |objs| { return EXC_ILLEGAL_ADDR, n, first, last, next; }
    end, n := FillPage(objs, from, to, out);
    AtLeastTwo(objs[from..end]);
    hide Body, Range, PageEnds;
    var level := Conformity(objs);
    FillHeader(objs, code, level, from, to, end, out, n);
    first, last, next := from, to, end;
    exc := EXC_NONE;
  }

  method FillHeader(objs: seq<Obj>, code: byte, level: byte, first: nat, last: nat, next: nat,
          out: array<byte>, ghost n: nat)
    requires first <= next <= last <= |objs| && next - first < 256 && HDR <= n <= out.Length
    modifies out
    ensures out[..n] == Header(code, level, objs, first, last, next) + old(out[HDR..n])
  {
    out[0] := MEI_DEVICE_ID;
    out[1] := code;
    out[2] := level;
    out[3] := if next < last then 0xFF else 0x00;
    out[4] := if next < last then objs[next].id else 0x00;
    out[5] := next - first;
  }

  // -------------------------------------------------------- reading a stream

  // The category's objects, in table order.
  function OfCategory(objs: seq<Obj>, code: byte): seq<Obj> {
    if objs == [] then []
    else OfCategory(objs[..|objs| - 1], code)
         + (if InCategory(code, objs[|objs| - 1].id) then [objs[|objs| - 1]] else [])
  }

  lemma InStretch(objs: seq<Obj>, code: byte, a: nat, b: nat, i: nat)
    requires Sorted(objs) && a <= i < b <= |objs| && Has(objs, code, a) && Has(objs, code, b - 1)
    ensures Has(objs, code, i)
  {
    assert objs[a].id <= objs[i].id <= objs[b - 1].id;
  }

  lemma OneMore(objs: seq<Obj>, code: byte, n: nat)
    requires n < |objs|
    ensures OfCategory(objs[..n + 1], code) ==
              OfCategory(objs[..n], code) + (if Has(objs, code, n) then [objs[n]] else [])
  {
    assert objs[..n + 1][..n] == objs[..n];
  }

  // What objs[..n] and objs[a..b] share.
  function Overlap(objs: seq<Obj>, a: nat, b: nat, n: nat): seq<Obj>
    requires a < b <= |objs| && n <= |objs|
  {
    if n <= a then [] else if n <= b then objs[a..n] else objs[a..b]
  }

  lemma OverlapGrows(objs: seq<Obj>, a: nat, b: nat, n: nat)
    requires a < b <= |objs| && n < |objs|
    ensures Overlap(objs, a, b, n + 1) == Overlap(objs, a, b, n) + (if a <= n < b then [objs[n]] else [])
  {
    if n < a {
      assert Overlap(objs, a, b, n + 1) == [] == Overlap(objs, a, b, n);
    } else if n < b {
      assert objs[a..n + 1] == objs[a..n] + [objs[n]];
      assert Overlap(objs, a, b, n) == objs[a..n];
    } else {
      assert Overlap(objs, a, b, n + 1) == objs[a..b] == Overlap(objs, a, b, n);
    }
  }

  lemma NothingYet(objs: seq<Obj>, code: byte, a: nat, b: nat)
    requires a < b <= |objs|
    ensures OfCategory(objs[..0], code) == Overlap(objs, a, b, 0)
  {
    assert objs[..0] == [];
  }

  // In a sorted table a category is one stretch.
  lemma {:induction false} CategoryIsStretch(objs: seq<Obj>, code: byte, a: nat, b: nat, n: nat)
    requires Sorted(objs) && a < b <= |objs| && n <= |objs|
    requires Has(objs, code, a) && Has(objs, code, b - 1) && forall i: nat :: Has(objs, code, i) ==> a <= i < b
    ensures OfCategory(objs[..n], code) == Overlap(objs, a, b, n)
  {
    hide Has, Sorted, OfCategory, Overlap;
    if n == 0 {
      NothingYet(objs, code, a, b);
    } else {
      CategoryIsStretch(objs, code, a, b, n - 1);
      OneMore(objs, code, n - 1);
      OverlapGrows(objs, a, b, n - 1);
      if a <= n - 1 < b { InStretch(objs, code, a, b, n - 1); }
      assert Has(objs, code, n - 1) <==> a <= n - 1 < b;
    }
  }

  // A stream read from 0 has the whole category; one from an object of the
  // category has the rest of it.
  lemma RangeFromStart(objs: seq<Obj>, code: byte, a: nat, b: nat)
    requires StreamRange(objs, code, 0, a, b)
    ensures forall i: nat :: Has(objs, code, i) ==> a <= i < b
  {
  }

  lemma RangeFrom(objs: seq<Obj>, code: byte, at: nat, a: nat, b: nat, first: nat, last: nat)
    requires Sorted(objs) && a <= at < b <= |objs| && Has(objs, code, a) && Has(objs, code, b - 1)
    requires forall i: nat :: Has(objs, code, i) ==> a <= i < b
    requires StreamRange(objs, code, objs[at].id, first, last)
    ensures first == at && last == b
  {
    InStretch(objs, code, a, b, at);
    hide InCategory;
    assert Has(objs, code, first);
  }

  predicate GoodPage(page: seq<byte>) {
    HDR < |page| <= DATA_MAX && page[5] >= 1 && |Decode(page[HDR..], page[5])| == page[5]
  }

  // The objects of all the responses.
  function Collected(pages: seq<seq<byte>>): seq<Obj>
    requires forall k :: 0 <= k < |pages| ==> GoodPage(pages[k])
  {
    if pages == [] then []
    else Collected(pages[..|pages| - 1]) + ObjectsIn(pages[|pages| - 1])
  }

  function ObjectsIn(page: seq<byte>): seq<Obj> {
    if |page| < HDR then [] else Decode(page[HDR..], page[5])
  }

  lemma PageHeader(objs: seq<Obj>, code: byte, level: byte, first: nat, last: nat, next: nat, page: seq<byte>)
    requires first <= next <= last <= |objs| && next - first < 256
    requires |page| >= HDR && page[..HDR] == Header(code, level, objs, first, last, next)
    ensures page[0] == 0x0E && page[1] == code && page[2] == level && page[5] == next - first
    ensures page[3] == 0xFF <==> next < last
    ensures next < last ==> page[4] == objs[next].id
  {
    var head := page[..HDR];
    assert page[0] == head[0] && page[1] == head[1] && page[2] == head[2];
    assert page[3] == head[3] && page[4] == head[4] && page[5] == head[5];
  }

  lemma PageObjects(objs: seq<Obj>, code: byte, level: byte, first: nat, last: nat, next: nat, page: seq<byte>)
    requires AllDeliverable(objs) && first <= next <= last <= |objs| && next - first < 256
    requires page == Header(code, level, objs, first, last, next) + Body(objs[first..next])
    ensures |page| >= HDR && ObjectsIn(page) == objs[first..next] && page[5] == next - first
    ensures page[0] == 0x0E && page[1] == code && page[2] == level
    ensures page[3] == 0xFF <==> next < last
    ensures next < last ==> page[4] == objs[next].id
    ensures |page| <= DATA_MAX && first < next ==> GoodPage(page)
  {
    DecodeBody(objs[first..next]);
    AtLeastTwo(objs[first..next]);
    assert |Header(code, level, objs, first, last, next)| == HDR;
    hide Body, Decode, Header;
    assert page[..HDR] == Header(code, level, objs, first, last, next);
    assert page[HDR..] == Body(objs[first..next]);
    PageHeader(objs, code, level, first, last, next, page);
    assert |objs[first..next]| == next - first;
  }

  lemma Stretches(objs: seq<Obj>, a: nat, b: nat, c: nat)
    requires a <= b <= c <= |objs|
    ensures objs[a..b] + objs[b..c] == objs[a..c]
  {
  }

  // How far a stream has come: the objects of [a, at) of the category's
  // [a, b) are there.
  ghost predicate Progress(objs: seq<Obj>, code: byte, pages: seq<seq<byte>>, a: nat, at: nat, b: nat) {
    && (forall k :: 0 <= k < |pages| ==> GoodPage(pages[k]))
    && StreamRange(objs, code, 0, a, b) && a <= at <= b <= |objs|
    && Collected(pages) == objs[a..at] && |pages| <= at - a
  }

  lemma FirstPage(objs: seq<Obj>, code: byte, page: seq<byte>, a: nat, next: nat, b: nat)
    requires StreamRange(objs, code, 0, a, b) && a < next <= b <= |objs|
    requires GoodPage(page) && ObjectsIn(page) == objs[a..next]
    ensures Progress(objs, code, [page], a, next, b)
  {
    assert [page][..0] == [] && Collected([]) == [];
    assert Collected([page]) == [] + ObjectsIn(page);
    hide StreamRange, ObjectsIn;
  }

  lemma NextPage(objs: seq<Obj>, code: byte, pages: seq<seq<byte>>, page: seq<byte>, a: nat, at: nat, next: nat, b: nat)
    requires Progress(objs, code, pages, a, at, b) && at < next <= b
    requires GoodPage(page) && ObjectsIn(page) == objs[at..next]
    ensures Progress(objs, code, pages + [page], a, next, b)
  {
    assert (pages + [page])[..|pages|] == pages;
    Stretches(objs, a, at, next);
    hide StreamRange, ObjectsIn, GoodPage;
  }

  lemma AllThere(objs: seq<Obj>, code: byte, pages: seq<seq<byte>>, a: nat, b: nat)
    requires Sorted(objs) && Progress(objs, code, pages, a, b, b)
    ensures Collected(pages) == OfCategory(objs, code) && |pages| <= |OfCategory(objs, code)|
  {
    RangeFromStart(objs, code, a, b);
    CategoryIsStretch(objs, code, a, b, |objs|);
    assert objs[..|objs|] == objs;
    hide OfCategory, StreamRange, Collected, GoodPage, Sorted;
  }

  // One response: the next stretch of the category.
  method NextResponse(objs: seq<Obj>, code: byte, start: byte, out: array<byte>)
    returns (page: seq<byte>, ghost first: nat, ghost last: nat, ghost next: nat)
    requires BASIC <= code <= EXTENDED && AllDeliverable(objs) && HasAny(objs, code) && out.Length >= DATA_MAX
    modifies out
    ensures StreamRange(objs, code, start, first, last) && first < next <= last <= |objs|
    ensures GoodPage(page) && ObjectsIn(page) == objs[first..next] && |page| > HDR
    ensures page[3] == 0xFF <==> next < last
    ensures next < last ==> page[4] == objs[next].id
  {
    hide Body, Header;
    var exc, n;
    exc, n, first, last, next := DevIdEncode(objs, code, start, out);
    page := out[..n];
    ghost var level :| Conforms(objs, level) && page == Header(code, level, objs, first, last,
            next) + Body(objs[first..next]);
    PageObjects(objs, code, level, first, last, next, page);
  }

  // Main result: a client that starts at object id 0 and follows "next object
  // id" while "more follows" is set gets exactly the category's objects, in
  // order and once each, in no more responses than there are objects, each of
  // at most 250 bytes and with at least one object.
  method ReadStream(objs: seq<Obj>, code: byte) returns (pages: seq<seq<byte>>)
    requires BASIC <= code <= EXTENDED && Sorted(objs) && AllDeliverable(objs) && HasAny(objs, code)
    ensures forall k :: 0 <= k < |pages| ==> GoodPage(pages[k])
    ensures Collected(pages) == OfCategory(objs, code)
    ensures |pages| <= |OfCategory(objs, code)|
  {
    hide GoodPage, ObjectsIn, Collected, AllDeliverable;
    var out := new byte[DATA_MAX];
    ghost var a, b, at;
    var page;
    page, a, b, at := NextResponse(objs, code, 0, out);
    FirstPage(objs, code, page, a, at, b);
    pages := [page];
    while page[3] == 0xFF
      invariant Progress(objs, code, pages, a, at, b) && |page| > 4
      invariant page[3] == 0xFF <==> at < b
      invariant at < b ==> page[4] == objs[at].id
      decreases b - at
    {
      ghost var first, last, next;
      ghost var before := at;
      page, first, last, next := NextResponse(objs, code, page[4], out);
      RangeFromStart(objs, code, a, b);
      RangeFrom(objs, code, at, a, b, first, last);
      NextPage(objs, code, pages, page, a, at, next, b);
      pages := pages + [page];
      at := next;
    }
    AllThere(objs, code, pages, a, b);
  }
}
