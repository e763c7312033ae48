// One Modbus TCP connection: cutting the byte stream into frames however the
// network splits it, and sending an answer in whatever pieces the socket takes.
module FramePump {
  import opened Bytes

  const MBAP_HDR := 6                // the part before the unit id
  const FRAME_MAX := 260

  // ------------------------------------------------------- cutting a stream

  // What the header says follows it: unit id and PDU; 0 for a header that
  // breaks the protocol.
  function Announced(s: seq<byte>): (n: nat)
    requires |s| >= MBAP_HDR
    ensures n == 0 || 2 <= n <= FRAME_MAX - MBAP_HDR
  {
    var pid, hlen := Be16(s[2], s[3]), Be16(s[4], s[5]);
    if pid != 0 || hlen < 2 || hlen > 254 then 0 else hlen
  }

  predicate BadHeader(s: seq<byte>) {
    |s| >= MBAP_HDR && Announced(s) == 0
  }

  // A bad header is what comes after n bytes of what has been taken.
  predicate BadHeaderAt(stream: seq<byte>, taken: nat, n: nat) {
    n <= taken <= |stream| && BadHeader(stream[n..taken])
  }

  // The whole frames of a stream, up to its first bad header.
  function Cut(s: seq<byte>): seq<seq<byte>>
    decreases |s|
  {
    if |s| < MBAP_HDR || Announced(s) == 0 || |s| < MBAP_HDR + Announced(s) then []
    else [s[..MBAP_HDR + Announced(s)]] + Cut(s[MBAP_HDR + Announced(s)..])
  }

  predicate WholeFrame(f: seq<byte>) {
    |f| >= MBAP_HDR && Announced(f) > 0 && |f| == MBAP_HDR + Announced(f)
  }

  // The length field, the more significant octet first.
  function LengthOf(hi: byte, lo: byte): int { 256 * (hi as int) + lo as int }

  lemma BigEnd(hi: byte, lo: byte)
    ensures Be16(hi, lo) as int == LengthOf(hi, lo)
  {
  }

  lemma BothZero(hi: byte, lo: byte)
    ensures Be16(hi, lo) == 0 <==> hi == 0 && lo == 0
  {
  }

  lemma AnnouncedWords(f: seq<byte>, p: int, n: int)
    requires |f| >= 6 && p == Be16(f[2], f[3]) && n == Be16(f[4], f[5])
    ensures Announced(f) == if p != 0 || n < 2 || n > 254 then 0 else n
  {
  }

  lemma AnnouncedLength(f: seq<byte>)
    requires |f| >= 6
    ensures var p, n := Be16(f[2], f[3]), LengthOf(f[4], f[5]);
            Announced(f) == if p != 0 || n < 2 || n > 254 then 0 else n
  {
    BigEnd(f[4], f[5]);
    hide LengthOf;
    AnnouncedWords(f, Be16(f[2], f[3]), Be16(f[4], f[5]));
    hide Announced, Be16;
  }

  lemma AnnouncedIs(f: seq<byte>)
    requires |f| >= 6
    ensures var n := LengthOf(f[4], f[5]);
            Announced(f) == if f[2] != 0 || f[3] != 0 || n < 2 || n > 254 then 0 else n
  {
    AnnouncedLength(f);
    BothZero(f[2], f[3]);
    hide Announced, Be16, LengthOf;
  }

  lemma WholeFrameHas(f: seq<byte>, n: int)
    requires |f| >= 6 && Announced(f) == if f[2] != 0 || f[3] != 0 || n < 2 || n > 254 then 0 else n
    ensures WholeFrame(f) <==> f[2] == 0 && f[3] == 0 && |f| == 6 + n && 8 <= |f| <= 260
    ensures BadHeader(f) <==> f[2] != 0 || f[3] != 0 || n < 2 || n > 254
  {
    hide Announced, Be16, LengthOf;
  }

  // A frame byte by byte: protocol 0, and a length that counts the unit id and
  // the PDU.
  lemma WholeFrameIs(f: seq<byte>, n: int)
    requires |f| >= 6 && n == LengthOf(f[4], f[5])
    ensures WholeFrame(f) <==> f[2] == 0 && f[3] == 0 && |f| == 6 + n && 8 <= |f| <= 260
    ensures BadHeader(f) <==> f[2] != 0 || f[3] != 0 || n < 2 || n > 254
  {
    hide Announced, LengthOf, WholeFrame, BadHeader;
    AnnouncedIs(f);
    WholeFrameHas(f, n);
  }

  function Concat(frames: seq<seq<byte>>): seq<byte> {
    if frames == [] then [] else frames[0] + Concat(frames[1..])
  }

  predicate AllWhole(frames: seq<seq<byte>>) {
    forall k :: 0 <= k < |frames| ==> WholeFrame(frames[k])
  }

  lemma CutFirst(f: seq<byte>, rest: seq<byte>)
    requires WholeFrame(f)
    ensures Cut(f + rest) == [f] + Cut(rest)
  {
    var s := f + rest;
    assert s[2] == f[2] && s[3] == f[3] && s[4] == f[4] && s[5] == f[5];
    assert Announced(s) == Announced(f);
    assert s[..|f|] == f && s[|f|..] == rest;
  }

  // Whole frames one after the other are what cutting them apart gives.
  lemma {:induction false} CutConcat(frames: seq<seq<byte>>, rest: seq<byte>)
    requires AllWhole(frames)
    ensures Cut(Concat(frames) + rest) == frames + Cut(rest)
  {
    hide Cut, Announced;
    if frames == [] {
      assert Concat(frames) + rest == rest;
    } else {
      var f, more := frames[0], Concat(frames[1..]);
      CutConcat(frames[1..], rest);
      CutFirst(f, more + rest);
      assert (f + more) + rest == f + (more + rest);
      assert Cut(Concat(frames) + rest) == [f] + (frames[1..] + Cut(rest));
      assert frames == [f] + frames[1..];
    }
  }

  lemma {:induction false} ConcatMore(frames: seq<seq<byte>>, f: seq<byte>)
    ensures Concat(frames + [f]) == Concat(frames) + f
  {
    if frames == [] {
      assert (frames + [f])[1..] == [];
    } else {
      assert (frames + [f])[1..] == frames[1..] + [f];
      ConcatMore(frames[1..], f);
    }
  }

  // A stream as far as it has been read: whole frames, and part of one.
  ghost predicate ReadAs(read: seq<byte>, frames: seq<seq<byte>>, part: seq<byte>) {
    AllWhole(frames) && read == Concat(frames) + part
  }

  lemma ReadMore(read: seq<byte>, frames: seq<seq<byte>>, part: seq<byte>, more: seq<byte>)
    requires ReadAs(read, frames, part)
    ensures ReadAs(read + more, frames, part + more)
  {
    hide AllWhole, Concat;
    Regroup(Concat(frames), part, more);
  }

  lemma Regroup(a: seq<byte>, b: seq<byte>, c: seq<byte>)
    ensures a + b + c == a + (b + c)
  {
  }

  lemma ReadWhole(read: seq<byte>, frames: seq<seq<byte>>, part: seq<byte>)
    requires ReadAs(read, frames, part) && WholeFrame(part)
    ensures ReadAs(read, frames + [part], [])
  {
    ConcatMore(frames, part);
  }

  // Less than the frame it announces.
  predicate Unfinished(part: seq<byte>) {
    |part| < MBAP_HDR || (Announced(part) > 0 && |part| < MBAP_HDR + Announced(part))
  }

  lemma FramesRead(read: seq<byte>, frames: seq<seq<byte>>, part: seq<byte>)
    requires ReadAs(read, frames, part) && Unfinished(part)
    ensures Cut(read) == frames
  {
    CutConcat(frames, part);
    assert Cut(part) == [];
  }

  // Nothing after a bad header is a frame any more.
  lemma FramesUpToBadHeader(read: seq<byte>, frames: seq<seq<byte>>, part: seq<byte>, rest: seq<byte>)
    requires ReadAs(read, frames, part) && BadHeader(part)
    ensures Cut(read + rest) == frames
  {
    ReadMore(read, frames, part, rest);
    var s := part + rest;
    assert s[2] == part[2] && s[3] == part[3] && s[4] == part[4] && s[5] == part[5];
    assert Announced(s) == Announced(part);
    CutConcat(frames, s);
    assert Cut(s) == [];
  }

  // What a recv() comes back with: some of the bytes that are there, nothing
  // for now, the end of the stream, an error.
  datatype Arrival = Bytes(n: nat) | Empty | End | Error

  // Why a connection is closed, or that it is open.
  datatype Cause = Open | Deadline | PeerClosed | SocketError | Malformed

  // The socket has nothing now for a reader at pos. The end comes only after
  // the last byte.
  predicate HasNothing(stream: seq<byte>, pos: nat, a: Arrival) {
    a == Empty || (a == End && pos < |stream|) || (a.Bytes? && (a.n == 0 || pos >= |stream|))
  }

  function Min(a: nat, b: nat): nat { if a <= b then a else b }

  datatype Took = More | Whole | Dry | Gone

  datatype Visit = Nothing | Frame | Closed

  // ---------------------------------------------------------- one connection

  class Connection {
    const stream: seq<byte>          // all the peer will ever send
    const net: nat -> Arrival        // what each recv() comes back with
    const frame: array<byte>
    var got: nat
    var want: nat                    // 0: nothing of a frame yet
    var cause: Cause
    var handed: seq<seq<byte>>       // the frames handed on
    var pos: nat                     // bytes taken from the socket
    var asked: nat                   // recv() calls so far

    ghost predicate Valid()
      reads this, frame
    {
      && frame.Length == FRAME_MAX && pos <= |stream| && got <= FRAME_MAX && want <= FRAME_MAX
      && (cause == Open ==> InFrame() && (want == 0 ==> got == 0))
      && (cause != Open ==> Cut(stream[..pos]) == handed)
      && (cause == Malformed ==> Cut(stream) == handed && BadHeaderAt(stream, pos, |Concat(handed)|))
      && (cause == PeerClosed ==> pos == |stream|)
    }

    // Every byte taken is in a frame handed on or in the buffer, and the
    // buffer holds less than a whole frame: nothing of the next one is taken
    // early.
    ghost predicate InFrame()
      reads this, frame
      requires frame.Length == FRAME_MAX && got <= FRAME_MAX && pos <= |stream|
    {
      && ReadAs(stream[..pos], handed, frame[..got])
      && Unfinished(frame[..got])
      && (got < MBAP_HDR ==> want == 0 || want == MBAP_HDR)
      && (got >= MBAP_HDR ==> want == MBAP_HDR + Announced(frame[..got]))
    }

    constructor (stream: seq<byte>, net: nat -> Arrival)
      ensures Valid() && cause == Open && handed == [] && pos == asked == 0 && fresh(frame)
      ensures this.stream == stream && this.net == net
    {
      this.stream, this.net := stream, net;
      frame := new byte[FRAME_MAX];
      got, want, cause, handed, pos, asked := 0, 0, Open, [], 0, 0;
      new;
      assert stream[..0] == [] && frame[..0] == [];
      assert ReadAs([], [], []) && Unfinished([]);
    }

    // recv(): how many bytes; 0 when the peer has closed; -1 when there is
    // nothing now or, failed, the socket is broken.
    method Recv(at: nat, room: nat) returns (n: int, failed: bool)
      requires frame.Length == FRAME_MAX && pos <= |stream| && 0 < room && at + room <= FRAME_MAX
      modifies this`pos, this`asked, frame
      ensures asked == old(asked) + 1 && pos == old(pos) + (if n > 0 then n else 0) <= |stream|
      ensures -1 <= n <= room && (n == -1 && !failed <==> HasNothing(stream, old(pos), net(old(asked))))
      ensures n == 0 ==> net(old(asked)) == End && pos == |stream|
      ensures failed <==> net(old(asked)) == Error
      ensures failed ==> n == -1
      ensures frame[..at] == old(frame[..at])
      ensures n > 0 ==> net(old(asked)).Bytes? && frame[at..at + n] == stream[old(pos)..pos]
    {
      var a := net(asked);
      asked := asked + 1;
      failed := a == Error;
      n := -1;
      match a {
        case Bytes(k) =>
          var m := Min(k, Min(room, |stream| - pos));
          if m > 0 {
            forall i | 0 <= i < m { frame[at + i] := stream[pos + i]; }
            assert frame[at..at + m] == stream[pos..pos + m];
            pos := pos + m;
            n := m;
          }
        case End => if pos == |stream| { n := 0; }
        case _ =>
      }
    }

    method Close(why: Cause)
      modifies this`cause, this`got, this`want
      ensures cause == why && got == want == 0
    {
      cause, got, want := why, 0, 0;
    }

    // With part of a frame in the buffer, or none.
    method CloseFor(why: Cause)
      requires Valid() && cause == Open && why in {Deadline, PeerClosed, SocketError}
      requires why == PeerClosed ==> pos == |stream|
      modifies this`cause, this`got, this`want
      ensures Valid() && cause == why
    {
      FramesRead(stream[..pos], handed, frame[..got]);
      hide Cut, ReadAs, Announced, Unfinished;
      Close(why);
    }

    // What has arrived is taken: part of a frame still, or all of it.
    method Take() returns (n: int, failed: bool)
      requires Valid() && cause == Open && want != 0
      modifies this`pos, this`got, this`asked, frame
      ensures frame.Length == FRAME_MAX && pos <= |stream| && got <= want == old(want) && asked == old(asked) + 1
      ensures n <= 0 ==> Valid() && got == old(got) && pos == old(pos)
      ensures n == 0 ==> net(old(asked)) == End && pos == |stream|
      ensures n < 0 && !failed ==> HasNothing(stream, pos, net(old(asked)))
      ensures failed ==> n < 0 && net(old(asked)) == Error
      ensures n > 0 ==> got == old(got) + n && ReadAs(stream[..pos], handed, frame[..got]) && net(old(asked)).Bytes?
      ensures n > 0 ==>
                pos > old(pos) && (old(got) >= MBAP_HDR ==> Announced(frame[..got]) == Announced(old(frame[..got])) > 0)
    {
      hide ReadAs, Cut;
      ghost var part, read := frame[..got], stream[..pos];
      n, failed := Recv(got, want - got);
      if n > 0 {
        ghost var more := frame[got..got + n];
        got := got + n;
        ReadMore(read, handed, part, more);
        assert stream[..pos] == read + more;
        assert frame[..got] == part + more;
      } else {
        assert frame[..got] == part && stream[..pos] == read;
      }
    }

    // One turn of the loop of pump_slot().
    method TakeSome() returns (r: Took)
      requires Valid() && cause == Open && want != 0
      modifies this, frame
      ensures Left(r) && handed == old(handed) && old(pos) <= pos
      ensures (r == More ==> old(pos) < pos) && asked == old(asked) + 1
      ensures r == Dry ==> HasNothing(stream, pos, net(old(asked)))
      ensures r == Gone ==> ClosedBy(net(old(asked)))
    {
      hide Cut, ReadAs, Announced, HasNothing, BadHeaderAt, WholeFrame;
      var n, failed := Take();
      if n == 0 { CloseFor(PeerClosed); return Gone; }
      if n < 0 {
        if failed { CloseFor(SocketError); return Gone; }
        return Dry;
      }
      r := Judge();
    }

    // With the header complete, the frame's real length is known.
    method Judge() returns (r: Took)
      requires frame.Length == FRAME_MAX && pos <= |stream| && 0 < got <= want <= FRAME_MAX && cause == Open
      requires ReadAs(stream[..pos], handed, frame[..got])
      requires want != MBAP_HDR ==>
                 got >= MBAP_HDR && Announced(frame[..got]) > 0 && want == MBAP_HDR + Announced(frame[..got])
      modifies this`cause, this`got, this`want
      ensures Left(r) && (r == Gone ==> cause == Malformed) && r != Dry
    {
      if want == MBAP_HDR && got == MBAP_HDR {
        var hlen := Announced(frame[..got]);
        if hlen == 0 {
          BadHeaderEnds();
          Close(Malformed);
          return Gone;
        }
        want := MBAP_HDR + hlen;
      }
      hide Cut, ReadAs, Announced;
      r := if got >= want then Whole else More;
    }

    // A recv() that ended the connection: at the end of the stream, with an
    // error, or with the last byte of a bad header.
    predicate ClosedBy(a: Arrival)
      reads this
    {
      match cause
      case PeerClosed => a == End
      case SocketError => a == Error
      case Malformed => a.Bytes?
      case _ => false
    }

    // What one turn leaves.
    ghost predicate Left(r: Took)
      reads this, frame
    {
      && frame.Length == FRAME_MAX && pos <= |stream|
      && match r
         case More => Valid() && cause == Open && want != 0
         case Dry => Valid() && cause == Open
         case Gone => Valid() && cause != Open
         case Whole =>
           && cause == Open && got == want <= FRAME_MAX
           && ReadAs(stream[..pos], handed, frame[..got]) && WholeFrame(frame[..got])
    }

    // The loop of pump_slot(), until the socket is empty.
    method TakeAll() returns (r: Took)
      requires Valid() && cause == Open && want != 0
      modifies this, frame
      ensures Left(r) && r != More && handed == old(handed) && old(pos) <= pos && old(asked) < asked
      ensures r == Dry ==> HasNothing(stream, pos, net(asked - 1))
      ensures r == Gone ==> ClosedBy(net(asked - 1))
    {
      hide Cut, ReadAs, Announced, HasNothing, Unfinished, BadHeaderAt;
      r := TakeSome();
      while r == More
        invariant Left(r) && handed == old(handed) && old(pos) <= pos && old(asked) < asked
        invariant r == Dry ==> HasNothing(stream, pos, net(asked - 1))
        invariant r == Gone ==> ClosedBy(net(asked - 1))
        decreases |stream| - pos, r == More
      {
        r := TakeSome();
      }
    }

    // pump_slot(): a visit that ends with a whole frame, with nothing more for
    // now, or with the connection closed -- for a frame begun and not finished
    // in time, or for what recv() came back with.
    method PumpSlot(expired: bool) returns (v: Visit)
      requires Valid() && cause == Open
      modifies this, frame
      ensures Valid() && (cause == Open <==> v != Closed) && old(pos) <= pos && old(asked) <= asked
      ensures v == Frame ==> got == 0 && |handed| == |old(handed)| + 1 && handed[..|old(handed)|] == old(handed)
      ensures v != Frame ==> handed == old(handed)
      ensures cause == Deadline <==> old(got) > 0 && expired
      ensures cause != Deadline ==> old(asked) < asked
      ensures v == Closed && cause != Deadline ==> ClosedBy(net(asked - 1))
      ensures v == Nothing ==> HasNothing(stream, pos, net(asked - 1))
    {
      hide Cut, ReadAs, Announced, HasNothing, BadHeaderAt, Unfinished, WholeFrame;
      if got > 0 && expired { CloseFor(Deadline); return Closed; }
      if want == 0 { want := MBAP_HDR; }
      var r := TakeAll();
      if r == Gone { return Closed; }
      if r == Dry { return Nothing; }
      HandOn();
      v := Frame;
    }

    // The frame is handed on, and the buffer is ready for the next one.
    method HandOn()
      requires Left(Whole)
      modifies this`handed, this`got, this`want
      ensures Valid() && got == want == 0 && handed == old(handed) + [frame[..old(got)]]
    {
      ReadWhole(stream[..pos], handed, frame[..got]);
      hide Cut, ReadAs, Announced;
      handed := handed + [frame[..want]];
      want, got := 0, 0;
      assert frame[..0] == [];
    }

    lemma BadHeaderEnds()
      requires frame.Length == FRAME_MAX && pos <= |stream| && got <= FRAME_MAX
      requires ReadAs(stream[..pos], handed, frame[..got]) && BadHeader(frame[..got])
      ensures Cut(stream) == handed && Cut(stream[..pos]) == handed && BadHeaderAt(stream, pos, |Concat(handed)|)
    {
      FramesUpToBadHeader(stream[..pos], handed, frame[..got], stream[pos..]);
      assert stream[..pos] + stream[pos..] == stream;
      FramesUpToBadHeader(stream[..pos], handed, frame[..got], []);
      assert stream[..pos] + [] == stream[..pos];
      assert stream[|Concat(handed)|..pos] == frame[..got];
    }

    // What the frames handed on are, whatever the connection has come to.
    lemma Outcome()
      requires Valid()
      ensures Cut(stream[..pos]) == handed && (pos == |stream| ==> Cut(stream) == handed)
      ensures cause == Open ==> |handed| <= |Cut(stream)|
      ensures cause == Open ==> |Concat(handed)| <= pos && Unfinished(stream[..pos][|Concat(handed)|..])
    {
      assert pos == |stream| ==> stream[..pos] == stream;
      hide Cut, Concat, Announced, Unfinished, ReadAs;
      if cause == Open { SoFar(stream, pos, handed, frame[..got]); }
    }
  }

  // What has been taken of a stream, with part of a frame at its end.
  lemma SoFar(stream: seq<byte>, pos: nat, frames: seq<seq<byte>>, part: seq<byte>)
    requires pos <= |stream| && ReadAs(stream[..pos], frames, part) && Unfinished(part)
    ensures Cut(stream[..pos]) == frames && |frames| <= |Cut(stream)|
    ensures |Concat(frames)| <= pos && Unfinished(stream[..pos][|Concat(frames)|..])
  {
    var read, rest := stream[..pos], stream[pos..];
    FramesRead(read, frames, part);
    hide Cut, Concat, Announced, Unfinished;
    assert read[|Concat(frames)|..] == part;
    assert stream == read + rest;
    Regroup(Concat(frames), part, rest);
    CutConcat(frames, part + rest);
  }

  // Main result: however the stream arrives in pieces and however often the
  // connection is visited -- the frames handed on are those of the bytes taken
  // so far, and once the whole stream has been taken, or a bad header has come,
  // those of the whole stream. Of the next frame no byte is taken early: while
  // the connection is open, what is taken beyond those frames is less than one.
  // It is closed for one of four reasons only; and where the socket always has
  // the next bytes and no frame is late, one visit more than there are frames
  // hands on every one of them.
  method Visits(stream: seq<byte>, net: nat -> Arrival, expired: nat -> bool, n: nat)
    returns (handed: seq<seq<byte>>, taken: nat, cause: Cause)
    ensures taken <= |stream| && Cut(stream[..taken]) == handed
    ensures taken == |stream| || cause == Malformed ==> Cut(stream) == handed
    ensures cause == Open ==> |Concat(handed)| <= taken && Unfinished(stream[..taken][|Concat(handed)|..])
    ensures cause == Deadline ==> exists i: nat :: i < n && expired(i)
    ensures cause == SocketError ==> exists i: nat :: net(i) == Error
    ensures cause == PeerClosed ==> taken == |stream|
    ensures cause == Malformed ==> BadHeaderAt(stream, taken, |Concat(handed)|)
    ensures Flowing(net) && (forall i: nat :: !expired(i)) && n > |Cut(stream)| ==>
              Cut(stream) == handed && (taken == |stream| || cause == Malformed)
  {
    hide Cut, Flowing, Unfinished, BadHeaderAt, Concat;
    var c := new Connection(stream, net);
    Serve(c, expired, n);
    c.Outcome();
    handed, taken, cause := c.handed, c.pos, c.cause;
  }

  // The visits themselves.
  method Serve(c: Connection, expired: nat -> bool, n: nat)
    requires c.Valid() && c.cause == Open
    modifies c, c.frame
    ensures c.Valid()
    ensures c.cause == Deadline ==> exists k: nat :: k < n && expired(k)
    ensures c.cause == SocketError ==> exists k: nat :: c.net(k) == Error
    ensures Flowing(c.net) && (forall k: nat :: !expired(k)) ==>
              (c.cause == Open && |c.handed| >= n) || c.pos == |c.stream| || c.cause == Malformed
  {
    hide Cut, ReadAs, Announced, BadHeaderAt, Unfinished, Concat;
    var i := 0;
    while i < n && c.cause == Open
      invariant i <= n && c.Valid()
      invariant c.cause == Deadline ==> exists k: nat :: k < n && expired(k)
      invariant c.cause == SocketError ==> exists k: nat :: c.net(k) == Error
      invariant Flowing(c.net) && (forall k: nat :: !expired(k)) ==>
                  (c.cause == Open && |c.handed| >= i) || c.pos == |c.stream| || c.cause == Malformed
      decreases n - i
    {
      var v := c.PumpSlot(expired(i));
      i := i + 1;
    }
  }

  // Every recv() comes back with bytes, as long as there are any.
  ghost predicate Flowing(net: nat -> Arrival) {
    forall i: nat :: net(i).Bytes? && net(i).n > 0
  }

  // ------------------------------------------------------ the way back

  // What a send() comes back with: how much of the rest it took, that the
  // socket is full for now, or that the peer is gone.
  datatype Sending = Takes(n: nat) | Full | Broken

  predicate Progress(a: Sending) { a.Takes? && a.n > 0 }

  // An answer on its way out. wire is what the peer has been sent.
  class Outgoing {
    const socket: nat -> Sending // what each send() comes back with
    const out: array<byte>
    var len: nat                 // 0: nothing pending
    var sent: nat
    var wire: seq<byte>
    var calls: nat               // send() calls so far
    ghost var before: seq<byte>  // what had been sent when the answer was armed

    ghost predicate Valid()
      reads this, out
    {
      len <= out.Length && (len > 0 ==> sent <= len && wire == before + out[..sent])
    }

    constructor (socket: nat -> Sending)
      ensures Valid() && len == 0 && wire == [] && fresh(out) && out.Length == FRAME_MAX
      ensures this.socket == socket && calls == 0
    {
      this.socket := socket;
      out := new byte[FRAME_MAX];
      len, sent, wire, calls, before := 0, 0, [], 0, [];
    }

    // arm_out(): only with no answer pending.
    method Arm(n: nat)
      requires Valid() && len == 0 && 0 < n <= out.Length
      modifies this`len, this`sent, this`before
      ensures Valid() && len == n && sent == 0 && before == wire
    {
      len, sent := n, 0;
      before := wire;
      assert out[..0] == [];
    }

    // send(): what it took of the rest of the answer has gone out.
    method Send() returns (a: Sending, n: nat)
      requires Valid() && sent < len
      modifies this`wire, this`calls
      ensures a == socket(old(calls)) && calls == old(calls) + 1
      ensures n == (if a.Takes? then Min(a.n, len - sent) else 0)
      ensures wire == old(wire) + out[sent..sent + n]
    {
      a := socket(calls);
      calls := calls + 1;
      n := if a.Takes? then Min(a.n, len - sent) else 0;
      wire := wire + out[sent..sent + n];
    }

    // flush_out(): sends as long as the socket takes anything, and nothing
    // twice or left out: alive with nothing pending means the whole answer is
    // away. The connection is finished when the peer is gone, or when the
    // socket is full and it is late.
    method Flush(late: bool) returns (alive: bool)
      requires Valid()
      modifies this`len, this`sent, this`wire, this`calls
      ensures Valid() && before == old(before)
      ensures old(len) == 0 ==> len == 0 && wire == old(wire)
      ensures old(len) > 0 && len == 0 ==> wire == before + old(out[..len])
      ensures len > 0 ==> len == old(len) && old(sent) <= sent < len
      ensures len > 0 ==> calls > old(calls) && !Progress(socket(calls - 1))
      ensures forall i :: old(calls) <= i < calls - 1 ==> Progress(socket(i))
      ensures alive <==> len == 0 || (socket(calls - 1) == Full && !late)
      ensures (forall i: nat :: i >= old(calls) ==> Progress(socket(i))) ==> alive && len == 0
    {
      while sent < len
        invariant Valid() && len == old(len) && old(calls) <= calls
        invariant if len > 0 then old(sent) <= sent else wire == old(wire)
        invariant forall i :: old(calls) <= i < calls ==> Progress(socket(i))
        decreases len - sent
      {
        assert out[..sent] + out[sent..sent] == out[..sent];
        var a, n := Send();
        if n > 0 {
          assert out[..sent] + out[sent..sent + n] == out[..sent + n];
          sent := sent + n;
          continue;
        }
        assert !Progress(socket(calls - 1));
        return a == Full && !late;
      }
      len := 0;
      alive := true;
    }
  }
}
