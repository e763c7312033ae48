// A register read over Modbus TCP, both ends: the master's request and its
// check of the answer, and the server's answer over the request's header.
module MbRead {
  import opened Bytes
  import opened MbPdu
  import FramePump

  // What came back.
  datatype Rsp = Ok(data: seq<byte>) | Refused(exc: byte) | Malformed

  // fc | 0x80
  function WithFlag(fc: byte): byte {
    if fc < 128 then fc + 128 else fc
  }

  // ---------------------------------------------------------------- frames

  function WordAt(f: seq<byte>, i: nat): (w: word)
    requires i + 1 < |f|
    ensures w == 256 * f[i] as int + f[i + 1] as int
  {
    Be16(f[i], f[i + 1])
  }

  // The MBAP header of a whole frame: transaction, protocol 0, the length of
  // what follows, unit.
  predicate Headed(f: seq<byte>, tid: word, uid: byte) {
    && MBAP_LEN <= |f| && WordAt(f, 0) == tid && WordAt(f, 2) == 0 && WordAt(f, 4) == |f| - 6 && f[6] == uid
  }

  predicate IsReadFrame(f: seq<byte>, tid: word, uid: byte, fc: byte, reg: word, count: word) {
    |f| == MBAP_LEN + 5 && Headed(f, tid, uid) && f[7] == fc && WordAt(f, 8) == reg && WordAt(f, 10) == count
  }

  predicate IsDataFrame(f: seq<byte>, tid: word, uid: byte, fc: byte, data: seq<byte>) {
    |f| == MBAP_LEN + 2 + |data| && Headed(f, tid, uid) && f[7..] == [fc, |data| % 256] + data
  }

  predicate IsExcFrame(f: seq<byte>, tid: word, uid: byte, fc: byte, exc: byte) {
    Headed(f, tid, uid) && f[7..] == [if fc < 0x80 then fc + 0x80 else fc, exc]
  }

  // A frame with such a header is one that the stream of bytes is cut into.
  lemma HeadedIsWhole(f: seq<byte>, tid: word, uid: byte)
    requires Headed(f, tid, uid) && 8 <= |f| <= 260
    ensures FramePump.WholeFrame(f) && FramePump.Cut(f) == [f]
  {
    FramePump.WholeFrameIs(f, FramePump.LengthOf(f[4], f[5]));
    hide FramePump.WholeFrame;
    assert f + [] == f && [f] + FramePump.Cut([]) == [f];
    FramePump.CutFirst(f, []);
  }

  // mb_parse_read_response()
  function ParseReadResponse(f: seq<byte>, tid: word, uid: byte, fc: byte, count: word): Rsp {
    if |f| < MBAP_LEN + 2 then Malformed
    else if WordAt(f, 2) != 0 then Malformed
    else if WordAt(f, 4) < 2 || WordAt(f, 4) + MBAP_LEN - 1 != |f| then Malformed
    else if WordAt(f, 0) != tid then Malformed
    else if f[6] != uid then Malformed
    else if f[7] == WithFlag(fc) then
      if |f| != MBAP_LEN + 2 then Malformed else Refused(f[8])
    else if f[7] != fc then Malformed
    else if count < 1 || count > MAX_READ_REGS then Malformed
    else if f[8] != count * 2 then Malformed
    else if |f| - MBAP_LEN - 2 != f[8] then Malformed
    else Ok(f[9..])
  }

  lemma WordUnique(a: byte, b: byte, c: byte, d: byte)
    requires Be16(a, b) == Be16(c, d)
    ensures a == c && b == d
  {
  }

  // A header leaves no choice of its bytes.
  lemma HeaderUnique(f: seq<byte>, g: seq<byte>, tid: word, uid: byte)
    requires |f| == |g| && Headed(f, tid, uid) && Headed(g, tid, uid)
    ensures f[..7] == g[..7]
  {
    WordUnique(f[0], f[1], g[0], g[1]);
    WordUnique(f[2], f[3], g[2], g[3]);
    WordUnique(f[4], f[5], g[4], g[5]);
    hide WordAt, Be16;
    assert f[..7] == [f[0], f[1], f[2], f[3], f[4], f[5], f[6]];
  }

  // So there is one data frame for a read and its data.
  lemma FrameUnique(f: seq<byte>, g: seq<byte>, tid: word, uid: byte, fc: byte, data: seq<byte>)
    requires IsDataFrame(f, tid, uid, fc, data) && IsDataFrame(g, tid, uid, fc, data)
    ensures f == g
  {
    HeaderUnique(f, g, tid, uid);
    assert f == f[..7] + f[7..] && g == g[..7] + g[7..];
  }

  // Main result: the only frame accepted as data is the data frame for this
  // very read, with all of its data; the only one taken as a refusal is the
  // exception frame for it.
  lemma AcceptsExactly(f: seq<byte>, tid: word, uid: byte, fc: byte, count: word)
    requires fc < 128
    ensures var r := ParseReadResponse(f, tid, uid, fc, count);
            && (forall d :: r == Ok(d) <==>
                  1 <= count <= MAX_READ_REGS && |d| == 2 * count && IsDataFrame(f, tid, uid, fc, d))
            && (forall e :: r == Refused(e) <==> IsExcFrame(f, tid, uid, fc, e))
  {
    hide WordAt;
    var r := ParseReadResponse(f, tid, uid, fc, count);
    forall d
      ensures r == Ok(d) <==>
                1 <= count <= MAX_READ_REGS && |d| == 2 * count && IsDataFrame(f, tid, uid, fc, d)
    {
      if |f| >= 9 { assert f[7..] == [f[7], f[8]] + f[9..]; }
    }
    forall e ensures r == Refused(e) <==> IsExcFrame(f, tid, uid, fc, e) {
      if |f| == 9 { assert f[7..] == [f[7], f[8]]; }
    }
  }

  // So a frame that answers one read with data is malformed as the answer to
  // any read with another transaction, unit, function code or count.
  lemma AnswersOneReadOnly(f: seq<byte>, tid: word, uid: byte, fc: byte, count: word,
                           tid': word, uid': byte, fc': byte, d: seq<byte>)
    requires fc < 128 && fc' < 128 && |d| < 256 && IsDataFrame(f, tid', uid', fc', d)
    requires tid' != tid || uid' != uid || fc' != fc || |d| != 2 * count
    ensures ParseReadResponse(f, tid, uid, fc, count) == Malformed
  {
    hide WordAt;
    assert f[7] == f[7..][0] && f[8] == f[7..][1];
  }

  // ------------------------------------------------- filling the buffers

  // mb_put16()
  method Put16(out: array<byte>, at: nat, v: word)
    requires at + 2 <= out.Length
    modifies out
    ensures Be16(out[at], out[at + 1]) == v
    ensures forall i :: 0 <= i < out.Length && i != at && i != at + 1 ==> out[i] == old(out[i])
  {
    WordRoundTrip(v);
    out[at] := Hi(v);
    out[at + 1] := Lo(v);
  }

  // mb_build_read_request()
  method BuildReadRequest(out: array<byte>, tid: word, uid: byte, fc: byte, reg: word, count: word) returns (n: nat)
    requires out.Length >= MBAP_LEN + 5
    modifies out
    ensures n == MBAP_LEN + 5 && IsReadFrame(out[..n], tid, uid, fc, reg, count)
    ensures out[n..] == old(out[n..])
  {
    hide Be16;
    Put16(out, 0, tid);
    Put16(out, 2, 0);
    Put16(out, 4, 6);
    out[6] := uid;
    out[7] := fc;
    Put16(out, 8, reg);
    Put16(out, 10, count);
    n := MBAP_LEN + 5;
  }

  // The PDU that answers a request, pdu being the request's own bytes.
  function ResponsePdu(req: Request, pdu: seq<byte>, data: seq<byte>, exc: byte): seq<byte>
    requires |data| <= DATA_MAX && (exc == EXC_NONE && !IsRead(req.fc) && req.fc != FC_DEVICE_ID ==> |pdu| >= 5)
  {
    if exc != EXC_NONE then [WithFlag(req.fc), exc]
    else if IsRead(req.fc) then [req.fc, |data|] + data
    else if req.fc == FC_DEVICE_ID then [req.fc] + data
    else pdu[..5]
  }

  // A refusal: the code with its top bit set, and the exception. An
  // identification: the code, and the page.
  lemma AnswerForms(req: Request, pdu: seq<byte>, data: seq<byte>, exc: byte)
    requires |data| <= DATA_MAX && req.fc < 0x80 && (exc == EXC_NONE ==> req.fc == FC_DEVICE_ID)
    ensures var r := ResponsePdu(req, pdu, data, exc);
            if exc != EXC_NONE then |r| == 2 && r[0] as int == 0x80 + req.fc as int && r[1] == exc
            else |r| == 1 + |data| && r[0] == req.fc && r[1..] == data
  {
  }

  // The answer to a write repeats the request: its code, its address, and its
  // value or its count.
  lemma WriteIsEchoed(req: Request, pdu: seq<byte>, data: seq<byte>)
    requires Encodes(pdu, req) && !IsRead(req.fc) && req.fc != FC_DEVICE_ID && |data| <= DATA_MAX
    ensures |pdu| >= 5
    ensures var r := ResponsePdu(req, pdu, data, EXC_NONE);
            && |r| == 5 && r[0] == req.fc && 256 * r[1] as int + r[2] as int == req.addr
            && if req.fc == FC_WRITE_COIL || req.fc == FC_WRITE_REGISTER then r[3..] == req.data
               else 256 * r[3] as int + r[4] as int == req.count
  {
    OnlyReading(pdu, req);
    hide Encodes;
    assert pdu[3..5] == pdu[..5][3..];
  }

  lemma OneAndRest(s: seq<byte>, a: nat, b: nat)
    requires a < b <= |s|
    ensures s[a..b] == [s[a]] + s[a + 1..b]
  {
  }

  lemma TwoAndRest(s: seq<byte>, a: nat, b: nat)
    requires a + 2 <= b <= |s|
    ensures s[a..b] == [s[a], s[a + 1]] + s[a + 2..b]
  {
  }

  // mb_build_response(), at a place in the outgoing frame.
  method BuildResponse(req: Request, pdu: seq<byte>, data: seq<byte>, exc: byte, out: array<byte>,
          at: nat) returns (n: nat)
    requires |data| <= DATA_MAX && at + 2 + DATA_MAX <= out.Length
    requires exc == EXC_NONE && !IsRead(req.fc) && req.fc != FC_DEVICE_ID ==> |pdu| >= 5
    modifies out
    ensures n == |ResponsePdu(req, pdu, data, exc)| <= 2 + DATA_MAX
    ensures out[at..at + n] == ResponsePdu(req, pdu, data, exc)
    ensures forall i :: 0 <= i < out.Length && !(at <= i < at + n) ==> out[i] == old(out[i])
  {
    if exc != EXC_NONE {
      out[at] := WithFlag(req.fc);
      out[at + 1] := exc;
      n := 2;
    } else if IsRead(req.fc) {
      out[at] := req.fc;
      out[at + 1] := |data|;
      CopyInto(out, at + 2, data);
      n := 2 + |data|;
      TwoAndRest(out[..], at, at + n);
    } else if req.fc == FC_DEVICE_ID {
      out[at] := req.fc;
      CopyInto(out, at + 1, data);
      n := 1 + |data|;
      OneAndRest(out[..], at, at + n);
    } else {
      CopyInto(out, at, pdu[..5]);
      n := 5;
    }
  }

  // mb_mbap_write(): transaction and protocol id are the request's own.
  method MbapWrite(out: array<byte>, hdr: seq<byte>, uid: byte, pduLen: nat) returns (n: nat)
    requires |hdr| >= 4 && out.Length >= MBAP_LEN && pduLen <= 2 + DATA_MAX
    modifies out
    ensures n == MBAP_LEN + pduLen
    ensures out[..4] == hdr[..4] && Be16(out[4], out[5]) == pduLen + 1 && out[6] == uid
    ensures out[MBAP_LEN..] == old(out[MBAP_LEN..])
  {
    hide Be16;
    CopyInto(out, 0, hdr[..4]);
    Put16(out, 4, pduLen + 1);
    out[6] := uid;
    n := MBAP_LEN + pduLen;
    assert out[..4] == out[0..0 + |hdr[..4]|];
  }

  // The answer to a request frame: the response PDU, and in front of it the
  // header taken over from the request.
  method Answer(req: Request, frame: seq<byte>, data: seq<byte>, exc: byte, out: array<byte>) returns (n: nat)
    requires |frame| >= MBAP_LEN + 5 && |data| <= DATA_MAX && out.Length >= MBAP_LEN + 2 + DATA_MAX
    modifies out
    ensures n == MBAP_LEN + |ResponsePdu(req, frame[MBAP_LEN..], data, exc)| <= out.Length
    ensures out[MBAP_LEN..n] == ResponsePdu(req, frame[MBAP_LEN..], data, exc)
    ensures WordAt(frame, 2) == 0 ==> Headed(out[..n], WordAt(frame, 0), frame[6])
  {
    var pdu := frame[MBAP_LEN..];
    var k := BuildResponse(req, pdu, data, exc, out, MBAP_LEN);
    ghost var body := out[MBAP_LEN..];
    hide ResponsePdu, Be16;
    n := MbapWrite(out, frame, frame[6], k);
    assert out[MBAP_LEN..n] == body[..k];
    assert out[..4][0] == out[0] && out[..4][1] == out[1] && out[..4][2] == out[2] && out[..4][3] == out[3];
  }

  // A read request's PDU has one reading, and it is that request.
  lemma RequestReading(f: seq<byte>, tid: word, uid: byte, fc: byte, reg: word, count: word)
    requires fc == FC_READ_HOLDING || fc == FC_READ_INPUT
    requires 1 <= count <= MAX_READ_REGS && IsReadFrame(f, tid, uid, fc, reg, count)
    ensures LengthFits(f[MBAP_LEN..]) && Reading(f[MBAP_LEN..]) == Request(fc, reg, count, [])
  {
    hide Be16;
  }

  // The request is built, and taken apart at the other end.
  method Ask(tid: word, uid: byte, fc: byte, reg: word, count: word, asked: array<byte>)
    returns (frame: seq<byte>, parse: byte, request: Request)
    requires fc == FC_READ_HOLDING || fc == FC_READ_INPUT
    requires 1 <= count <= MAX_READ_REGS && asked.Length >= MBAP_LEN + 5
    modifies asked
    ensures IsReadFrame(frame, tid, uid, fc, reg, count)
    ensures parse == EXC_NONE && request == Request(fc, reg, count, [])
  {
    var n := BuildReadRequest(asked, tid, uid, fc, reg, count);
    frame := asked[..n];
    RequestReading(frame, tid, uid, fc, reg, count);
    Exactly(frame[MBAP_LEN..]);
    hide Encodes, Reading, WordAt;
    parse, request := ParsePdu(frame[MBAP_LEN..]);
    OnlyReading(frame[MBAP_LEN..], request);
  }

  // Main result: for every transaction, unit, register and count of 1 to 125,
  // over buffers with any earlier contents -- the request that is built parses
  // back to its fields, and the answer built over its header is accepted with
  // exactly the data, or as exactly the exception, that was sent.
  method ReadExchange(tid: word, uid: byte, fc: byte, reg: word, count: word, data: seq<byte>, exc: byte,
                      asked: array<byte>, answered: array<byte>)
    returns (parse: byte, request: Request, rsp: Rsp)
    requires fc == FC_READ_HOLDING || fc == FC_READ_INPUT
    requires 1 <= count <= MAX_READ_REGS && |data| == 2 * count
    requires asked.Length >= MBAP_LEN + 5 && answered.Length >= MBAP_LEN + 2 + DATA_MAX && asked != answered
    modifies asked, answered
    ensures parse == EXC_NONE && request == Request(fc, reg, count, [])
    ensures rsp == if exc == EXC_NONE then Ok(data) else Refused(exc)
  {
    hide Encodes, WordAt, ParseReadResponse;
    var frame;
    frame, parse, request := Ask(tid, uid, fc, reg, count, asked);
    var n := Answer(request, frame, data, exc, answered);
    var answer := answered[..n];
    assert answer[MBAP_LEN..] == answered[MBAP_LEN..n];
    AcceptsExactly(answer, tid, uid, fc, count);
    rsp := ParseReadResponse(answer, tid, uid, fc, count);
  }
}
