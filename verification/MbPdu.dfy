// Modbus on the wire (Modbus Application Protocol V1.1b3, sections 6.1 to 6.21;
// MBAP header as in section 3.1.3 of the Messaging on TCP/IP guide): taking a
// request PDU apart, and both ends of a register read.
module MbPdu {
  import opened Bytes

  const FC_READ_COILS := 0x01
  const FC_READ_DISCRETE := 0x02
  const FC_READ_HOLDING := 0x03
  const FC_READ_INPUT := 0x04
  const FC_WRITE_COIL := 0x05
  const FC_WRITE_REGISTER := 0x06
  const FC_WRITE_COILS := 0x0F
  const FC_WRITE_REGISTERS := 0x10
  const FC_DEVICE_ID := 0x2B
  const MEI_DEVICE_ID: byte := 0x0E

  const EXC_NONE: byte := 0x00
  const EXC_ILLEGAL_FUNC: byte := 0x01
  const EXC_ILLEGAL_VALUE: byte := 0x03

  const MAX_READ_BITS := 2000
  const MAX_READ_REGS := 125
  const MAX_WRITE_BITS := 1968
  const MAX_WRITE_REGS := 123
  const MBAP_LEN := 7
  const DATA_MAX := 250

  datatype Request = Request(fc: byte, addr: word, count: word, data: seq<byte>)

  predicate IsRead(fc: byte) { FC_READ_COILS <= fc <= FC_READ_INPUT }

  predicate Known(fc: byte) {
    IsRead(fc) || fc == FC_WRITE_COIL || fc == FC_WRITE_REGISTER || fc == FC_WRITE_COILS
    || fc == FC_WRITE_REGISTERS || fc == FC_DEVICE_ID
  }

  function MaxRead(fc: byte): nat {
    if fc == FC_READ_COILS || fc == FC_READ_DISCRETE then MAX_READ_BITS else MAX_READ_REGS
  }

  function MaxWrite(fc: byte): nat {
    if fc == FC_WRITE_COILS then MAX_WRITE_BITS else MAX_WRITE_REGS
  }

  // Coils travel eight to a byte.
  function WriteBytes(fc: byte, count: word): (n: nat)
    ensures fc == FC_WRITE_COILS ==> 8 * n >= count && (n > 0 ==> 8 * (n - 1) < count)
  {
    if fc == FC_WRITE_COILS then (count + 7) / 8 else count * 2
  }

  lemma WriteBytesFit(fc: byte, count: word)
    requires count <= MaxWrite(fc)
    ensures WriteBytes(fc, count) < 256 && WriteBytes(fc, count) % 65536 == WriteBytes(fc, count)
  {
  }

  // The requests the specification allows for the function codes served.
  predicate WellFormed(r: Request) {
    if IsRead(r.fc) then 1 <= r.count <= MaxRead(r.fc) && r.data == []
    else if r.fc == FC_WRITE_COIL then r.count == 1 && (r.data == [0xFF, 0] || r.data == [0, 0])
    else if r.fc == FC_WRITE_REGISTER then r.count == 1 && |r.data| == 2
    else if r.fc == FC_WRITE_COILS || r.fc == FC_WRITE_REGISTERS then
      1 <= r.count <= MaxWrite(r.fc) && |r.data| == WriteBytes(r.fc, r.count)
    else r.fc == FC_DEVICE_ID && 1 <= r.count <= 4 && r.addr < 256 && r.data == []
  }

  function Word(v: word): (s: seq<byte>)
    ensures |s| == 2
  {
    [Hi(v), Lo(v)]
  }

  lemma WordRoundTrip(v: word)
    ensures Be16(Hi(v), Lo(v)) == v
  {
  }

  lemma WordOf(hi: byte, lo: byte)
    ensures Hi(Be16(hi, lo)) == hi && Lo(Be16(hi, lo)) == lo
  {
  }

  // A request as the specification lays it out.
  function Encode(r: Request): seq<byte>
    requires WellFormed(r)
  {
    if IsRead(r.fc) then [r.fc] + Word(r.addr) + Word(r.count)
    else if r.fc == FC_WRITE_COIL || r.fc == FC_WRITE_REGISTER then [r.fc] + Word(r.addr) + r.data
    else if r.fc == FC_DEVICE_ID then [r.fc, MEI_DEVICE_ID, r.count, r.addr]
    else [r.fc] + Word(r.addr) + Word(r.count) + [|r.data|] + r.data
  }

  ghost predicate Encodes(pdu: seq<byte>, r: Request) {
    WellFormed(r) && Encode(r) == pdu
  }

  // A function this device does not have, or one of the MEI's other types.
  predicate NoSuchFunction(pdu: seq<byte>) {
    pdu == [] || !Known(pdu[0]) || (pdu[0] == FC_DEVICE_ID && |pdu| == 4 && pdu[1] != MEI_DEVICE_ID)
  }

  // An encoding begins with its function code.
  lemma StartsWithCode(pdu: seq<byte>, r: Request)
    requires Encodes(pdu, r)
    ensures pdu != [] && pdu[0] == r.fc && Known(r.fc)
  {
    hide Hi, Lo;
  }

  lemma NoEncoding(pdu: seq<byte>)
    requires pdu == [] || !Known(pdu[0])
    ensures !exists r :: Encodes(pdu, r)
  {
    forall r | Encodes(pdu, r) ensures false { StartsWithCode(pdu, r); }
  }

  function AddrOf(pdu: seq<byte>): word
    requires |pdu| >= 3
  {
    Be16(pdu[1], pdu[2])
  }

  function CountOf(pdu: seq<byte>): word
    requires |pdu| >= 5
  {
    Be16(pdu[3], pdu[4])
  }

  lemma WordsBack(pdu: seq<byte>)
    requires |pdu| >= 3
    ensures Word(AddrOf(pdu)) == pdu[1..3]
    ensures |pdu| >= 5 ==> Word(CountOf(pdu)) == pdu[3..5]
  {
    WordOf(pdu[1], pdu[2]);
    if |pdu| >= 5 { WordOf(pdu[3], pdu[4]); }
  }

  // The reading of a PDU, if it has one.
  function Reading(pdu: seq<byte>): Request
    requires |pdu| >= 4 && (pdu[0] != FC_DEVICE_ID ==> |pdu| >= 5)
  {
    if pdu[0] == FC_DEVICE_ID then Request(pdu[0], pdu[3], pdu[2], [])
    else if IsRead(pdu[0]) then Request(pdu[0], AddrOf(pdu), CountOf(pdu), [])
    else if pdu[0] == FC_WRITE_COIL || pdu[0] == FC_WRITE_REGISTER then Request(pdu[0], AddrOf(pdu), 1, pdu[3..])
    else Request(pdu[0], AddrOf(pdu), CountOf(pdu), if |pdu| >= 6 then pdu[6..] else pdu[..0])
  }

  predicate LengthFits(pdu: seq<byte>)
    requires pdu != []
  {
    if pdu[0] == FC_DEVICE_ID then |pdu| == 4 && pdu[1] == MEI_DEVICE_ID
    else if pdu[0] == FC_WRITE_COILS || pdu[0] == FC_WRITE_REGISTERS then |pdu| >= 7 && |pdu| - 6 == pdu[5]
    else |pdu| == 5
  }

  lemma PrefixBytes(pdu: seq<byte>, fc: byte, addr: word, rest: seq<byte>)
    requires pdu == [fc] + Word(addr) + rest
    ensures |pdu| == 3 + |rest| && pdu[0] == fc && AddrOf(pdu) == addr && pdu[3..] == rest
  {
    WordRoundTrip(addr);
    hide Hi, Lo, Be16;
  }

  lemma CountBytes(pdu: seq<byte>, count: word, rest: seq<byte>)
    requires |pdu| >= 3 && pdu[3..] == Word(count) + rest
    ensures |pdu| == 5 + |rest| && CountOf(pdu) == count && pdu[5..] == rest
  {
    WordRoundTrip(count);
    hide Hi, Lo, Be16;
    assert pdu[3..][0] == pdu[3] && pdu[3..][1] == pdu[4];
    assert pdu[5..] == pdu[3..][2..];
  }

  // Whatever a PDU encodes is its reading, and its length fits.
  lemma OnlyReading(pdu: seq<byte>, r: Request)
    requires Encodes(pdu, r)
    ensures pdu != [] && LengthFits(pdu) && r == Reading(pdu)
  {
    StartsWithCode(pdu, r);
    hide Word, AddrOf, CountOf;
    if IsRead(r.fc) {
      assert pdu == [r.fc] + Word(r.addr) + (Word(r.count) + []);
      PrefixBytes(pdu, r.fc, r.addr, Word(r.count) + []);
      CountBytes(pdu, r.count, []);
    } else if r.fc == FC_WRITE_COIL || r.fc == FC_WRITE_REGISTER {
      PrefixBytes(pdu, r.fc, r.addr, r.data);
    } else if r.fc != FC_DEVICE_ID {
      ManyReading(pdu, r);
    }
  }

  lemma ManyReading(pdu: seq<byte>, r: Request)
    requires Encodes(pdu, r) && (r.fc == FC_WRITE_COILS || r.fc == FC_WRITE_REGISTERS)
    ensures pdu != [] && LengthFits(pdu) && r == Reading(pdu)
  {
    hide Word, AddrOf, CountOf;
    var tail := [|r.data|] + r.data;
    assert pdu == [r.fc] + Word(r.addr) + (Word(r.count) + tail);
    PrefixBytes(pdu, r.fc, r.addr, Word(r.count) + tail);
    CountBytes(pdu, r.count, tail);
    assert pdu[5] == pdu[5..][0];
    assert pdu[6..] == pdu[5..][1..];
  }

  lemma FivePieces(p: seq<byte>)
    requires |p| >= 6
    ensures p == [p[0]] + p[1..3] + p[3..5] + [p[5]] + p[6..]
  {
  }

  lemma ThreePieces(p: seq<byte>)
    requires |p| >= 3
    ensures p == [p[0]] + p[1..3] + p[3..]
  {
  }

  lemma ManyEncodes(pdu: seq<byte>)
    requires pdu != [] && (pdu[0] == FC_WRITE_COILS || pdu[0] == FC_WRITE_REGISTERS)
    requires LengthFits(pdu) && WellFormed(Reading(pdu))
    ensures Encodes(pdu, Reading(pdu))
  {
    FivePieces(pdu);
    WordsBack(pdu);
    hide Word, AddrOf, CountOf, WriteBytes, MaxWrite;
    assert Encode(Reading(pdu)) == [pdu[0]] + Word(AddrOf(pdu)) + Word(CountOf(pdu)) + [|pdu[6..]|] + pdu[6..];
    assert |pdu[6..]| == pdu[5];
  }

  // And the other way round.
  lemma ReadingEncodes(pdu: seq<byte>)
    requires pdu != [] && Known(pdu[0]) && LengthFits(pdu) && WellFormed(Reading(pdu))
    ensures Encodes(pdu, Reading(pdu))
  {
    if pdu[0] == FC_WRITE_COILS || pdu[0] == FC_WRITE_REGISTERS {
      ManyEncodes(pdu);
    } else if pdu[0] != FC_DEVICE_ID {
      WordsBack(pdu);
      ThreePieces(pdu);
      assert pdu[3..] == pdu[3..5];
      hide Word, AddrOf, CountOf, MaxRead;
    }
  }

  lemma Exactly(pdu: seq<byte>)
    requires pdu != [] && Known(pdu[0])
    ensures (exists r :: Encodes(pdu, r)) <==> LengthFits(pdu) && WellFormed(Reading(pdu))
    ensures LengthFits(pdu) && WellFormed(Reading(pdu)) ==> Encodes(pdu, Reading(pdu))
  {
    if LengthFits(pdu) && WellFormed(Reading(pdu)) { ReadingEncodes(pdu); }
    forall r | Encodes(pdu, r) ensures LengthFits(pdu) && r == Reading(pdu) { OnlyReading(pdu, r); }
  }

  // mb_parse_pdu(): accepts exactly the encodings of well-formed requests, and
  // gives back the request that was encoded; the function code is there for
  // the exception answer as well.
  method ParsePdu(pdu: seq<byte>) returns (exc: byte, req: Request)
    ensures exc == EXC_NONE ==> Encodes(pdu, req)
    ensures exc == EXC_NONE <==> exists r :: Encodes(pdu, r)
    ensures exc == EXC_ILLEGAL_FUNC <==> NoSuchFunction(pdu)
    ensures exc in {EXC_NONE, EXC_ILLEGAL_FUNC, EXC_ILLEGAL_VALUE}
    ensures req.fc == if pdu == [] then 0 else pdu[0]
    ensures exc == EXC_NONE && req.fc != FC_DEVICE_ID ==> |pdu| >= 5 && req.addr == 256 * pdu[1] as int + pdu[2] as int
    ensures exc == EXC_NONE && (IsRead(req.fc) || req.fc == FC_WRITE_COILS || req.fc == FC_WRITE_REGISTERS) ==>
              |pdu| >= 5 && req.count == 256 * pdu[3] as int + pdu[4] as int
  {
    if pdu == [] || !Known(pdu[0]) { NoEncoding(pdu); } else { Exactly(pdu); }
    hide Encodes, AddrOf, CountOf, WriteBytes, MaxWrite, MaxRead;
    req := Request(0, 0, 0, []);
    if |pdu| < 1 { return EXC_ILLEGAL_FUNC, req; }
    req := req.(fc := pdu[0]);
    if IsRead(req.fc) {
      if |pdu| != 5 { return EXC_ILLEGAL_VALUE, req; }
      req := req.(addr := AddrOf(pdu), count := CountOf(pdu));
      if req.count < 1 || req.count > MaxRead(req.fc) { return EXC_ILLEGAL_VALUE, req; }
    } else if req.fc == FC_WRITE_COIL {
      if |pdu| != 5 { return EXC_ILLEGAL_VALUE, req; }
      req := req.(addr := AddrOf(pdu), count := 1, data := pdu[3..]);
      assert pdu[3..] == [pdu[3], pdu[4]];
      if !((pdu[3] == 0xFF || pdu[3] == 0x00) && pdu[4] == 0x00) { return EXC_ILLEGAL_VALUE, req; }
    } else if req.fc == FC_WRITE_REGISTER {
      if |pdu| != 5 { return EXC_ILLEGAL_VALUE, req; }
      req := req.(addr := AddrOf(pdu), count := 1, data := pdu[3..]);
    } else if req.fc == FC_WRITE_COILS || req.fc == FC_WRITE_REGISTERS {
      if |pdu| < 7 { return EXC_ILLEGAL_VALUE, req; }
      req := req.(addr := AddrOf(pdu), count := CountOf(pdu));
      var byteCount: int := pdu[5];
      var want := WriteBytes(req.fc, req.count) % 65536;
      if req.count < 1 || req.count > MaxWrite(req.fc) { return EXC_ILLEGAL_VALUE, req; }
      WriteBytesFit(req.fc, req.count);
      if byteCount != want || |pdu| != 6 + byteCount { return EXC_ILLEGAL_VALUE, req; }
      req := req.(data := pdu[6..]);
    } else if req.fc == FC_DEVICE_ID {
      if |pdu| != 4 { return EXC_ILLEGAL_VALUE, req; }
      if pdu[1] != MEI_DEVICE_ID { return EXC_ILLEGAL_FUNC, req; }
      if pdu[2] < 1 || pdu[2] > 4 { return EXC_ILLEGAL_VALUE, req; }
      req := req.(count := pdu[2], addr := pdu[3]);
    } else {
      return EXC_ILLEGAL_FUNC, req;
    }
    exc := EXC_NONE;
  }

  // No two requests share an encoding, so an accepted PDU has one reading.
  lemma EncodingsDiffer(a: Request, b: Request)
    requires WellFormed(a) && WellFormed(b) && Encode(a) == Encode(b)
    ensures a == b
  {
    OnlyReading(Encode(a), a);
    OnlyReading(Encode(a), b);
  }
}
