// NMEA 2000 identifiers: parameter group, priority, source and destination in
// the 29 bits of an extended CAN identifier.
module FrameId {

  const ADDR_GLOBAL: bv8 := 0xFF
  const PGN_ADDRESS_CLAIM: bv32 := 60928

  datatype Id = Id(pgn: bv32, src: bv8, dst: bv8)

  function PduFormat(pgn: bv32): bv32 { (pgn >> 8) & 0xFF }
  function DataPage(pgn: bv32): bv32 { (pgn >> 16) & 0x01 }
  function LowByte(pgn: bv32): bv32 { pgn & 0xFF }
  function Group(dp: bv32, pf: bv32, ps: bv32): bv32 { (dp << 16) | (pf << 8) | ps }

  function Octet(v: bv32): bv8 { (v & 0xFF) as bv8 }
  function Word32(b: bv8): bv32 { b as bv32 }

  // Priority, data page, format, the byte after it, and the source.
  function Pack(pri: bv32, dp: bv32, pf: bv32, ps: bv32, src: bv32): bv32 {
    (pri << 26) | (dp << 24) | (pf << 16) | (ps << 8) | src
  }

  predicate Fits(pri: bv32, dp: bv32, pf: bv32, ps: bv32, src: bv32) {
    pri <= 7 && dp <= 1 && pf <= 0xFF && ps <= 0xFF && src <= 0xFF
  }

  // n2k_make_id(): below format 0xF0 the destination takes the low byte's
  // place, from there on the group's own low byte stands there.
  function MakeId(pgn: bv32, pri: bv8, src: bv8, dst: bv8): bv32 {
    var pf := PduFormat(pgn);
    Pack(Word32(pri & 7), DataPage(pgn), pf, if pf < 0xF0 then Word32(dst) else LowByte(pgn), Word32(src))
  }

  function SrcOf(id: bv32): bv32 { id & 0xFF }
  function PsOf(id: bv32): bv32 { (id >> 8) & 0xFF }
  function PfOf(id: bv32): bv32 { (id >> 16) & 0xFF }
  function DpOf(id: bv32): bv32 { (id >> 24) & 0x01 }

  // n2k_decode_id()
  function DecodeId(id: bv32): Id {
    var pf, ps := PfOf(id), PsOf(id);
    Id(Group(DpOf(id), pf, if pf >= 0xF0 then ps else 0), Octet(SrcOf(id)),
       if pf < 0xF0 then Octet(ps) else ADDR_GLOBAL)
  }

  lemma PackedLow(pri: bv32, dp: bv32, pf: bv32, ps: bv32, src: bv32)
    requires Fits(pri, dp, pf, ps, src)
    ensures SrcOf(Pack(pri, dp, pf, ps, src)) == src && PsOf(Pack(pri, dp, pf, ps, src)) == ps
  {
  }

  lemma PackedHigh(pri: bv32, dp: bv32, pf: bv32, ps: bv32, src: bv32)
    requires Fits(pri, dp, pf, ps, src)
    ensures PfOf(Pack(pri, dp, pf, ps, src)) == pf && DpOf(Pack(pri, dp, pf, ps, src)) == dp
    ensures Pack(pri, dp, pf, ps, src) < 0x2000_0000
  {
  }

  lemma Repacked(id: bv32)
    requires id < 0x2000_0000
    ensures Pack(id >> 26, DpOf(id), PfOf(id), PsOf(id), SrcOf(id)) == id & 0x1DFF_FFFF
  {
  }

  // The group that format, byte and page stand for.
  lemma GroupOf(pgn: bv32)
    ensures Group(DataPage(pgn), PduFormat(pgn), 0) == pgn & 0x1FF00
    ensures Group(DataPage(pgn), PduFormat(pgn), LowByte(pgn)) == pgn & 0x1FFFF
    ensures DataPage(pgn) <= 1 && PduFormat(pgn) <= 0xFF && LowByte(pgn) <= 0xFF
  {
  }

  lemma Octets(b: bv8)
    ensures Word32(b) <= 0xFF && Octet(Word32(b)) == b && Word32(b & 7) <= 7
  {
  }

  // What comes back of a frame's identifier: its source always; a destination
  // only for groups that carry one; of the group, 17 bits, without the low
  // byte when the destination took its place.
  lemma DecodeMake(pgn: bv32, pri: bv8, src: bv8, dst: bv8)
    ensures MakeId(pgn, pri, src, dst) < 0x2000_0000
    ensures DecodeId(MakeId(pgn, pri, src, dst)) ==
            if PduFormat(pgn) < 0xF0 then Id(pgn & 0x1FF00, src, dst) else Id(pgn & 0x1FFFF, src, ADDR_GLOBAL)
  {
    var pf, dp := PduFormat(pgn), DataPage(pgn);
    var ps := if pf < 0xF0 then Word32(dst) else LowByte(pgn);
    GroupOf(pgn);
    Octets(src);
    Octets(dst);
    Octets(pri);
    PackedLow(Word32(pri & 7), dp, pf, ps, Word32(src));
    PackedHigh(Word32(pri & 7), dp, pf, ps, Word32(src));
    hide Pack, SrcOf, PsOf, PfOf, DpOf, Octet, Word32, PduFormat, DataPage, LowByte, Group;
  }

  // So the group survives exactly when it is one the bus has.
  lemma GroupSurvives(pgn: bv32, pri: bv8, src: bv8, dst: bv8)
    ensures DecodeId(MakeId(pgn, pri, src, dst)).pgn == pgn <==>
            pgn < 0x20000 && (PduFormat(pgn) < 0xF0 ==> pgn & 0xFF == 0)
  {
    DecodeMake(pgn, pri, src, dst);
    hide MakeId, DecodeId;
    Masked(pgn);
    hide PduFormat;
  }

  lemma Masked(pgn: bv32)
    ensures pgn & 0x1FFFF == pgn <==> pgn < 0x20000
    ensures pgn & 0x1FF00 == pgn <==> pgn < 0x20000 && pgn & 0xFF == 0
  {
  }

  // The other way round, any identifier is made again from its parts, but for
  // the bit the bus reserves.
  lemma MakeDecode(id: bv32)
    requires id < 0x2000_0000
    ensures var d := DecodeId(id); MakeId(d.pgn, Octet(id >> 26), d.src, d.dst) == id & 0x1DFF_FFFF
  {
    var d := DecodeId(id);
    PartsBack(id);
    Repacked(id);
    hide Pack, SrcOf, PsOf, PfOf, DpOf, Octet, Word32, PduFormat, DataPage, LowByte, Group;
  }

  lemma PartsBack(id: bv32)
    requires id < 0x2000_0000
    ensures var d := DecodeId(id);
            && PduFormat(d.pgn) == PfOf(id) && DataPage(d.pgn) == DpOf(id)
            && (PfOf(id) >= 0xF0 ==> LowByte(d.pgn) == PsOf(id)) && (PfOf(id) < 0xF0 ==> Word32(d.dst) == PsOf(id))
            && Word32(d.src) == SrcOf(id) && Word32(Octet(id >> 26) & 7) == id >> 26
  {
  }

  lemma ClaimId(addr: bv8)
    ensures MakeId(PGN_ADDRESS_CLAIM, 6, addr, ADDR_GLOBAL) == 0x18EE_FF00 | Word32(addr)
  {
    assert PduFormat(PGN_ADDRESS_CLAIM) == 0xEE && DataPage(PGN_ADDRESS_CLAIM) == 0;
    ClaimPacked(Word32(addr));
    hide Pack;
  }

  lemma ClaimPacked(src: bv32)
    ensures Pack(6, 0, 0xEE, 0xFF, src) == 0x18EE_FF00 | src
  {
  }

  // The bits of two groups on the wire: the claim, 60928 with priority 6, and
  // the switch bank status, 127501 with priority 3.
  lemma StatusId(src: bv8, dst: bv8)
    ensures MakeId(127501, 3, src, dst) == 0x0DF2_0D00 | Word32(src)
  {
    assert PduFormat(127501) == 0xF2 && DataPage(127501) == 1 && LowByte(127501) == 0x0D;
    StatusPacked(Word32(src));
    hide Pack;
  }

  lemma StatusPacked(src: bv32)
    ensures Pack(3, 1, 0xF2, 0x0D, src) == 0x0DF2_0D00 | src
  {
  }

  // An address claim is recognised as one, from the address it claims, and is
  // for everybody.
  lemma ClaimIsRecognised(addr: bv8)
    ensures DecodeId(MakeId(PGN_ADDRESS_CLAIM, 6, addr, ADDR_GLOBAL)) == Id(PGN_ADDRESS_CLAIM, addr, ADDR_GLOBAL)
    ensures MakeId(PGN_ADDRESS_CLAIM, 6, addr, ADDR_GLOBAL) == 0x18EE_FF00 | Word32(addr)
  {
    ClaimId(addr);
    DecodeMake(PGN_ADDRESS_CLAIM, 6, addr, ADDR_GLOBAL);
    hide MakeId, DecodeId;
  }
}
