// Octets as the wire, the registers and the configuration hold them.
module Bytes {

  type byte = x: int | 0 <= x < 256
  type word = x: int | 0 <= x < 65536

  // Two octets, the more significant first.
  function Hi(v: word): byte { v / 256 }
  function Lo(v: word): byte { v % 256 }
  function Be16(hi: byte, lo: byte): word { hi * 256 + lo }

  // memcpy() into a buffer.
  method CopyInto(out: array<byte>, at: nat, data: seq<byte>)
    requires at + |data| <= out.Length
    modifies out
    ensures out[at..at + |data|] == data
    ensures forall i :: 0 <= i < out.Length && !(at <= i < at + |data|) ==> out[i] == old(out[i])
  {
    forall i | 0 <= i < |data| { out[at + i] := data[i]; }
  }
}
