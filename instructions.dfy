/** Ledger instructions as the examples build them, and the one instruction
    whose bytes the client writes itself: SetComputeUnitPrice
    (createSetComputeUnitPriceInstruction in examples/basic_txn/main.go). */
module Instructions {
  import opened Wrappers

  newtype byte = x: int | 0 <= x < 256
  newtype u64 = x: int | 0 <= x < 0x1_0000_0000_0000_0000

  datatype AccountMeta = AccountMeta(key: string, isSigner: bool, isWritable: bool)

  /** A generic instruction (program, accounts, data bytes), or a system
      transfer built by the ledger SDK, kept opaque. */
  datatype Instruction =
    | Instruction(programId: string, accounts: seq<AccountMeta>, data: seq<byte>)
    | SystemTransfer(lamports: u64, from: string, to: string)

  const ComputeBudgetProgram := "ComputeBudget111111111111111111111111111111"
  const SetComputeUnitPriceTag: byte := 3

  function Pow256(n: nat): (p: nat)
    ensures p >= 1
  {
    if n == 0 then 1 else 256 * Pow256(n - 1)
  }

  /** The n-byte little-endian encoding of v modulo 256^n, least significant byte first. */
  function LittleEndian(v: nat, n: nat): (b: seq<byte>)
    ensures |b| == n
  {
    if n == 0 then [] else [(v % 256) as byte] + LittleEndian(v / 256, n - 1)
  }

  /** The number that a little-endian byte string stands for. */
  function FromLittleEndian(b: seq<byte>): (v: nat)
    ensures v < Pow256(|b|)
  {
    if b == [] then 0 else b[0] as nat + 256 * FromLittleEndian(b[1..])
  }

  /** Decoding an encoding gives the number back when it fits in n bytes. */
  lemma {:induction false} DecodeEncode(v: nat, n: nat)
    requires v < Pow256(n)
    ensures FromLittleEndian(LittleEndian(v, n)) == v
  {
    if n > 0 {
      var b := LittleEndian(v, n);
      assert b[1..] == LittleEndian(v / 256, n - 1);
      DecodeEncode(v / 256, n - 1);
    }
  }

  /** Encoding a decoded byte string gives the same bytes. */
  lemma {:induction false} EncodeDecode(b: seq<byte>)
    ensures LittleEndian(FromLittleEndian(b), |b|) == b
  {
    if b != [] {
      var v := FromLittleEndian(b);
      assert v % 256 == b[0] as nat && v / 256 == FromLittleEndian(b[1..]);
      EncodeDecode(b[1..]);
      assert [b[0]] + b[1..] == b;
    }
  }

  /** v >> (8 * k) on a non-negative number: k byte shifts to the right. */
  function ShiftBytes(v: nat, k: nat): nat {
    if k == 0 then v else ShiftBytes(v / 256, k - 1)
  }

  /** Byte k of the encoding is the low byte of v >> (8 * k). */
  lemma {:induction false} LittleEndianAt(v: nat, n: nat, k: nat)
    requires k < n
    ensures LittleEndian(v, n)[k] == (ShiftBytes(v, k) % 256) as byte
  {
    if k > 0 {
      LittleEndianAt(v / 256, n - 1, k - 1);
    }
  }

  /** binary.LittleEndian.PutUint64: writes the eight bytes of v, least
      significant first, at b[off..off+8] and leaves the rest of b alone. */
  method PutUint64(b: array<byte>, off: nat, v: u64)
    requires off + 8 <= b.Length
    modifies b
    ensures b[off..off + 8] == LittleEndian(v as nat, 8)
    ensures forall i :: 0 <= i < b.Length && !(off <= i < off + 8) ==> b[i] == old(b[i])
  {
    var x := v as nat;
    b[off] := (ShiftBytes(x, 0) % 256) as byte;
    b[off + 1] := (ShiftBytes(x, 1) % 256) as byte;
    b[off + 2] := (ShiftBytes(x, 2) % 256) as byte;
    b[off + 3] := (ShiftBytes(x, 3) % 256) as byte;
    b[off + 4] := (ShiftBytes(x, 4) % 256) as byte;
    b[off + 5] := (ShiftBytes(x, 5) % 256) as byte;
    b[off + 6] := (ShiftBytes(x, 6) % 256) as byte;
    b[off + 7] := (ShiftBytes(x, 7) % 256) as byte;
    forall k | 0 <= k < 8 ensures b[off + k] == LittleEndian(x, 8)[k] {
      LittleEndianAt(x, 8, k);
    }
  }

  /** Reads a SetComputeUnitPrice payload back: tag 3 and an 8-byte
      little-endian price, nine bytes in all. */
  function DecodeSetComputeUnitPrice(data: seq<byte>): (r: Option<u64>)
    ensures r.Some? <==> |data| == 9 && data[0] == SetComputeUnitPriceTag
    ensures r.Some? ==> data == [SetComputeUnitPriceTag] + LittleEndian(r.value as nat, 8)
  {
    if |data| == 9 && data[0] == SetComputeUnitPriceTag then
      assert Pow256(8) == 0x1_0000_0000_0000_0000;
      EncodeDecode(data[1..]);
      assert data == [data[0]] + data[1..];
      Some(FromLittleEndian(data[1..]) as u64)
    else None
  }

  /** createSetComputeUnitPriceInstruction: a nine-byte buffer holding the
      instruction tag 3 and then the price in micro-lamports as a
      little-endian u64, for the compute-budget program with no accounts. */
  method CreateSetComputeUnitPriceInstruction(microLamports: u64) returns (ix: Instruction)
    ensures ix.Instruction? && ix.programId == ComputeBudgetProgram && ix.accounts == []
    ensures |ix.data| == 9 && ix.data[0] == 3
    ensures ix.data[1..] == LittleEndian(microLamports as nat, 8)
    ensures FromLittleEndian(ix.data[1..]) == microLamports as nat
    ensures DecodeSetComputeUnitPrice(ix.data) == Some(microLamports)
  {
    var data := new byte[9];
    data[0] := SetComputeUnitPriceTag;
    PutUint64(data, 1, microLamports);
    assert data[..][1..] == data[1..1 + 8];
    assert Pow256(8) == 0x1_0000_0000_0000_0000;
    DecodeEncode(microLamports as nat, 8);
    ix := Instruction(ComputeBudgetProgram, [], data[..]);
  }
}
