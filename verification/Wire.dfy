/** The L1 calldata format: a 24-byte little-endian header in front of the compressed data. */
module Wire {
  import opened Basics

  type byte = x: int | 0 <= x < 256

  type Bytes = seq<byte>

  /** An L2 block: its header number, its transaction count and everything else as one opaque body. */
  datatype Block = Block(number: u64, txCount: nat, body: nat)

  /** Serialisation and compression seen as one codec; `encode` may fail. `size` is a block's serialised size. */
  datatype Codec = Codec(encode: seq<Block> -> Option<Bytes>, decode: Bytes -> Option<seq<Block>>, size: Block -> nat)

  /** What the compressor trait demands of every implementation: decompressing undoes compressing. */
  ghost predicate RoundTrips(c: Codec) {
    forall bs: seq<Block> :: c.encode(bs).Some? ==> c.decode(c.encode(bs).value) == Some(bs)
  }

  datatype CompressedBatch = CompressedBatch(
    number: nat, data: Bytes, blockCount: u64, firstBlock: u64, lastBlock: u64)

  function FirstNumber(bs: seq<Block>): u64 {
    if bs == [] then 0 else bs[0].number
  }

  function LastNumber(bs: seq<Block>): u64 {
    if bs == [] then 0 else bs[|bs| - 1].number
  }

  /** The batch's header tells how many blocks there are and the numbers of the first and the last. */
  predicate Describes(b: CompressedBatch, blocks: seq<Block>) {
    && (|blocks| < 0x1_0000_0000_0000_0000 ==> b.blockCount == |blocks|)
    && (blocks == [] ==> b.firstBlock == 0 && b.lastBlock == 0)
    && (blocks != [] ==> b.firstBlock == blocks[0].number && b.lastBlock == blocks[|blocks| - 1].number)
  }

  /** The batch a worker makes of the blocks it was given. */
  function MakeBatch(number: nat, blocks: seq<Block>, data: Bytes): (b: CompressedBatch)
    ensures b.number == number && b.data == data && Describes(b, blocks)
  {
    CompressedBatch(number, data, AsU64(|blocks|), FirstNumber(blocks), LastNumber(blocks))
  }

  const HEADER_LEN: nat := 24

  function Pow256(n: nat): (p: nat)
    ensures p > 0
  {
    if n == 0 then 1 else 256 * Pow256(n - 1)
  }

  /** The `n` low bytes of `x`, least significant first. */
  function LeBytes(x: nat, n: nat): (bs: Bytes)
    ensures |bs| == n
  {
    if n == 0 then [] else [x % 256] + LeBytes(x / 256, n - 1)
  }

  function LeValue(bs: Bytes): (x: nat)
    ensures x < Pow256(|bs|)
  {
    if bs == [] then 0 else bs[0] + 256 * LeValue(bs[1..])
  }

  lemma {:induction false} LeRoundTrip(x: nat, n: nat)
    requires x < Pow256(n)
    ensures LeValue(LeBytes(x, n)) == x
  {
    if n > 0 {
      assert LeBytes(x, n)[1..] == LeBytes(x / 256, n - 1);
      LeRoundTrip(x / 256, n - 1);
    }
  }

  lemma {:induction false} LeBytesOfValue(bs: Bytes)
    ensures LeBytes(LeValue(bs), |bs|) == bs
  {
    if bs != [] {
      LeBytesOfValue(bs[1..]);
      var v := LeValue(bs);
      assert v % 256 == bs[0] && v / 256 == LeValue(bs[1..]);
      assert bs == [bs[0]] + bs[1..];
    }
  }

  lemma EightBytes()
    ensures Pow256(8) == TWO_64
  {
    assert Pow256(2) == 65536;
    assert Pow256(4) == 65536 * 65536;
    assert Pow256(6) == 65536 * Pow256(4);
    assert Pow256(8) == 65536 * Pow256(6);
  }

  function DecodeU64(bs: Bytes): u64
    requires |bs| == 8
  {
    EightBytes();
    LeValue(bs)
  }

  /** What `next_batch` makes of one inbox transaction's calldata, given the number it assigns. */
  function DecodeCalldata(number: nat, input: Bytes): CompressedBatch {
    if |input| >= HEADER_LEN then
      CompressedBatch(number, input[24..], DecodeU64(input[0..8]), DecodeU64(input[8..16]), DecodeU64(input[16..24]))
    else
      CompressedBatch(number, input, 1, 0, 0)
  }

  /** The sink's encoding, built up buffer append by buffer append. */
  method EncodeCalldata(batch: CompressedBatch) returns (encoded: Bytes)
    ensures encoded == Calldata(batch)
    ensures DecodeCalldata(batch.number, encoded) == batch
  {
    encoded := [];
    encoded := encoded + LeBytes(batch.blockCount, 8);
    encoded := encoded + LeBytes(batch.firstBlock, 8);
    encoded := encoded + LeBytes(batch.lastBlock, 8);
    encoded := encoded + batch.data;
    HeaderRoundTrip(batch, batch.number);
  }

  function Calldata(batch: CompressedBatch): Bytes {
    LeBytes(batch.blockCount, 8) + LeBytes(batch.firstBlock, 8) + LeBytes(batch.lastBlock, 8) + batch.data
  }

  /** Reading back what the sink wrote gives the same batch under whatever number the source assigns. */
  lemma HeaderRoundTrip(batch: CompressedBatch, number: nat)
    ensures |Calldata(batch)| >= HEADER_LEN
    ensures DecodeCalldata(number, Calldata(batch)) == batch.(number := number)
  {
    EightBytes();
    var c := Calldata(batch);
    assert c[0..8] == LeBytes(batch.blockCount, 8);
    assert c[8..16] == LeBytes(batch.firstBlock, 8);
    assert c[16..24] == LeBytes(batch.lastBlock, 8);
    assert c[24..] == batch.data;
    LeRoundTrip(batch.blockCount, 8);
    LeRoundTrip(batch.firstBlock, 8);
    LeRoundTrip(batch.lastBlock, 8);
  }

  /** Exactly the calldata that carry a whole header are the encodings of what they decode to; others are all data. */
  lemma DecodableIffHeader(number: nat, input: Bytes)
    ensures Calldata(DecodeCalldata(number, input)) == input <==> |input| >= 24
    ensures |input| < 24 ==> DecodeCalldata(number, input) == CompressedBatch(number, input, 1, 0, 0)
  {
    if |input| >= HEADER_LEN {
      LeBytesOfValue(input[0..8]);
      LeBytesOfValue(input[8..16]);
      LeBytesOfValue(input[16..24]);
      assert input == input[0..8] + input[8..16] + input[16..24] + input[24..];
    } else {
      assert |Calldata(DecodeCalldata(number, input))| >= HEADER_LEN;
    }
  }
}
