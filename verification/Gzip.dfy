// The gzip writer of the RPM plugin, and an independent reader for what it writes.
module Gzip {
  import Bits
  import Crc32
  import opened Text

  const MAX_STORED: nat := 65535

  // The bits of each octet, as the checksum sees them.
  function ToBits(data: seq<Octet>): (r: seq<Bits.byte>)
    ensures |r| == |data|
  {
    seq(|data|, i requires 0 <= i < |data| => Bits.Low(data[i], 8))
  }

  function Crc(data: seq<Octet>): (c: nat)
    ensures c < 0x1_0000_0000
  {
    var crc := Crc32.Checksum(ToBits(data));
    Bits.ValueBound32(crc);
    Bits.Value(crc)
  }

  // to_le_bytes of a u16 and of a u32.
  function Le16(v: nat): seq<Octet>
    requires v < 0x1_0000
  {
    [v % 256, v / 256]
  }

  function Le32(v: nat): seq<Octet>
    requires v < 0x1_0000_0000
  {
    Le16(v % 0x1_0000) + Le16(v / 0x1_0000)
  }

  // ID1 ID2 CM FLG, four bytes of MTIME, XFL and OS.
  const HEADER: seq<Octet> := [0x1f, 0x8b, 0x08, 0x00, 0x00, 0x00, 0x00, 0x00, 0x00, 0xff]

  // ---- The writer ----

  // One stored block: BFINAL with BTYPE 00 in one byte, LEN, its complement, the bytes.
  function StoredBlock(final: bool, chunk: seq<Octet>): (b: seq<Octet>)
    ensures |b| == 5 + |chunk|
  {
    var len := |chunk| % 65536;
    [if final then 0x01 else 0x00] + Le16(len) + Le16(65535 - len) + chunk
  }

  // data.chunks(65535), or one empty chunk for empty data.
  function Chunks(data: seq<Octet>): (chunks: seq<seq<Octet>>)
    ensures |chunks| > 0
    ensures forall i | 0 <= i < |chunks| :: |chunks[i]| <= MAX_STORED
  {
    if |data| <= MAX_STORED then [data] else [data[..MAX_STORED]] + Chunks(data[MAX_STORED..])
  }

  function Blocks(chunks: seq<seq<Octet>>): seq<Octet> {
    if chunks == [] then [] else StoredBlock(|chunks| == 1, chunks[0]) + Blocks(chunks[1..])
  }

  // A stream of the data whose trailer carries the checksum c.
  function Stream(data: seq<Octet>, c: nat): seq<Octet>
    requires c < 0x1_0000_0000
  {
    HEADER + Blocks(Chunks(data)) + Le32(c) + Le32(|data| % 0x1_0000_0000)
  }

  // The body of the loop over the chunks.
  method PushBlock(output: seq<Octet>, isLast: bool, chunk: seq<Octet>) returns (r: seq<Octet>)
    ensures r == output + StoredBlock(isLast, chunk)
  {
    r := output + [if isLast then 0x01 else 0x00];
    var len := |chunk| % 65536;
    var nlen := 65535 - len;
    r := r + Le16(len);
    r := r + Le16(nlen);
    r := r + chunk;
  }

  method Compress(data: seq<Octet>) returns (output: seq<Octet>)
    ensures output == Stream(data, Crc(data))
  {
    hide StoredBlock, Chunks;
    output := HEADER;
    var chunks := Chunks(data);
    for i := 0 to |chunks|
      invariant output + Blocks(chunks[i..]) == HEADER + Blocks(chunks)
    {
      output := PushBlock(output, i == |chunks| - 1, chunks[i]);
      assert chunks[i..][0] == chunks[i] && chunks[i..][1..] == chunks[i + 1..];
    }
    assert chunks[|chunks|..] == [];
    var crc := Crc32.Compute(ToBits(data));
    Bits.ValueBound32(crc);
    output := output + Le32(Bits.Value(crc));
    output := output + Le32(|data| % 0x1_0000_0000);
  }

  // ---- The reader ----

  datatype Error = Truncated | NotGzip | Unsupported | BadLength | BadChecksum | BadSize | TrailingBytes
  datatype Result<T> = Ok(value: T) | Err(error: Error)

  function U16(lo: Octet, hi: Octet): nat {
    (lo as nat) + 256 * (hi as nat)
  }

  // One block and the input behind it.
  datatype Block = Block(final: bool, data: seq<Octet>, rest: seq<Octet>)

  // A stored block (sections 3.2.3 and 3.2.4 of RFC 1951). Bits come lowest first
  // out of a byte: BFINAL, two bits of BTYPE, then the rest of the byte is skipped.
  // Such a block ends on a byte boundary, so each starts at one.
  function ReadStored(s: seq<Octet>): (r: Result<Block>)
    ensures r.Ok? ==> |r.value.rest| < |s|
  {
    if s == [] then Err(Truncated)
    else if (s[0] / 2) % 4 != 0 then Err(Unsupported)
    else if |s| < 5 then Err(Truncated)
    else
      var len, nlen := U16(s[1], s[2]), U16(s[3], s[4]);
      if len + nlen != 65535 then Err(BadLength)
      else if |s| < 5 + len then Err(Truncated)
      else Ok(Block(s[0] % 2 == 1, s[5..5 + len], s[5 + len..]))
  }

  datatype Inflated = Inflated(data: seq<Octet>, blocks: nat, rest: seq<Octet>)

  // Blocks up to and including the first with BFINAL set.
  function Inflate(s: seq<Octet>): Result<Inflated>
    decreases |s|
  {
    match ReadStored(s)
    case Err(e) => Err(e)
    case Ok(b) =>
      if b.final then Ok(Inflated(b.data, 1, b.rest))
      else match Inflate(b.rest)
        case Err(e) => Err(e)
        case Ok(tail) => Ok(Inflated(b.data + tail.data, 1 + tail.blocks, tail.rest))
  }

  datatype Member = Member(data: seq<Octet>, blocks: nat)

  // One member without optional header fields (section 2.3 of RFC 1952).
  function Gunzip(s: seq<Octet>): Result<Member> {
    if |s| < 10 then Err(Truncated)
    else if s[0] != 0x1f || s[1] != 0x8b then Err(NotGzip)
    else if s[2] != 8 || s[3] != 0 then Err(Unsupported)
    else match Inflate(s[10..])
      case Err(e) => Err(e)
      case Ok(r) => CheckTrailer(r)
  }

  function CheckTrailer(r: Inflated): Result<Member> {
    var t := r.rest;
    if |t| < 8 then Err(Truncated)
    else if U16(t[0], t[1]) + 0x1_0000 * U16(t[2], t[3]) != Crc(r.data) then Err(BadChecksum)
    else if U16(t[4], t[5]) + 0x1_0000 * U16(t[6], t[7]) != |r.data| % 0x1_0000_0000 then Err(BadSize)
    else if |t| > 8 then Err(TrailingBytes)
    else Ok(Member(r.data, r.blocks))
  }

  // ---- Reading back what was written ----

  function Concat(chunks: seq<seq<Octet>>): seq<Octet> {
    if chunks == [] then [] else chunks[0] + Concat(chunks[1..])
  }

  lemma {:induction false} ConcatChunks(data: seq<Octet>)
    ensures Concat(Chunks(data)) == data
    ensures |Chunks(data)| == if data == [] then 1 else (|data| + MAX_STORED - 1) / MAX_STORED
    ensures |Blocks(Chunks(data))| == |data| + 5 * |Chunks(data)|
    decreases |data|
  {
    if |data| <= MAX_STORED {
      assert Concat([data]) == data + Concat([]);
      assert Blocks([data]) == StoredBlock(true, data) + Blocks([]);
    } else {
      var head, tail := data[..MAX_STORED], data[MAX_STORED..];
      ConcatChunks(tail);
      assert Chunks(data)[1..] == Chunks(tail);
      assert head + tail == data;
    }
  }

  lemma {:induction false} ReadStoredBack(final: bool, chunk: seq<Octet>, rest: seq<Octet>)
    requires |chunk| <= MAX_STORED
    ensures ReadStored(StoredBlock(final, chunk) + rest) == Ok(Block(final, chunk, rest))
  {
    var s := StoredBlock(final, chunk) + rest;
    assert s[5..5 + |chunk|] == chunk && s[5 + |chunk|..] == rest;
  }

  lemma {:induction false} InflateStep(s: seq<Octet>, final: bool, chunk: seq<Octet>, rest: seq<Octet>)
    requires |chunk| <= MAX_STORED
    requires s == StoredBlock(final, chunk) + rest
    ensures final ==> Inflate(s) == Ok(Inflated(chunk, 1, rest))
    ensures !final && Inflate(rest).Ok? ==>
      var tail := Inflate(rest).value;
      Inflate(s) == Ok(Inflated(chunk + tail.data, 1 + tail.blocks, tail.rest))
  {
    ReadStoredBack(final, chunk, rest);
  }

  lemma {:induction false} InflateBack(chunks: seq<seq<Octet>>, rest: seq<Octet>)
    requires chunks != [] && forall i | 0 <= i < |chunks| :: |chunks[i]| <= MAX_STORED
    ensures Inflate(Blocks(chunks) + rest) == Ok(Inflated(Concat(chunks), |chunks|, rest))
    decreases |chunks|
  {
    hide ReadStored, StoredBlock;
    var final, head, tail := |chunks| == 1, chunks[0], chunks[1..];
    var behind := Blocks(tail) + rest;
    assert Blocks(chunks) + rest == StoredBlock(final, head) + behind;
    InflateStep(Blocks(chunks) + rest, final, head, behind);
    if final {
      assert behind == rest;
      assert Concat(chunks) == head + Concat(tail) == head;
    } else {
      InflateBack(tail, rest);
    }
  }

  // The reader accepts such a stream exactly when the trailer has the data's own checksum.
  lemma {:induction false} GunzipStream(data: seq<Octet>, c: nat)
    requires c < 0x1_0000_0000
    ensures Gunzip(Stream(data, c)) ==
            if c == Crc(data) then Ok(Member(data, |Chunks(data)|)) else Err(BadChecksum)
  {
    hide Inflate, CheckTrailer, Blocks, Chunks;
    var trailer := Le32(c) + Le32(|data| % 0x1_0000_0000);
    var body := Blocks(Chunks(data)) + trailer;
    assert Stream(data, c) == HEADER + body;
    assert Stream(data, c)[10..] == body;
    InflateBack(Chunks(data), trailer);
    ConcatChunks(data);
    CheckTrailerBack(Inflated(data, |Chunks(data)|, trailer), c);
  }

  lemma {:induction false} CheckTrailerBack(r: Inflated, c: nat)
    requires c < 0x1_0000_0000 && r.rest == Le32(c) + Le32(|r.data| % 0x1_0000_0000)
    ensures CheckTrailer(r) == if c == Crc(r.data) then Ok(Member(r.data, r.blocks)) else Err(BadChecksum)
  {
    assert r.rest[4..] == Le32(|r.data| % 0x1_0000_0000);
    assert U16(r.rest[4], r.rest[5]) + 0x1_0000 * U16(r.rest[6], r.rest[7]) == |r.data| % 0x1_0000_0000;
  }

  // Every byte string comes back, through one final block, with the promised length.
  lemma {:induction false} RoundTrip(data: seq<Octet>)
    ensures var blocks := if data == [] then 1 else (|data| + 65534) / 65535;
            && Gunzip(Stream(data, Crc(data))) == Ok(Member(data, blocks))
            && |Stream(data, Crc(data))| == 18 + |data| + 5 * blocks
  {
    GunzipStream(data, Crc(data));
    ConcatChunks(data);
  }

  // Magic number, method, no flags, no time, no extra flags, unknown system.
  lemma {:induction false} HeaderBytes(data: seq<Octet>, c: nat)
    requires c < 0x1_0000_0000
    ensures Stream(data, c)[..10] == [0x1f, 0x8b, 8, 0, 0, 0, 0, 0, 0, 255]
  {
    hide Blocks, Chunks, Le32;
    assert Stream(data, c)[..10] == HEADER;
  }

  // In front of each chunk one of the bytes 0 and 1, its length and the complement of
  // that, low byte first.
  lemma {:induction false} BlockBytes(final: bool, chunk: seq<Octet>)
    requires |chunk| <= MAX_STORED
    ensures var low, high := |chunk| % 256, |chunk| / 256;
            StoredBlock(final, chunk)[..5] == [if final then 1 else 0, low, high, 255 - low, 255 - high]
    ensures StoredBlock(final, chunk)[5..] == chunk
  {
    var len := |chunk|;
    ComplementBytes(len);
    var front := [if final then 0x01 else 0x00] + Le16(len) + Le16(65535 - len);
    hide Le16;
    assert StoredBlock(final, chunk) == front + chunk && |front| == 5;
  }

  lemma {:induction false} ComplementBytes(len: nat)
    requires len < 0x1_0000
    ensures Le16(len) == [len % 256, len / 256] && Le16(65535 - len) == [255 - len % 256, 255 - len / 256]
  {
  }

  // Damage to the stored bytes inside four consecutive ones never goes unnoticed.
  lemma {:induction false} DamageRejected(before: seq<Octet>, u: seq<Octet>, v: seq<Octet>, after: seq<Octet>)
    requires |u| == |v| <= 4 && u != v
    ensures Gunzip(Stream(before + v + after, Crc(before + u + after))) == Err(BadChecksum)
  {
    CrcDetects(before, u, v, after);
    GunzipStream(before + v + after, Crc(before + u + after));
  }

  lemma {:induction false} CrcDetects(before: seq<Octet>, u: seq<Octet>, v: seq<Octet>, after: seq<Octet>)
    requires |u| == |v| <= 4 && u != v
    ensures Crc(before + u + after) != Crc(before + v + after)
  {
    ToBitsConcat(before, u, after);
    ToBitsConcat(before, v, after);
    ToBitsInjective(u, v);
    Crc32.BurstDetected(ToBits(before), ToBits(u), ToBits(v), ToBits(after));
    Bits.LowOfValue(Crc32.Checksum(ToBits(before + u + after)));
    Bits.LowOfValue(Crc32.Checksum(ToBits(before + v + after)));
  }

  lemma {:induction false} ToBitsConcat(a: seq<Octet>, b: seq<Octet>, c: seq<Octet>)
    ensures ToBits(a + b + c) == ToBits(a) + ToBits(b) + ToBits(c)
  {}

  lemma {:induction false} ToBitsInjective(u: seq<Octet>, v: seq<Octet>)
    requires |u| == |v| && u != v
    ensures ToBits(u) != ToBits(v)
  {
    var i :| 0 <= i < |u| && u[i] != v[i];
    assert Bits.Pow2(8) == 256;
    Bits.ValueOfLow(u[i], 8);
    Bits.ValueOfLow(v[i], 8);
    assert ToBits(u)[i] != ToBits(v)[i];
  }
}
