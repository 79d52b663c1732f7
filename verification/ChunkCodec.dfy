/** The file chunk frame: the one binary message, written and parsed by both platforms. */
module ChunkCodec {
  import opened Prelude

  const FILE_CHUNK: byte := 0x33
  const MAX_PLAINTEXT: nat := 65519
  const MAX_CONTROL_JSON: nat := 16384
  const MAX_FILE_SIZE: nat := 0x100_0000_0000
  const HEADER: nat := 24
  const WORD: nat := 0x1_0000_0000_0000_0000

  datatype Chunk = Chunk(id: Bytes, offset: nat, data: Bytes)

  /** Control messages go on to the JSON layer. */
  datatype Decoded = FileChunk(chunk: Chunk) | Control(kind: byte, body: Bytes)

  datatype Error = Empty | TooLarge | Malformed

  /** A chunk as the types of both platforms allow it. */
  predicate Typed(c: Chunk) {
    |c.id| == 16 && c.offset < WORD
  }

  function Encoded(c: Chunk): Result<Bytes, Error> {
    var frame := [FILE_CHUNK] + c.id + BigEndian(c.offset, 8) + c.data;
    if |frame| > MAX_PLAINTEXT then Err(TooLarge) else Ok(frame)
  }

  function Decode(frame: Bytes): Result<Decoded, Error> {
    if frame == [] then Err(Empty) else
      var body := frame[1..];
      if frame[0] == FILE_CHUNK then
        if |body| < HEADER then Err(Malformed) else
          var offset := FromBigEndian(body[16..24]);
          if offset > MAX_FILE_SIZE then Err(Malformed)
          else Ok(FileChunk(Chunk(body[..16], offset, body[24..])))
      else if |body| > MAX_CONTROL_JSON then Err(TooLarge)
      else Ok(Control(frame[0], body))
  }

  // ---- the desktop ---------------------------------------------------------------------

  method EncodeChunk(c: Chunk) returns (r: Result<Bytes, Error>)
    requires Typed(c)
    ensures r == Encoded(c)
  {
    var out: Bytes := [FILE_CHUNK];
    out := out + c.id;
    out := out + BigEndian(c.offset, 8);
    out := out + c.data;
    if |out| > MAX_PLAINTEXT {
      return Err(TooLarge);
    }
    r := Ok(out);
  }

  // ---- the phone -------------------------------------------------------------------------

  /** `n ushr (8 * i)`: one byte falls off per step. */
  function ShiftedRight(n: nat, i: nat): nat {
    if i == 0 then n else ShiftedRight(n, i - 1) / 256
  }

  /** The byte loop over a 64-bit offset: shift right by whole bytes, mask, write. */
  method EncodeChunkByShifting(c: Chunk) returns (r: Result<Bytes, Error>)
    requires Typed(c)
    ensures r == Encoded(c)
  {
    var out: Bytes := [FILE_CHUNK] + c.id;
    var i := 8;
    while i > 0
      invariant 0 <= i <= 8
      invariant out == [FILE_CHUNK] + c.id + BigEndian(ShiftedRight(c.offset, i), 8 - i)
    {
      i := i - 1;
      out := out + [ShiftedRight(c.offset, i) % 256];
    }
    out := out + c.data;
    if |out| > MAX_PLAINTEXT {
      return Err(TooLarge);
    }
    r := Ok(out);
  }

  /**
   * The parsing loop over a signed 64-bit accumulator. Shifting drops the high byte, and a set top
   * bit reads as a negative offset.
   */
  method DecodeByShifting(frame: Bytes) returns (r: Result<Decoded, Error>)
    ensures r == Decode(frame)
  {
    if frame == [] {
      return Err(Empty);
    }
    var body := frame[1..];
    if frame[0] == FILE_CHUNK {
      if |body| < HEADER {
        return Err(Malformed);
      }
      var word := 0;
      Pow256Values();
      for i := 16 to 24
        invariant word == FromBigEndian(body[16..i]) && word < Pow256(i - 16)
      {
        var shifted := (word * 256) % WORD;
        assert word * 256 < WORD by {
          PowGrows(i - 16, 7);
        }
        assert body[16..i + 1] == body[16..i] + [body[i]];
        assert body[16..i + 1][..i - 16] == body[16..i];
        word := shifted + body[i];
      }
      var negative := word >= WORD / 2;
      if negative || word > MAX_FILE_SIZE {
        return Err(Malformed);
      }
      return Ok(FileChunk(Chunk(body[..16], word, body[24..])));
    }
    if |body| > MAX_CONTROL_JSON {
      return Err(TooLarge);
    }
    r := Ok(Control(frame[0], body));
  }

  lemma {:induction false} PowGrows(i: nat, j: nat)
    requires i <= j
    ensures Pow256(i) <= Pow256(j)
    decreases j
  {
    if i < j {
      PowGrows(i, j - 1);
    }
  }

  // ---- round trips -----------------------------------------------------------------------

  lemma FrameParts(c: Chunk)
    requires Typed(c)
    ensures var frame := [FILE_CHUNK] + c.id + BigEndian(c.offset, 8) + c.data;
            && |frame| == 25 + |c.data| && frame[0] == FILE_CHUNK
            && frame[1..][..16] == c.id && frame[1..][16..24] == BigEndian(c.offset, 8) && frame[1..][24..] == c.data
  {
    var offset := BigEndian(c.offset, 8);
    var frame := [FILE_CHUNK] + c.id + offset + c.data;
    assert frame[1..] == c.id + offset + c.data;
  }

  /** A chunk can be sent exactly when it carries at most 65494 bytes. */
  lemma EncodableChunks(c: Chunk)
    requires Typed(c)
    ensures Encoded(c).Ok? <==> |c.data| <= 65494
  {
    FrameParts(c);
  }

  /** Decoding inverts encoding exactly on the offsets the decoder admits. */
  lemma DecodeInvertsEncode(c: Chunk)
    requires Typed(c) && Encoded(c).Ok?
    ensures Decode(Encoded(c).value) == (if c.offset <= 0x100_0000_0000 then Ok(FileChunk(c)) else Err(Malformed))
  {
    FrameParts(c);
    Pow256Values();
    BigEndianRoundTrip(c.offset, 8);
  }

  /** Encoding an accepted chunk frame again gives the same bytes, if the frame is not oversized. */
  lemma EncodeInvertsDecode(frame: Bytes)
    requires Decode(frame).Ok? && Decode(frame).value.FileChunk?
    ensures Typed(Decode(frame).value.chunk)
    ensures Encoded(Decode(frame).value.chunk) == (if |frame| <= 65519 then Ok(frame) else Err(TooLarge))
  {
    var body := frame[1..];
    FromBigEndianRoundTrip(body[16..24]);
    Pow256Values();
    assert frame == [FILE_CHUNK] + body[..16] + body[16..24] + body[24..];
  }

  /** Two chunks with the same frame are the same chunk. */
  lemma EncodingIsInjective(c: Chunk, d: Chunk)
    requires Typed(c) && Typed(d) && Encoded(c).Ok? && Encoded(c) == Encoded(d)
    ensures c == d
  {
    FrameParts(c);
    FrameParts(d);
    Pow256Values();
    BigEndianRoundTrip(c.offset, 8);
    BigEndianRoundTrip(d.offset, 8);
  }
}
