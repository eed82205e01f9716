/** The firmware loader of CPUSoC.build (lambdasoc/soc/cpu.py, lines 42-46):
    the BIOS image is read in chunks of data_width // 8 bytes until a read
    returns no bytes, and every chunk becomes one unsigned integer through
    int.from_bytes with the CPU's byte order. */
module FirmwareWords {

  /** One byte of the image file. */
  type Byte = b: int | 0 <= b < 256

  /** The two values Python's int.from_bytes accepts as byte order. */
  datatype ByteOrder = Little | Big

  function Pow256(n: nat): (r: nat)
    ensures r >= 1
  {
    if n == 0 then 1 else 256 * Pow256(n - 1)
  }

  function Pow2(n: nat): (r: nat)
    ensures r >= 1
  {
    if n == 0 then 1 else 2 * Pow2(n - 1)
  }

  function Min(a: nat, b: nat): nat
  {
    if a <= b then a else b
  }

  function Reverse(w: seq<Byte>): (r: seq<Byte>)
    ensures |r| == |w|
    ensures forall j :: 0 <= j < |w| ==> r[j] == w[|w| - 1 - j]
  {
    if w == [] then [] else Reverse(w[1..]) + [w[0]]
  }

  /** int.from_bytes(w, "little"): the first byte is the least significant. */
  function LittleEndianValue(w: seq<Byte>): (r: nat)
    ensures r < Pow256(|w|)
  {
    if w == [] then 0 else w[0] + 256 * LittleEndianValue(w[1..])
  }

  /** int.from_bytes(w, "big"): the first byte is the most significant. */
  function BigEndianValue(w: seq<Byte>): (r: nat)
    ensures r < Pow256(|w|)
  {
    if w == [] then 0
    else
      var init := w[..|w| - 1];
      assert |init| == |w| - 1;
      BigEndianValue(init) * 256 + w[|w| - 1]
  }

  /** int.from_bytes(w, order) on a chunk of any length; the empty chunk is 0. */
  function FromBytes(w: seq<Byte>, order: ByteOrder): (r: nat)
    ensures r < Pow256(|w|)
  {
    match order
    case Little => LittleEndianValue(w)
    case Big => BigEndianValue(w)
  }

  /** The positional sum of the little-endian reading: w[0]*256^0 + w[1]*256^1 + ... */
  function PositionalSum(w: seq<Byte>): nat
  {
    if w == [] then 0
    else PositionalSum(w[..|w| - 1]) + w[|w| - 1] * Pow256(|w| - 1)
  }

  /** value.to_bytes(n, "little"), the inverse of the little-endian reading. */
  function LittleEndianBytes(v: nat, n: nat): (r: seq<Byte>)
    ensures |r| == n
  {
    if n == 0 then [] else [v % 256] + LittleEndianBytes(v / 256, n - 1)
  }

  /** value.to_bytes(n, order): the encoding that the decoder reads back. */
  function ToBytes(v: nat, n: nat, order: ByteOrder): (r: seq<Byte>)
    ensures |r| == n
  {
    match order
    case Little => LittleEndianBytes(v, n)
    case Big => Reverse(LittleEndianBytes(v, n))
  }

  /** The list comprehension of line 45 over the chunks of line 44: read
      `size` bytes at a time, stop at the first empty read, decode each
      chunk on its own length.  A size of zero reads nothing at all. */
  function DecodeWords(image: seq<Byte>, size: nat, order: ByteOrder): (words: seq<nat>)
    ensures words == [] <==> size == 0 || image == []
    ensures |words| <= |image|
    decreases |image|
  {
    if size == 0 || image == [] then []
    else
      var k := Min(size, |image|);
      [FromBytes(image[..k], order)] + DecodeWords(image[k..], size, order)
  }

  /** What CPUSoC.build installs as rom.init for a CPU of the given data width. */
  function DecodeFirmware(image: seq<Byte>, dataWidth: nat, order: ByteOrder): (words: seq<nat>)
    ensures dataWidth < 8 ==> words == []
    ensures dataWidth >= 8 ==> |words| <= |image| && (words == [] <==> image == [])
  {
    DecodeWords(image, dataWidth / 8, order)
  }

  /** The inverse direction: every word written back as `size` bytes. */
  function EncodeWords(words: seq<nat>, size: nat, order: ByteOrder): seq<Byte>
  {
    if words == [] then []
    else ToBytes(words[0], size, order) + EncodeWords(words[1..], size, order)
  }

  /** The reading loop of lines 44-45: `f.read(size)` until it returns no
      bytes, one int.from_bytes per chunk. */
  method ReadFirmware(image: seq<Byte>, dataWidth: nat, order: ByteOrder) returns (words: seq<nat>)
    ensures words == DecodeFirmware(image, dataWidth, order)
  {
    var size := dataWidth / 8;
    var pos := 0;
    words := [];
    while true
      invariant 0 <= pos <= |image|
      invariant words + DecodeWords(image[pos..], size, order) == DecodeWords(image, size, order)
      decreases |image| - pos
    {
      var next := Min(pos + size, |image|);
      var chunk := image[pos..next];
      if chunk == [] {
        assert DecodeWords(image[pos..], size, order) == [];
        break;
      }
      var word := FromBytes(chunk, order);
      ReadStep(image, size, order, pos, words);
      pos := next;
      words := words + [word];
    }
  }

  /** The reading loop's invariant survives one turn that reads a chunk. */
  lemma ReadStep(image: seq<Byte>, size: nat, order: ByteOrder, pos: nat, words: seq<nat>)
    requires pos < |image| && size > 0
    requires words + DecodeWords(image[pos..], size, order) == DecodeWords(image, size, order)
    ensures var next := Min(pos + size, |image|);
      (words + [FromBytes(image[pos..next], order)]) + DecodeWords(image[next..], size, order)
      == DecodeWords(image, size, order)
  {
    var next := Min(pos + size, |image|);
    DecodeWordsStep(image, pos, size, order);
    var word, tail := FromBytes(image[pos..next], order), DecodeWords(image[next..], size, order);
    assert (words + [word]) + tail == words + ([word] + tail);
  }

  /** One turn of the reading loop: the next chunk starts at `pos`. */
  lemma DecodeWordsStep(image: seq<Byte>, pos: nat, size: nat, order: ByteOrder)
    requires pos < |image| && size > 0
    ensures DecodeWords(image[pos..], size, order)
         == [FromBytes(image[pos..Min(pos + size, |image|)], order)]
            + DecodeWords(image[Min(pos + size, |image|)..], size, order)
  {
    var rest := image[pos..];
    var k := Min(size, |rest|);
    assert rest[..k] == image[pos..Min(pos + size, |image|)];
    assert rest[k..] == image[Min(pos + size, |image|)..];
  }

  // ---------------------------------------------------------------------
  // Byte order

  /** Appending a byte adds it at the next power of 256. */
  lemma {:induction false} LittleEndianAppend(w: seq<Byte>, b: Byte)
    ensures LittleEndianValue(w + [b]) == LittleEndianValue(w) + b * Pow256(|w|)
    decreases |w|
  {
    if w == [] {
      assert [b][1..] == [];
    } else {
      assert (w + [b])[1..] == w[1..] + [b];
      LittleEndianAppend(w[1..], b);
      var rest, p := LittleEndianValue(w[1..]), Pow256(|w| - 1);
      assert LittleEndianValue(w + [b]) == w[0] + 256 * (rest + b * p);
      ScaleByByte(b, p);
    }
  }

  lemma ScaleByByte(b: nat, p: nat)
    ensures 256 * (b * p) == b * (256 * p)
  {
  }

  lemma {:induction false} LittleEndianIsPositionalSum(w: seq<Byte>)
    ensures LittleEndianValue(w) == PositionalSum(w)
    decreases |w|
  {
    if w != [] {
      var init := w[..|w| - 1];
      assert w == init + [w[|w| - 1]];
      LittleEndianAppend(init, w[|w| - 1]);
      LittleEndianIsPositionalSum(init);
    }
  }

  lemma {:induction false} BigEndianIsReversedLittle(w: seq<Byte>)
    ensures BigEndianValue(w) == LittleEndianValue(Reverse(w))
    decreases |w|
  {
    if w != [] {
      var init := w[..|w| - 1];
      BigEndianIsReversedLittle(init);
      var r := Reverse(w);
      assert r[0] == w[|w| - 1];
      assert r[1..] == Reverse(init);
    }
  }

  // ---------------------------------------------------------------------
  // Round trips of a single word

  lemma {:induction false} LittleEndianRoundTrip(v: nat, n: nat)
    requires v < Pow256(n)
    ensures LittleEndianValue(LittleEndianBytes(v, n)) == v
    decreases n
  {
    if n > 0 {
      LittleEndianRoundTrip(v / 256, n - 1);
      assert LittleEndianBytes(v, n)[1..] == LittleEndianBytes(v / 256, n - 1);
    }
  }

  lemma {:induction false} LittleEndianBytesOfValue(w: seq<Byte>)
    ensures LittleEndianBytes(LittleEndianValue(w), |w|) == w
    decreases |w|
  {
    if w != [] {
      var v := LittleEndianValue(w);
      assert v % 256 == w[0] && v / 256 == LittleEndianValue(w[1..]);
      LittleEndianBytesOfValue(w[1..]);
    }
  }

  lemma {:induction false} ReverseReverse(w: seq<Byte>)
    ensures Reverse(Reverse(w)) == w
  {
  }

  /** Decoding the encoding of a word that fits in n bytes gives the word back. */
  lemma {:induction false} WordRoundTrip(v: nat, n: nat, order: ByteOrder)
    requires v < Pow256(n)
    ensures FromBytes(ToBytes(v, n, order), order) == v
  {
    LittleEndianRoundTrip(v, n);
    if order == Big {
      BigEndianIsReversedLittle(Reverse(LittleEndianBytes(v, n)));
      ReverseReverse(LittleEndianBytes(v, n));
    }
  }

  /** Encoding a decoded chunk on its own length gives the chunk back. */
  lemma {:induction false} ChunkRoundTrip(w: seq<Byte>, order: ByteOrder)
    ensures ToBytes(FromBytes(w, order), |w|, order) == w
  {
    match order
    case Little =>
      LittleEndianBytesOfValue(w);
    case Big =>
      BigEndianIsReversedLittle(w);
      LittleEndianBytesOfValue(Reverse(w));
      ReverseReverse(w);
  }

  // ---------------------------------------------------------------------
  // The word sequence

  lemma {:induction false} MulAtLeast(k: nat, n: nat)
    requires k >= 1
    ensures k * n >= n
    decreases k
  {
    if k > 1 {
      MulAtLeast(k - 1, n);
    }
  }

  /** Euclidean division has one quotient. */
  lemma DivUnique(a: int, n: nat, q: int, r: int)
    requires n > 0 && 0 <= r < n && a == q * n + r
    ensures a / n == q && a % n == r
  {
    var q', r' := a / n, a % n;
    assert (q' - q) * n == r - r';
    if q' > q {
      MulAtLeast(q' - q, n);
    } else if q' < q {
      MulAtLeast(q - q', n);
    }
  }

  lemma DivStep(x: nat, n: nat)
    requires n > 0
    ensures (x + n) / n == x / n + 1
  {
    var q, r := x / n, x % n;
    assert x + n == (q + 1) * n + r;
    DivUnique(x + n, n, q + 1, r);
  }

  /** One chunk fewer leaves one fewer word: ceil(len / size) steps down by one. */
  lemma CeilStep(len: nat, size: nat)
    requires size > 0 && len > 0
    ensures (len + size - 1) / size == 1 + (len - Min(size, len) + size - 1) / size
  {
    if len > size {
      DivStep(len - 1, size);
      assert len - Min(size, len) + size - 1 == len - 1;
    } else {
      DivUnique(len + size - 1, size, 1, len - 1);
      DivUnique(size - 1, size, 0, size - 1);
    }
  }

  /** The decoder yields ceil(|image| / size) words, and none for a size of zero. */
  lemma {:induction false} WordCount(image: seq<Byte>, size: nat, order: ByteOrder)
    ensures size == 0 ==> DecodeWords(image, size, order) == []
    ensures size > 0 ==> |DecodeWords(image, size, order)| == (|image| + size - 1) / size
    decreases |image|
  {
    if size > 0 {
      if image == [] {
        DivUnique(size - 1, size, 0, size - 1);
      } else {
        var k := Min(size, |image|);
        WordCount(image[k..], size, order);
        CeilStep(|image|, size);
      }
    }
  }

  /** Where chunk i starts, counted one chunk at a time (it is i * size). */
  function Offset(i: nat, size: nat): nat
  {
    if i == 0 then 0 else Offset(i - 1, size) + size
  }

  lemma {:induction false} OffsetIsProduct(i: nat, size: nat)
    ensures Offset(i, size) == i * size
    decreases i
  {
    if i > 0 {
      OffsetIsProduct(i - 1, size);
      MulSucc(i - 1, size);
    }
  }

  lemma MulSucc(q: nat, n: nat)
    ensures (q + 1) * n == q * n + n
  {
  }

  /** The bytes returned by read number i: the reads before it are dropped. */
  function ChunkAt(image: seq<Byte>, size: nat, i: nat): seq<Byte>
    decreases i
  {
    var k := Min(size, |image|);
    if i == 0 then image[..k] else ChunkAt(image[k..], size, i - 1)
  }

  /** Word i is decoded from read number i, which starts inside the image. */
  lemma {:induction false} WordIsChunk(image: seq<Byte>, size: nat, order: ByteOrder, i: nat)
    requires i < |DecodeWords(image, size, order)|
    ensures size > 0 && Offset(i, size) < |image|
    ensures DecodeWords(image, size, order)[i] == FromBytes(ChunkAt(image, size, i), order)
    decreases i
  {
    var k := Min(size, |image|);
    assert DecodeWords(image, size, order)
        == [FromBytes(image[..k], order)] + DecodeWords(image[k..], size, order);
    if i > 0 {
      WordIsChunk(image[k..], size, order, i - 1);
    }
  }

  /** Read number i covers the bytes from Offset(i, size) up to `size` further on. */
  lemma {:induction false} ChunkAtSlice(image: seq<Byte>, size: nat, i: nat)
    requires size > 0 && Offset(i, size) < |image|
    ensures ChunkAt(image, size, i) == image[Offset(i, size)..Min(Offset(i, size) + size, |image|)]
    decreases i
  {
    if i > 0 {
      var rest := image[size..];
      var o := Offset(i - 1, size);
      ChunkAtSlice(rest, size, i - 1);
      SliceOfSlice(image, size, o, Min(o + size, |rest|));
    }
  }

  /** Word i comes from the `size` bytes at Offset(i, size), or from the
      bytes up to the end of the image when fewer remain. */
  lemma WordAt(image: seq<Byte>, size: nat, order: ByteOrder, i: nat)
    requires i < |DecodeWords(image, size, order)|
    ensures size > 0 && Offset(i, size) < |image|
    ensures DecodeWords(image, size, order)[i]
         == FromBytes(image[Offset(i, size)..Min(Offset(i, size) + size, |image|)], order)
  {
    WordIsChunk(image, size, order, i);
    ChunkAtSlice(image, size, i);
  }

  lemma SliceOfSlice(s: seq<Byte>, a: nat, b: nat, c: nat)
    requires a <= |s| && b <= c <= |s| - a
    ensures s[a..][b..c] == s[a + b..a + c]
  {
  }

  /** Every word before the last comes from a full chunk of `size` bytes. */
  lemma FullChunk(image: seq<Byte>, size: nat, order: ByteOrder, i: nat)
    requires i + 1 < |DecodeWords(image, size, order)|
    ensures (i + 1) * size <= |image|
    ensures DecodeWords(image, size, order)[i] == FromBytes(image[i * size..(i + 1) * size], order)
  {
    WordAt(image, size, order, i + 1);
    WordAt(image, size, order, i);
    OffsetIsProduct(i, size);
    OffsetIsProduct(i + 1, size);
  }

  /** When the image length is not a multiple of `size`, the final word is
      decoded from the last |image| % size bytes alone: no padding, no error. */
  lemma ShortFinalWord(image: seq<Byte>, size: nat, order: ByteOrder)
    requires size > 0 && |image| % size != 0
    ensures var words := DecodeWords(image, size, order);
      |words| == |image| / size + 1 &&
      words[|words| - 1] == FromBytes(image[|image| - |image| % size..], order)
  {
    var q, r := |image| / size, |image| % size;
    OffsetIsProduct(q, size);
    LastWord(image, size, order, q, r);
  }

  /** The same, for an image of q full chunks followed by r more bytes. */
  lemma {:induction false} LastWord(image: seq<Byte>, size: nat, order: ByteOrder, q: nat, r: nat)
    requires |image| == Offset(q, size) + r && 0 < r < size
    ensures |DecodeWords(image, size, order)| == q + 1
    ensures DecodeWords(image, size, order)[q] == FromBytes(image[|image| - r..], order)
    decreases q
  {
    var words := DecodeWords(image, size, order);
    if q == 0 {
      assert image[..|image|] == image && image[|image|..] == [];
      assert words == [FromBytes(image, order)];
    } else {
      var rest := image[size..];
      LastWord(rest, size, order, q - 1, r);
      assert words == [FromBytes(image[..size], order)] + DecodeWords(rest, size, order);
      assert rest[|rest| - r..] == image[|image| - r..];
    }
  }

  lemma {:induction false} Pow256IsPow2(m: nat)
    ensures Pow256(m) == Pow2(8 * m)
    decreases m
  {
    if m > 0 {
      Pow256IsPow2(m - 1);
      assert 8 * m == 8 * (m - 1) + 8;
      Pow2Add(8 * (m - 1), 8);
    }
  }

  lemma {:induction false} Pow2Add(a: nat, b: nat)
    ensures Pow2(a + b) == Pow2(a) * Pow2(b)
    decreases b
  {
    if b > 0 {
      Pow2Add(a, b - 1);
    }
  }

  lemma {:induction false} Pow2Monotone(a: nat, b: nat)
    requires a <= b
    ensures Pow2(a) <= Pow2(b)
    decreases b
  {
    if a < b {
      Pow2Monotone(a, b - 1);
    }
  }

  /** Every word installed for a CPU of width dataWidth fits in dataWidth bits. */
  lemma WordsFitDataWidth(image: seq<Byte>, dataWidth: nat, order: ByteOrder)
    ensures forall w :: w in DecodeFirmware(image, dataWidth, order) ==> w < Pow2(dataWidth)
  {
    var size := dataWidth / 8;
    var words := DecodeWords(image, size, order);
    forall i | 0 <= i < |words|
      ensures words[i] < Pow2(dataWidth)
    {
      WordAt(image, size, order, i);
      var chunk := image[Offset(i, size)..Min(Offset(i, size) + size, |image|)];
      assert |chunk| <= size;
      Pow256IsPow2(|chunk|);
      Pow2Monotone(8 * |chunk|, dataWidth);
    }
  }

  /** Words that fit in `size` bytes survive encoding and decoding. */
  lemma {:induction false} DecodeEncode(words: seq<nat>, size: nat, order: ByteOrder)
    requires size > 0
    requires forall w :: w in words ==> w < Pow256(size)
    ensures DecodeWords(EncodeWords(words, size, order), size, order) == words
    decreases |words|
  {
    if words != [] {
      assert words[0] in words;
      assert forall w :: w in words[1..] ==> w in words;
      var first := ToBytes(words[0], size, order);
      var rest := EncodeWords(words[1..], size, order);
      DecodeFullChunk(first, rest, size, order);
      WordRoundTrip(words[0], size, order);
      DecodeEncode(words[1..], size, order);
      assert words == [words[0]] + words[1..];
    }
  }

  /** A leading chunk of exactly `size` bytes decodes to one word. */
  lemma DecodeFullChunk(first: seq<Byte>, rest: seq<Byte>, size: nat, order: ByteOrder)
    requires size > 0 && |first| == size
    ensures DecodeWords(first + rest, size, order)
         == [FromBytes(first, order)] + DecodeWords(rest, size, order)
  {
    var image := first + rest;
    assert image[..size] == first && image[size..] == rest;
  }

  /** An image of whole chunks is the concatenation of its words' encodings. */
  lemma {:induction false} EncodeDecode(image: seq<Byte>, size: nat, order: ByteOrder)
    requires size > 0 && |image| % size == 0
    ensures EncodeWords(DecodeWords(image, size, order), size, order) == image
  {
    OffsetIsProduct(|image| / size, size);
    EncodeDecodeChunks(image, size, order, |image| / size);
  }

  /** The same, for an image of q full chunks. */
  lemma {:induction false} EncodeDecodeChunks(image: seq<Byte>, size: nat, order: ByteOrder, q: nat)
    requires size > 0 && |image| == Offset(q, size)
    ensures EncodeWords(DecodeWords(image, size, order), size, order) == image
    decreases q
  {
    if q > 0 {
      var first, rest := image[..size], image[size..];
      assert image == first + rest;
      DecodeFullChunk(first, rest, size, order);
      EncodeDecodeChunks(rest, size, order, q - 1);
      ChunkRoundTrip(first, order);
    }
  }

  /** A 32-bit little-endian image of two words. */
  lemma LittleEndianExample()
    ensures DecodeFirmware([1, 0, 0, 0, 2, 0, 0, 0], 32, Little) == [1, 2]
  {
    var image: seq<Byte> := [1, 0, 0, 0, 2, 0, 0, 0];
    var zeros: seq<Byte> := [0, 0, 0];
    assert LittleEndianValue(zeros) == 0 by {
      assert zeros[1..] == [0, 0] && zeros[1..][1..] == [0] && zeros[1..][1..][1..] == [];
    }
    assert image[..4] == [1] + zeros && ([1] + zeros)[1..] == zeros;
    assert image[4..] == [2] + zeros && ([2] + zeros)[1..] == zeros;
    assert image[4..][4..] == [];
    var second := image[4..];
    assert Min(4, |second|) == 4 && second[..4] == second;
    assert LittleEndianValue(second) == 2;
    assert DecodeWords(second[4..], 4, Little) == [];
    assert DecodeWords(second, 4, Little) == [2];
    assert DecodeWords(image, 4, Little) == [1, 2];
  }
}
