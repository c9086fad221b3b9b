/** The Ogg page scanner of common/audio.go (getOpusDuration) over a seekable byte reader.

    Page layout is that of section 6 of RFC 3533; granule positions count samples at 48 kHz
    (section 4 of RFC 7845). Pre-skip is not subtracted, as in the source. */
module OggScan {

  type Byte = b: int | 0 <= b < 256

  const HeaderSize := 27
  const Two63 := 0x8000_0000_0000_0000
  const Two64 := 0x1_0000_0000_0000_0000

  // ----- bytes -----

  /** The little-endian value of n bytes from lo on. */
  function LE(data: seq<Byte>, lo: nat, n: nat): nat
    requires lo + n <= |data|
    decreases n
  {
    if n == 0 then 0 else data[lo] + 256 * LE(data, lo + 1, n - 1)
  }

  /** The sum of n bytes from lo on. */
  function Sum(data: seq<Byte>, lo: nat, n: nat): nat
    requires lo + n <= |data|
    decreases n
  {
    if n == 0 then 0 else data[lo] + Sum(data, lo + 1, n - 1)
  }

  /** The n bytes from i on and those from j on are the same. */
  ghost predicate SameBytes(a: seq<Byte>, i: nat, b: seq<Byte>, j: nat, n: nat) {
    i + n <= |a| && j + n <= |b| && forall k :: i <= k < i + n ==> a[k] == b[j + (k - i)]
  }

  lemma {:induction false} SameValue(a: seq<Byte>, i: nat, b: seq<Byte>, j: nat, n: nat)
    requires SameBytes(a, i, b, j, n)
    ensures LE(a, i, n) == LE(b, j, n) && Sum(a, i, n) == Sum(b, j, n)
    decreases n
  {
    if n > 0 {
      assert a[i] == b[j];
      SameValue(a, i + 1, b, j + 1, n - 1);
    }
  }

  /** A slice has the value and the sum of the bytes it was taken from. */
  lemma SliceValue(data: seq<Byte>, lo: nat, size: nat, i: nat, n: nat)
    requires lo + size <= |data| && i + n <= size
    ensures LE(data[lo..lo + size], i, n) == LE(data, lo + i, n)
    ensures Sum(data[lo..lo + size], i, n) == Sum(data, lo + i, n)
  {
    SameValue(data[lo..lo + size], i, data, lo + i, n);
  }

  function ToLE(n: nat, size: nat): (s: seq<Byte>)
    ensures |s| == size
  {
    if size == 0 then [] else [n % 256] + ToLE(n / 256, size - 1)
  }

  function Pow256(k: nat): nat { if k == 0 then 1 else 256 * Pow256(k - 1) }

  lemma {:induction false} RoundTripLE(n: nat, size: nat)
    requires n < Pow256(size)
    ensures LE(ToLE(n, size), 0, size) == n
  {
    if size > 0 {
      RoundTripLE(n / 256, size - 1);
      SameValue(ToLE(n, size), 1, ToLE(n / 256, size - 1), 0, size - 1);
    }
  }

  /** int64(uint64). */
  function Signed(n: nat): int { if n < Two63 then n else n - Two64 }

  // ----- scanning -----

  /** "OggS" stands at i. */
  predicate Capture(data: seq<Byte>, i: nat) {
    i + 4 <= |data| && data[i] == 0x4F && data[i + 1] == 0x67 && data[i + 2] == 0x67 && data[i + 3] == 0x53
  }

  /** The granule position in the header at i. */
  function GranuleAt(data: seq<Byte>, i: nat): int
    requires i + HeaderSize <= |data|
  {
    Signed(LE(data, i + 6, 8))
  }

  /** The position after the page whose header is at pos; the end of the data if its segment table is cut off. */
  function PageEnd(data: seq<Byte>, pos: nat): (r: nat)
    requires pos + HeaderSize <= |data|
    ensures pos < r
  {
    var table := pos + HeaderSize;
    var segments := data[pos + 26];
    if |data| - table < segments then |data| else table + segments + Sum(data, table, segments)
  }

  /** A header the scanner takes, with its granule position. */
  datatype Hit = Hit(pos: nat, granule: int)

  /** The headers taken from position pos on. */
  function Hits(data: seq<Byte>, pos: nat): seq<Hit>
    decreases |data| - pos
  {
    if |data| < pos + HeaderSize then []
    else if !Capture(data, pos) then Hits(data, pos + 1)
    else [Hit(pos, GranuleAt(data, pos))] + Hits(data, PageEnd(data, pos))
  }

  function Max(a: int, b: int): int { if a < b then b else a }

  /** The largest granule position, 0 if there is none above it. */
  function Largest(hits: seq<Hit>): int {
    if hits == [] then 0 else Max(hits[0].granule, Largest(hits[1..]))
  }

  lemma {:induction false} TakeHeader(data: seq<Byte>, pos: nat)
    requires pos + HeaderSize <= |data| && Capture(data, pos)
    ensures Largest(Hits(data, pos)) == Max(GranuleAt(data, pos), Largest(Hits(data, PageEnd(data, pos))))
  {
    assert Hits(data, pos)[1..] == Hits(data, PageEnd(data, pos));
  }

  lemma {:induction false} LargestIsNatural(hits: seq<Hit>)
    ensures 0 <= Largest(hits)
  {
    if hits != [] {
      LargestIsNatural(hits[1..]);
    }
  }

  method SumUp(segmentTable: seq<Byte>) returns (pageSize: nat)
    ensures pageSize == Sum(segmentTable, 0, |segmentTable|)
  {
    pageSize := 0;
    for i := 0 to |segmentTable|
      invariant pageSize + Sum(segmentTable, i, |segmentTable| - i) == Sum(segmentTable, 0, |segmentTable|)
    {
      pageSize := pageSize + segmentTable[i];
    }
  }

  /** The seek over segment table and body of the page whose header is at pos. */
  method SkipPage(data: seq<Byte>, pos: nat, numSegments: Byte) returns (next: nat)
    requires pos + HeaderSize <= |data| && numSegments == data[pos + 26]
    ensures next == PageEnd(data, pos)
  {
    var table := pos + HeaderSize;
    if |data| - table < numSegments {
      return |data|;
    }
    SliceValue(data, table, numSegments, 0, numSegments);
    var pageSize := SumUp(data[table..table + numSegments]);
    next := table + numSegments + pageSize;
  }

  /** The granule position of the header in buf, and where the page ends. */
  method ReadPage(data: seq<Byte>, pos: nat, buf: seq<Byte>) returns (granulePos: int, next: nat)
    requires pos + HeaderSize <= |data| && buf == data[pos..pos + HeaderSize]
    ensures granulePos == GranuleAt(data, pos) && next == PageEnd(data, pos)
  {
    SliceValue(data, pos, HeaderSize, 6, 8);
    granulePos := Signed(LE(buf, 6, 8));
    next := SkipPage(data, pos, buf[26]);
  }

  /** getOpusDuration: read 27 bytes, resynchronise one byte further or skip the page, keep the maximum. */
  method GetOpusDuration(data: seq<Byte>) returns (granule: int, seconds: real)
    ensures granule == Largest(Hits(data, 0))
    ensures seconds == granule as real / 48000.0
  {
    var pos := 0;
    granule := 0;
    LargestIsNatural(Hits(data, 0));
    while pos < |data| && |data| - pos >= HeaderSize
      invariant 0 <= pos && 0 <= granule
      invariant Largest(Hits(data, 0)) == Max(granule, Largest(Hits(data, pos)))
      decreases |data| - pos
    {
      var buf := data[pos..pos + HeaderSize];
      if !Capture(buf, 0) {
        pos := pos + HeaderSize - 26;
        continue;
      }
      TakeHeader(data, pos);
      var granulePos, next := ReadPage(data, pos, buf);
      if granulePos > granule {
        granule := granulePos;
      }
      pos := next;
    }
    LargestIsNatural(Hits(data, pos));
    seconds := granule as real / 48000.0;
  }

  // ----- serialised pages -----

  datatype Page = Page(version: Byte, flags: Byte, granule: nat, serial: nat, sequence: nat, checksum: nat,
                       segments: seq<Byte>, body: seq<Byte>)

  predicate ValidPage(p: Page) {
    p.granule < Two64 && |p.segments| < 256 && |p.body| == Sum(p.segments, 0, |p.segments|)
  }

  function Header(p: Page): (s: seq<Byte>)
    requires ValidPage(p)
    ensures |s| == HeaderSize
  {
    [0x4F, 0x67, 0x67, 0x53] + [p.version, p.flags] + ToLE(p.granule, 8) + ToLE(p.serial, 4) + ToLE(p.sequence, 4)
    + ToLE(p.checksum, 4) + [|p.segments|]
  }

  function PageSize(p: Page): nat { HeaderSize + |p.segments| + |p.body| }

  function Encode(p: Page): (s: seq<Byte>)
    requires ValidPage(p)
    ensures |s| == PageSize(p)
  {
    Header(p) + p.segments + p.body
  }

  lemma HeaderFields(p: Page)
    requires ValidPage(p)
    ensures var h := Header(p); Capture(h, 0) && LE(h, 6, 8) == p.granule && h[26] == |p.segments|
  {
    var h := Header(p);
    SameValue(h, 6, ToLE(p.granule, 8), 0, 8);
    assert Pow256(8) == Two64 by {
      assert Pow256(4) == 0x1_0000_0000;
      assert Pow256(8) == 256 * (256 * (256 * (256 * Pow256(4))));
    }
    RoundTripLE(p.granule, 8);
  }

  /** A serialised page stands at pos. */
  ghost predicate PageAt(data: seq<Byte>, pos: nat, p: Page) {
    ValidPage(p) && SameBytes(data, pos, Encode(p), 0, PageSize(p))
  }

  lemma SubBytes(a: seq<Byte>, i: nat, b: seq<Byte>, j: nat, n: nat, lo: nat, m: nat)
    requires SameBytes(a, i, b, j, n) && lo + m <= n
    ensures SameBytes(a, i + lo, b, j + lo, m)
  {
  }

  lemma PageParts(data: seq<Byte>, pos: nat, p: Page)
    requires PageAt(data, pos, p)
    ensures SameBytes(data, pos, Header(p), 0, HeaderSize)
    ensures SameBytes(data, pos + HeaderSize, p.segments, 0, |p.segments|)
  {
    var e, n := Encode(p), |p.segments|;
    SubBytes(data, pos, e, 0, PageSize(p), 0, HeaderSize);
    SubBytes(data, pos, e, 0, PageSize(p), HeaderSize, n);
  }

  /** What the scanner reads at a page: a header with its granule position, and where the page ends. */
  ghost predicate ReadsPage(data: seq<Byte>, pos: nat, p: Page) {
    && pos + HeaderSize <= |data| && Capture(data, pos)
    && GranuleAt(data, pos) == Signed(p.granule) && PageEnd(data, pos) == pos + PageSize(p)
  }

  /** The header's fields, as they are read from the data. */
  lemma {:induction false} HeaderReads(data: seq<Byte>, pos: nat, p: Page)
    requires ValidPage(p) && SameBytes(data, pos, Header(p), 0, HeaderSize)
    ensures Capture(data, pos) && LE(data, pos + 6, 8) == p.granule && data[pos + 26] == |p.segments|
  {
    var h := Header(p);
    HeaderFields(p);
    SubBytes(data, pos, h, 0, HeaderSize, 6, 8);
    SameValue(data, pos + 6, h, 6, 8);
    assert data[pos + 26] == h[26];
  }

  lemma PageFields(data: seq<Byte>, pos: nat, p: Page)
    requires PageAt(data, pos, p)
    ensures ReadsPage(data, pos, p)
  {
    PageParts(data, pos, p);
    HeaderReads(data, pos, p);
    SameValue(data, pos + HeaderSize, p.segments, 0, |p.segments|);
  }

  lemma TakesRead(data: seq<Byte>, pos: nat, p: Page)
    requires ReadsPage(data, pos, p)
    ensures Hits(data, pos) == [Hit(pos, Signed(p.granule))] + Hits(data, pos + PageSize(p))
  {
  }

  /** The scanner takes a serialised page whole. */
  lemma ScanPage(data: seq<Byte>, pos: nat, p: Page)
    requires PageAt(data, pos, p)
    ensures Hits(data, pos) == [Hit(pos, Signed(p.granule))] + Hits(data, pos + PageSize(p))
  {
    assert ReadsPage(data, pos, p) by {
      PageFields(data, pos, p);
    }
    TakesRead(data, pos, p);
  }

  // ----- streams: pages with other bytes around them -----

  datatype Chunk = Chunk(junk: seq<Byte>, page: Page)

  /** The pages from chunk c on stand in the data, each after its junk, from pos on. */
  ghost predicate StreamAt(data: seq<Byte>, pos: nat, chunks: seq<Chunk>, c: nat)
    requires c <= |chunks|
    decreases |chunks| - c
  {
    if c == |chunks| then pos <= |data|
    else
      var start := pos + |chunks[c].junk|;
      PageAt(data, start, chunks[c].page) && StreamAt(data, start + PageSize(chunks[c].page), chunks, c + 1)
  }

  /** The pages from chunk c on of a stream, which starts at pos, each at its offset. */
  function PagesOf(pos: nat, chunks: seq<Chunk>, c: nat): seq<Hit>
    requires c <= |chunks|
    decreases |chunks| - c
  {
    if c == |chunks| then []
    else
      var start := pos + |chunks[c].junk|;
      [Hit(start, Signed(chunks[c].page.granule))] + PagesOf(start + PageSize(chunks[c].page), chunks, c + 1)
  }

  /** No header-sized window starts with the capture pattern between lo and hi. */
  ghost predicate Quiet(data: seq<Byte>, lo: nat, hi: nat) {
    forall i :: lo <= i < hi && i + HeaderSize <= |data| ==> !Capture(data, i)
  }

  /** The bytes outside the pages introduce no capture pattern. */
  ghost predicate QuietStream(data: seq<Byte>, pos: nat, chunks: seq<Chunk>, c: nat)
    requires c <= |chunks|
    decreases |chunks| - c
  {
    if c == |chunks| then Quiet(data, pos, |data|)
    else
      var start := pos + |chunks[c].junk|;
      Quiet(data, pos, start) && QuietStream(data, start + PageSize(chunks[c].page), chunks, c + 1)
  }

  lemma {:induction false} Resync(data: seq<Byte>, pos: nat, next: nat)
    requires pos <= next && Quiet(data, pos, next)
    ensures next + HeaderSize <= |data| ==> Hits(data, pos) == Hits(data, next)
    ensures |data| < next + HeaderSize ==> Hits(data, pos) == []
    decreases next - pos
  {
    if pos < next && pos + HeaderSize <= |data| {
      Resync(data, pos + 1, next);
    }
  }

  /** A capture pattern in front of a page is taken for a header. */
  lemma {:induction false} FirstCapture(data: seq<Byte>, pos: nat, next: nat)
    requires !Quiet(data, pos, next)
    ensures |Hits(data, pos)| > 0 && Hits(data, pos)[0].pos < next
    decreases next - pos
  {
    if !Capture(data, pos) {
      FirstCapture(data, pos + 1, next);
    }
  }

  lemma ConsInjective(x: Hit, a: seq<Hit>, b: seq<Hit>)
    ensures [x] + a == [x] + b <==> a == b
  {
    if [x] + a == [x] + b {
      assert ([x] + a)[1..] == a && ([x] + b)[1..] == b;
    }
  }

  /** From pos on, the scanner takes the page at `start` first, and then `rest`, exactly if it meets no other header
      before it. */
  lemma TakesPage(data: seq<Byte>, pos: nat, start: nat, p: Page, rest: seq<Hit>)
    requires pos <= start && ReadsPage(data, start, p)
    ensures Hits(data, pos) == [Hit(start, Signed(p.granule))] + rest <==>
            Quiet(data, pos, start) && Hits(data, start + PageSize(p)) == rest
  {
    if Quiet(data, pos, start) {
      Resync(data, pos, start);
      TakesRead(data, start, p);
      ConsInjective(Hit(start, Signed(p.granule)), Hits(data, start + PageSize(p)), rest);
    } else {
      FirstCapture(data, pos, start);
    }
  }

  lemma {:induction false} NothingIfQuiet(data: seq<Byte>, pos: nat)
    requires pos <= |data|
    ensures Hits(data, pos) == [] <==> Quiet(data, pos, |data|)
  {
    if Quiet(data, pos, |data|) {
      Resync(data, pos, |data|);
    } else {
      FirstCapture(data, pos, |data|);
    }
  }

  /** The scanner reads every page of the stream. */
  ghost predicate ReadsStream(data: seq<Byte>, pos: nat, chunks: seq<Chunk>, c: nat)
    requires c <= |chunks|
    decreases |chunks| - c
  {
    if c == |chunks| then pos <= |data|
    else
      var start := pos + |chunks[c].junk|;
      ReadsPage(data, start, chunks[c].page) && ReadsStream(data, start + PageSize(chunks[c].page), chunks, c + 1)
  }

  lemma ReadsMore(data: seq<Byte>, pos: nat, chunks: seq<Chunk>, c: nat)
    requires c < |chunks|
    requires var start := pos + |chunks[c].junk|;
             && PageAt(data, start, chunks[c].page)
             && ReadsStream(data, start + PageSize(chunks[c].page), chunks, c + 1)
    ensures ReadsStream(data, pos, chunks, c)
  {
    PageFields(data, pos + |chunks[c].junk|, chunks[c].page);
  }

  lemma {:induction false} StreamIsRead(data: seq<Byte>, pos: nat, chunks: seq<Chunk>, c: nat)
    requires c <= |chunks| && StreamAt(data, pos, chunks, c)
    ensures ReadsStream(data, pos, chunks, c)
    decreases |chunks| - c
  {
    if c < |chunks| {
      StreamIsRead(data, pos + |chunks[c].junk| + PageSize(chunks[c].page), chunks, c + 1);
      ReadsMore(data, pos, chunks, c);
    }
  }

  /** The scanner takes the stream from chunk c on exactly if it meets no other header before the page and takes
      the rest of the stream after it. */
  lemma TakesChunk(data: seq<Byte>, pos: nat, chunks: seq<Chunk>, c: nat)
    requires c < |chunks| && ReadsPage(data, pos + |chunks[c].junk|, chunks[c].page)
    ensures var start := pos + |chunks[c].junk|;
            var after := start + PageSize(chunks[c].page);
            Hits(data, pos) == PagesOf(pos, chunks, c) <==>
            Quiet(data, pos, start) && Hits(data, after) == PagesOf(after, chunks, c + 1)
  {
    var start, page := pos + |chunks[c].junk|, chunks[c].page;
    var rest := PagesOf(start + PageSize(page), chunks, c + 1);
    assert PagesOf(pos, chunks, c) == [Hit(start, Signed(page.granule))] + rest;
    TakesPage(data, pos, start, page, rest);
  }

  lemma {:induction false} TakesReadPages(data: seq<Byte>, pos: nat, chunks: seq<Chunk>, c: nat)
    requires c <= |chunks| && ReadsStream(data, pos, chunks, c)
    ensures Hits(data, pos) == PagesOf(pos, chunks, c) <==> QuietStream(data, pos, chunks, c)
    decreases |chunks| - c
  {
    if c == |chunks| {
      NothingIfQuiet(data, pos);
    } else {
      TakesReadPages(data, pos + |chunks[c].junk| + PageSize(chunks[c].page), chunks, c + 1);
      TakesChunk(data, pos, chunks, c);
    }
  }

  /** The scanner takes exactly the pages, at their boundaries, if and only if the bytes between the
      pages introduce no capture pattern. */
  lemma {:induction false} TakesExactlyThePages(data: seq<Byte>, pos: nat, chunks: seq<Chunk>)
    requires StreamAt(data, pos, chunks, 0)
    ensures Hits(data, pos) == PagesOf(pos, chunks, 0) <==> QuietStream(data, pos, chunks, 0)
  {
    StreamIsRead(data, pos, chunks, 0);
    TakesReadPages(data, pos, chunks, 0);
  }

  /** The largest non-negative granule position of the pages from chunk c on, 0 if there is none. */
  function LargestGranule(chunks: seq<Chunk>, c: nat): int
    requires c <= |chunks|
    decreases |chunks| - c
  {
    if c == |chunks| then 0 else Max(Signed(chunks[c].page.granule), LargestGranule(chunks, c + 1))
  }

  lemma {:induction false} LargestOfPages(pos: nat, chunks: seq<Chunk>, c: nat)
    requires c <= |chunks|
    ensures Largest(PagesOf(pos, chunks, c)) == LargestGranule(chunks, c)
    decreases |chunks| - c
  {
    if c < |chunks| {
      var after := pos + |chunks[c].junk| + PageSize(chunks[c].page);
      LargestOfPages(after, chunks, c + 1);
      assert PagesOf(pos, chunks, c)[1..] == PagesOf(after, chunks, c + 1);
    }
  }

  // ----- concatenated pages -----

  predicate ValidChunks(chunks: seq<Chunk>) { forall k :: 0 <= k < |chunks| ==> ValidPage(chunks[k].page) }

  /** The chunks from c on, and then the tail. */
  function Serialise(chunks: seq<Chunk>, c: nat, tail: seq<Byte>): seq<Byte>
    requires ValidChunks(chunks) && c <= |chunks|
    decreases |chunks| - c
  {
    if c == |chunks| then tail else chunks[c].junk + Encode(chunks[c].page) + Serialise(chunks, c + 1, tail)
  }

  /** A serialised chunk and what follows it. */
  lemma ChunkAt(data: seq<Byte>, pos: nat, chunk: Chunk, e: seq<Byte>, rest: seq<Byte>)
    requires SameBytes(data, pos, chunk.junk + e + rest, 0, |chunk.junk + e + rest|)
    ensures SameBytes(data, pos + |chunk.junk|, e, 0, |e|)
    ensures SameBytes(data, pos + |chunk.junk| + |e|, rest, 0, |rest|)
  {
  }

  /** Data that ends in a serialised stream holds its pages. */
  lemma {:induction false} SerialisedStream(data: seq<Byte>, pos: nat, chunks: seq<Chunk>, c: nat, tail: seq<Byte>)
    requires ValidChunks(chunks) && c <= |chunks|
    requires SameBytes(data, pos, Serialise(chunks, c, tail), 0, |Serialise(chunks, c, tail)|)
    ensures StreamAt(data, pos, chunks, c)
    decreases |chunks| - c
  {
    if c < |chunks| {
      var p := chunks[c].page;
      ChunkAt(data, pos, chunks[c], Encode(p), Serialise(chunks, c + 1, tail));
      SerialisedStream(data, pos + |chunks[c].junk| + PageSize(p), chunks, c + 1, tail);
    }
  }

  /** Scanning what was written gives back the pages: for any pages, with quiet bytes before, between
      and after them, the result is their largest non-negative granule position. */
  lemma {:induction false} SerialiseThenScan(chunks: seq<Chunk>, tail: seq<Byte>)
    requires ValidChunks(chunks)
    ensures var data := Serialise(chunks, 0, tail);
            && StreamAt(data, 0, chunks, 0)
            && (QuietStream(data, 0, chunks, 0) ==> Largest(Hits(data, 0)) == LargestGranule(chunks, 0))
  {
    var data := Serialise(chunks, 0, tail);
    SerialisedStream(data, 0, chunks, 0, tail);
    TakesExactlyThePages(data, 0, chunks);
    LargestOfPages(0, chunks, 0);
  }

  lemma {:induction false} NoJunkIsQuiet(data: seq<Byte>, pos: nat, chunks: seq<Chunk>, c: nat)
    requires ValidChunks(chunks) && c <= |chunks| && pos + |Serialise(chunks, c, [])| == |data|
    requires forall k :: 0 <= k < |chunks| ==> chunks[k].junk == []
    ensures QuietStream(data, pos, chunks, c)
    decreases |chunks| - c
  {
    if c < |chunks| {
      NoJunkIsQuiet(data, pos + PageSize(chunks[c].page), chunks, c + 1);
    }
  }

  /** Pages written back to back, with nothing else, are always quiet: the scanner takes exactly them. */
  lemma {:induction false} BackToBackIsQuiet(chunks: seq<Chunk>)
    requires ValidChunks(chunks) && forall k :: 0 <= k < |chunks| ==> chunks[k].junk == []
    ensures var data := Serialise(chunks, 0, []);
            && StreamAt(data, 0, chunks, 0) && QuietStream(data, 0, chunks, 0)
            && Hits(data, 0) == PagesOf(0, chunks, 0) && Largest(Hits(data, 0)) == LargestGranule(chunks, 0)
  {
    var data := Serialise(chunks, 0, []);
    SerialiseThenScan(chunks, []);
    NoJunkIsQuiet(data, 0, chunks, 0);
    TakesExactlyThePages(data, 0, chunks);
  }
}
