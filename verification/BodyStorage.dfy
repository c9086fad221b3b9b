/** The two request body storages of common/body_storage.go, in memory and on disk, and the usage counters of
    common/disk_cache_config.go.

    The Go runtime's byte reader and regular files are modelled as they answer without I/O errors. */
module BodyStorage {

  type Byte = x: int | 0 <= x < 256

  datatype Whence = FromStart | FromCurrent | FromEnd

  datatype Call = Read(n: nat) | Seek(offset: int, whence: Whence) | Bytes | Size | Close

  datatype Reply = Data(bytes: seq<Byte>) | Eof | At(position: nat) | Length(size: nat) | Done | SeekError | ClosedError

  /** A storage as its users see it. */
  datatype Body = Body(data: seq<Byte>, pos: nat, closed: bool)

  function Min(a: int, b: int): int { if a <= b then a else b }

  function Target(size: nat, pos: nat, offset: int, whence: Whence): int {
    match whence case FromStart => offset case FromCurrent => pos + offset case FromEnd => size + offset
  }

  // ----- the readers -----

  /** bytes.Reader.Read and os.File.Read: they differ on an empty buffer at the end. */
  function ReadBytes(data: seq<Byte>, pos: nat, n: nat): Reply {
    if pos >= |data| then Eof else Data(data[pos..Min(|data|, pos + n)])
  }

  function ReadFile(data: seq<Byte>, pos: nat, n: nat): Reply { if n == 0 then Data([]) else ReadBytes(data, pos, n) }

  function Taken(r: Reply): nat { if r.Data? then |r.bytes| else 0 }

  /** What a storage answers, given how its reader reads. */
  function Answer(b: Body, call: Call, onDisk: bool): (Body, Reply) {
    match call
    case Size => (b, Length(|b.data|))
    case Close => (b.(closed := true), Done)
    case Bytes => (b, if b.closed then ClosedError else Data(b.data))
    case Read(n) =>
      var r := if b.closed then ClosedError
               else if onDisk then ReadFile(b.data, b.pos, n)
               else ReadBytes(b.data, b.pos, n);
      (b.(pos := b.pos + Taken(r)), r)
    case Seek(offset, whence) =>
      var target := Target(|b.data|, b.pos, offset, whence);
      if b.closed then (b, ClosedError)
      else if target < 0 then (b, SeekError)
      else (b.(pos := target), At(target))
  }

  function Replies(b: Body, calls: seq<Call>, onDisk: bool): seq<Reply>
    decreases |calls|
  {
    if calls == [] then []
    else
      var (b', r) := Answer(b, calls[0], onDisk);
      [r] + Replies(b', calls[1..], onDisk)
  }

  /** Some call of the sequence is an empty read of the open storage at or behind its end. */
  predicate ReadsNothingAtEnd(b: Body, calls: seq<Call>)
    decreases |calls|
  {
    calls != [] &&
    ((calls[0] == Read(0) && !b.closed && b.pos >= |b.data|)
     || ReadsNothingAtEnd(Answer(b, calls[0], false).0, calls[1..]))
  }

  /** Memory and disk answer a whole sequence of calls alike exactly when none of them is an empty read at or
      behind the end. */
  lemma {:induction false} SameAnswersIff(b: Body, calls: seq<Call>)
    ensures Replies(b, calls, true) == Replies(b, calls, false) <==> !ReadsNothingAtEnd(b, calls)
    decreases |calls|
  {
    if calls != [] {
      var b', rest := Answer(b, calls[0], false).0, calls[1..];
      SameAnswersIff(b', rest);
      assert Answer(b, calls[0], true).0 == b';
      var disk, memory := Replies(b, calls, true), Replies(b, calls, false);
      assert disk[1..] == Replies(b', rest, true) && memory[1..] == Replies(b', rest, false);
      assert disk == [disk[0]] + disk[1..] && memory == [memory[0]] + memory[1..];
    }
  }

  function SumFrom(sizes: seq<nat>, k: nat): nat
    requires k <= |sizes|
    decreases |sizes| - k
  {
    if k == |sizes| then 0 else sizes[k] + SumFrom(sizes, k + 1)
  }

  function BytesOf(r: Reply): seq<Byte> { if r.Data? then r.bytes else [] }

  /** What successive reads deliver, with the sizes from the k-th on. */
  function Delivered(b: Body, sizes: seq<nat>, k: nat, onDisk: bool): seq<Byte>
    requires k <= |sizes|
    decreases |sizes| - k
  {
    if k == |sizes| then []
    else
      var (b', r) := Answer(b, Read(sizes[k]), onDisk);
      BytesOf(r) + Delivered(b', sizes, k + 1, onDisk)
  }

  /** `got` is what lies between positions `lo` and `hi`, as far as there is data. */
  ghost predicate Spans(data: seq<Byte>, lo: nat, hi: nat, got: seq<Byte>) {
    lo <= hi && |got| == Min(hi, |data|) - Min(lo, |data|) && forall i :: 0 <= i < |got| ==> got[i] == data[lo + i]
  }

  lemma OneRead(b: Body, n: nat, onDisk: bool)
    requires !b.closed
    ensures var (b', r) := Answer(b, Read(n), onDisk);
            Spans(b.data, b.pos, b.pos + n, BytesOf(r)) && b' == b.(pos := b.pos + |BytesOf(r)|)
  {
  }

  lemma SpansAll(data: seq<Byte>, lo: nat, n: nat, rest: nat, first: seq<Byte>, second: seq<Byte>)
    requires Spans(data, lo, lo + n, first) && Spans(data, lo + |first|, lo + |first| + rest, second)
    ensures Spans(data, lo, lo + n + rest, first + second)
  {
  }

  /** Successive reads deliver the bytes from the cursor on, each once and in order, however the sizes are chosen. */
  lemma {:induction false} ReadsDeliverInOrder(b: Body, sizes: seq<nat>, k: nat, onDisk: bool)
    requires !b.closed && k <= |sizes|
    ensures Spans(b.data, b.pos, b.pos + SumFrom(sizes, k), Delivered(b, sizes, k, onDisk))
    decreases |sizes| - k
  {
    if k < |sizes| {
      var (b', r) := Answer(b, Read(sizes[k]), onDisk);
      OneRead(b, sizes[k], onDisk);
      ReadsDeliverInOrder(b', sizes, k + 1, onDisk);
      SpansAll(b.data, b.pos, sizes[k], SumFrom(sizes, k + 1), BytesOf(r), Delivered(b', sizes, k + 1, onDisk));
    }
  }

  // ----- the counters -----

  datatype Stats = Stats(files: int, fileBytes: int, buffers: int, bufferBytes: int)

  datatype Storage = Storage(onDisk: bool, size: nat, closed: bool)

  function Opened(s: Stats, onDisk: bool, size: nat): Stats {
    if onDisk then s.(files := s.files + 1, fileBytes := s.fileBytes + size)
    else s.(buffers := s.buffers + 1, bufferBytes := s.bufferBytes + size)
  }

  function Clamped(x: int): int { if x < 0 then 0 else x }

  /** The counters of disk files are clamped at zero, those of memory are not. */
  function Released(s: Stats, onDisk: bool, size: nat): Stats {
    if onDisk then s.(files := Clamped(s.files - 1), fileBytes := Clamped(s.fileBytes - size))
    else s.(buffers := s.buffers - 1, bufferBytes := s.bufferBytes - size)
  }

  /** The storages created so far, and the global counters. */
  datatype World = World(stats: Stats, storages: seq<Storage>)

  datatype Event = Create(onDisk: bool, size: nat) | CloseOne(index: nat)

  function Do(w: World, e: Event): World {
    match e
    case Create(onDisk, size) => World(Opened(w.stats, onDisk, size), w.storages + [Storage(onDisk, size, false)])
    case CloseOne(i) =>
      if i < |w.storages| && !w.storages[i].closed then
        World(Released(w.stats, w.storages[i].onDisk, w.storages[i].size),
              w.storages[i := w.storages[i].(closed := true)])
      else w
  }

  function After(w: World, events: seq<Event>): World {
    if events == [] then w else Do(After(w, events[..|events| - 1]), events[|events| - 1])
  }

  const Nothing := Stats(0, 0, 0, 0)

  /** Number and total size of the open storages. */
  function Tally(storages: seq<Storage>): Stats {
    if storages == [] then Nothing
    else
      var rest, last := Tally(storages[..|storages| - 1]), storages[|storages| - 1];
      if last.closed then rest else Opened(rest, last.onDisk, last.size)
  }

  predicate NonNegative(s: Stats) { s.files >= 0 && s.fileBytes >= 0 && s.buffers >= 0 && s.bufferBytes >= 0 }

  lemma {:induction false} TallyNonNegative(storages: seq<Storage>)
    ensures NonNegative(Tally(storages))
  {
    if storages != [] {
      TallyNonNegative(storages[..|storages| - 1]);
    }
  }

  /** Closing one open storage takes exactly its share out of the tally. */
  lemma {:induction false} TallyWithout(storages: seq<Storage>, i: nat)
    requires i < |storages| && !storages[i].closed
    ensures NonNegative(Tally(storages))
    ensures Opened(Tally(storages[i := storages[i].(closed := true)]), storages[i].onDisk, storages[i].size)
            == Tally(storages)
    ensures NonNegative(Tally(storages[i := storages[i].(closed := true)]))
  {
    var n := |storages| - 1;
    var init, closed := storages[..n], storages[i := storages[i].(closed := true)];
    TallyNonNegative(init);
    if i == n {
      assert closed[..n] == init;
    } else {
      TallyWithout(init, i);
      assert closed[..n] == init[i := init[i].(closed := true)];
    }
  }

  lemma DoKeepsTally(w: World, e: Event)
    requires w.stats == Tally(w.storages)
    ensures Do(w, e).stats == Tally(Do(w, e).storages)
  {
    match e {
      case Create(onDisk, size) =>
        assert (w.storages + [Storage(onDisk, size, false)])[..|w.storages|] == w.storages;
      case CloseOne(i) =>
        if i < |w.storages| && !w.storages[i].closed {
          TallyWithout(w.storages, i);
        }
    }
  }

  /** Over every run of creations and closes, repeated ones included, the counters equal the number and total size
      of the open storages. */
  lemma {:induction false} CountersAreExact(events: seq<Event>)
    ensures var w := After(World(Nothing, []), events); w.stats == Tally(w.storages)
  {
    if events != [] {
      CountersAreExact(events[..|events| - 1]);
      DoKeepsTally(After(World(Nothing, []), events[..|events| - 1]), events[|events| - 1]);
    }
  }

  // ----- the storages -----

  class Counters {
    var stats: Stats

    constructor ()
      ensures stats == Nothing
    {
      stats := Nothing;
    }

    method Increment(onDisk: bool, size: nat)
      modifies this
      ensures stats == Opened(old(stats), onDisk, size)
    {
      if onDisk {
        stats := stats.(files := stats.files + 1);
        stats := stats.(fileBytes := stats.fileBytes + size);
      } else {
        stats := stats.(buffers := stats.buffers + 1);
        stats := stats.(bufferBytes := stats.bufferBytes + size);
      }
    }

    method Decrement(onDisk: bool, size: nat)
      modifies this
      ensures stats == Released(old(stats), onDisk, size)
    {
      if onDisk {
        stats := stats.(files := stats.files - 1);
        if stats.files < 0 {
          stats := stats.(files := 0);
        }
        stats := stats.(fileBytes := stats.fileBytes - size);
        if stats.fileBytes < 0 {
          stats := stats.(fileBytes := 0);
        }
      } else {
        stats := stats.(buffers := stats.buffers - 1);
        stats := stats.(bufferBytes := stats.bufferBytes - size);
      }
    }
  }

  /** memoryStorage: the bytes and a reader over them. */
  class MemoryStorage {
    const counters: Counters
    var data: seq<Byte>
    var pos: nat
    var closed: bool

    ghost function View(): Body
      reads this
    {
      Body(data, pos, closed)
    }

    constructor (contents: seq<Byte>, shared: Counters)
      modifies shared
      ensures View() == Body(contents, 0, false) && counters == shared
      ensures shared.stats == Opened(old(shared.stats), false, |contents|)
    {
      data, pos, closed, counters := contents, 0, false, shared;
      new;
      shared.Increment(false, |contents|);
    }

    method ReadNext(n: nat) returns (r: Reply)
      modifies this
      ensures (View(), r) == Answer(old(View()), Read(n), false)
    {
      if closed {
        return ClosedError;
      }
      r := ReadBytes(data, pos, n);
      pos := pos + Taken(r);
    }

    method SeekTo(offset: int, whence: Whence) returns (r: Reply)
      modifies this
      ensures (View(), r) == Answer(old(View()), Seek(offset, whence), false)
    {
      if closed {
        return ClosedError;
      }
      var target := Target(|data|, pos, offset, whence);
      if target < 0 {
        return SeekError;
      }
      pos := target;
      return At(target);
    }

    method AllBytes() returns (r: Reply)
      ensures (View(), r) == Answer(View(), Bytes, false)
    {
      return if closed then ClosedError else Data(data);
    }

    method CloseStorage() returns (r: Reply)
      modifies this, counters
      ensures (View(), r) == Answer(old(View()), Close, false)
      ensures counters.stats ==
              if old(closed) then old(counters.stats) else Released(old(counters.stats), false, |data|)
    {
      if !closed {
        closed := true;
        counters.Decrement(false, |data|);
      }
      return Done;
    }
  }

  /** An open regular file. */
  class File {
    const data: seq<Byte>
    var offset: nat

    constructor (contents: seq<Byte>)
      ensures data == contents && offset == 0
    {
      data, offset := contents, 0;
    }

    method ReadNext(n: nat) returns (r: Reply)
      modifies this
      ensures r == ReadFile(data, old(offset), n) && offset == old(offset) + Taken(r)
    {
      r := ReadFile(data, offset, n);
      offset := offset + Taken(r);
    }

    method SeekTo(distance: int, whence: Whence) returns (r: Reply)
      modifies this
      ensures var target := Target(|data|, old(offset), distance, whence);
              if target < 0 then r == SeekError && offset == old(offset) else r == At(target) && offset == target
    {
      var target := Target(|data|, offset, distance, whence);
      if target < 0 {
        return SeekError;
      }
      offset := target;
      return At(target);
    }
  }

  /** diskStorage: everything goes through the file. */
  class DiskStorage {
    const counters: Counters
    const file: File
    const size: nat
    var closed: bool

    ghost predicate Valid() { size == |file.data| }

    ghost function View(): Body
      reads this, file
    {
      Body(file.data, file.offset, closed)
    }

    constructor (contents: seq<Byte>, shared: Counters)
      modifies shared
      ensures Valid() && fresh(file) && View() == Body(contents, 0, false) && counters == shared
      ensures shared.stats == Opened(old(shared.stats), true, |contents|)
    {
      var f := new File(contents);
      file, size, closed, counters := f, |contents|, false, shared;
      new;
      shared.Increment(true, |contents|);
    }

    method ReadNext(n: nat) returns (r: Reply)
      modifies file
      ensures (View(), r) == Answer(old(View()), Read(n), true)
    {
      if closed {
        return ClosedError;
      }
      r := file.ReadNext(n);
    }

    method SeekTo(offset: int, whence: Whence) returns (r: Reply)
      modifies file
      ensures (View(), r) == Answer(old(View()), Seek(offset, whence), true)
    {
      if closed {
        return ClosedError;
      }
      r := file.SeekTo(offset, whence);
    }

    /** Remember the position, read everything from the start, and go back. */
    method AllBytes() returns (r: Reply)
      requires Valid()
      modifies file
      ensures (View(), r) == Answer(old(View()), Bytes, true)
    {
      if closed {
        return ClosedError;
      }
      var current := file.SeekTo(0, FromCurrent);
      var _ := file.SeekTo(0, FromStart);
      r := file.ReadNext(size);
      assert r == Data(file.data) by {
        assert file.data[..size] == file.data;
      }
      var _ := file.SeekTo(current.position, FromStart);
    }

    method CloseStorage() returns (r: Reply)
      requires Valid()
      modifies this, counters
      ensures (View(), r) == Answer(old(View()), Close, true)
      ensures counters.stats == if old(closed) then old(counters.stats) else Released(old(counters.stats), true, size)
    {
      if !closed {
        closed := true;
        counters.Decrement(true, size);
      }
      return Done;
    }
  }
}
