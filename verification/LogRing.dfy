/**
 The rotating log writer: a ring of numbered files whose cursor is the number in the current file's name.

 The directory starts as the logger leaves it, holding one empty `logfile.log`. Disk errors are not part of
 this model.
 */
module LogRing {
  import opened Wrappers
  import Decimal

  const ROOT := "logfile"
  const EXTENSION := "log"
  const MAX_INT64 := 0x7FFF_FFFF_FFFF_FFFF
  const TWO_TO_64 := 0x1_0000_0000_0000_0000

  type Record = seq<bv8>

  datatype Error = NumberOutOfRange

  /** Two's complement wrap-around of a 64-bit result. */
  function Wrap64(x: int): int {
    (x + MAX_INT64 + 1) % TWO_TO_64 - MAX_INT64 - 1
  }

  predicate IsInt64(x: int) {
    -MAX_INT64 - 1 <= x <= MAX_INT64
  }

  // File names

  function FileName(n: nat): string {
    if n == 0 then ROOT + "." + EXTENSION else ROOT + Decimal.Print(n) + "." + EXTENSION
  }

  /** The pattern "logfile([0-9]+)" matches at `i`. */
  predicate MatchAt(name: string, i: nat) {
    i + |ROOT| < |name| && name[i..i + |ROOT|] == ROOT && Decimal.IsDigit(name[i + |ROOT|])
  }

  /** The leftmost match at or after `i`. */
  function FindMatch(name: string, i: nat): (r: Option<nat>)
    requires i <= |name|
    ensures r.Some? ==> i <= r.value && MatchAt(name, r.value)
    ensures r.None? ==> forall k :: i <= k ==> !MatchAt(name, k)
    ensures r.Some? ==> forall k :: i <= k < r.value ==> !MatchAt(name, k)
    decreases |name| - i
  {
    if i == |name| then None else if MatchAt(name, i) then Some(i) else FindMatch(name, i + 1)
  }

  /** The longest run of digits from `i`. */
  function DigitsFrom(name: string, i: nat): (r: string)
    requires i <= |name|
    ensures Decimal.AllDigits(r)
    decreases |name| - i
  {
    if i == |name| || !Decimal.IsDigit(name[i]) then []
    else [name[i]] + DigitsFrom(name, i + 1)
  }

  /** The number `Write` finds in the current file's name, zero when there is none. */
  function FileNumber(name: string): (r: Result<int, Error>)
    ensures r.Ok? ==> 0 <= r.value <= MAX_INT64
  {
    match FindMatch(name, 0)
    case None => Ok(0)
    case Some(i) =>
      var n := Decimal.Parse(DigitsFrom(name, i + |ROOT|));
      if n <= MAX_INT64 then Ok(n) else Err(NumberOutOfRange)
  }

  lemma {:induction false} DigitsFromRun(name: string, i: nat, digits: string)
    requires Decimal.AllDigits(digits) && i + |digits| < |name|
    requires name[i..i + |digits|] == digits && !Decimal.IsDigit(name[i + |digits|])
    ensures DigitsFrom(name, i) == digits
    decreases |digits|
  {
    if digits != [] {
      assert name[i] == digits[0] && name[i + 1..i + 1 + |digits[1..]|] == digits[1..];
      DigitsFromRun(name, i + 1, digits[1..]);
    }
  }

  lemma NoNumberInRootName()
    ensures FindMatch(FileName(0), 0).None?
  {
    var name := FileName(0);
    assert name == "logfile.log";
    forall k: nat ensures !MatchAt(name, k) {
      if 0 < k && k + 7 < |name| {
        assert name[k..k + 7][0] == name[k] && name[k] != 'l';
      }
    }
  }

  lemma NumberAfterRoot(name: string, digits: string)
    requires digits != [] && Decimal.AllDigits(digits) && |ROOT| + |digits| < |name|
    requires name[..|ROOT|] == ROOT && name[|ROOT|..|ROOT| + |digits|] == digits
    requires !Decimal.IsDigit(name[|ROOT| + |digits|])
    ensures FindMatch(name, 0) == Some(0)
    ensures DigitsFrom(name, |ROOT|) == digits
  {
    assert name[0..0 + |ROOT|] == name[..|ROOT|];
    assert name[|ROOT|] == digits[0];
    DigitsFromRun(name, |ROOT|, digits);
  }

  lemma NameParts(n: nat)
    requires n > 0
    ensures var name, digits := FileName(n), Decimal.Print(n);
            && |ROOT| + |digits| < |name|
            && name[..|ROOT|] == ROOT && name[|ROOT|..|ROOT| + |digits|] == digits
            && name[|ROOT| + |digits|] == '.'
  {
    assert FileName(n) == ROOT + (Decimal.Print(n) + "." + EXTENSION);
  }

  /** Printing a number into a file name and finding it again are inverse. */
  lemma NumberOfName(n: nat)
    ensures FileNumber(FileName(n)) == if n <= MAX_INT64 then Ok(n) else Err(NumberOutOfRange)
  {
    if n == 0 {
      NoNumberInRootName();
    } else {
      Decimal.PrintParse(n);
      NameParts(n);
      NumberAfterRoot(FileName(n), Decimal.Print(n));
    }
  }

  /** Different numbers have different names. */
  lemma NameInjective(m: nat, n: nat)
    requires FileName(m) == FileName(n)
    ensures m == n
  {
    var a, b := FileName(m), FileName(n);
    if m != 0 { Decimal.PrintParse(m); assert a[|ROOT|] == Decimal.Print(m)[0]; }
    if n != 0 { Decimal.PrintParse(n); assert b[|ROOT|] == Decimal.Print(n)[0]; }
    if m != 0 && n != 0 {
      assert Decimal.Print(m) == a[|ROOT|..|a| - 4] == b[|ROOT|..|b| - 4] == Decimal.Print(n);
      Decimal.PrintInjective(m, n);
    }
  }

  // The writer

  datatype Log = Log(maxFileSize: int, maxFiles: int, current: string, files: map<string, Record>)

  predicate MustRotate(l: Log, p: Record)
    requires l.current in l.files
  {
    var size := |l.files[l.current]|;
    size >= l.maxFileSize || size + |p| >= l.maxFileSize
  }

  /** The file after number `n`. */
  function Next(n: int, maxFiles: int): int {
    if n >= Wrap64(maxFiles - 1) then 0 else n + 1
  }

  /** Number of files in the ring. */
  function RingSize(maxFiles: int): (r: int)
    ensures r >= 1
  {
    if Wrap64(maxFiles - 1) < 0 then 1 else Wrap64(maxFiles - 1) + 1
  }

  /** The ring has max(1, maxFiles) places, except that the smallest 64-bit value wraps to the largest. */
  lemma RingSizeIsMaxFiles(maxFiles: int)
    requires IsInt64(maxFiles)
    ensures RingSize(maxFiles) ==
              if maxFiles == -MAX_INT64 - 1 then MAX_INT64 + 1 else if maxFiles <= 1 then 1 else maxFiles
    ensures RingSize(maxFiles) <= MAX_INT64 + 1
  {
    if maxFiles == -MAX_INT64 - 1 {
      assert maxFiles - 1 + MAX_INT64 + 1 == -1;
    } else {
      assert 0 <= maxFiles - 1 + MAX_INT64 + 1 < TWO_TO_64;
    }
  }

  function Fresh(maxFileSize: int, maxFiles: int): Log {
    Log(maxFileSize, maxFiles, FileName(0), map[FileName(0) := []])
  }

  /** The number in the current name is readable, or not needed. */
  predicate CanWrite(l: Log, p: Record)
    requires l.current in l.files
  {
    MustRotate(l, p) ==> FileNumber(l.current).Ok?
  }

  /** The directory after a write: either the open file grows, or the next file starts over with the record. */
  function Written(l: Log, p: Record): Log
    requires l.current in l.files && CanWrite(l, p)
  {
    if MustRotate(l, p) then
      var name := FileName(Next(FileNumber(l.current).value, l.maxFiles));
      l.(current := name, files := l.files[name := p])
    else
      l.(files := l.files[l.current := l.files[l.current] + p])
  }

  // What the ring ought to hold: every record ever written, packed greedily into chunks

  function Bytes(records: seq<Record>): Record {
    if records == [] then [] else Bytes(records[..|records| - 1]) + records[|records| - 1]
  }

  function Packed(chunks: seq<seq<Record>>, p: Record, maxFileSize: int): seq<seq<Record>>
    requires chunks != []
  {
    var last := chunks[|chunks| - 1];
    if |Bytes(last)| >= maxFileSize || |Bytes(last)| + |p| >= maxFileSize then chunks + [[p]]
    else chunks[|chunks| - 1 := last + [p]]
  }

  function Pack(records: seq<Record>, maxFileSize: int): (chunks: seq<seq<Record>>)
    ensures chunks != []
  {
    if records == [] then [[]]
    else Packed(Pack(records[..|records| - 1], maxFileSize), records[|records| - 1], maxFileSize)
  }

  /** The oldest chunk still on disk. */
  function Oldest(chunks: seq<seq<Record>>, ring: int): nat {
    if |chunks| <= ring then 0 else |chunks| - ring
  }

  /** Chunk `k` is the content of file `k` modulo the ring size. */
  predicate Stored(l: Log, chunk: seq<Record>, k: nat) {
    var name := FileName(k % RingSize(l.maxFiles));
    name in l.files && l.files[name] == Bytes(chunk)
  }

  /** The directory holds exactly the newest chunks, one file each, and the newest is the open one. */
  ghost predicate Holds(l: Log, chunks: seq<seq<Record>>) {
    var ring := RingSize(l.maxFiles);
    && IsInt64(l.maxFiles) && chunks != [] && l.current in l.files
    && l.current == FileName((|chunks| - 1) % ring)
    && (forall k {:trigger Stored(l, chunks[k], k)} :: Oldest(chunks, ring) <= k < |chunks| ==> Stored(l, chunks[k], k))
    && (forall name :: name in l.files ==> Numbered(name, Oldest(chunks, ring), |chunks|, ring))
  }

  /** `name` is the file of some chunk in the window. */
  ghost predicate Numbered(name: string, lo: nat, hi: nat, ring: int)
    requires ring >= 1
  {
    exists k :: lo <= k < hi && name == FileName(k % ring)
  }

  // Arithmetic of the ring

  lemma ModNext(k: nat, ring: int)
    requires ring >= 1
    ensures (k + 1) % ring == if k % ring >= ring - 1 then 0 else k % ring + 1
  {
    var q, m := k / ring, k % ring;
    assert k + 1 == ring * q + (m + 1);
    if m == ring - 1 {
      assert k + 1 == ring * (q + 1);
      ModOf(q + 1, 0, ring);
    } else {
      ModOf(q, m + 1, ring);
    }
  }

  lemma MulSign(ring: int, d: int)
    requires ring >= 1
    ensures d >= 1 ==> ring * d >= ring
    ensures d <= -1 ==> ring * d <= -ring
    ensures d == 0 ==> ring * d == 0
  {
    if d > 1 {
      assert ring * d == ring + ring * (d - 1);
    } else if d < -1 {
      assert ring * d == -ring + ring * (d + 1);
    }
  }

  lemma ModOf(q: nat, m: nat, ring: int)
    requires m < ring
    ensures (ring * q + m) % ring == m
  {
    var x := ring * q + m;
    var d := x / ring - q;
    assert ring * d == m - x % ring;
    MulSign(ring, d);
  }

  lemma ModDistinct(a: nat, b: nat, ring: int)
    requires a < b < a + ring
    ensures a % ring != b % ring
  {
    var d := b / ring - a / ring;
    assert ring * d == b - a - (b % ring - a % ring);
    MulSign(ring, d);
  }

  lemma ModWhole(k: nat, ring: int)
    requires k >= ring >= 1
    ensures k % ring == (k - ring) % ring
  {
    var q, m := (k - ring) / ring, (k - ring) % ring;
    assert k == ring * (q + 1) + m;
    ModOf(q + 1, m, ring);
  }

  /** Appending to the open file extends the newest chunk. */
  lemma AppendKeepsHolds(l: Log, chunks: seq<seq<Record>>, p: Record)
    requires Holds(l, chunks) && !MustRotate(l, p)
    ensures Holds(l.(files := l.files[l.current := l.files[l.current] + p]), Packed(chunks, p, l.maxFileSize))
  {
    hide FileName, RingSize, FileNumber;
    var ring, last := RingSize(l.maxFiles), |chunks| - 1;
    var l' := l.(files := l.files[l.current := l.files[l.current] + p]);
    assert Stored(l, chunks[last], last);
    var chunks' := Packed(chunks, p, l.maxFileSize);
    assert (chunks[last] + [p])[..|chunks[last]|] == chunks[last];
    forall k | Oldest(chunks', ring) <= k < |chunks'| ensures Stored(l', chunks'[k], k) {
      assert Stored(l, chunks[k], k);
      if k != last {
        ModDistinct(k, last, ring);
        if FileName(k % ring) == l.current { NameInjective(k % ring, last % ring); }
      }
    }
  }

  /** Starting the next file overwrites exactly the oldest chunk of a full ring. */
  lemma RotateKeepsHolds(l: Log, chunks: seq<seq<Record>>, p: Record)
    requires Holds(l, chunks)
    ensures var name := FileName(|chunks| % RingSize(l.maxFiles));
            Holds(l.(current := name, files := l.files[name := p]), chunks + [[p]])
  {
    var ring, next := RingSize(l.maxFiles), |chunks|;
    var name := FileName(next % ring);
    var l', chunks' := l.(current := name, files := l.files[name := p]), chunks + [[p]];
    assert Bytes([p]) == p by { assert [p][..0] == []; }
    hide Bytes, FileName, RingSize;
    forall k | Oldest(chunks', ring) <= k < |chunks'| ensures Stored(l', chunks'[k], k) {
      if k != next {
        assert Stored(l, chunks[k], k);
        ModDistinct(k, next, ring);
        if FileName(k % ring) == name { NameInjective(k % ring, next % ring); }
      }
    }
    assert Numbered(name, Oldest(chunks', ring), |chunks'|, ring);
    forall n | n in l.files && n != name ensures Numbered(n, Oldest(chunks', ring), |chunks'|, ring) {
      assert Numbered(n, Oldest(chunks, ring), |chunks|, ring);
      WindowMoves(n, |chunks|, ring);
    }
  }

  /** The only name that leaves the window when it moves up by one is the one that comes in again. */
  lemma WindowMoves(n: string, count: nat, ring: int)
    requires ring >= 1 && count > 0
    requires Numbered(n, if count <= ring then 0 else count - ring, count, ring) && n != FileName(count % ring)
    ensures Numbered(n, if count + 1 <= ring then 0 else count + 1 - ring, count + 1, ring)
  {
    var lo := if count <= ring then 0 else count - ring;
    var k :| lo <= k < count && n == FileName(k % ring);
    if count >= ring && k == lo {
      ModWhole(count, ring);
    }
  }

  lemma NextNumber(count: nat, maxFiles: int)
    requires IsInt64(maxFiles) && count > 0
    ensures var ring := RingSize(maxFiles);
            && FileNumber(FileName((count - 1) % ring)) == Ok((count - 1) % ring)
            && Next((count - 1) % ring, maxFiles) == count % ring
  {
    RingSizeIsMaxFiles(maxFiles);
    NumberOfName((count - 1) % RingSize(maxFiles));
    hide FileName, FileNumber, Wrap64;
    ModNext(count - 1, RingSize(maxFiles));
  }

  /** The number `Write` finds is the newest chunk's, and the number it moves to is the next chunk's. */
  lemma NextFile(l: Log, chunks: seq<seq<Record>>)
    requires Holds(l, chunks)
    ensures FileNumber(l.current) == Ok((|chunks| - 1) % RingSize(l.maxFiles))
    ensures Next((|chunks| - 1) % RingSize(l.maxFiles), l.maxFiles) == |chunks| % RingSize(l.maxFiles)
  {
    hide FileName, FileNumber, Stored, Numbered, RingSize, Next;
    NextNumber(|chunks|, l.maxFiles);
  }

  /** One write turns a directory holding `chunks` into one holding them with the record packed in. */
  lemma WriteKeepsHolds(l: Log, chunks: seq<seq<Record>>, p: Record)
    requires Holds(l, chunks)
    ensures CanWrite(l, p) && Holds(Written(l, p), Packed(chunks, p, l.maxFileSize))
  {
    assert Stored(l, chunks[|chunks| - 1], |chunks| - 1);
    NextFile(l, chunks);
    if MustRotate(l, p) {
      RotateKeepsHolds(l, chunks, p);
    } else {
      AppendKeepsHolds(l, chunks, p);
    }
  }

  class FileWriter {
    const maxFileSize: int
    const maxFiles: int
    var current: string              // the name of the open file
    var files: map<string, Record>   // the directory

    ghost predicate Valid()
      reads this
    {
      current in files && IsInt64(maxFiles)
    }

    ghost function Contents(): Log
      reads this
    {
      Log(maxFileSize, maxFiles, current, files)
    }

    constructor (maxFileSize: int, maxFiles: int)
      requires IsInt64(maxFiles)
      ensures Valid() && Contents() == Fresh(maxFileSize, maxFiles)
    {
      this.maxFileSize, this.maxFiles := maxFileSize, maxFiles;
      current, files := ROOT + "." + EXTENSION, map[ROOT + "." + EXTENSION := []];
    }

    method Write(p: Record) returns (r: Result<nat, Error>)
      requires Valid()
      modifies this
      ensures Valid()
      ensures r == if old(CanWrite(Contents(), p)) then Ok(|p|) else Err(NumberOutOfRange)
      ensures Contents() == if r.Ok? then Written(old(Contents()), p) else old(Contents())
      ensures old(|files[current]|) + |p| < maxFileSize ==>
                r.Ok? && current == old(current) && files == old(files)[current := old(files[current]) + p]
      ensures r.Ok? && old(|files[current]|) + |p| >= maxFileSize ==> files[current] == p
    {
      var size := |files[current]|;
      if size >= maxFileSize || size + |p| >= maxFileSize {
        var number := FileNumber(current);
        if number.Err? {
          return Err(number.error);
        }
        var newFileName := if number.value >= Wrap64(maxFiles - 1) then ROOT + "." + EXTENSION
                           else ROOT + Decimal.Print(number.value + 1) + "." + EXTENSION;
        if newFileName in files {
          files := files - {newFileName};
        }
        files := files[newFileName := []];
        current := newFileName;
        assert files[current] + p == p;
        assert files[current := p] == old(files)[current := p];
      }
      files := files[current := files[current] + p];
      r := Ok(|p|);
    }
  }

  // Whole runs

  /** The directory after writing `records` from the start. */
  function RunFrom(l: Log, records: seq<Record>): Option<Log>
    requires l.current in l.files
  {
    if records == [] then Some(l)
    else match RunFrom(l, records[..|records| - 1])
         case None => None
         case Some(m) =>
           var p := records[|records| - 1];
           if m.current in m.files && CanWrite(m, p) then Some(Written(m, p)) else None
  }

  lemma {:induction false} RunHolds(maxFileSize: int, maxFiles: int, records: seq<Record>)
    requires IsInt64(maxFiles)
    ensures var end := RunFrom(Fresh(maxFileSize, maxFiles), records);
            && end.Some? && end.value.maxFileSize == maxFileSize && end.value.maxFiles == maxFiles
            && Holds(end.value, Pack(records, maxFileSize))
  {
    if records == [] {
      var l, ring := Fresh(maxFileSize, maxFiles), RingSize(maxFiles);
      assert 0 % ring == 0 by { ModOf(0, 0, ring); }
      assert Stored(l, [], 0);
      assert forall name :: name in l.files ==> name == FileName(0 % ring);
    } else {
      var front := records[..|records| - 1];
      RunHolds(maxFileSize, maxFiles, front);
      var l := RunFrom(Fresh(maxFileSize, maxFiles), front).value;
      WriteKeepsHolds(l, Pack(front, maxFileSize), records[|records| - 1]);
    }
  }

  // Reading the ring back

  function Flat(chunks: seq<seq<Record>>): seq<Record> {
    if chunks == [] then [] else chunks[0] + Flat(chunks[1..])
  }

  function Content(l: Log, number: nat): Record {
    if FileName(number) in l.files then l.files[FileName(number)] else []
  }

  /** The contents of `count` consecutive places of the ring, from place `k` on. */
  function Read(l: Log, k: nat, count: nat): Record
    decreases count
  {
    if count == 0 then [] else Content(l, k % RingSize(l.maxFiles)) + Read(l, k + 1, count - 1)
  }

  /** All surviving files, once round the ring, from the one after the current number up to the current one. */
  function ReadRing(l: Log): Record
    requires FileNumber(l.current).Ok?
  {
    Read(l, FileNumber(l.current).value + 1, RingSize(l.maxFiles))
  }

  lemma BytesSnoc(records: seq<Record>, p: Record)
    ensures Bytes(records + [p]) == Bytes(records) + p
  {
    assert (records + [p])[..|records|] == records;
  }

  lemma {:induction false} BytesConcat(a: seq<Record>, b: seq<Record>)
    ensures Bytes(a + b) == Bytes(a) + Bytes(b)
  {
    if b == [] {
      assert a + b == a;
    } else {
      var front, last := b[..|b| - 1], b[|b| - 1];
      assert b == front + [last] && a + b == a + front + [last];
      BytesConcat(a, front);
      BytesSnoc(a + front, last);
      BytesSnoc(front, last);
    }
  }

  lemma {:induction false} FlatConcat(a: seq<seq<Record>>, b: seq<seq<Record>>)
    ensures Flat(a + b) == Flat(a) + Flat(b)
  {
    if a == [] {
      assert a + b == b;
    } else {
      assert (a + b)[1..] == a[1..] + b;
      FlatConcat(a[1..], b);
    }
  }

  lemma FlatSingle(c: seq<Record>)
    ensures Flat([c]) == c
  {
    assert [c][1..] == [];
  }

  lemma FlatSplit(chunks: seq<seq<Record>>, k: nat)
    requires k <= |chunks|
    ensures Flat(chunks) == Flat(chunks[..k]) + Flat(chunks[k..])
  {
    assert chunks == chunks[..k] + chunks[k..];
    FlatConcat(chunks[..k], chunks[k..]);
  }

  /** A chunk is the slice of the records that starts after all older chunks. */
  lemma ChunkIsSlice(chunks: seq<seq<Record>>, k: nat)
    requires k < |chunks|
    ensures var a := |Flat(chunks[..k])|;
            a + |chunks[k]| <= |Flat(chunks)| && Flat(chunks)[a..a + |chunks[k]|] == chunks[k]
            && Flat(chunks)[a..] == Flat(chunks[k..])
  {
    FlatSplit(chunks, k);
    assert Flat(chunks[k..]) == chunks[k] + Flat(chunks[k..][1..]);
  }

  lemma PackedAddsRecord(chunks: seq<seq<Record>>, p: Record, maxFileSize: int)
    requires chunks != []
    ensures var chunks' := Packed(chunks, p, maxFileSize);
            Flat(chunks') == Flat(chunks) + [p] && chunks'[|chunks'| - 1] != []
  {
    var older, last := chunks[..|chunks| - 1], chunks[|chunks| - 1];
    if Packed(chunks, p, maxFileSize) == chunks + [[p]] {
      FlatConcat(chunks, [[p]]);
      FlatSingle([p]);
    } else {
      assert chunks == older + [last];
      assert Packed(chunks, p, maxFileSize) == older + [last + [p]];
      FlatConcat(older, [last]);
      FlatConcat(older, [last + [p]]);
      FlatSingle(last);
      FlatSingle(last + [p]);
    }
  }

  /** Packing neither loses nor reorders a record, and the newest chunk is not empty once something is written. */
  lemma {:induction false} PackKeepsRecords(records: seq<Record>, maxFileSize: int)
    ensures var chunks := Pack(records, maxFileSize);
            && Flat(chunks) == records
            && (records != [] ==> chunks[|chunks| - 1] != [])
  {
    if records == [] {
      FlatSingle([]);
    } else {
      var front, p := records[..|records| - 1], records[|records| - 1];
      PackKeepsRecords(front, maxFileSize);
      PackedAddsRecord(Pack(front, maxFileSize), p, maxFileSize);
      assert records == front + [p];
    }
  }

  /** A chunk was closed only because the first record of the next one did not fit. */
  ghost predicate Greedy(chunks: seq<seq<Record>>, maxFileSize: int) {
    forall k :: 0 < k < |chunks| ==> Followed(chunks[k - 1], chunks[k], maxFileSize)
  }

  predicate Followed(chunk: seq<Record>, next: seq<Record>, maxFileSize: int) {
    next != [] && |Bytes(chunk)| + |next[0]| >= maxFileSize
  }

  lemma PackedIsGreedy(chunks: seq<seq<Record>>, p: Record, maxFileSize: int)
    requires chunks != [] && Greedy(chunks, maxFileSize)
    ensures Greedy(Packed(chunks, p, maxFileSize), maxFileSize)
  {
    var packed, last := Packed(chunks, p, maxFileSize), |chunks| - 1;
    hide Bytes;
    forall k | 0 < k < |packed| ensures Followed(packed[k - 1], packed[k], maxFileSize) {
      if k <= last { assert Followed(chunks[k - 1], chunks[k], maxFileSize); }
    }
  }

  lemma {:induction false} PackIsGreedy(records: seq<Record>, maxFileSize: int)
    ensures Greedy(Pack(records, maxFileSize), maxFileSize)
  {
    if records != [] {
      PackIsGreedy(records[..|records| - 1], maxFileSize);
      PackedIsGreedy(Pack(records[..|records| - 1], maxFileSize), records[|records| - 1], maxFileSize);
    }
  }

  lemma {:induction false} ReadCongruent(l: Log, a: nat, b: nat, count: nat)
    requires a % RingSize(l.maxFiles) == b % RingSize(l.maxFiles)
    ensures Read(l, a, count) == Read(l, b, count)
    decreases count
  {
    if count > 0 {
      ModNext(a, RingSize(l.maxFiles));
      ModNext(b, RingSize(l.maxFiles));
      ReadCongruent(l, a + 1, b + 1, count - 1);
    }
  }

  /** A place the ring has not reached yet has no file. */
  lemma UnreachedPlace(l: Log, chunks: seq<seq<Record>>, k: nat)
    requires Holds(l, chunks) && |chunks| <= k < RingSize(l.maxFiles)
    ensures Content(l, k % RingSize(l.maxFiles)) == []
  {
    var ring := RingSize(l.maxFiles);
    ModOf(0, k, ring);
    if FileName(k) in l.files {
      assert Numbered(FileName(k), Oldest(chunks, ring), |chunks|, ring);
      var j :| Oldest(chunks, ring) <= j < |chunks| && FileName(k) == FileName(j % ring);
      NameInjective(k, j % ring);
      ModOf(0, j, ring);
    }
  }

  /** A place of the newest round holds its chunk. */
  lemma ReachedPlace(l: Log, chunks: seq<seq<Record>>, k: nat)
    requires Holds(l, chunks) && RingSize(l.maxFiles) <= k < |chunks| + RingSize(l.maxFiles) && |chunks| <= k
    ensures Content(l, k % RingSize(l.maxFiles)) == Bytes(chunks[k - RingSize(l.maxFiles)])
  {
    var j := k - RingSize(l.maxFiles);
    ModWhole(k, RingSize(l.maxFiles));
    assert Stored(l, chunks[j], j);
  }

  lemma {:induction false} ReadChunks(l: Log, chunks: seq<seq<Record>>, k: nat, count: nat)
    requires Holds(l, chunks) && k >= |chunks| && k + count == |chunks| + RingSize(l.maxFiles)
    ensures var from := if k < RingSize(l.maxFiles) then 0 else k - RingSize(l.maxFiles);
            from <= |chunks| && Read(l, k, count) == Bytes(Flat(chunks[from..]))
    decreases count
  {
    var ring := RingSize(l.maxFiles);
    if count > 0 {
      ReadChunks(l, chunks, k + 1, count - 1);
      if k < ring {
        UnreachedPlace(l, chunks, k);
      } else {
        ReachedPlace(l, chunks, k);
        BytesOfTail(chunks, k - ring);
        assert Read(l, k, count) == Bytes(chunks[k - ring]) + Read(l, k + 1, count - 1);
      }
    }
  }

  lemma BytesOfTail(chunks: seq<seq<Record>>, j: nat)
    requires j < |chunks|
    ensures Bytes(Flat(chunks[j..])) == Bytes(chunks[j]) + Bytes(Flat(chunks[j + 1..]))
  {
    assert chunks[j..][1..] == chunks[j + 1..];
    BytesConcat(chunks[j], Flat(chunks[j + 1..]));
  }

  lemma ModSucc(k: nat, ring: int)
    requires ring >= 1
    ensures (k % ring + 1) % ring == (k + 1) % ring
  {
    ModNext(k, ring);
    ModOf(1, 0, ring);
    if k % ring < ring - 1 {
      ModOf(0, k % ring + 1, ring);
    }
  }

  /** Counting on from a place of the ring or from its number is the same. */
  lemma ReadAfter(l: Log, k: nat, count: nat)
    ensures Read(l, k % RingSize(l.maxFiles) + 1, count) == Read(l, k + 1, count)
  {
    hide Read, RingSize;
    ModSucc(k, RingSize(l.maxFiles));
    ReadCongruent(l, k % RingSize(l.maxFiles) + 1, k + 1, count);
  }

  /** Reading starts at the place the next chunk will take. */
  lemma ReadRingStart(l: Log, chunks: seq<seq<Record>>)
    requires Holds(l, chunks)
    ensures FileNumber(l.current).Ok?
    ensures ReadRing(l) == Read(l, |chunks|, RingSize(l.maxFiles))
  {
    hide Read, RingSize, FileName, FileNumber, Stored, Numbered;
    NextFile(l, chunks);
    ReadAfter(l, |chunks| - 1, RingSize(l.maxFiles));
  }

  lemma ReadRingIsChunks(l: Log, chunks: seq<seq<Record>>)
    requires Holds(l, chunks)
    ensures FileNumber(l.current).Ok?
    ensures ReadRing(l) == Bytes(Flat(chunks[Oldest(chunks, RingSize(l.maxFiles))..]))
  {
    hide Holds, Read, ReadRing, Bytes, Flat, RingSize, FileNumber;
    ReadRingStart(l, chunks);
    ReadChunks(l, chunks, |chunks|, RingSize(l.maxFiles));
  }

  lemma RunReadsChunks(maxFileSize: int, maxFiles: int, records: seq<Record>)
    requires IsInt64(maxFiles)
    ensures var end, chunks := RunFrom(Fresh(maxFileSize, maxFiles), records), Pack(records, maxFileSize);
            && end.Some? && FileNumber(end.value.current).Ok?
            && ReadRing(end.value) == Bytes(Flat(chunks[Oldest(chunks, RingSize(maxFiles))..]))
  {
    hide RunFrom, Pack, Holds, Read, ReadRing, Bytes, Flat, RingSize, FileNumber, Oldest;
    RunHolds(maxFileSize, maxFiles, records);
    ReadRingIsChunks(RunFrom(Fresh(maxFileSize, maxFiles), records).value, Pack(records, maxFileSize));
  }

  lemma NewestChunksAreSuffix(chunks: seq<seq<Record>>, from: nat)
    requires from < |chunks|
    ensures var lost := |Flat(chunks[..from])|;
            && lost + |chunks[|chunks| - 1]| <= |Flat(chunks)|
            && Flat(chunks)[lost..] == Flat(chunks[from..])
  {
    var last := |chunks| - 1;
    FlatSplit(chunks, from);
    FlatSplit(chunks, last);
    FlatSplit(chunks[..last], from);
    assert chunks[..last][..from] == chunks[..from];
    assert chunks[last..] == [chunks[last]];
    FlatSingle(chunks[last]);
  }

  lemma SuffixOfRecords(records: seq<Record>, chunks: seq<seq<Record>>, from: nat)
    requires Flat(chunks) == records && from < |chunks|
    requires records != [] ==> chunks[|chunks| - 1] != []
    ensures var lost := |Flat(chunks[..from])|;
            && lost <= |records| && (records != [] ==> lost < |records|)
            && Bytes(Flat(chunks[from..])) == Bytes(records[lost..])
  {
    NewestChunksAreSuffix(chunks, from);
  }

  /** Records no longer on disk after writing `records`. */
  function Lost(maxFileSize: int, maxFiles: int, records: seq<Record>): nat {
    var chunks := Pack(records, maxFileSize);
    |Flat(chunks[..Oldest(chunks, RingSize(maxFiles))])|
  }

  /**
   In any run from the initial directory the surviving files, read once round the ring, are exactly the
   newest records written, whole and in order; the newest record is always among them.
   */
  lemma RingIsSuffix(maxFileSize: int, maxFiles: int, records: seq<Record>)
    requires IsInt64(maxFiles)
    ensures var end, lost := RunFrom(Fresh(maxFileSize, maxFiles), records), Lost(maxFileSize, maxFiles, records);
            && end.Some? && FileNumber(end.value.current).Ok?
            && lost <= |records| && (records != [] ==> lost < |records|)
            && ReadRing(end.value) == Bytes(records[lost..])
  {
    hide RunFrom, Pack, ReadRing, Bytes, Flat, RingSize, FileNumber;
    RunReadsChunks(maxFileSize, maxFiles, records);
    PackKeepsRecords(records, maxFileSize);
    var chunks := Pack(records, maxFileSize);
    SuffixOfRecords(records, chunks, Oldest(chunks, RingSize(maxFiles)));
  }

  lemma FileIsChunk(l: Log, chunks: seq<seq<Record>>, name: string) returns (k: nat)
    requires Holds(l, chunks) && name in l.files
    ensures k < |chunks| && l.files[name] == Bytes(chunks[k])
  {
    var ring := RingSize(l.maxFiles);
    assert Numbered(name, Oldest(chunks, ring), |chunks|, ring);
    k :| Oldest(chunks, ring) <= k < |chunks| && name == FileName(k % ring);
    assert Stored(l, chunks[k], k);
  }

  lemma RunFileIsChunk(maxFileSize: int, maxFiles: int, records: seq<Record>, name: string) returns (k: nat)
    requires IsInt64(maxFiles)
    requires var end := RunFrom(Fresh(maxFileSize, maxFiles), records); end.Some? && name in end.value.files
    ensures k < |Pack(records, maxFileSize)|
    ensures RunFrom(Fresh(maxFileSize, maxFiles), records).value.files[name] == Bytes(Pack(records, maxFileSize)[k])
  {
    RunHolds(maxFileSize, maxFiles, records);
    k := FileIsChunk(RunFrom(Fresh(maxFileSize, maxFiles), records).value, Pack(records, maxFileSize), name);
  }

  /** No record is split: every file is a run of consecutive whole records. */
  lemma FilesHoldWholeRecords(maxFileSize: int, maxFiles: int, records: seq<Record>, name: string)
    returns (a: nat, b: nat)
    requires IsInt64(maxFiles)
    requires var end := RunFrom(Fresh(maxFileSize, maxFiles), records); end.Some? && name in end.value.files
    ensures a <= b <= |records|
    ensures RunFrom(Fresh(maxFileSize, maxFiles), records).value.files[name] == Bytes(records[a..b])
  {
    PackKeepsRecords(records, maxFileSize);
    var chunks := Pack(records, maxFileSize);
    var k := RunFileIsChunk(maxFileSize, maxFiles, records, name);
    ChunkIsSlice(chunks, k);
    a, b := |Flat(chunks[..k])|, |Flat(chunks[..k])| + |chunks[k]|;
  }

  /** Two neighbouring chunks are neighbouring slices of the records. */
  lemma NeighboursAreSlices(chunks: seq<seq<Record>>, k: nat)
    requires 0 < k < |chunks|
    ensures var a, b, c := |Flat(chunks[..k - 1])|, |Flat(chunks[..k])|, |Flat(chunks[..k])| + |chunks[k]|;
            && a <= b <= c <= |Flat(chunks)|
            && Flat(chunks)[a..b] == chunks[k - 1] && Flat(chunks)[b..c] == chunks[k]
  {
    ChunkIsSlice(chunks, k - 1);
    ChunkIsSlice(chunks, k);
    assert chunks[..k] == chunks[..k - 1] + [chunks[k - 1]];
    FlatConcat(chunks[..k - 1], [chunks[k - 1]]);
    FlatSingle(chunks[k - 1]);
  }

  /** The chunk `k` of a run, if it is still on disk, is the file with its number. */
  lemma RunStored(maxFileSize: int, maxFiles: int, records: seq<Record>, k: nat)
    requires IsInt64(maxFiles)
    requires Oldest(Pack(records, maxFileSize), RingSize(maxFiles)) <= k < |Pack(records, maxFileSize)|
    ensures var end := RunFrom(Fresh(maxFileSize, maxFiles), records);
            && end.Some? && FileName(k % RingSize(maxFiles)) in end.value.files
            && end.value.files[FileName(k % RingSize(maxFiles))] == Bytes(Pack(records, maxFileSize)[k])
  {
    RunHolds(maxFileSize, maxFiles, records);
    var l := RunFrom(Fresh(maxFileSize, maxFiles), records).value;
    hide RunFrom, Pack, Bytes, RingSize, FileName, Oldest;
    assert Stored(l, Pack(records, maxFileSize)[k], k);
  }

  /** Two neighbouring chunks of a run, as slices of its records. */
  lemma PackNeighbours(records: seq<Record>, maxFileSize: int, k: nat) returns (a: nat, b: nat, c: nat)
    requires 0 < k < |Pack(records, maxFileSize)|
    ensures a <= b < c <= |records| && |Bytes(records[a..b])| + |records[b]| >= maxFileSize
    ensures Pack(records, maxFileSize)[k - 1] == records[a..b] && Pack(records, maxFileSize)[k] == records[b..c]
  {
    PackKeepsRecords(records, maxFileSize);
    PackIsGreedy(records, maxFileSize);
    var chunks := Pack(records, maxFileSize);
    hide Pack, Bytes, Flat;
    assert Followed(chunks[k - 1], chunks[k], maxFileSize);
    NeighboursAreSlices(chunks, k);
    a, b := |Flat(chunks[..k - 1])|, |Flat(chunks[..k])|;
    c := b + |chunks[k]|;
    assert records[b] == records[b..c][0];
  }

  /**
   No file is left early: of two neighbouring files on disk the second begins with a record that would have taken the
   first to the configured size.
   */
  lemma NoFileLeftEarly(maxFileSize: int, maxFiles: int, records: seq<Record>, k: nat)
    returns (a: nat, b: nat, c: nat)
    requires IsInt64(maxFiles)
    requires Oldest(Pack(records, maxFileSize), RingSize(maxFiles)) < k < |Pack(records, maxFileSize)|
    ensures a <= b < c <= |records|
    ensures |Bytes(records[a..b])| + |records[b]| >= maxFileSize
    ensures var end, ring := RunFrom(Fresh(maxFileSize, maxFiles), records), RingSize(maxFiles);
            && end.Some? && FileName((k - 1) % ring) in end.value.files && FileName(k % ring) in end.value.files
            && end.value.files[FileName((k - 1) % ring)] == Bytes(records[a..b])
            && end.value.files[FileName(k % ring)] == Bytes(records[b..c])
  {
    hide RunFrom, Pack, Bytes, RingSize, FileName, Oldest;
    RunStored(maxFileSize, maxFiles, records, k - 1);
    RunStored(maxFileSize, maxFiles, records, k);
    a, b, c := PackNeighbours(records, maxFileSize, k);
  }

  // Bounds

  function Names(ring: nat): set<string> {
    if ring == 0 then {} else Names(ring - 1) + {FileName(ring - 1)}
  }

  lemma {:induction false} NamesBound(ring: nat)
    ensures |Names(ring)| <= ring
  {
    if ring > 0 {
      NamesBound(ring - 1);
    }
  }

  lemma {:induction false} NamesHas(ring: nat, k: nat)
    requires k < ring
    ensures FileName(k) in Names(ring)
  {
    if k < ring - 1 {
      NamesHas(ring - 1, k);
    }
  }

  lemma SubsetSize<T>(a: set<T>, b: set<T>)
    requires a <= b
    ensures |a| <= |b|
  {
    assert b == a + (b - a);
  }

  /** At most max(1, maxFiles) log files ever exist. */
  lemma FileCountBound(maxFileSize: int, maxFiles: int, records: seq<Record>)
    requires -MAX_INT64 <= maxFiles <= MAX_INT64
    ensures var end := RunFrom(Fresh(maxFileSize, maxFiles), records);
            end.Some? && |end.value.files| <= if maxFiles < 1 then 1 else maxFiles
  {
    RunHolds(maxFileSize, maxFiles, records);
    RingSizeIsMaxFiles(maxFiles);
    var l := RunFrom(Fresh(maxFileSize, maxFiles), records).value;
    var chunks, ring := Pack(records, maxFileSize), RingSize(maxFiles);
    NamesBound(ring);
    forall name | name in l.files ensures name in Names(ring) {
      assert Numbered(name, Oldest(chunks, ring), |chunks|, ring);
      var k :| Oldest(chunks, ring) <= k < |chunks| && name == FileName(k % ring);
      NamesHas(ring, k % ring);
    }
    SubsetSize(l.files.Keys, Names(ring));
    assert |l.files| == |l.files.Keys|;
  }

  predicate AllBelow(maxFileSize: int, records: seq<Record>) {
    forall i :: 0 <= i < |records| ==> |records[i]| < maxFileSize
  }

  predicate FilesBelow(l: Log) {
    forall name :: name in l.files ==> |l.files[name]| < l.maxFileSize
  }

  lemma WriteKeepsBelow(l: Log, p: Record)
    requires l.current in l.files && CanWrite(l, p) && FilesBelow(l)
    ensures |p| < l.maxFileSize ==> FilesBelow(Written(l, p))
    ensures |p| >= l.maxFileSize ==> !FilesBelow(Written(l, p))
  {
    if |p| >= l.maxFileSize {
      var l' := Written(l, p);
      assert |l'.files[l'.current]| >= l.maxFileSize;
    }
  }

  lemma {:induction false} RunStaysBelow(maxFileSize: int, maxFiles: int, records: seq<Record>)
    requires IsInt64(maxFiles) && maxFileSize > 0 && AllBelow(maxFileSize, records)
    ensures var end := RunFrom(Fresh(maxFileSize, maxFiles), records); end.Some? && FilesBelow(end.value)
  {
    RunHolds(maxFileSize, maxFiles, records);
    if records != [] {
      var front := records[..|records| - 1];
      RunHolds(maxFileSize, maxFiles, front);
      RunStaysBelow(maxFileSize, maxFiles, front);
      WriteKeepsBelow(RunFrom(Fresh(maxFileSize, maxFiles), front).value, records[|records| - 1]);
    }
  }

  ghost predicate AlwaysBelow(maxFileSize: int, maxFiles: int, records: seq<Record>) {
    forall n :: 0 <= n <= |records| ==>
      var end := RunFrom(Fresh(maxFileSize, maxFiles), records[..n]);
      end.Some? && FilesBelow(end.value)
  }

  /** Every file stays strictly below the configured size throughout the run exactly when every record does. */
  lemma BelowIff(maxFileSize: int, maxFiles: int, records: seq<Record>)
    requires IsInt64(maxFiles) && maxFileSize > 0
    ensures AlwaysBelow(maxFileSize, maxFiles, records) <==> AllBelow(maxFileSize, records)
  {
    if AllBelow(maxFileSize, records) {
      forall n | 0 <= n <= |records|
        ensures var end := RunFrom(Fresh(maxFileSize, maxFiles), records[..n]); end.Some? && FilesBelow(end.value)
      {
        RunStaysBelow(maxFileSize, maxFiles, records[..n]);
      }
    } else {
      var i :| 0 <= i < |records| && |records[i]| >= maxFileSize;
      RunHolds(maxFileSize, maxFiles, records[..i]);
      RunHolds(maxFileSize, maxFiles, records[..i + 1]);
      assert records[..i + 1][..|records[..i + 1]| - 1] == records[..i];
      var l := RunFrom(Fresh(maxFileSize, maxFiles), records[..i]).value;
      if FilesBelow(l) {
        WriteKeepsBelow(l, records[i]);
      }
    }
  }

  lemma {:induction false} ReadBound(l: Log, k: nat, count: nat)
    requires FilesBelow(l) && l.maxFileSize > 0
    ensures |Read(l, k, count)| <= count * (l.maxFileSize - 1)
    decreases count
  {
    if count > 0 {
      ReadBound(l, k + 1, count - 1);
      assert count * (l.maxFileSize - 1) == (count - 1) * (l.maxFileSize - 1) + (l.maxFileSize - 1);
    }
  }

  lemma RunKeepsConfig(maxFileSize: int, maxFiles: int, records: seq<Record>)
    requires IsInt64(maxFiles)
    ensures var end := RunFrom(Fresh(maxFileSize, maxFiles), records);
            end.Some? && end.value.maxFileSize == maxFileSize && end.value.maxFiles == maxFiles
  {
    RunHolds(maxFileSize, maxFiles, records);
  }

  /** The whole ring stays below its number of places times the configured size, however much is written. */
  lemma TotalBound(maxFileSize: int, maxFiles: int, records: seq<Record>)
    requires IsInt64(maxFiles) && maxFileSize > 0 && AllBelow(maxFileSize, records)
    ensures var end := RunFrom(Fresh(maxFileSize, maxFiles), records);
            && end.Some? && FileNumber(end.value.current).Ok?
            && |ReadRing(end.value)| < RingSize(maxFiles) * maxFileSize
  {
    RunReadsChunks(maxFileSize, maxFiles, records);
    RunStaysBelow(maxFileSize, maxFiles, records);
    RunKeepsConfig(maxFileSize, maxFiles, records);
    var l, ring := RunFrom(Fresh(maxFileSize, maxFiles), records).value, RingSize(maxFiles);
    ReadBound(l, FileNumber(l.current).value + 1, ring);
    assert ring * (maxFileSize - 1) == ring * maxFileSize - ring;
  }
}
