/** The inspector accepts exactly the well-formed minidumps, and reports exactly what they declare. */
module MinidumpAcceptance {
  import opened Domain
  import opened Msf
  import opened Minidump
  import opened MinidumpLayout

  // ---- the directory ----

  function EntriesFrom(file: seq<byte>, k: nat): seq<Entry>
    requires DirectoryInside(file) && k <= StreamCount(file)
    decreases StreamCount(file) - k
  {
    if k == StreamCount(file) then [] else [StreamAt(file, k)] + EntriesFrom(file, k + 1)
  }

  /** The records from `k` on, where these critical types have occurred before. */
  predicate GoodFrom(file: seq<byte>, k: nat, seen: set<nat>)
    requires DirectoryInside(file) && k <= StreamCount(file)
    decreases StreamCount(file) - k
  {
    if k == StreamCount(file) then true
    else
      var e := StreamAt(file, k);
      && EntryInside(file, e) && !(e.kind in CRITICAL && e.kind in seen)
      && GoodFrom(file, k + 1, if e.kind in CRITICAL then seen + {e.kind} else seen)
  }

  lemma RecordRead(file: seq<byte>, k: nat)
    requires DirectoryInside(file) && k < StreamCount(file)
    ensures var at := DirectoryStart(file) + 12 * k;
            && CheckedMultiply(k, 12) == Fine(k * 12) && CheckedAdd(DirectoryStart(file), k * 12) == Fine(at)
            && ReadExact(file, at, 12) == Fine(file[at..at + 12]) && ParseEntry(file[at..at + 12]) == StreamAt(file, k)
    ensures StreamAt(file, k).dataSize < 0x1_0000_0000 && StreamAt(file, k).rva < 0x1_0000_0000
  {
    hide LeAt, U32;
    var at := DirectoryStart(file) + 12 * k;
    assert DirectoryStart(file) < 0x1_0000_0000 by { Number4(file, 12); }
    Readable(file, at, 12);
    Field(file, at, 12, 0, 4);
    Field(file, at, 12, 4, 8);
    Field(file, at, 12, 8, 12);
    Number4(file, at);
    Number4(file, at + 4);
    Number4(file, at + 8);
  }

  lemma InsideIsRange(file: seq<byte>, e: Entry)
    requires e.dataSize < 0x1_0000_0000 && e.rva < 0x1_0000_0000
    ensures (if e.dataSize > 0 then EnsureRange(file, e.rva, e.dataSize) else Fine(0)).Fine? <==> EntryInside(file, e)
  {}

  lemma {:induction false} EntriesRead(file: seq<byte>, k: nat, seen: set<nat>)
    requires DirectoryInside(file) && k <= StreamCount(file)
    ensures var r := ReadEntries(file, DirectoryStart(file), k, StreamCount(file), seen);
            (r.Fine? <==> GoodFrom(file, k, seen)) && (r.Fine? ==> r.value == EntriesFrom(file, k))
    decreases StreamCount(file) - k
  {
    hide LeAt, U32, ReadExact, CheckedAdd, CheckedMultiply, EnsureRange, StreamAt, EntryInside, ParseEntry;
    if k < StreamCount(file) {
      var e := StreamAt(file, k);
      RecordRead(file, k);
      InsideIsRange(file, e);
      EntriesRead(file, k + 1, if e.kind in CRITICAL then seen + {e.kind} else seen);
    }
  }

  /** The same without going through the records one by one. */
  lemma {:induction false} GoodFromMeans(file: seq<byte>, k: nat, seen: set<nat>)
    requires DirectoryInside(file) && k <= StreamCount(file)
    ensures GoodFrom(file, k, seen) <==>
            && (forall i :: k <= i < StreamCount(file) ==> EntryInside(file, StreamAt(file, i)))
            && (forall i :: k <= i < StreamCount(file) ==> StreamAt(file, i).kind !in CRITICAL || StreamAt(file, i).kind !in seen)
            && (forall i, j :: k <= i < j < StreamCount(file) && StreamAt(file, i).kind == StreamAt(file, j).kind ==>
                  StreamAt(file, j).kind !in CRITICAL)
    decreases StreamCount(file) - k
  {
    hide StreamAt, EntryInside;
    if k < StreamCount(file) {
      var e := StreamAt(file, k);
      GoodFromMeans(file, k + 1, if e.kind in CRITICAL then seen + {e.kind} else seen);
    }
  }

  /** The rest of the directory's checks, once the signature and the version are right. */
  function Counted(file: seq<byte>): Checked<Streams>
    requires |file| >= 32
  {
    var count, directory := LeAt(file, 8, 4), LeAt(file, 12, 4);
    if count > MAX_STREAMS then Failed(ImpossibleCount)
    else if count > 0 && directory < 32 then Failed(Malformed)
    else
      var size :- CheckedMultiply(count, 12);
      var end :- EnsureRange(file, directory, size);
      var entries :- ReadEntries(file, directory, 0, count, {});
      Fine(Streams(LeAt(file, 24, 8), entries))
  }

  lemma DirectoryUnfolds(file: seq<byte>)
    ensures |file| < 32 ==> InspectDirectory(file) == Failed(Truncated)
    ensures |file| >= 32 ==> InspectDirectory(file) ==
                             if file[..4] != SIGNATURE then Failed(BadSignature)
                             else if LeAt(file, 4, 2) != 0xa793 then Failed(BadVersion)
                             else Counted(file)
  {
    hide LeAt, U32, U16, U64, ReadEntries, ReadExact, CheckedMultiply, EnsureRange;
    Readable(file, 0, 32);
    if |file| >= 32 {
      HeaderFields(file);
      assert file[0..32][..4] == file[..4];
    }
  }

  lemma CountedRead(file: seq<byte>)
    requires |file| >= 32
    ensures Counted(file).Fine? <==> DirectoryGood(file)
    ensures Counted(file).Fine? ==> Counted(file).value == Streams(LeAt(file, 24, 8), EntriesFrom(file, 0))
    ensures Counted(file) != Failed(BadSignature) && Counted(file) != Failed(BadVersion)
  {
    hide LeAt, ReadEntries, StreamAt, GoodFrom, EntryInside;
    HeaderFields(file);
    if DirectoryInside(file) {
      EntriesRead(file, 0, {});
      GoodFromMeans(file, 0, {});
      EntriesFail(file, DirectoryStart(file), 0, StreamCount(file), {});
    }
  }

  lemma {:induction false} EntriesFail(file: seq<byte>, directory: nat, index: nat, count: nat, seen: set<nat>)
    requires index <= count
    ensures var r := ReadEntries(file, directory, index, count, seen); r != Failed(BadSignature) && r != Failed(BadVersion)
    decreases count - index
  {
    hide ParseEntry;
    if index < count {
      var step := CheckedMultiply(index, 12);
      if step.Fine? && CheckedAdd(directory, step.value).Fine? {
        var bytes := ReadExact(file, directory + step.value, 12);
        if bytes.Fine? {
          var e := ParseEntry(bytes.value);
          EntriesFail(file, directory, index + 1, count, if e.kind in CRITICAL then seen + {e.kind} else seen);
        }
      }
    }
  }

  /** The directory is read exactly when header and directory are good, and the two ways a header can be of another kind are
      told apart. */
  lemma DirectoryRead(file: seq<byte>)
    ensures InspectDirectory(file).Fine? <==> HeaderGood(file) && DirectoryGood(file)
    ensures InspectDirectory(file).Fine? ==> InspectDirectory(file).value == Streams(LeAt(file, 24, 8), EntriesFrom(file, 0))
    ensures InspectDirectory(file) == Failed(BadSignature) <==> |file| >= 32 && file[..4] != SIGNATURE
    ensures InspectDirectory(file) == Failed(BadVersion) <==> |file| >= 32 && file[..4] == SIGNATURE && LeAt(file, 4, 2) != 0xa793
  {
    hide LeAt, InspectDirectory, Counted, DirectoryGood, EntriesFrom;
    DirectoryUnfolds(file);
    if |file| >= 32 { CountedRead(file); }
  }

  lemma HeaderFields(file: seq<byte>)
    requires |file| >= 32
    ensures var h := file[0..32];
            && U16(h[4..6]) == LeAt(file, 4, 2) && U32(h[8..12]) == LeAt(file, 8, 4) && U32(h[12..16]) == LeAt(file, 12, 4)
            && U64(h[24..32]) == LeAt(file, 24, 8)
    ensures LeAt(file, 12, 4) < 0x1_0000_0000
  {
    hide LeAt, U32, U16, U64;
    Field(file, 0, 32, 4, 6);
    Field(file, 0, 32, 8, 12);
    Field(file, 0, 32, 12, 16);
    Field(file, 0, 32, 24, 32);
    Number2(file, 4);
    Number4(file, 8);
    Number4(file, 12);
    Number8(file, 24);
  }

  // ---- the streams that count ----

  lemma FindFirst(e: Entry, rest: seq<Entry>, kind: nat)
    ensures FindEntry([e] + rest, kind) == if e.kind == kind then Some(e) else FindEntry(rest, kind)
  {
    assert ([e] + rest)[1..] == rest;
  }

  lemma {:induction false} Found(file: seq<byte>, k: nat, kind: nat)
    requires DirectoryInside(file) && k <= StreamCount(file)
    ensures var r := FindEntry(EntriesFrom(file, k), kind);
            && (r.None? <==> forall i :: k <= i < StreamCount(file) ==> StreamAt(file, i).kind != kind)
            && (r.Some? ==> exists i :: k <= i < StreamCount(file) && StreamAt(file, i) == r.value && r.value.kind == kind)
    decreases StreamCount(file) - k
  {
    if k < StreamCount(file) {
      assert EntriesFrom(file, k) == [StreamAt(file, k)] + EntriesFrom(file, k + 1);
      hide StreamAt, FindEntry, EntriesFrom, StreamCount, DirectoryInside;
      FindFirst(StreamAt(file, k), EntriesFrom(file, k + 1), kind);
      Found(file, k + 1, kind);
    }
  }

  /** A critical type occurs once, so what is found is what is listed. */
  lemma FoundIsListed(file: seq<byte>, kind: nat)
    requires DirectoryGood(file) && kind in CRITICAL
    ensures var r := FindEntry(EntriesFrom(file, 0), kind);
            && (forall e :: Listed(file, kind, e) <==> r == Some(e))
            && (r.Some? ==> EntryInside(file, r.value) && r.value.kind == kind && r.value.dataSize < 0x1_0000_0000 && r.value.rva < 0x1_0000_0000)
  {
    hide StreamAt, EntryInside;
    Found(file, 0, kind);
    var r := FindEntry(EntriesFrom(file, 0), kind);
    forall e ensures Listed(file, kind, e) <==> r == Some(e) {
      if Listed(file, kind, e) {
        var i :| 0 <= i < StreamCount(file) && StreamAt(file, i) == e && e.kind == kind;
        var j :| 0 <= j < StreamCount(file) && StreamAt(file, j) == r.value && r.value.kind == kind;
        assert i == j;
      }
    }
    if r.Some? {
      var j :| 0 <= j < StreamCount(file) && StreamAt(file, j) == r.value;
      RecordRead(file, j);
    }
  }

  // ---- memory ----

  /** A record of one of the two memory lists, as it is read. */
  lemma MemoryRecord(file: seq<byte>, e: Entry, header: nat, i: nat, count: nat)
    requires EntryInside(file, e) && header <= 16 && i < count <= 65536 && header + 16 * count <= e.dataSize
    requires e.rva < 0x1_0000_0000 && e.dataSize < 0x1_0000_0000
    ensures var at := e.rva + header + 16 * i;
            && RecordOffset(e, header, i, 16) == Fine(at) && at + 16 <= |file| && ReadExact(file, at, 16) == Fine(file[at..at + 16])
            && var d := file[at..at + 16];
               && U64(d[..8]) == LeAt(file, at, 8) && U32(d[8..12]) == LeAt(file, at + 8, 4) && U32(d[12..16]) == LeAt(file, at + 12, 4)
               && U64(d[8..16]) == LeAt(file, at + 8, 8)
    ensures LeAt(file, e.rva + header + 16 * i + 8, 4) < 0x1_0000_0000
  {
    hide LeAt, U32, U64, RecordOffset, ReadExact;
    var at := e.rva + header + 16 * i;
    Offset(e, header, i, 16);
    assert at + 16 <= e.rva + e.dataSize;
    Readable(file, at, 16);
    RecordFields(file, at);
  }

  lemma RecordFields(file: seq<byte>, at: nat)
    requires at + 16 <= |file|
    ensures var d := file[at..at + 16];
            && U64(d[..8]) == LeAt(file, at, 8) && U32(d[8..12]) == LeAt(file, at + 8, 4) && U32(d[12..16]) == LeAt(file, at + 12, 4)
            && U64(d[8..16]) == LeAt(file, at + 8, 8) && LeAt(file, at + 8, 4) < 0x1_0000_0000
  {
    hide LeAt, U32, U64;
    Field(file, at, 16, 0, 8);
    Field(file, at, 16, 8, 12);
    Field(file, at, 16, 12, 16);
    Field(file, at, 16, 8, 16);
    Number8(file, at);
    Number4(file, at + 8);
    Number4(file, at + 12);
    Number8(file, at + 8);
  }

  lemma {:induction false} Ranges32Read(file: seq<byte>, e: Entry, i: nat, count: nat, captured: nat)
    requires EntryInside(file, e) && i <= count <= 65536 && 4 + 16 * count <= e.dataSize
    requires e.rva < 0x1_0000_0000 && e.dataSize < 0x1_0000_0000
    requires captured <= i * 0x1_0000_0000
    ensures var r, at := Ranges32(file, e, i, count, captured), e.rva + 4;
            && (r.Fine? <==> forall k :: i <= k < count ==>
                               VirtualGood(file, at, k, 4) && LeAt(file, at + 16 * k + 12, 4) + SizeAt(file, at, k, 4) <= |file|)
            && (r.Fine? ==> r.value == captured + SizesFrom(file, at, i, count, 4))
    decreases count - i
  {
    hide LeAt, U32, U64, RecordOffset, ReadExact, CheckedAdd, EnsureRange;
    if i < count {
      var at := e.rva + 4;
      MemoryRecord(file, e, 4, i, count);
      var size, rva, va := LeAt(file, at + 16 * i + 8, 4), LeAt(file, at + 16 * i + 12, 4), LeAt(file, at + 16 * i, 8);
      assert size == SizeAt(file, at, i, 4) < 0x1_0000_0000;
      assert rva < 0x1_0000_0000 by { Number4(file, at + 16 * i + 12); }
      SmallRange(file, rva, size);
      Sum64(va, size);
      assert captured + size <= (i + 1) * 0x1_0000_0000 <= 65536 * 0x1_0000_0000;
      Sum64(captured, size);
      Ranges32Read(file, e, i + 1, count, captured + size);
    }
  }

  lemma SmallRange(file: seq<byte>, rva: nat, size: nat)
    requires rva < 0x1_0000_0000 && size < 0x1_0000_0000
    ensures EnsureRange(file, rva, size).Fine? <==> rva + size <= |file|
  {}

  lemma Sum64(a: nat, b: nat)
    ensures CheckedAdd(a, b) == if a + b <= UINT64_MAX then Fine(a + b) else Failed(Overflow)
  {}

  /** A short prefix of a stream. */
  lemma StreamHead(file: seq<byte>, e: Entry, n: nat)
    requires EntryInside(file, e) && 0 < n <= e.dataSize && n <= 65536 && e.rva < 0x1_0000_0000
    ensures e.rva + n <= |file| && ReadExact(file, e.rva, n) == Fine(file[e.rva..e.rva + n])
  {
    Readable(file, e.rva, n);
  }

  lemma MemoryListRead(file: seq<byte>, e: Entry)
    requires EntryInside(file, e) && e.rva < 0x1_0000_0000 && e.dataSize < 0x1_0000_0000
    ensures var r := InspectMemoryList(file, e);
            && (r.Fine? <==> MemoryGood(file, e))
            && (r.Fine? ==> r.value == Memory(SizesFrom(file, e.rva + 4, 0, Count32At(file, e), 4), Count32At(file, e)))
  {
    hide LeAt, U32, ReadExact, RequireList, Ranges32, VirtualGood, SizeAt;
    if e.dataSize >= 4 {
      StreamHead(file, e, 4);
      Number4(file, e.rva);
      var count := LeAt(file, e.rva, 4);
      if count <= 65536 {
        ListFits(e, 4, count, 16);
        if 4 + 16 * count <= e.dataSize { Ranges32Read(file, e, 0, count, 0); }
      }
    }
  }

  /** Sixty-four bit sizes: the running total overflows when the whole does. */
  lemma {:induction false} Ranges64Read(file: seq<byte>, e: Entry, i: nat, count: nat, captured: nat)
    requires EntryInside(file, e) && i <= count <= 65536 && 16 + 16 * count <= e.dataSize
    requires e.rva < 0x1_0000_0000 && e.dataSize < 0x1_0000_0000
    ensures var r, at := Ranges64(file, e, i, count, captured), e.rva + 16;
            var total := captured + SizesFrom(file, at, i, count, 8);
            && (r.Fine? ==> r.value == total)
            && (captured <= UINT64_MAX ==>
                  (r.Fine? <==> total <= UINT64_MAX && forall k :: i <= k < count ==> VirtualGood(file, at, k, 8)))
    decreases count - i
  {
    hide LeAt, U32, U64, RecordOffset, ReadExact, CheckedAdd, EnsureRange;
    if i < count {
      var at := e.rva + 16;
      MemoryRecord(file, e, 16, i, count);
      var size, va := LeAt(file, at + 16 * i + 8, 8), LeAt(file, at + 16 * i, 8);
      assert size == SizeAt(file, at, i, 8);
      assert VirtualGood(file, at, i, 8) <==> va + size <= UINT64_MAX;
      Sum64(va, size);
      Sum64(captured, size);
      Ranges64Read(file, e, i + 1, count, captured + size);
      var rest := SizesFrom(file, at, i + 1, count, 8);
      assert SizesFrom(file, at, i, count, 8) == size + rest;
      if va + size <= UINT64_MAX && captured + size <= UINT64_MAX {
        assert Ranges64(file, e, i, count, captured) == Ranges64(file, e, i + 1, count, captured + size);
      } else {
        assert Ranges64(file, e, i, count, captured).Failed?;
      }
    }
  }

  lemma Memory64ListRead(file: seq<byte>, e: Entry)
    requires EntryInside(file, e) && e.rva < 0x1_0000_0000 && e.dataSize < 0x1_0000_0000
    ensures var r := InspectMemory64List(file, e);
            && (r.Fine? <==> Memory64Good(file, e))
            && (r.Fine? ==> r.value == Memory(SizesFrom(file, e.rva + 16, 0, Count64At(file, e), 8), Count64At(file, e)))
  {
    hide LeAt, U64, ReadExact, RequireList, Ranges64, VirtualGood, SizeAt, EnsureRange, SizesFrom;
    if e.dataSize >= 16 {
      StreamHead(file, e, 16);
      Field(file, e.rva, 16, 0, 8);
      Field(file, e.rva, 16, 8, 16);
      Number8(file, e.rva);
      Number8(file, e.rva + 8);
      var count, base := LeAt(file, e.rva, 8), LeAt(file, e.rva + 8, 8);
      assert file[e.rva..e.rva + 16][..8] == file[e.rva..e.rva + 8];
      if count <= 65536 {
        ListFits(e, 16, count, 16);
        if 16 + 16 * count <= e.dataSize {
          Ranges64Read(file, e, 0, count, 0);
          WideRange(file, base, SizesFrom(file, e.rva + 16, 0, count, 8));
        }
      }
    }
  }

  lemma WideRange(file: seq<byte>, base: nat, size: nat)
    ensures EnsureRange(file, base, size).Fine? <==> base + size <= UINT64_MAX && base + size <= |file|
  {}

  lemma InfoRead(file: seq<byte>, e: Entry)
    requires EntryInside(file, e) && e.rva < 0x1_0000_0000 && e.dataSize < 0x1_0000_0000
    ensures InspectMemoryInfo(file, e).Fine? <==> InfoGood(file, e)
  {
    hide LeAt, U64, U32, ReadExact, RequireList;
    if e.dataSize >= 16 {
      StreamHead(file, e, 16);
      Field(file, e.rva, 16, 0, 4);
      Field(file, e.rva, 16, 4, 8);
      Field(file, e.rva, 16, 8, 16);
      Number4(file, e.rva);
      Number4(file, e.rva + 4);
      Number8(file, e.rva + 8);
      var headerSize, entrySize, count := LeAt(file, e.rva, 4), LeAt(file, e.rva + 4, 4), LeAt(file, e.rva + 8, 8);
      assert file[e.rva..e.rva + 16][..4] == file[e.rva..e.rva + 4];
      var h := file[e.rva..e.rva + 16];
      assert U32(h[..4]) == headerSize && U32(h[4..8]) == entrySize && U64(h[8..16]) == count;
      if headerSize >= 16 && entrySize >= 48 && count <= 65536 {
        ListFits(e, headerSize, count, entrySize);
        assert InspectMemoryInfo(file, e) == RequireList(e, headerSize, count, entrySize);
      }
    }
  }

  lemma SystemRead(file: seq<byte>, e: Entry)
    requires EntryInside(file, e) && e.rva < 0x1_0000_0000 && e.dataSize < 0x1_0000_0000
    ensures var r := InspectArchitecture(file, e);
            && (r.Fine? <==> SystemGood(file, e))
            && (r.Fine? ==>
                  var code := LeAt(file, e.rva, 2);
                  r.value == if code == 0 then Some("x86") else if code == 5 then Some("arm") else if code == 6 then Some("ia64")
                             else if code == 9 then Some("x86_64") else if code == 12 then Some("arm64") else None)
  {
    hide LeAt, U16, ReadExact;
    if e.dataSize >= 56 {
      StreamHead(file, e, 2);
      Number2(file, e.rva);
    }
  }

  lemma ExceptionRead(file: seq<byte>, e: Entry)
    requires EntryInside(file, e) && e.rva < 0x1_0000_0000 && e.dataSize < 0x1_0000_0000
    ensures var r := InspectException(file, e);
            && (r.Fine? <==> ExceptionGood(file, e))
            && (r.Fine? ==> r.value == Exception(LeAt(file, e.rva + 8, 4), LeAt(file, e.rva + 24, 8)))
  {
    hide LeAt, U32, U64, ReadExact;
    if e.dataSize >= 160 {
      StreamHead(file, e, 36);
      Field(file, e.rva, 36, 8, 12);
      Field(file, e.rva, 36, 24, 32);
      Field(file, e.rva, 36, 32, 36);
      Number4(file, e.rva + 8);
      Number8(file, e.rva + 24);
      Number4(file, e.rva + 32);
    }
  }

  // ---- modules ----

  /** The name a record points at, as UTF-16 code units. */
  predicate NameIs(file: seq<byte>, d: nat, name: Option<seq<nat>>)
    requires d + 108 <= |file| && NameGood(file, d)
  {
    var rva := LeAt(file, d + 20, 4);
    if rva == 0 then name == None
    else
      && name.Some? && 2 * |name.value| == LeAt(file, rva, 4)
      && forall k :: 0 <= k < |name.value| ==> name.value[k] == LeAt(file, rva + 4 + 2 * k, 2)
  }

  /** What a name costs. */
  function NameCost(file: seq<byte>, d: nat): nat
    requires d + 108 <= |file| && NameGood(file, d)
  {
    var rva := LeAt(file, d + 20, 4);
    if rva == 0 then 0 else 3 * LeAt(file, rva, 4)
  }

  lemma StringRead(file: seq<byte>, rva: nat, budget: nat)
    requires rva < 0x1_0000_0000
    ensures var r := ReadString(file, rva, budget);
            var good := rva + 4 <= |file| && LeAt(file, rva, 4) <= 65536 && LeAt(file, rva, 4) % 2 == 0 && rva + 4 + LeAt(file, rva, 4) <= |file|;
            && (r.Fine? <==> good && 3 * LeAt(file, rva, 4) <= budget)
            && (r.Fine? ==>
                  && r.value.left == budget - 3 * LeAt(file, rva, 4) && 2 * |r.value.value| == LeAt(file, rva, 4)
                  && forall k :: 0 <= k < |r.value.value| ==> r.value.value[k] == LeAt(file, rva + 4 + 2 * k, 2))
  {
    hide LeAt, U32, ReadExact, Units;
    Readable(file, rva, 4);
    if rva + 4 <= |file| {
      Number4(file, rva);
      var length := LeAt(file, rva, 4);
      if length <= 65536 {
        Readable(file, rva + 4, length);
        if rva + 4 + length <= |file| && length % 2 == 0 { UnitsRead(file, rva + 4, length); }
      }
    }
  }

  lemma UnitsRead(file: seq<byte>, at: nat, length: nat)
    requires at + length <= |file| && length % 2 == 0
    ensures var u := Units(file[at..at + length]);
            2 * |u| == length && forall k :: 0 <= k < |u| ==> u[k] == LeAt(file, at + 2 * k, 2)
  {
    hide LeAt;
    var b := file[at..at + length];
    forall k | 0 <= k < |Units(b)| ensures Units(b)[k] == LeAt(file, at + 2 * k, 2) {
      Number2(file, at + 2 * k);
      assert b[2 * k] == file[at + 2 * k] && b[2 * k + 1] == file[at + 2 * k + 1];
    }
  }

  predicate Separates(u: nat) {
    u == 0x2f || u == 0x5c
  }

  /** The units from `i` to `j` are the last non-empty segment of a path: separators alone follow it, and one precedes it. */
  predicate LastSegment(units: seq<nat>, i: nat, j: nat) {
    && i <= j <= |units|
    && (forall k :: j <= k < |units| ==> Separates(units[k])) && (j > 0 ==> !Separates(units[j - 1]))
    && (forall k :: i <= k < j ==> !Separates(units[k])) && (i > 0 ==> Separates(units[i - 1]))
  }

  lemma {:induction false} TailIs(units: seq<nat>) returns (i: nat)
    ensures i <= |units| && Tail(units) == units[i..]
    ensures (forall k :: i <= k < |units| ==> !Separates(units[k])) && (i > 0 ==> Separates(units[i - 1]))
  {
    i := |units|;
    if units != [] && !IsSeparator(units[|units| - 1]) {
      var before := units[..|units| - 1];
      i := TailIs(before);
      assert units[i..] == before[i..] + [units[|units| - 1]];
    }
  }

  lemma {:induction false} TrimIs(units: seq<nat>) returns (j: nat)
    ensures j <= |units| && TrimSeparators(units) == units[..j]
    ensures (forall k :: j <= k < |units| ==> Separates(units[k])) && (j > 0 ==> !Separates(units[j - 1]))
  {
    j := |units|;
    if units != [] && IsSeparator(units[|units| - 1]) {
      j := TrimIs(units[..|units| - 1]);
    }
  }

  lemma FileNameIs(units: seq<nat>) returns (i: nat, j: nat)
    ensures LastSegment(units, i, j) && FileName(units) == units[i..j]
  {
    j := TrimIs(units);
    i := TailIs(units[..j]);
  }

  lemma OneSegment(units: seq<nat>, i: nat, j: nat, m: nat, n: nat)
    requires LastSegment(units, i, j) && LastSegment(units, m, n)
    ensures i == m && j == n
  {}

  /** An RSDS record up to its NUL at `end`, whose path decodes to units without control characters. */
  predicate RsdsPath(decode: Decoder, b: seq<byte>, end: nat, units: seq<nat>) {
    && 25 <= |b| && b[..4] == [0x52, 0x53, 0x44, 0x53] && 24 <= end < |b| && b[end] == 0
    && (forall k :: 24 <= k < end ==> b[k] != 0) && decode(b[24..end]) == Some(units)
    && forall k :: 0 <= k < |units| ==> units[k] > 0x1f && units[k] != 0x7f
  }

  /** The record names this PDB: the last segment of its path, at most 255 characters and no dot directory, with its GUID and age. */
  ghost predicate Names(decode: Decoder, b: seq<byte>, debug: Debug) {
    exists end, units, i, j ::
      && RsdsPath(decode, b, end, units) && LastSegment(units, i, j) && debug.file == units[i..j]
      && debug.file != [] && CodePoints(debug.file) <= 255 && debug.file != [0x2e] && debug.file != [0x2e, 0x2e]
      && debug.id == DebugId(b[4..20], LeAt(b, 20, 4))
  }

  /** None exactly when the record names nothing. */
  ghost predicate RsdsIs(decode: Decoder, b: seq<byte>, debug: Option<Debug>) {
    if debug.Some? then Names(decode, b, debug.value) else forall x :: !Names(decode, b, x)
  }

  lemma {:induction false} NulFound(b: seq<byte>, from: nat)
    ensures var r := IndexOfNul(b, from);
            && (r.Some? ==> from <= r.value < |b| && b[r.value] == 0 && forall k :: from <= k < r.value ==> b[k] != 0)
            && (r.None? ==> forall k :: from <= k < |b| ==> b[k] != 0)
    decreases |b| - from
  {
    if from < |b| && b[from] != 0 { NulFound(b, from + 1); }
  }

  lemma SameNul(b: seq<byte>, end: nat, other: nat)
    requires 24 <= end < |b| && b[end] == 0 && forall k :: 24 <= k < end ==> b[k] != 0
    requires 24 <= other < |b| && b[other] == 0 && forall k :: 24 <= k < other ==> b[k] != 0
    ensures end == other
  {}

  /** The record's identity is the one it names, if any. */
  lemma RsdsRead(decode: Decoder, b: seq<byte>)
    ensures RsdsIs(decode, b, ParseRsds(decode, b))
  {
    hide LeAt, U32, DebugId, FileName, CodePoints;
    NulFound(b, 24);
    var r := ParseRsds(decode, b);
    if |b| >= 25 { Number4(b, 20); }
    if |b| >= 25 && b[..4] == [0x52, 0x53, 0x44, 0x53] && IndexOfNul(b, 24).Some? {
      var end := IndexOfNul(b, 24).value;
      var path := decode(b[24..end]);
      forall e, u | RsdsPath(decode, b, e, u) ensures e == end && Some(u) == path {
        SameNul(b, end, e);
      }
      if path.Some? && RsdsPath(decode, b, end, path.value) {
        var i, j := FileNameIs(path.value);
        forall x | Names(decode, b, x) ensures x.file == FileName(path.value) && UsableName(x.file) {
          var e, u, m, n :| RsdsPath(decode, b, e, u) && LastSegment(u, m, n) && x.file == u[m..n]
                            && x.file != [] && CodePoints(x.file) <= 255 && x.file != [0x2e] && x.file != [0x2e, 0x2e];
          OneSegment(path.value, i, j, m, n);
        }
      }
    }
  }

  /** The PDB a module record links to: what the first 64 KiB of its CodeView record name. */
  ghost predicate DebugIs(file: seq<byte>, decode: Decoder, d: nat, debug: Option<Debug>)
    requires d + 108 <= |file|
  {
    var size, rva := LeAt(file, d + 76, 4), LeAt(file, d + 80, 4);
    var n := if size < 65536 then size else 65536;
    if rva == 0 || size == 0 || rva + n > |file| then debug == None else RsdsIs(decode, file[rva..rva + n], debug)
  }

  function DebugCost(file: seq<byte>, d: nat): nat
    requires d + 108 <= |file|
  {
    var size, rva := LeAt(file, d + 76, 4), LeAt(file, d + 80, 4);
    if rva == 0 then 0 else if size > 65536 then 6 * 65536 else 6 * size
  }

  ghost predicate ModuleIs(file: seq<byte>, decode: Decoder, d: nat, m: Module) {
    && d + 108 <= |file| && NameGood(file, d)
    && m.base == LeAt(file, d, 8) && m.size == LeAt(file, d + 8, 4) && m.timestamp == LeAt(file, d + 16, 4)
    && NameIs(file, d, m.name) && DebugIs(file, decode, d, m.debug)
  }

  lemma CodeViewRead(file: seq<byte>, decode: Decoder, d: nat, budget: nat)
    requires d + 108 <= |file|
    ensures var r := ReadCodeView(file, decode, file[d..d + 108], budget);
            && (r.Fine? <==> DebugCost(file, d) <= budget)
            && (r.Fine? ==> r.value.left == budget - DebugCost(file, d) && DebugIs(file, decode, d, r.value.value))
  {
    hide LeAt, U32, ReadExact, ParseRsds, RsdsIs;
    Field(file, d, 108, 76, 80);
    Field(file, d, 108, 80, 84);
    Number4(file, d + 76);
    Number4(file, d + 80);
    var size, rva := LeAt(file, d + 76, 4), LeAt(file, d + 80, 4);
    var n := if size < 65536 then size else 65536;
    Readable(file, rva, n);
    if rva + n <= |file| { RsdsRead(decode, file[rva..rva + n]); }
  }

  lemma ModuleFields(file: seq<byte>, d: nat)
    requires d + 108 <= |file|
    ensures var b := file[d..d + 108];
            && U32(b[20..24]) == LeAt(file, d + 20, 4) && U64(b[..8]) == LeAt(file, d, 8) && U32(b[8..12]) == LeAt(file, d + 8, 4)
            && U32(b[16..20]) == LeAt(file, d + 16, 4) && LeAt(file, d + 20, 4) < 0x1_0000_0000
  {
    hide LeAt, U32, U64;
    Field(file, d, 108, 20, 24);
    Field(file, d, 108, 0, 8);
    Field(file, d, 108, 8, 12);
    Field(file, d, 108, 16, 20);
    Number4(file, d + 20);
    Number8(file, d);
    Number4(file, d + 8);
    Number4(file, d + 16);
  }

  lemma ModuleRead(file: seq<byte>, decode: Decoder, e: Entry, i: nat, count: nat, budget: nat)
    requires EntryInside(file, e) && i < count <= 4096 && 4 + 108 * count <= e.dataSize
    requires e.rva < 0x1_0000_0000 && e.dataSize < 0x1_0000_0000
    ensures var r, d := ReadModule(file, decode, e, i, budget), e.rva + 4 + 108 * i;
            && d + 108 <= |file|
            && (r.Fine? <==> NameGood(file, d) && ModuleCost(file, d) <= budget)
            && (r.Fine? ==> r.value.left == budget - ModuleCost(file, d) && ModuleIs(file, decode, d, r.value.value))
  {
    hide LeAt, U32, U64, ReadExact, RecordOffset, ReadString, ReadCodeView, DebugIs;
    var d := e.rva + 4 + 108 * i;
    Offset(e, 4, i, 108);
    Readable(file, d, 108);
    ModuleFields(file, d);
    var nameRva := LeAt(file, d + 20, 4);
    if nameRva != 0 { StringRead(file, nameRva, budget); }
    if NameGood(file, d) && NameCost(file, d) <= budget {
      CodeViewRead(file, decode, d, budget - NameCost(file, d));
      assert ModuleCost(file, d) == NameCost(file, d) + DebugCost(file, d);
    }
  }

  lemma {:induction false} ModulesRead(file: seq<byte>, decode: Decoder, e: Entry, i: nat, count: nat, budget: nat)
    requires EntryInside(file, e) && i <= count <= 4096 && 4 + 108 * count <= e.dataSize
    requires e.rva < 0x1_0000_0000 && e.dataSize < 0x1_0000_0000
    ensures var r, at := ReadModules(file, decode, e, i, count, budget), e.rva + 4;
            && (r.Fine? <==> NamesGood(file, at, i, count) && CostFrom(file, at, i, count) <= budget)
            && (r.Fine? ==> |r.value.value| == count - i &&
                            forall k :: 0 <= k < count - i ==> ModuleIs(file, decode, at + 108 * (i + k), r.value.value[k]))
    decreases count - i
  {
    hide LeAt, ReadModule, NameGood, ModuleCost, ModuleIs;
    if i < count {
      ModuleRead(file, decode, e, i, count, budget);
      var first := ReadModule(file, decode, e, i, budget);
      if first.Fine? {
        ModulesRead(file, decode, e, i + 1, count, first.value.left);
        var rest := ReadModules(file, decode, e, i + 1, count, first.value.left);
        if rest.Fine? {
          var all := [first.value.value] + rest.value.value;
          forall k | 0 <= k < count - i ensures ModuleIs(file, decode, e.rva + 4 + 108 * (i + k), all[k]) {
            if k > 0 { assert ModuleIs(file, decode, e.rva + 4 + 108 * (i + 1 + (k - 1)), rest.value.value[k - 1]); }
          }
        }
      }
    }
  }

  lemma ModuleListRead(file: seq<byte>, decode: Decoder, e: Entry)
    requires EntryInside(file, e) && e.rva < 0x1_0000_0000 && e.dataSize < 0x1_0000_0000
    ensures var r := InspectModules(file, decode, e);
            && (r.Fine? <==> ModulesGood(file, e))
            && (r.Fine? ==> |r.value| == ModuleCount(file, e) &&
                            forall k :: 0 <= k < |r.value| ==> ModuleIs(file, decode, e.rva + 4 + 108 * k, r.value[k]))
  {
    hide LeAt, U32, ReadExact, RequireList, ReadModules, NameGood, CostFrom, ModuleIs;
    if e.dataSize >= 4 {
      StreamHead(file, e, 4);
      Number4(file, e.rva);
      var count := LeAt(file, e.rva, 4);
      if count <= 4096 {
        ListFits(e, 4, count, 108);
        if 4 + 108 * count <= e.dataSize && 256 * count <= BUDGET {
          ModulesRead(file, decode, e, 0, count, BUDGET - 256 * count);
        }
      }
    }
  }

  // ---- the whole file ----

  /** What the found memory lists capture is what the whole directory captures. */
  function PartOf(file: seq<byte>, e: Option<Entry>): nat {
    if e.Some? then CapturedIn(file, e.value) else 0
  }

  function RangesOf(file: seq<byte>, e: Option<Entry>): nat {
    if e.Some? then RangesIn(file, e.value) else 0
  }

  lemma FirstFound(file: seq<byte>, k: nat, kind: nat)
    requires DirectoryGood(file) && k < StreamCount(file)
    ensures FindEntry(EntriesFrom(file, k), kind) ==
            if StreamAt(file, k).kind == kind then Some(StreamAt(file, k)) else FindEntry(EntriesFrom(file, k + 1), kind)
    ensures StreamAt(file, k).kind == kind && kind in CRITICAL ==> FindEntry(EntriesFrom(file, k + 1), kind) == None
  {
    hide StreamAt, EntryInside;
    assert EntriesFrom(file, k)[1..] == EntriesFrom(file, k + 1);
    Found(file, k + 1, kind);
  }

  lemma {:induction false} TotalsFound(file: seq<byte>, k: nat)
    requires DirectoryGood(file) && k <= StreamCount(file)
    ensures var list, list64 := FindEntry(EntriesFrom(file, k), 5), FindEntry(EntriesFrom(file, k), 9);
            && CapturedFrom(file, k) == PartOf(file, list) + PartOf(file, list64)
            && RangesFrom(file, k) == RangesOf(file, list) + RangesOf(file, list64)
    decreases StreamCount(file) - k
  {
    if k < StreamCount(file) {
      hide StreamAt, EntryInside, SizesFrom, Count32At, Count64At, EntriesFrom, FindEntry, DirectoryGood, CapturedIn, RangesIn;
      TotalsFound(file, k + 1);
      FirstFound(file, k, 5);
      FirstFound(file, k, 9);
      OtherAddsNothing(file, StreamAt(file, k));
    }
  }

  lemma OtherAddsNothing(file: seq<byte>, e: Entry)
    ensures e.kind != 5 && e.kind != 9 ==> CapturedIn(file, e) == 0 && RangesIn(file, e) == 0
  {}

  /** All streams are good when those that are looked at are. */
  lemma StreamsGood(file: seq<byte>)
    requires DirectoryGood(file)
    ensures (forall k :: 0 <= k < StreamCount(file) ==> StreamGood(file, StreamAt(file, k))) <==>
            && (forall e :: Listed(file, 4, e) ==> ModulesGood(file, e)) && (forall e :: Listed(file, 5, e) ==> MemoryGood(file, e))
            && (forall e :: Listed(file, 6, e) ==> ExceptionGood(file, e)) && (forall e :: Listed(file, 7, e) ==> SystemGood(file, e))
            && (forall e :: Listed(file, 9, e) ==> Memory64Good(file, e)) && (forall e :: Listed(file, 16, e) ==> InfoGood(file, e))
  {
    hide StreamAt, ModulesGood, MemoryGood, ExceptionGood, SystemGood, Memory64Good, InfoGood, EntryInside;
    forall k | 0 <= k < StreamCount(file) ensures Listed(file, StreamAt(file, k).kind, StreamAt(file, k)) {}
  }

  predicate ArchitectureIs(file: seq<byte>, e: Entry, name: Option<string>) {
    && SystemGood(file, e)
    && var code := LeAt(file, e.rva, 2);
       name == if code == 0 then Some("x86") else if code == 5 then Some("arm") else if code == 6 then Some("ia64")
               else if code == 9 then Some("x86_64") else if code == 12 then Some("arm64") else None
  }

  predicate ExceptionIs(file: seq<byte>, e: Entry, found: Option<Exception>) {
    ExceptionGood(file, e) && found == Some(Exception(LeAt(file, e.rva + 8, 4), LeAt(file, e.rva + 24, 8)))
  }

  ghost predicate ModulesAre(file: seq<byte>, decode: Decoder, e: Entry, found: Option<seq<Module>>) {
    && ModulesGood(file, e) && found.Some? && |found.value| == ModuleCount(file, e)
    && forall k :: 0 <= k < |found.value| ==> ModuleIs(file, decode, e.rva + 4 + 108 * k, found.value[k])
  }

  /** The facts the header, the directory and the streams declare. */
  ghost predicate FactsAre(file: seq<byte>, decode: Decoder, f: Facts)
    requires DirectoryInside(file)
  {
    && f.flags == LeAt(file, 24, 8)
    && (f.hasMemoryList <==> exists e :: Listed(file, 5, e)) && (f.hasMemory64List <==> exists e :: Listed(file, 9, e))
    && f.coverage == (if f.flags / 2 % 2 == 1 then FullMemoryDeclared else if f.hasMemoryList || f.hasMemory64List then Partial else UnknownCoverage)
    && f.captured == CapturedFrom(file, 0) && f.ranges == RangesFrom(file, 0)
    && (forall e :: Listed(file, 7, e) ==> ArchitectureIs(file, e, f.architecture))
    && (forall e :: Listed(file, 6, e) ==> ExceptionIs(file, e, f.exception))
    && (forall e :: Listed(file, 4, e) ==> ModulesAre(file, decode, e, f.modules))
    && (f.architecture.Some? ==> exists e :: Listed(file, 7, e))
    && (f.exception.Some? ==> exists e :: Listed(file, 6, e))
    && (f.modules.Some? ==> exists e :: Listed(file, 4, e))
  }

  /** The pieces of an inspection, once the directory has been read. */
  lemma InspectionParts(file: seq<byte>, decode: Decoder, entries: seq<Entry>)
    requires |file| >= 32 && InspectDirectory(file) == Fine(Streams(LeAt(file, 24, 8), entries))
    ensures var list, list64, info := FindEntry(entries, 5), FindEntry(entries, 9), FindEntry(entries, 16);
            var system, exception, modules := FindEntry(entries, 7), FindEntry(entries, 6), FindEntry(entries, 4);
            var memory, memory64, r := MemoryOf(file, list, false), MemoryOf(file, list64, true), Inspect(file, decode);
            && (r.Fine? <==>
                  && (info.Some? ==> InspectMemoryInfo(file, info.value).Fine?) && memory.Fine? && memory64.Fine?
                  && memory.value.bytes + memory64.value.bytes <= UINT64_MAX
                  && (system.Some? ==> InspectArchitecture(file, system.value).Fine?)
                  && (exception.Some? ==> InspectException(file, exception.value).Fine?)
                  && (modules.Some? ==> InspectModules(file, decode, modules.value).Fine?))
            && (r.Fine? ==>
                  && r.value.flags == LeAt(file, 24, 8) && r.value.coverage == CoverageOf(r.value.flags, list.Some? || list64.Some?)
                  && r.value.captured == memory.value.bytes + memory64.value.bytes
                  && r.value.ranges == memory.value.ranges + memory64.value.ranges
                  && r.value.hasMemoryList == list.Some? && r.value.hasMemory64List == list64.Some?
                  && (if system.Some? then Fine(r.value.architecture) == InspectArchitecture(file, system.value) else r.value.architecture == None)
                  && (if exception.Some? then Present(InspectException(file, exception.value)) == Fine(r.value.exception) else r.value.exception == None)
                  && (if modules.Some? then Present(InspectModules(file, decode, modules.value)) == Fine(r.value.modules) else r.value.modules == None))
  {
    hide InspectDirectory, InspectMemoryInfo, MemoryOf, InspectArchitecture, InspectException, InspectModules, CoverageOf, LeAt, FindEntry;
  }

  lemma ListedMemory(file: seq<byte>)
    requires DirectoryGood(file)
    ensures var entries := EntriesFrom(file, 0);
            var list, list64 := FindEntry(entries, 5), FindEntry(entries, 9);
            var memory, memory64 := MemoryOf(file, list, false), MemoryOf(file, list64, true);
            && (memory.Fine? <==> forall e :: Listed(file, 5, e) ==> MemoryGood(file, e))
            && (memory64.Fine? <==> forall e :: Listed(file, 9, e) ==> Memory64Good(file, e))
            && (list.Some? <==> exists e :: Listed(file, 5, e)) && (list64.Some? <==> exists e :: Listed(file, 9, e))
            && (memory.Fine? && memory64.Fine? ==>
                  && memory.value.bytes + memory64.value.bytes == CapturedFrom(file, 0)
                  && memory.value.ranges + memory64.value.ranges == RangesFrom(file, 0))
  {
    assert DirectoryInside(file);
    hide DirectoryGood, Listed, InspectMemoryList, InspectMemory64List, MemoryGood, Memory64Good, EntryInside, EntriesFrom, FindEntry,
         SizesFrom, Count32At, Count64At;
    FoundIsListed(file, 5);
    FoundIsListed(file, 9);
    TotalsFound(file, 0);
    var list, list64 := FindEntry(EntriesFrom(file, 0), 5), FindEntry(EntriesFrom(file, 0), 9);
    if list.Some? { MemoryListRead(file, list.value); }
    if list64.Some? { Memory64ListRead(file, list64.value); }
  }

  lemma ListedInfo(file: seq<byte>)
    requires DirectoryGood(file)
    ensures var info := FindEntry(EntriesFrom(file, 0), 16);
            (info.Some? ==> InspectMemoryInfo(file, info.value).Fine?) <==> forall e :: Listed(file, 16, e) ==> InfoGood(file, e)
  {
    assert DirectoryInside(file);
    hide DirectoryGood, Listed, InspectMemoryInfo, InfoGood, EntryInside, EntriesFrom, FindEntry;
    FoundIsListed(file, 16);
    var info := FindEntry(EntriesFrom(file, 0), 16);
    if info.Some? { InfoRead(file, info.value); }
  }

  lemma ListedSystem(file: seq<byte>)
    requires DirectoryGood(file)
    ensures var system := FindEntry(EntriesFrom(file, 0), 7);
            && (system.Some? <==> exists e :: Listed(file, 7, e))
            && ((system.Some? ==> InspectArchitecture(file, system.value).Fine?) <==> forall e :: Listed(file, 7, e) ==> SystemGood(file, e))
            && (forall name :: system.Some? && InspectArchitecture(file, system.value) == Fine(name) ==>
                  forall e :: Listed(file, 7, e) ==> ArchitectureIs(file, e, name))
  {
    assert DirectoryInside(file);
    hide DirectoryGood, Listed, InspectArchitecture, EntryInside, EntriesFrom, FindEntry, LeAt;
    FoundIsListed(file, 7);
    var system := FindEntry(EntriesFrom(file, 0), 7);
    if system.Some? { SystemRead(file, system.value); }
  }

  lemma ListedException(file: seq<byte>)
    requires DirectoryGood(file)
    ensures var exception := FindEntry(EntriesFrom(file, 0), 6);
            && (exception.Some? <==> exists e :: Listed(file, 6, e))
            && ((exception.Some? ==> InspectException(file, exception.value).Fine?) <==> forall e :: Listed(file, 6, e) ==> ExceptionGood(file, e))
            && (forall found :: exception.Some? && InspectException(file, exception.value) == Fine(found) ==>
                  forall e :: Listed(file, 6, e) ==> ExceptionIs(file, e, Some(found)))
  {
    assert DirectoryInside(file);
    hide DirectoryGood, Listed, InspectException, EntryInside, EntriesFrom, FindEntry, LeAt;
    FoundIsListed(file, 6);
    var exception := FindEntry(EntriesFrom(file, 0), 6);
    if exception.Some? { ExceptionRead(file, exception.value); }
  }

  lemma ModulesFound(file: seq<byte>, decode: Decoder, e: Entry)
    requires EntryInside(file, e) && e.rva < 0x1_0000_0000 && e.dataSize < 0x1_0000_0000
    ensures var r := InspectModules(file, decode, e);
            (r.Fine? <==> ModulesGood(file, e)) && (r.Fine? ==> ModulesAre(file, decode, e, Some(r.value)))
  {
    hide InspectModules, EntryInside, ModulesGood, ModuleIs, LeAt;
    ModuleListRead(file, decode, e);
  }

  lemma ListedModules(file: seq<byte>, decode: Decoder)
    requires DirectoryGood(file)
    ensures var modules := FindEntry(EntriesFrom(file, 0), 4);
            && (modules.Some? <==> exists e :: Listed(file, 4, e))
            && ((modules.Some? ==> InspectModules(file, decode, modules.value).Fine?) <==> forall e :: Listed(file, 4, e) ==> ModulesGood(file, e))
            && (forall found :: modules.Some? && InspectModules(file, decode, modules.value) == Fine(found) ==>
                  forall e :: Listed(file, 4, e) ==> ModulesAre(file, decode, e, Some(found)))
  {
    assert DirectoryInside(file);
    hide DirectoryGood, Listed, InspectModules, EntryInside, EntriesFrom, FindEntry, ModulesGood, ModulesAre;
    FoundIsListed(file, 4);
    var modules := FindEntry(EntriesFrom(file, 0), 4);
    if modules.Some? { ModulesFound(file, decode, modules.value); }
  }

  lemma CoverageIs(flags: nat, captured: bool)
    ensures CoverageOf(flags, captured) == if flags / 2 % 2 == 1 then FullMemoryDeclared else if captured then Partial else UnknownCoverage
  {}

  /** For every byte sequence: the inspection succeeds exactly when the file is a well-formed minidump, that is, when nothing is
      wrong with its header, its directory or one of the streams it looks at; the facts are then the ones laid out. */
  lemma AcceptedExactly(file: seq<byte>, decode: Decoder)
    ensures Inspect(file, decode).Fine? <==> LaidOutDump(file)
    ensures LaidOutDump(file) ==> FactsAre(file, decode, Inspect(file, decode).value)
    ensures |file| >= 32 && file[..4] != SIGNATURE ==> Inspect(file, decode) == Failed(BadSignature)
    ensures |file| >= 32 && file[..4] == SIGNATURE && LeAt(file, 4, 2) != 0xa793 ==> Inspect(file, decode) == Failed(BadVersion)
  {
    hide InspectDirectory, InspectMemoryInfo, MemoryOf, InspectArchitecture, InspectException, InspectModules, CoverageOf, LeAt, FindEntry,
         EntriesFrom, DirectoryGood, StreamGood, StreamAt, Listed, ModulesAre, ExceptionIs, ArchitectureIs, CapturedFrom, RangesFrom,
         ModulesGood, MemoryGood, ExceptionGood, SystemGood, Memory64Good, InfoGood, Inspect;
    DirectoryRead(file);
    if InspectDirectory(file).Fine? {
      assert DirectoryInside(file) by { GoodIsInside(file); }
      InspectionParts(file, decode, EntriesFrom(file, 0));
      StreamsGood(file);
      ListedMemory(file);
      ListedInfo(file);
      ListedSystem(file);
      ListedException(file);
      ListedModules(file, decode);
      var r := Inspect(file, decode);
      if r.Fine? { CoverageIs(r.value.flags, r.value.hasMemoryList || r.value.hasMemory64List); }
    } else {
      DirectoryFails(file, decode);
    }
  }

  lemma GoodIsInside(file: seq<byte>)
    requires DirectoryGood(file)
    ensures DirectoryInside(file)
  {}

  lemma DirectoryFails(file: seq<byte>, decode: Decoder)
    requires InspectDirectory(file).Failed?
    ensures Inspect(file, decode) == Failed(InspectDirectory(file).kind)
  {
    hide InspectDirectory;
  }
}
