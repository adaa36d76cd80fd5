/** What an accepted minidump guarantees: exact captured totals inside the file, and serialized facts of bounded size. */
module MinidumpFacts {
  import opened Domain
  import opened Manifests
  import opened Msf
  import opened Minidump

  const MAX_FACTS := 4 * 1024 * 1024

  // ---- captured memory ----

  function DeclaredSize32(file: seq<byte>, e: Entry, index: nat): nat {
    var offset := e.rva + 4 + 16 * index;
    if offset + 16 <= |file| then U32(file[offset + 8..offset + 12]) else 0
  }

  predicate PayloadInside32(file: seq<byte>, e: Entry, index: nat) {
    var offset := e.rva + 4 + 16 * index;
    offset + 16 <= |file| && U32(file[offset + 12..offset + 16]) + U32(file[offset + 8..offset + 12]) <= |file|
  }

  function DeclaredSize64(file: seq<byte>, e: Entry, index: nat): nat {
    var offset := e.rva + 16 + 16 * index;
    if offset + 16 <= |file| then U64(file[offset + 8..offset + 16]) else 0
  }

  /** The declared sizes of the records `from` to `to`. */
  function Total32(file: seq<byte>, e: Entry, from: nat, to: nat): nat
    decreases to - from
  {
    if from >= to then 0 else DeclaredSize32(file, e, from) + Total32(file, e, from + 1, to)
  }

  function Total64(file: seq<byte>, e: Entry, from: nat, to: nat): nat
    decreases to - from
  {
    if from >= to then 0 else DeclaredSize64(file, e, from) + Total64(file, e, from + 1, to)
  }

  function Count32(file: seq<byte>, e: Entry): nat {
    if e.rva + 4 <= |file| then U32(file[e.rva..e.rva + 4]) else 0
  }

  function Count64(file: seq<byte>, e: Entry): nat {
    if e.rva + 16 <= |file| then U64(file[e.rva..e.rva + 16][..8]) else 0
  }

  /** Where the Memory64 payload starts: all ranges follow it back to back. */
  function Base64(file: seq<byte>, e: Entry): nat {
    if e.rva + 16 <= |file| then U64(file[e.rva..e.rva + 16][8..]) else 0
  }

  /** The payload of a 64-bit range: behind the payloads of the ranges before it. */
  predicate PayloadInside64(file: seq<byte>, e: Entry, index: nat) {
    && e.rva + 16 + 16 * index + 16 <= |file|
    && Base64(file, e) + Total64(file, e, 0, index) + DeclaredSize64(file, e, index) <= |file|
  }

  lemma RecordParts(file: seq<byte>, offset: nat, i: nat, j: nat)
    requires offset + 16 <= |file| && i <= j <= 16
    ensures file[offset..offset + 16][i..j] == file[offset + i..offset + j]
  {
    var record := file[offset..offset + 16];
    var a, b := record[i..j], file[offset + i..offset + j];
    forall k | 0 <= k < |a| ensures a[k] == b[k] {
      assert record[i + k] == file[offset + i + k];
    }
  }

  lemma OffsetOf(e: Entry, header: nat, index: nat)
    ensures var r := RecordOffset(e, header, index, 16);
            r.Fine? ==> r.value == e.rva + header + 16 * index
  {}

  lemma {:induction false} Ranges32Add(file: seq<byte>, e: Entry, index: nat, count: nat, captured: nat)
    requires index <= count && Ranges32(file, e, index, count, captured).Fine?
    ensures Ranges32(file, e, index, count, captured).value == captured + Total32(file, e, index, count)
    ensures captured <= UINT64_MAX ==> Ranges32(file, e, index, count, captured).value <= UINT64_MAX
    ensures forall i :: index <= i < count ==> PayloadInside32(file, e, i)
    decreases count - index
  {
    hide U32, U64, RecordOffset;
    if index < count {
      OffsetOf(e, 4, index);
      var offset := RecordOffset(e, 4, index, 16).value;
      RecordParts(file, offset, 8, 12);
      RecordParts(file, offset, 12, 16);
      Ranges32Add(file, e, index + 1, count, captured + DeclaredSize32(file, e, index));
    }
  }

  lemma {:induction false} Ranges64Add(file: seq<byte>, e: Entry, index: nat, count: nat, captured: nat)
    requires index <= count && Ranges64(file, e, index, count, captured).Fine?
    ensures Ranges64(file, e, index, count, captured).value == captured + Total64(file, e, index, count)
    ensures captured <= UINT64_MAX ==> Ranges64(file, e, index, count, captured).value <= UINT64_MAX
    ensures forall i :: index <= i < count ==> e.rva + 16 + 16 * i + 16 <= |file|
    decreases count - index
  {
    hide U32, U64, RecordOffset;
    if index < count {
      OffsetOf(e, 16, index);
      var offset := RecordOffset(e, 16, index, 16).value;
      RecordParts(file, offset, 8, 16);
      Ranges64Add(file, e, index + 1, count, captured + DeclaredSize64(file, e, index));
    }
  }

  function ListTotal(file: seq<byte>, list: Option<Entry>, wide: bool): nat {
    if list.None? then 0
    else if wide then Total64(file, list.value, 0, Count64(file, list.value))
    else Total32(file, list.value, 0, Count32(file, list.value))
  }

  lemma MemoryAdds(file: seq<byte>, list: Option<Entry>, wide: bool)
    requires MemoryOf(file, list, wide).Fine?
    ensures MemoryOf(file, list, wide).value.bytes == ListTotal(file, list, wide) <= UINT64_MAX
    ensures list.Some? && !wide ==> forall i :: 0 <= i < Count32(file, list.value) ==> PayloadInside32(file, list.value, i)
    ensures list.Some? && wide ==> Base64(file, list.value) + ListTotal(file, list, wide) <= |file|
    ensures list.Some? && wide ==> forall i :: 0 <= i < Count64(file, list.value) ==> list.value.rva + 16 + 16 * i + 16 <= |file|
  {
    hide U32, U64, RecordOffset, RequireList, Ranges32, Ranges64, PayloadInside32;
    if list.Some? {
      var e := list.value;
      if wide {
        var header := file[e.rva..e.rva + 16];
        assert header[8..16] == header[8..];
        Ranges64Add(file, e, 0, U64(header[..8]), 0);
      } else {
        Ranges32Add(file, e, 0, U32(file[e.rva..e.rva + 4]), 0);
      }
    }
  }

  /** If the inspector accepts, the captured total is the sum of every size the two memory lists declare, below 2^64;
      every payload of the memory list lies inside the file, and so does every payload of the 64-bit list, each behind the
      ones before it. */
  lemma CapturedIsExact(file: seq<byte>, decode: Decoder)
    requires Inspect(file, decode).Fine?
    ensures InspectDirectory(file).Fine?
    ensures var entries := InspectDirectory(file).value.entries;
            var list, list64 := FindEntry(entries, 5), FindEntry(entries, 9);
            && Inspect(file, decode).value.captured == ListTotal(file, list, false) + ListTotal(file, list64, true) <= UINT64_MAX
            && (list.Some? ==> forall i :: 0 <= i < Count32(file, list.value) ==> PayloadInside32(file, list.value, i))
            && (list64.Some? ==> Base64(file, list64.value) + ListTotal(file, list64, true) <= |file|)
            && (list64.Some? ==> forall i :: 0 <= i < Count64(file, list64.value) ==> PayloadInside64(file, list64.value, i))
  {
    hide InspectDirectory, MemoryOf, InspectMemoryInfo, InspectArchitecture, InspectException, InspectModules, PayloadInside32, Total64,
         Total32, DeclaredSize64, Base64, Count64;
    var entries := InspectDirectory(file).value.entries;
    MemoryAdds(file, FindEntry(entries, 5), false);
    var list64 := FindEntry(entries, 9);
    MemoryAdds(file, list64, true);
    if list64.Some? {
      forall i | 0 <= i < Count64(file, list64.value) ensures PayloadInside64(file, list64.value, i) {
        Payload64Inside(file, list64.value, i, Count64(file, list64.value));
      }
    }
  }

  /** The payload of one 64-bit range ends within what the list declares. */
  lemma {:induction false} Payload64Inside(file: seq<byte>, e: Entry, index: nat, count: nat)
    requires index < count
    ensures Total64(file, e, 0, index) + DeclaredSize64(file, e, index) <= Total64(file, e, 0, count)
  {
    Total64Splits(file, e, 0, index, count);
  }

  lemma {:induction false} Total64Splits(file: seq<byte>, e: Entry, from: nat, mid: nat, to: nat)
    requires from <= mid <= to
    ensures Total64(file, e, from, to) == Total64(file, e, from, mid) + Total64(file, e, mid, to)
    decreases mid - from
  {
    hide DeclaredSize64;
    if from < mid {
      Total64Splits(file, e, from + 1, mid, to);
    }
  }

  // ---- the serialized facts, as bytes of JSON text ----

  /** How JSON.stringify writes one UTF-16 code unit. */
  type Escape = nat -> string

  ghost predicate AtMostSix(escape: Escape) {
    forall u :: |escape(u)| <= 6
  }

  function Escaped(units: seq<nat>, escape: Escape): string {
    if units == [] then "" else escape(units[0]) + Escaped(units[1..], escape)
  }

  function ModuleText(m: Module, escape: Escape): string {
    "{"
    + (if m.name.Some? then "\"name\":\"" + Escaped(m.name.value, escape) + "\"," else "")
    + "\"baseOfImage\":\"" + Decimal(m.base) + "\",\"sizeOfImage\":" + Decimal(m.size) + ",\"timestamp\":" + Decimal(m.timestamp)
    + (if m.debug.Some?
       then ",\"debugFile\":\"" + Escaped(m.debug.value.file, escape) + "\",\"debugId\":\"" + m.debug.value.id + "\"" else "")
    + "}"
  }

  /** The list, each module followed by the separator. */
  function ModulesText(modules: seq<Module>, escape: Escape): string {
    if modules == [] then "" else ModuleText(modules[0], escape) + "," + ModulesText(modules[1..], escape)
  }

  function BoolText(b: bool): string {
    if b then "true" else "false"
  }

  /** `serializeFacts` written out as JSON. */
  function FactsText(f: Facts, escape: Escape): string {
    "{" + CountsText(f) + StreamsText(f) + ExceptionText(f.exception)
    + (if f.modules.Some? then ",\"modules\":[" + ModulesText(f.modules.value, escape) + "]" else "")
    + "}"
  }

  function CountsText(f: Facts): string {
    "\"minidumpFlags\":\"" + Decimal(f.flags) + "\",\"capturedMemoryBytes\":\"" + Decimal(f.captured)
    + "\",\"memoryRangeCount\":" + Decimal(f.ranges)
  }

  function StreamsText(f: Facts): string {
    ",\"hasMemoryListStream\":" + BoolText(f.hasMemoryList) + ",\"hasMemory64ListStream\":" + BoolText(f.hasMemory64List)
    + (if f.architecture.Some? then ",\"architecture\":\"" + f.architecture.value + "\"" else "")
  }

  function ExceptionText(e: Option<Exception>): string {
    if e.None? then ""
    else ",\"exceptionCode\":\"" + Decimal(e.value.code) + "\",\"exceptionAddress\":\"" + Decimal(e.value.address) + "\""
  }

  function Power10(n: nat): nat {
    if n == 0 then 1 else 10 * Power10(n - 1)
  }

  lemma {:induction false} DecimalLength(v: nat, n: nat)
    requires n > 0 && v < Power10(n)
    ensures |Decimal(v)| <= n
  {
    if v >= 10 {
      assert n > 1;
      DecimalLength(v / 10, n - 1);
    }
  }

  lemma Decimal64(v: nat)
    requires v <= UINT64_MAX
    ensures |Decimal(v)| <= 20
  {
    assert Power10(4) == 10000 && Power10(8) == 100000000;
    assert Power10(12) == 1000000000000 && Power10(16) == 10000000000000000;
    assert Power10(20) == 100000000000000000000;
    DecimalLength(v, 20);
  }

  lemma Decimal32(v: nat)
    requires v < 0x1_0000_0000
    ensures |Decimal(v)| <= 10
  {
    assert Power10(4) == 10000 && Power10(8) == 100000000 && Power10(10) == 10000000000;
    DecimalLength(v, 10);
  }

  lemma {:induction false} HexLength(v: nat, n: nat)
    requires n > 0 && v < Pow16(n)
    ensures |Hex(v)| <= n
  {
    if v >= 16 {
      assert n > 1;
      HexLength(v / 16, n - 1);
    }
  }

  lemma DebugIdLength(guid: seq<byte>, age: nat)
    requires |guid| == 16 && age < 0x1_0000_0000
    ensures |DebugId(guid, age)| <= 40
  {
    hide U32;
    assert Pow16(2) == 256 && Pow16(4) == 65536 && Pow16(6) == 16777216 && Pow16(8) == 0x1_0000_0000;
    HexLength(age, 8);
    DebugIdParts(guid, age);
    assert DebugId(guid, age) == DebugId(guid, age)[..32] + Hex(age);
  }

  lemma {:induction false} EscapedLength(units: seq<nat>, escape: Escape)
    requires AtMostSix(escape)
    ensures |Escaped(units, escape)| <= 6 * |units|
  {
    if units != [] {
      EscapedLength(units[1..], escape);
    }
  }

  predicate ModuleSmall(m: Module) {
    && m.base <= UINT64_MAX && m.size < 0x1_0000_0000 && m.timestamp < 0x1_0000_0000
    && (m.debug.Some? ==> |m.debug.value.id| <= 40)
  }

  function UnitsOf(m: Module): nat {
    (if m.name.Some? then |m.name.value| else 0) + (if m.debug.Some? then |m.debug.value.file| else 0)
  }

  /** 256 bytes cover everything of a module but its two names. */
  lemma ModuleTextLength(m: Module, escape: Escape)
    requires AtMostSix(escape) && ModuleSmall(m)
    ensures |ModuleText(m, escape)| + 1 <= MODULE_RESERVE + 6 * UnitsOf(m)
  {
    hide Decimal, Escaped;
    Decimal64(m.base);
    Decimal32(m.size);
    Decimal32(m.timestamp);
    if m.name.Some? { EscapedLength(m.name.value, escape); }
    if m.debug.Some? { EscapedLength(m.debug.value.file, escape); }
  }

  lemma RsdsSmall(decode: Decoder, b: seq<byte>)
    requires Shrinks(decode) && ParseRsds(decode, b).Some?
    ensures |ParseRsds(decode, b).value.file| <= |b| && |ParseRsds(decode, b).value.id| <= 40
  {
    hide U32, DebugId, FileName, UsableName, IsControl, IndexOfNul;
    NulIsLater(b, 24);
    DebugIdLength(b[4..20], U32(b[20..24]));
  }

  /** What a module adds to the text was charged before it was read. */
  lemma ModuleCharged(file: seq<byte>, decode: Decoder, e: Entry, index: nat, budget: nat)
    requires Shrinks(decode) && ReadModule(file, decode, e, index, budget).Fine?
    ensures var m := ReadModule(file, decode, e, index, budget).value;
            m.left <= budget && ModuleSmall(m.value) && 6 * UnitsOf(m.value) <= budget - m.left
  {
    hide U64, U32, RecordOffset, ParseRsds;
    var d := ReadExact(file, RecordOffset(e, 4, index, 108).value, 108).value;
    var size, rva := U32(d[76..80]), U32(d[80..84]);
    if rva != 0 && size != 0 {
      var record := ReadExact(file, rva, if size < MAX_CODEVIEW then size else MAX_CODEVIEW);
      if record.Fine? && ParseRsds(decode, record.value).Some? {
        RsdsSmall(decode, record.value);
      }
    }
  }

  lemma {:induction false} ModulesCharged(file: seq<byte>, decode: Decoder, e: Entry, index: nat, count: nat, budget: nat, escape: Escape)
    requires Shrinks(decode) && AtMostSix(escape) && index <= count && ReadModules(file, decode, e, index, count, budget).Fine?
    ensures var r := ReadModules(file, decode, e, index, count, budget).value;
            && |r.value| == count - index && r.left <= budget
            && |ModulesText(r.value, escape)| <= MODULE_RESERVE * (count - index) + (budget - r.left)
    decreases count - index
  {
    hide ReadModule, ModuleText, ModuleSmall;
    if index < count {
      var first := ReadModule(file, decode, e, index, budget).value;
      ModuleCharged(file, decode, e, index, budget);
      ModuleTextLength(first.value, escape);
      ModulesCharged(file, decode, e, index + 1, count, first.left, escape);
      var rest := ReadModules(file, decode, e, index + 1, count, first.left).value;
      assert ([first.value] + rest.value)[1..] == rest.value;
    }
  }

  lemma ModuleListBounded(file: seq<byte>, decode: Decoder, e: Entry, escape: Escape)
    requires Shrinks(decode) && AtMostSix(escape) && InspectModules(file, decode, e).Fine?
    ensures |ModulesText(InspectModules(file, decode, e).value, escape)| <= BUDGET
  {
    hide U32, ReadModules, ModulesText, RequireList;
    var count := U32(ReadExact(file, e.rva, 4).value);
    ModulesCharged(file, decode, e, 0, count, BUDGET - count * MODULE_RESERVE, escape);
  }

  lemma FixedFieldsBounded(f: Facts, escape: Escape, modules: nat)
    requires f.flags <= UINT64_MAX && f.captured <= UINT64_MAX && f.ranges <= 2 * MAX_RANGES
    requires f.architecture.Some? ==> |f.architecture.value| <= 6
    requires f.exception.Some? ==> f.exception.value.code < 0x1_0000_0000 && f.exception.value.address <= UINT64_MAX
    requires f.modules.Some? ==> |ModulesText(f.modules.value, escape)| <= modules
    ensures |FactsText(f, escape)| <= 1024 + modules
  {
    hide ModulesText, CountsText, StreamsText, ExceptionText;
    CountsBounded(f);
    StreamsBounded(f);
    ExceptionBounded(f.exception);
  }

  lemma CountsBounded(f: Facts)
    requires f.flags <= UINT64_MAX && f.captured <= UINT64_MAX && f.ranges < 0x1_0000_0000
    ensures |CountsText(f)| <= 256
  {
    hide Decimal;
    Decimal64(f.flags);
    Decimal64(f.captured);
    Decimal32(f.ranges);
  }

  lemma StreamsBounded(f: Facts)
    requires f.architecture.Some? ==> |f.architecture.value| <= 6
    ensures |StreamsText(f)| <= 256
  {}

  lemma ExceptionBounded(e: Option<Exception>)
    requires e.Some? ==> e.value.code < 0x1_0000_0000 && e.value.address <= UINT64_MAX
    ensures |ExceptionText(e)| <= 256
  {
    hide Decimal;
    if e.Some? {
      Decimal32(e.value.code);
      Decimal64(e.value.address);
    }
  }

  lemma RangesCounted(file: seq<byte>, list: Option<Entry>, wide: bool)
    requires MemoryOf(file, list, wide).Fine?
    ensures MemoryOf(file, list, wide).value.ranges <= MAX_RANGES
  {
    hide Ranges32, Ranges64, RequireList, U32, U64;
  }

  lemma HeaderFlags(file: seq<byte>)
    requires InspectDirectory(file).Fine?
    ensures InspectDirectory(file).value.flags <= UINT64_MAX
  {
    hide ReadEntries, U32;
  }

  /** Whatever file the inspector accepts, and however many records share the same bytes, the facts it stores serialize
      to at most 4 MiB even when every code unit needs a six-byte escape. */
  lemma FactsFit(file: seq<byte>, decode: Decoder, escape: Escape)
    requires Shrinks(decode) && AtMostSix(escape) && Inspect(file, decode).Fine?
    ensures |FactsText(Inspect(file, decode).value, escape)| <= MAX_FACTS
  {
    hide InspectDirectory, MemoryOf, InspectMemoryInfo, InspectModules, FactsText, ModulesText, U32, U64;
    var streams := InspectDirectory(file).value;
    HeaderFlags(file);
    RangesCounted(file, FindEntry(streams.entries, 5), false);
    RangesCounted(file, FindEntry(streams.entries, 9), true);
    var modules := FindEntry(streams.entries, 4);
    if modules.Some? {
      ModuleListBounded(file, decode, modules.value, escape);
    }
    FixedFieldsBounded(Inspect(file, decode).value, escape, BUDGET);
  }
}
