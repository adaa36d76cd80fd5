/** Structural inspection of an untrusted minidump: checked 64-bit ranges, bounded reads, an aggregate output budget. */
module Minidump {
  import opened Domain
  import opened Msf

  const UINT64_MAX := 0xffff_ffff_ffff_ffff
  const MAX_STREAMS := 4096
  const MAX_RANGES := 65536
  const MAX_MODULES := 4096
  const MAX_STRING := 65536
  const MAX_READ := 65536
  const MAX_CODEVIEW := 65536
  const BUDGET := 4 * 1024 * 1024 - 1024
  const MODULE_RESERVE := 256

  datatype Kind =
    | BadSignature | BadVersion | Truncated | ImpossibleCount | Overflow | DuplicateStream | Malformed | ResourceLimit

  datatype Checked<+T> = Fine(value: T) | Failed(kind: Kind) {
    predicate IsFailure() {
      Failed?
    }
    function PropagateFailure<U>(): Checked<U>
      requires Failed?
    {
      Failed(kind)
    }
    function Extract(): T
      requires Fine?
    {
      value
    }
  }

  /** UTF-8 decoding into UTF-16 code units; none stands for invalid bytes. */
  type Decoder = seq<byte> -> Option<seq<nat>>

  /** Decoding never yields more code units than bytes. */
  ghost predicate Shrinks(decode: Decoder) {
    forall b :: decode(b).Some? ==> |decode(b).value| <= |b|
  }

  function CheckedAdd(a: nat, b: nat): (r: Checked<nat>)
    ensures r.Fine? <==> a + b <= UINT64_MAX
    ensures r.Fine? ==> r.value == a + b
  {
    if b <= UINT64_MAX && a <= UINT64_MAX - b then Fine(a + b) else Failed(Overflow)
  }

  function CheckedMultiply(a: nat, b: nat): (r: Checked<nat>)
    requires b > 0
    ensures r.Fine? ==> r.value == a * b
  {
    if a > UINT64_MAX / b then Failed(Overflow) else Fine(a * b)
  }

  /** The range lies inside the file. */
  function EnsureRange(file: seq<byte>, offset: nat, size: nat): (r: Checked<nat>)
    ensures r.Fine? ==> r.value == offset + size <= |file|
  {
    var end :- CheckedAdd(offset, size);
    if end > |file| then Failed(Truncated) else Fine(end)
  }

  function ReadExact(file: seq<byte>, offset: nat, length: nat): (r: Checked<seq<byte>>)
    ensures r.Fine? ==> offset + length <= |file| && length <= MAX_READ && |r.value| == length
  {
    if length > MAX_READ then Failed(ResourceLimit)
    else
      var end :- EnsureRange(file, offset, length);
      Fine(file[offset..end])
  }

  function U16(b: seq<byte>): nat
    requires |b| == 2
  {
    (b[0] as nat) + 0x100 * (b[1] as nat)
  }

  function U64(b: seq<byte>): (v: nat)
    requires |b| == 8
    ensures v <= UINT64_MAX
  {
    U32(b[..4]) + 0x1_0000_0000 * U32(b[4..])
  }

  datatype Entry = Entry(kind: nat, dataSize: nat, rva: nat)

  const CRITICAL := {4, 5, 6, 7, 9, 16}

  function ParseEntry(b: seq<byte>): Entry
    requires |b| == 12
  {
    Entry(U32(b[..4]), U32(b[4..8]), U32(b[8..12]))
  }

  /** The stream directory from entry `index` on. */
  function ReadEntries(file: seq<byte>, directory: nat, index: nat, count: nat, seen: set<nat>): Checked<seq<Entry>>
    requires index <= count
    decreases count - index
  {
    if index == count then Fine([])
    else
      var step :- CheckedMultiply(index, 12);
      var offset :- CheckedAdd(directory, step);
      var bytes :- ReadExact(file, offset, 12);
      var entry := ParseEntry(bytes);
      var end :- if entry.dataSize > 0 then EnsureRange(file, entry.rva, entry.dataSize) else Fine(0);
      if entry.kind in CRITICAL && entry.kind in seen then Failed(DuplicateStream)
      else
        var rest :- ReadEntries(file, directory, index + 1, count, if entry.kind in CRITICAL then seen + {entry.kind} else seen);
        Fine([entry] + rest)
  }

  function FindEntry(entries: seq<Entry>, kind: nat): (r: Option<Entry>)
    ensures r.Some? ==> r.value in entries && r.value.kind == kind
  {
    if entries == [] then None else if entries[0].kind == kind then Some(entries[0]) else FindEntry(entries[1..], kind)
  }

  function RequireBytes(e: Entry, required: nat): Checked<()> {
    if required > e.dataSize then Failed(Malformed) else Fine(())
  }

  /** One record of a list that starts `header` bytes into its stream. */
  function RecordOffset(e: Entry, header: nat, index: nat, size: nat): Checked<nat>
    requires size > 0
  {
    var step :- CheckedMultiply(index, size);
    var inner :- CheckedAdd(header, step);
    CheckedAdd(e.rva, inner)
  }

  /** The size check of a list with `count` records. */
  function RequireList(e: Entry, header: nat, count: nat, size: nat): Checked<()>
    requires size > 0
  {
    var bytes :- CheckedMultiply(count, size);
    var total :- CheckedAdd(header, bytes);
    RequireBytes(e, total)
  }

  datatype Memory = Memory(bytes: nat, ranges: nat)

  function Ranges32(file: seq<byte>, e: Entry, index: nat, count: nat, captured: nat): Checked<nat>
    requires index <= count
    decreases count - index
  {
    if index == count then Fine(captured)
    else
      var offset :- RecordOffset(e, 4, index, 16);
      var d :- ReadExact(file, offset, 16);
      var size, rva := U32(d[8..12]), U32(d[12..16]);
      var virtual :- CheckedAdd(U64(d[..8]), size);
      var end :- EnsureRange(file, rva, size);
      var total :- CheckedAdd(captured, size);
      Ranges32(file, e, index + 1, count, total)
  }

  function InspectMemoryList(file: seq<byte>, e: Entry): Checked<Memory> {
    var header :- RequireBytes(e, 4);
    var bytes :- ReadExact(file, e.rva, 4);
    var count := U32(bytes);
    if count > MAX_RANGES then Failed(ImpossibleCount)
    else
      var fits :- RequireList(e, 4, count, 16);
      var captured :- Ranges32(file, e, 0, count, 0);
      Fine(Memory(captured, count))
  }

  function Ranges64(file: seq<byte>, e: Entry, index: nat, count: nat, captured: nat): Checked<nat>
    requires index <= count
    decreases count - index
  {
    if index == count then Fine(captured)
    else
      var offset :- RecordOffset(e, 16, index, 16);
      var d :- ReadExact(file, offset, 16);
      var size := U64(d[8..16]);
      var virtual :- CheckedAdd(U64(d[..8]), size);
      var total :- CheckedAdd(captured, size);
      Ranges64(file, e, index + 1, count, total)
  }

  function InspectMemory64List(file: seq<byte>, e: Entry): Checked<Memory> {
    var enough :- RequireBytes(e, 16);
    var header :- ReadExact(file, e.rva, 16);
    var count := U64(header[..8]);
    if count > MAX_RANGES then Failed(ImpossibleCount)
    else
      var fits :- RequireList(e, 16, count, 16);
      var captured :- Ranges64(file, e, 0, count, 0);
      var end :- EnsureRange(file, U64(header[8..16]), captured);
      Fine(Memory(captured, count))
  }

  function InspectMemoryInfo(file: seq<byte>, e: Entry): Checked<()> {
    var enough :- RequireBytes(e, 16);
    var header :- ReadExact(file, e.rva, 16);
    var headerSize, entrySize, count := U32(header[..4]), U32(header[4..8]), U64(header[8..16]);
    if headerSize < 16 || entrySize < 48 then Failed(Malformed)
    else if count > MAX_RANGES then Failed(ImpossibleCount)
    else RequireList(e, headerSize, count, entrySize)
  }

  function ArchitectureName(code: nat): Option<string> {
    if code == 0 then Some("x86") else if code == 5 then Some("arm") else if code == 6 then Some("ia64")
    else if code == 9 then Some("x86_64") else if code == 12 then Some("arm64") else None
  }

  function InspectArchitecture(file: seq<byte>, e: Entry): Checked<Option<string>> {
    var enough :- RequireBytes(e, 56);
    var bytes :- ReadExact(file, e.rva, 2);
    Fine(ArchitectureName(U16(bytes)))
  }

  datatype Exception = Exception(code: nat, address: nat)

  function InspectException(file: seq<byte>, e: Entry): Checked<Exception> {
    var enough :- RequireBytes(e, 160);
    var bytes :- ReadExact(file, e.rva, 36);
    if U32(bytes[32..36]) > 15 then Failed(ImpossibleCount) else Fine(Exception(U32(bytes[8..12]), U64(bytes[24..32])))
  }

  // ---- modules ----

  datatype Debug = Debug(file: seq<nat>, id: string)

  datatype Module = Module(name: Option<seq<nat>>, base: nat, size: nat, timestamp: nat, debug: Option<Debug>)

  /** UTF-16 code units of little-endian bytes. */
  function Units(b: seq<byte>): (u: seq<nat>)
    ensures |u| == |b| / 2
  {
    seq(|b| / 2, k requires 0 <= k < |b| / 2 => (b[2 * k] as nat) + 0x100 * (b[2 * k + 1] as nat))
  }

  /** A value and what is left of the budget. */
  datatype Charged<+T> = Charged(value: T, left: nat)

  function Consume(budget: nat, bytes: nat): Checked<nat> {
    if bytes > budget then Failed(ResourceLimit) else Fine(budget - bytes)
  }

  function ReadString(file: seq<byte>, rva: nat, budget: nat): Checked<Charged<seq<nat>>> {
    var header :- ReadExact(file, rva, 4);
    var length := U32(header);
    if length > MAX_STRING then Failed(ResourceLimit)
    else if length % 2 != 0 then Failed(Malformed)
    else
      var contents :- CheckedAdd(rva, 4);
      var left :- Consume(budget, length * 3);
      var bytes :- ReadExact(file, contents, length);
      Fine(Charged(Units(bytes), left))
  }

  predicate IsSeparator(u: nat) {
    u == 0x2f || u == 0x5c
  }

  predicate IsControl(u: nat) {
    u <= 0x1f || u == 0x7f
  }

  /** The part after the last separator. */
  function Tail(units: seq<nat>): (r: seq<nat>)
    ensures |r| <= |units| && forall k :: 0 <= k < |r| ==> !IsSeparator(r[k])
  {
    if units == [] || IsSeparator(units[|units| - 1]) then [] else Tail(units[..|units| - 1]) + [units[|units| - 1]]
  }

  function TrimSeparators(units: seq<nat>): (r: seq<nat>)
    ensures |r| <= |units|
  {
    if units != [] && IsSeparator(units[|units| - 1]) then TrimSeparators(units[..|units| - 1]) else units
  }

  /** `fileNameFromPath`: the last non-empty segment; empty when there is none. */
  function FileName(units: seq<nat>): (r: seq<nat>)
    ensures |r| <= |units|
  {
    Tail(TrimSeparators(units))
  }

  predicate IsHighSurrogate(u: nat) {
    0xd800 <= u < 0xdc00
  }

  predicate IsLowSurrogate(u: nat) {
    0xdc00 <= u < 0xe000
  }

  function CodePoints(units: seq<nat>): nat {
    if units == [] then 0
    else if |units| > 1 && IsHighSurrogate(units[0]) && IsLowSurrogate(units[1]) then 1 + CodePoints(units[2..])
    else 1 + CodePoints(units[1..])
  }

  predicate UsableName(name: seq<nat>) {
    name != [] && CodePoints(name) <= 255 && name != [0x2e] && name != [0x2e, 0x2e]
  }

  function IndexOfNul(b: seq<byte>, from: nat): Option<nat>
    decreases |b| - from
  {
    if from >= |b| then None else if b[from] == 0 then Some(from) else IndexOfNul(b, from + 1)
  }

  lemma NulIsLater(b: seq<byte>, from: nat)
    ensures IndexOfNul(b, from).Some? ==> from <= IndexOfNul(b, from).value < |b|
    decreases |b| - from
  {}

  /** `parseRsdsCodeViewRecord`. */
  function ParseRsds(decode: Decoder, b: seq<byte>): Option<Debug> {
    if |b| < 25 || b[..4] != [0x52, 0x53, 0x44, 0x53] then None
    else
      var end := IndexOfNul(b, 24);
      if end.None? then None
      else
        NulIsLater(b, 24);
        var path := decode(b[24..end.value]);
        if path.None? || exists k | 0 <= k < |path.value| :: IsControl(path.value[k]) then None
        else
          var name := FileName(path.value);
          if UsableName(name) then Some(Debug(name, DebugId(b[4..20], U32(b[20..24])))) else None
  }

  /** Best effort: an unusable record drops the identity, but an exhausted budget still refuses the file. */
  function ReadCodeView(file: seq<byte>, decode: Decoder, descriptor: seq<byte>, budget: nat): Checked<Charged<Option<Debug>>>
    requires |descriptor| == 108
  {
    var size, rva := U32(descriptor[76..80]), U32(descriptor[80..84]);
    if rva == 0 || size == 0 then Fine(Charged(None, budget))
    else
      var length := if size < MAX_CODEVIEW then size else MAX_CODEVIEW;
      var left :- Consume(budget, length * 6);
      var record := ReadExact(file, rva, length);
      Fine(Charged(if record.Fine? then ParseRsds(decode, record.value) else None, left))
  }

  function ReadModule(file: seq<byte>, decode: Decoder, e: Entry, index: nat, budget: nat): Checked<Charged<Module>> {
    var offset :- RecordOffset(e, 4, index, 108);
    var d :- ReadExact(file, offset, 108);
    var nameRva := U32(d[20..24]);
    var name :- if nameRva == 0 then Fine(Charged(None, budget)) else Named(ReadString(file, nameRva, budget));
    var debug :- ReadCodeView(file, decode, d, name.left);
    Fine(Charged(Module(name.value, U64(d[..8]), U32(d[8..12]), U32(d[16..20]), debug.value), debug.left))
  }

  function Named(name: Checked<Charged<seq<nat>>>): Checked<Charged<Option<seq<nat>>>> {
    match name
    case Fine(c) => Fine(Charged(Some(c.value), c.left))
    case Failed(kind) => Failed(kind)
  }

  function ReadModules(file: seq<byte>, decode: Decoder, e: Entry, index: nat, count: nat, budget: nat): Checked<Charged<seq<Module>>>
    requires index <= count
    decreases count - index
  {
    if index == count then Fine(Charged([], budget))
    else
      var first :- ReadModule(file, decode, e, index, budget);
      var rest :- ReadModules(file, decode, e, index + 1, count, first.left);
      Fine(Charged([first.value] + rest.value, rest.left))
  }

  function InspectModules(file: seq<byte>, decode: Decoder, e: Entry): Checked<seq<Module>> {
    var enough :- RequireBytes(e, 4);
    var bytes :- ReadExact(file, e.rva, 4);
    var count := U32(bytes);
    if count > MAX_MODULES then Failed(ImpossibleCount)
    else
      var fits :- RequireList(e, 4, count, 108);
      var budget :- Consume(BUDGET, count * MODULE_RESERVE);
      var modules :- ReadModules(file, decode, e, 0, count, budget);
      Fine(modules.value)
  }

  // ---- the whole inspection ----

  datatype Facts = Facts(
    coverage: Coverage, flags: nat, captured: nat, ranges: nat, hasMemoryList: bool, hasMemory64List: bool,
    architecture: Option<string>, exception: Option<Exception>, modules: Option<seq<Module>>)

  datatype Streams = Streams(flags: nat, entries: seq<Entry>)

  function InspectDirectory(file: seq<byte>): Checked<Streams> {
    var header :- ReadExact(file, 0, 32);
    if header[..4] != [0x4d, 0x44, 0x4d, 0x50] then Failed(BadSignature)
    else if U16(header[4..6]) != 0xa793 then Failed(BadVersion)
    else
      var count, directory := U32(header[8..12]), U32(header[12..16]);
      if count > MAX_STREAMS then Failed(ImpossibleCount)
      else if count > 0 && directory < 32 then Failed(Malformed)
      else
        var size :- CheckedMultiply(count, 12);
        var end :- EnsureRange(file, directory, size);
        var entries :- ReadEntries(file, directory, 0, count, {});
        Fine(Streams(U64(header[24..32]), entries))
  }

  function MemoryOf(file: seq<byte>, list: Option<Entry>, wide: bool): Checked<Memory> {
    if list.None? then Fine(Memory(0, 0))
    else if wide then InspectMemory64List(file, list.value) else InspectMemoryList(file, list.value)
  }

  function CoverageOf(flags: nat, captured: bool): Coverage {
    if flags / 2 % 2 == 1 then FullMemoryDeclared else if captured then Partial else UnknownCoverage
  }

  function Inspect(file: seq<byte>, decode: Decoder): Checked<Facts> {
    var streams :- InspectDirectory(file);
    var list, list64, info := FindEntry(streams.entries, 5), FindEntry(streams.entries, 9), FindEntry(streams.entries, 16);
    var infoFits :- if info.None? then Fine(()) else InspectMemoryInfo(file, info.value);
    var memory :- MemoryOf(file, list, false);
    var memory64 :- MemoryOf(file, list64, true);
    var captured :- CheckedAdd(memory.bytes, memory64.bytes);
    var system, exception, modules := FindEntry(streams.entries, 7), FindEntry(streams.entries, 6), FindEntry(streams.entries, 4);
    var architecture :- if system.None? then Fine(None) else InspectArchitecture(file, system.value);
    var exceptionFacts :- if exception.None? then Fine(None) else Present(InspectException(file, exception.value));
    var moduleFacts :- if modules.None? then Fine(None) else Present(InspectModules(file, decode, modules.value));
    Fine(Facts(CoverageOf(streams.flags, list.Some? || list64.Some?), streams.flags, captured, memory.ranges + memory64.ranges,
               list.Some?, list64.Some?, architecture, exceptionFacts, moduleFacts))
  }

  function Present<T>(r: Checked<T>): Checked<Option<T>> {
    match r
    case Fine(v) => Fine(Some(v))
    case Failed(kind) => Failed(kind)
  }
}
