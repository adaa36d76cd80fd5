/** The inspector over a random-access source that counts its reads: every read is in range and at most 64 KiB, and there
    are boundedly many of them. */
module Inspectors {
  import opened Domain
  import opened Msf
  import opened Minidump
  import opened MinidumpLayout
  import opened MinidumpAcceptance

  /** The most reads any file can cause: header, directory, three memory lists, architecture, exception, modules. */
  const MAX_READS := 1 + MAX_STREAMS + 1 + (1 + MAX_RANGES) + (1 + MAX_RANGES) + 1 + 1 + (1 + 4 * MAX_MODULES)

  class Source {
    const bytes: seq<byte>
    ghost var readCount: nat

    constructor (bytes: seq<byte>)
      ensures this.bytes == bytes && readCount == 0
    {
      this.bytes := bytes;
      readCount := 0;
    }

    /** A source serves only reads inside it, and only up to 64 KiB. */
    method ReadAt(offset: nat, length: nat) returns (r: seq<byte>)
      requires offset + length <= |bytes| && length <= MAX_READ
      modifies this
      ensures r == bytes[offset..offset + length] && readCount == old(readCount) + 1
    {
      readCount := readCount + 1;
      r := bytes[offset..offset + length];
    }

    method Exact(offset: nat, length: nat) returns (r: Checked<seq<byte>>)
      modifies this
      ensures r == ReadExact(bytes, offset, length) && readCount <= old(readCount) + 1
    {
      if length > MAX_READ { return Failed(ResourceLimit); }
      var end := EnsureRange(bytes, offset, length);
      if end.Failed? { return Failed(end.kind); }
      var data := ReadAt(offset, length);
      r := Fine(data);
    }
  }

  method ReadDirectory(source: Source, directory: nat, count: nat) returns (r: Checked<seq<Entry>>)
    modifies source
    ensures r == ReadEntries(source.bytes, directory, 0, count, {}) && source.readCount <= old(source.readCount) + count
  {
    hide ReadExact, EnsureRange, CheckedMultiply, CheckedAdd, ParseEntry;
    var entries: seq<Entry>, seen: set<nat> := [], {};
    ghost var whole := ReadEntries(source.bytes, directory, 0, count, {});
    assert whole.Fine? ==> [] + whole.value == whole.value;
    for index := 0 to count
      invariant source.readCount <= old(source.readCount) + index
      invariant whole == EntriesJoin(entries, ReadEntries(source.bytes, directory, index, count, seen))
    {
      var step := CheckedMultiply(index, 12);
      if step.Failed? { return Failed(step.kind); }
      var offset := CheckedAdd(directory, step.value);
      if offset.Failed? { return Failed(offset.kind); }
      var bytes := source.Exact(offset.value, 12);
      if bytes.Failed? { return Failed(bytes.kind); }
      var entry := ParseEntry(bytes.value);
      if entry.dataSize > 0 {
        var end := EnsureRange(source.bytes, entry.rva, entry.dataSize);
        if end.Failed? { return Failed(end.kind); }
      }
      if entry.kind in CRITICAL {
        if entry.kind in seen { return Failed(DuplicateStream); }
        seen := seen + {entry.kind};
      }
      EntriesJoinTwice(entries, entry, ReadEntries(source.bytes, directory, index + 1, count, seen));
      entries := entries + [entry];
    }
    r := Fine(entries);
    assert entries + [] == entries;
  }

  function EntriesJoin(front: seq<Entry>, rest: Checked<seq<Entry>>): Checked<seq<Entry>> {
    match rest
    case Fine(es) => Fine(front + es)
    case Failed(kind) => Failed(kind)
  }

  lemma EntriesJoinTwice(front: seq<Entry>, e: Entry, rest: Checked<seq<Entry>>)
    ensures EntriesJoin(front, EntriesJoin([e], rest)) == EntriesJoin(front + [e], rest)
  {
    if rest.Fine? {
      assert front + ([e] + rest.value) == (front + [e]) + rest.value;
    }
  }

  method WalkMemoryList(source: Source, e: Entry) returns (r: Checked<Memory>)
    modifies source
    ensures r == InspectMemoryList(source.bytes, e) && source.readCount <= old(source.readCount) + 1 + MAX_RANGES
  {
    hide ReadExact, RecordOffset, RequireList, CheckedAdd, EnsureRange, U32, U64;
    if 4 > e.dataSize { return Failed(Malformed); }
    var bytes := source.Exact(e.rva, 4);
    if bytes.Failed? { return Failed(bytes.kind); }
    var count := U32(bytes.value);
    if count > MAX_RANGES { return Failed(ImpossibleCount); }
    var fits := RequireList(e, 4, count, 16);
    if fits.Failed? { return Failed(fits.kind); }
    var captured: nat := 0;
    for index := 0 to count
      invariant source.readCount <= old(source.readCount) + 1 + index
      invariant Ranges32(source.bytes, e, 0, count, 0) == Ranges32(source.bytes, e, index, count, captured)
    {
      var offset := RecordOffset(e, 4, index, 16);
      if offset.Failed? { return Failed(offset.kind); }
      var d := source.Exact(offset.value, 16);
      if d.Failed? { return Failed(d.kind); }
      var size, rva := U32(d.value[8..12]), U32(d.value[12..16]);
      var virtual := CheckedAdd(U64(d.value[..8]), size);
      if virtual.Failed? { return Failed(virtual.kind); }
      var end := EnsureRange(source.bytes, rva, size);
      if end.Failed? { return Failed(end.kind); }
      var total := CheckedAdd(captured, size);
      if total.Failed? { return Failed(total.kind); }
      captured := total.value;
    }
    r := Fine(Memory(captured, count));
  }

  method WalkMemory64List(source: Source, e: Entry) returns (r: Checked<Memory>)
    modifies source
    ensures r == InspectMemory64List(source.bytes, e) && source.readCount <= old(source.readCount) + 1 + MAX_RANGES
  {
    hide ReadExact, RecordOffset, RequireList, CheckedAdd, EnsureRange, U32, U64;
    if 16 > e.dataSize { return Failed(Malformed); }
    var header := source.Exact(e.rva, 16);
    if header.Failed? { return Failed(header.kind); }
    var count := U64(header.value[..8]);
    if count > MAX_RANGES { return Failed(ImpossibleCount); }
    var fits := RequireList(e, 16, count, 16);
    if fits.Failed? { return Failed(fits.kind); }
    var captured: nat := 0;
    for index := 0 to count
      invariant source.readCount <= old(source.readCount) + 1 + index
      invariant Ranges64(source.bytes, e, 0, count, 0) == Ranges64(source.bytes, e, index, count, captured)
    {
      var offset := RecordOffset(e, 16, index, 16);
      if offset.Failed? { return Failed(offset.kind); }
      var d := source.Exact(offset.value, 16);
      if d.Failed? { return Failed(d.kind); }
      var size := U64(d.value[8..16]);
      var virtual := CheckedAdd(U64(d.value[..8]), size);
      if virtual.Failed? { return Failed(virtual.kind); }
      var total := CheckedAdd(captured, size);
      if total.Failed? { return Failed(total.kind); }
      captured := total.value;
    }
    var end := EnsureRange(source.bytes, U64(header.value[8..16]), captured);
    if end.Failed? { return Failed(end.kind); }
    r := Fine(Memory(captured, count));
  }

  method WalkMemoryInfo(source: Source, e: Entry) returns (r: Checked<()>)
    modifies source
    ensures r == InspectMemoryInfo(source.bytes, e) && source.readCount <= old(source.readCount) + 1
  {
    hide ReadExact, RequireList, U32, U64;
    if 16 > e.dataSize { return Failed(Malformed); }
    var header := source.Exact(e.rva, 16);
    if header.Failed? { return Failed(header.kind); }
    var headerSize, entrySize, count := U32(header.value[..4]), U32(header.value[4..8]), U64(header.value[8..16]);
    if headerSize < 16 || entrySize < 48 { return Failed(Malformed); }
    if count > MAX_RANGES { return Failed(ImpossibleCount); }
    r := RequireList(e, headerSize, count, entrySize);
  }

  /** The metadata budget, taken down before the bytes it pays for are read. */
  class MetadataBudget {
    var remaining: nat

    constructor ()
      ensures remaining == BUDGET
    {
      remaining := BUDGET;
    }

    method Spend(bytes: nat) returns (ok: bool)
      modifies this
      ensures ok <==> bytes <= old(remaining)
      ensures remaining == if ok then old(remaining) - bytes else old(remaining)
    {
      if bytes > remaining { return false; }
      remaining := remaining - bytes;
      ok := true;
    }
  }

  method WalkString(source: Source, rva: nat, budget: MetadataBudget) returns (r: Checked<seq<nat>>)
    modifies source, budget
    ensures match ReadString(source.bytes, rva, old(budget.remaining))
            case Fine(c) => r == Fine(c.value) && budget.remaining == c.left
            case Failed(kind) => r == Failed(kind)
    ensures source.readCount <= old(source.readCount) + 2
  {
    hide ReadExact, U32, Units, CheckedAdd;
    var header := source.Exact(rva, 4);
    if header.Failed? { return Failed(header.kind); }
    var length := U32(header.value);
    if length > MAX_STRING { return Failed(ResourceLimit); }
    if length % 2 != 0 { return Failed(Malformed); }
    var contents := CheckedAdd(rva, 4);
    if contents.Failed? { return Failed(contents.kind); }
    var paid := budget.Spend(length * 3);
    if !paid { return Failed(ResourceLimit); }
    var bytes := source.Exact(contents.value, length);
    if bytes.Failed? { return Failed(bytes.kind); }
    r := Fine(Units(bytes.value));
  }

  method WalkCodeView(source: Source, decode: Decoder, descriptor: seq<byte>, budget: MetadataBudget) returns (r: Checked<Option<Debug>>)
    requires |descriptor| == 108
    modifies source, budget
    ensures match ReadCodeView(source.bytes, decode, descriptor, old(budget.remaining))
            case Fine(c) => r == Fine(c.value) && budget.remaining == c.left
            case Failed(kind) => r == Failed(kind)
    ensures source.readCount <= old(source.readCount) + 1
  {
    hide ReadExact, U32, ParseRsds;
    var size, rva := U32(descriptor[76..80]), U32(descriptor[80..84]);
    if rva == 0 || size == 0 { return Fine(None); }
    var length := if size < MAX_CODEVIEW then size else MAX_CODEVIEW;
    var paid := budget.Spend(length * 6);
    if !paid { return Failed(ResourceLimit); }
    var record := source.Exact(rva, length);
    r := Fine(if record.Fine? then ParseRsds(decode, record.value) else None);
  }

  method WalkModule(source: Source, decode: Decoder, e: Entry, index: nat, budget: MetadataBudget) returns (r: Checked<Module>)
    modifies source, budget
    ensures match ReadModule(source.bytes, decode, e, index, old(budget.remaining))
            case Fine(c) => r == Fine(c.value) && budget.remaining == c.left
            case Failed(kind) => r == Failed(kind)
    ensures source.readCount <= old(source.readCount) + 4
  {
    hide ReadExact, RecordOffset, U32, U64, ReadString, ReadCodeView;
    var offset := RecordOffset(e, 4, index, 108);
    if offset.Failed? { return Failed(offset.kind); }
    var d := source.Exact(offset.value, 108);
    if d.Failed? { return Failed(d.kind); }
    var nameRva := U32(d.value[20..24]);
    var name: Option<seq<nat>> := None;
    if nameRva != 0 {
      var text := WalkString(source, nameRva, budget);
      if text.Failed? { return Failed(text.kind); }
      name := Some(text.value);
    }
    var debug := WalkCodeView(source, decode, d.value, budget);
    if debug.Failed? { return Failed(debug.kind); }
    r := Fine(Module(name, U64(d.value[..8]), U32(d.value[8..12]), U32(d.value[16..20]), debug.value));
  }

  function ModulesJoin(front: seq<Module>, rest: Checked<Charged<seq<Module>>>): Checked<Charged<seq<Module>>> {
    match rest
    case Fine(c) => Fine(Charged(front + c.value, c.left))
    case Failed(kind) => Failed(kind)
  }

  lemma ModulesStep(file: seq<byte>, decode: Decoder, e: Entry, index: nat, count: nat, budget: nat, front: seq<Module>)
    requires index < count
    ensures var first := ReadModule(file, decode, e, index, budget);
            ModulesJoin(front, ReadModules(file, decode, e, index, count, budget)) ==
            if first.Failed? then Failed(first.kind)
            else ModulesJoin(front + [first.value.value], ReadModules(file, decode, e, index + 1, count, first.value.left))
  {
    hide ReadModule;
    var first := ReadModule(file, decode, e, index, budget);
    if first.Fine? {
      var rest := ReadModules(file, decode, e, index + 1, count, first.value.left);
      if rest.Fine? {
        assert front + ([first.value.value] + rest.value.value) == (front + [first.value.value]) + rest.value.value;
      }
    }
  }

  method WalkModules(source: Source, decode: Decoder, e: Entry) returns (r: Checked<seq<Module>>)
    modifies source
    ensures r == InspectModules(source.bytes, decode, e) && source.readCount <= old(source.readCount) + 1 + 4 * MAX_MODULES
  {
    hide ReadExact, RequireList, U32, ReadModule, ReadModules, ModulesJoin;
    if 4 > e.dataSize { return Failed(Malformed); }
    var bytes := source.Exact(e.rva, 4);
    if bytes.Failed? { return Failed(bytes.kind); }
    var count := U32(bytes.value);
    if count > MAX_MODULES { return Failed(ImpossibleCount); }
    var fits := RequireList(e, 4, count, 108);
    if fits.Failed? { return Failed(fits.kind); }
    var budget := new MetadataBudget();
    var reserved := budget.Spend(count * MODULE_RESERVE);
    if !reserved { return Failed(ResourceLimit); }
    var modules: seq<Module> := [];
    ghost var whole := ReadModules(source.bytes, decode, e, 0, count, budget.remaining);
    JoinNothing(whole);
    for index := 0 to count
      invariant source.readCount <= old(source.readCount) + 1 + 4 * index
      invariant whole == ModulesJoin(modules, ReadModules(source.bytes, decode, e, index, count, budget.remaining))
    {
      ModulesStep(source.bytes, decode, e, index, count, budget.remaining, modules);
      var fact := WalkModule(source, decode, e, index, budget);
      if fact.Failed? { return Failed(fact.kind); }
      modules := modules + [fact.value];
    }
    JoinEnd(source.bytes, decode, e, count, budget.remaining, modules);
    r := Fine(modules);
  }

  lemma JoinNothing(whole: Checked<Charged<seq<Module>>>)
    ensures ModulesJoin([], whole) == whole
  {
    if whole.Fine? {
      assert [] + whole.value.value == whole.value.value;
    }
  }

  lemma JoinEnd(file: seq<byte>, decode: Decoder, e: Entry, count: nat, budget: nat, modules: seq<Module>)
    ensures ModulesJoin(modules, ReadModules(file, decode, e, count, count, budget)) == Fine(Charged(modules, budget))
  {
    assert modules + [] == modules;
  }

  method WalkDirectory(source: Source) returns (r: Checked<Streams>)
    modifies source
    ensures r == InspectDirectory(source.bytes) && source.readCount <= old(source.readCount) + 1 + MAX_STREAMS
  {
    hide ReadExact, U32, U64, ReadEntries, CheckedMultiply, EnsureRange;
    var header := source.Exact(0, 32);
    if header.Failed? { return Failed(header.kind); }
    var h := header.value;
    if h[..4] != [0x4d, 0x44, 0x4d, 0x50] { return Failed(BadSignature); }
    if U16(h[4..6]) != 0xa793 { return Failed(BadVersion); }
    var count, directory := U32(h[8..12]), U32(h[12..16]);
    if count > MAX_STREAMS { return Failed(ImpossibleCount); }
    if count > 0 && directory < 32 { return Failed(Malformed); }
    var size := CheckedMultiply(count, 12);
    if size.Failed? { return Failed(size.kind); }
    var end := EnsureRange(source.bytes, directory, size.value);
    if end.Failed? { return Failed(end.kind); }
    var entries := ReadDirectory(source, directory, count);
    if entries.Failed? { return Failed(entries.kind); }
    r := Fine(Streams(U64(h[24..32]), entries.value));
  }

  method WalkMemory(source: Source, list: Option<Entry>, wide: bool) returns (r: Checked<Memory>)
    modifies source
    ensures r == MemoryOf(source.bytes, list, wide) && source.readCount <= old(source.readCount) + 1 + MAX_RANGES
  {
    if list.None? { return Fine(Memory(0, 0)); }
    if wide {
      r := WalkMemory64List(source, list.value);
    } else {
      r := WalkMemoryList(source, list.value);
    }
  }

  method WalkArchitecture(source: Source, e: Entry) returns (r: Checked<Option<string>>)
    modifies source
    ensures r == InspectArchitecture(source.bytes, e) && source.readCount <= old(source.readCount) + 1
  {
    if 56 > e.dataSize { return Failed(Malformed); }
    var bytes := source.Exact(e.rva, 2);
    if bytes.Failed? { return Failed(bytes.kind); }
    r := Fine(ArchitectureName(U16(bytes.value)));
  }

  method WalkException(source: Source, e: Entry) returns (r: Checked<Exception>)
    modifies source
    ensures r == InspectException(source.bytes, e) && source.readCount <= old(source.readCount) + 1
  {
    if 160 > e.dataSize { return Failed(Malformed); }
    var bytes := source.Exact(e.rva, 36);
    if bytes.Failed? { return Failed(bytes.kind); }
    if U32(bytes.value[32..36]) > 15 { return Failed(ImpossibleCount); }
    r := Fine(Exception(U32(bytes.value[8..12]), U64(bytes.value[24..32])));
  }

  /** `inspectMinidump`: on any source, every read is in range and at most 64 KiB, and their number is bounded. */
  method InspectSource(source: Source, decode: Decoder) returns (r: Checked<Facts>)
    modifies source
    ensures r == Inspect(source.bytes, decode)
    ensures source.readCount <= old(source.readCount) + MAX_READS
  {
    hide InspectDirectory, InspectMemoryInfo, MemoryOf, InspectModules, InspectArchitecture, InspectException, CheckedAdd, FindEntry;
    var streams := WalkDirectory(source);
    if streams.Failed? { return Failed(streams.kind); }
    var entries := streams.value.entries;
    var list, list64, info := FindEntry(entries, 5), FindEntry(entries, 9), FindEntry(entries, 16);
    if info.Some? {
      var fits := WalkMemoryInfo(source, info.value);
      if fits.Failed? { return Failed(fits.kind); }
    }
    var memory := WalkMemory(source, list, false);
    if memory.Failed? { return Failed(memory.kind); }
    var memory64 := WalkMemory(source, list64, true);
    if memory64.Failed? { return Failed(memory64.kind); }
    var captured := CheckedAdd(memory.value.bytes, memory64.value.bytes);
    if captured.Failed? { return Failed(captured.kind); }
    var system, exception, modules := FindEntry(entries, 7), FindEntry(entries, 6), FindEntry(entries, 4);
    var architecture, exceptionFacts := None, None;
    if system.Some? {
      var found := WalkArchitecture(source, system.value);
      if found.Failed? { return Failed(found.kind); }
      architecture := found.value;
    }
    if exception.Some? {
      var found := WalkException(source, exception.value);
      if found.Failed? { return Failed(found.kind); }
      exceptionFacts := Some(found.value);
    }
    var moduleFacts: Option<seq<Module>> := None;
    if modules.Some? {
      var found := WalkModules(source, decode, modules.value);
      if found.Failed? { return Failed(found.kind); }
      moduleFacts := Some(found.value);
    }
    r := Fine(Facts(CoverageOf(streams.value.flags, list.Some? || list64.Some?), streams.value.flags, captured.value,
                    memory.value.ranges + memory64.value.ranges, list.Some?, list64.Some?, architecture, exceptionFacts, moduleFacts));
  }

  /** `MinidumpInspector.inspect`: a source is accepted exactly when its bytes are a well-formed minidump, with the facts laid out
      in them. */
  method InspectDump(source: Source, decode: Decoder) returns (r: Checked<Facts>)
    modifies source
    ensures r.Fine? <==> LaidOutDump(source.bytes)
    ensures r.Fine? ==> FactsAre(source.bytes, decode, r.value)
    ensures source.readCount <= old(source.readCount) + MAX_READS
  {
    hide LaidOutDump, FactsAre, Inspect;
    r := InspectSource(source, decode);
    AcceptedExactly(source.bytes, decode);
  }
}
