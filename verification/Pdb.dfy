/** The PDB identity walk: superblock, block map, scattered stream directory, head of the PDB Info stream. */
module Pdb {
  import opened Domain
  import opened Msf

  datatype Identity = BadName | NotPdb | Unreadable | Found(debugFile: string, debugId: string)

  function CeilDiv(n: nat, d: nat): nat
    requires d > 0
  {
    (n + d - 1) / d
  }

  predicate IsPowerOfTwo(n: nat) {
    n == 1 || (n > 1 && n % 2 == 0 && IsPowerOfTwo(n / 2))
  }

  /** An absent stream owns no blocks. */
  function BlockCount(size: nat, blockSize: nat): nat
    requires blockSize > 0
  {
    if size == NIL_STREAM then 0 else CeilDiv(size, blockSize)
  }

  /** Where the block list of a stream starts: past the sizes and the lists of the streams before it. */
  function ListOffset(directory: seq<byte>, blockSize: nat, streams: nat, stream: nat): Option<nat>
    requires blockSize > 0
  {
    if stream == 0 then Some(4 + streams * 4)
    else
      var before, size := ListOffset(directory, blockSize, streams, stream - 1), U32At(directory, 4 + (stream - 1) * 4);
      if before.None? || size.None? then None else Some(before.value + BlockCount(size.value, blockSize) * 4)
  }

  function StreamPrefix(directory: seq<byte>, file: seq<byte>, blockSize: nat, streams: nat, stream: nat, count: nat): (r: Option<seq<byte>>)
    requires blockSize > 0
    ensures r.Some? ==> |r.value| == count
  {
    var offset := ListOffset(directory, blockSize, streams, stream);
    if offset.None? then None
    else
      var needed := CeilDiv(count, blockSize);
      if offset.value + needed * 4 > |directory| then None
      else Gather(file, blockSize, Words(directory[offset.value..offset.value + needed * 4]), count)
  }

  /** The 28 bytes of a PDB Info header. */
  function InfoIdentity(debugFile: string, info: seq<byte>): Identity
    requires |info| == INFO_HEADER
  {
    if U32(info[..4]) !in INFO_VERSIONS then Unreadable
    else Found(debugFile, DebugId(info[12..28], U32(info[8..12])))
  }

  function ReadInfo(directory: seq<byte>, file: seq<byte>, blockSize: nat, debugFile: string): Identity
    requires blockSize > 0
  {
    var streams := U32At(directory, 0);
    if streams.None? || streams.value < 2 || 4 + streams.value * 4 > |directory| then Unreadable
    else
      var size := U32At(directory, 8);
      if size.None? || size.value < INFO_HEADER then Unreadable
      else
        var prefix := StreamPrefix(directory, file, blockSize, streams.value, 1, INFO_HEADER);
        if prefix.None? then Unreadable else InfoIdentity(debugFile, prefix.value)
  }

  predicate LooksLikeMsf(file: seq<byte>) {
    |file| >= 32 && file[..32] == MAGIC
  }

  predicate GoodSuperblock(file: seq<byte>, blockSize: nat, directoryBytes: nat) {
    && MIN_BLOCK <= blockSize <= MAX_BLOCK && IsPowerOfTwo(blockSize) && blockSize <= |file|
    && 0 < directoryBytes <= |file| && directoryBytes <= MAX_DIRECTORY
  }

  /** `parsePdbIdentityFrom`; `usable` is the store-path rule on the caller's file name. */
  function ParsePdb(usable: string -> bool, file: seq<byte>, debugFile: string): Identity {
    if !usable(debugFile) then BadName
    else if !LooksLikeMsf(file) then NotPdb
    else if |file| < SUPERBLOCK then Unreadable
    else
      var blockSize, directoryBytes, mapBlock := U32(file[32..36]), U32(file[44..48]), U32(file[52..56]);
      if !GoodSuperblock(file, blockSize, directoryBytes) then Unreadable
      else
        var blockMap := Consecutive(file, blockSize, mapBlock, CeilDiv(directoryBytes, blockSize) * 4);
        if blockMap.None? then Unreadable
        else if |blockMap.value| % 4 != 0 then Unreadable
        else
          var directory := Assemble(file, blockSize, Words(blockMap.value), directoryBytes);
          if directory.None? then Unreadable else ReadInfo(directory.value, file, blockSize, debugFile)
  }

  // ---- the walk in place ----

  function Prefixed(front: seq<byte>, rest: Option<seq<byte>>): Option<seq<byte>> {
    if rest.None? then None else Some(front + rest.value)
  }

  lemma PrefixedTwice(a: seq<byte>, b: seq<byte>, rest: Option<seq<byte>>)
    ensures Prefixed(a, Prefixed(b, rest)) == Prefixed(a + b, rest) && Prefixed([], rest) == rest
  {
    if rest.Some? {
      assert a + (b + rest.value) == (a + b) + rest.value && [] + rest.value == rest.value;
    }
  }

  lemma AssembleUnfolds(file: seq<byte>, blockSize: nat, blocks: seq<nat>, index: nat, remaining: nat)
    requires blockSize > 0 && index < |blocks| && remaining > 0
    ensures var start := BlockStart(blockSize, blocks[index]);
            Assemble(file, blockSize, blocks[index..], remaining) ==
            if start >= |file| then None
            else
              var take := Min(blockSize, Min(|file| - start, remaining));
              Prefixed(file[start..start + take], Assemble(file, blockSize, blocks[index + 1..], remaining - take))
  {
    hide BlockStart;
    assert blocks[index..][1..] == blocks[index + 1..];
  }

  lemma GatherUnfolds(file: seq<byte>, blockSize: nat, blocks: seq<nat>, index: nat, remaining: nat)
    requires blockSize > 0 && index < |blocks| && remaining > 0
    ensures var start, take := BlockStart(blockSize, blocks[index]), Min(blockSize, remaining);
            Gather(file, blockSize, blocks[index..], remaining) ==
            if start + take > |file| then None
            else Prefixed(file[start..start + take], Gather(file, blockSize, blocks[index + 1..], remaining - take))
  {
    hide BlockStart;
    assert blocks[index..][1..] == blocks[index + 1..];
  }

  lemma NothingRemains(file: seq<byte>, blockSize: nat, blocks: seq<nat>, remaining: nat)
    requires blockSize > 0 && (remaining == 0 || blocks == [])
    ensures Assemble(file, blockSize, blocks, remaining) == Gather(file, blockSize, blocks, remaining)
            == if remaining == 0 then Some([]) else None
  {}

  /** The directory, filled block by block at a moving offset. */
  method AssembleDirectory(file: seq<byte>, blockSize: nat, blocks: seq<nat>, total: nat) returns (r: Option<seq<byte>>)
    requires blockSize > 0
    ensures r == Assemble(file, blockSize, blocks, total)
  {
    hide BlockStart, Assemble, Prefixed;
    var directory := new byte[total];
    var copied: nat, index: nat := 0, 0;
    ghost var whole := Assemble(file, blockSize, blocks, total);
    PrefixedTwice([], [], whole);
    assert blocks[0..] == blocks && directory[..0] == [];
    while index < |blocks| && copied < total
      invariant index <= |blocks| && copied <= total
      invariant whole == Prefixed(directory[..copied], Assemble(file, blockSize, blocks[index..], total - copied))
    {
      var block := blocks[index];
      AssembleUnfolds(file, blockSize, blocks, index, total - copied);
      BlockBound(|file|, blockSize, block);
      NonePrefixed(directory[..copied]);
      if block > |file| / blockSize { return None; }
      StartIs(blockSize, block);
      var start := block * blockSize;
      var take := Min(blockSize, Min(|file| - start, total - copied));
      if take <= 0 { return None; }
      PrefixedTwice(directory[..copied], file[start..start + take], Assemble(file, blockSize, blocks[index + 1..], total - copied - take));
      CopyInto(file, start, take, directory, copied);
      copied, index := copied + take, index + 1;
    }
    NothingRemains(file, blockSize, blocks[index..], total - copied);
    NonePrefixed(directory[..copied]);
    if copied != total { return None; }
    assert directory[..total] == directory[..];
    PrefixedNothing(directory[..]);
    r := Some(directory[..]);
  }

  lemma NonePrefixed(front: seq<byte>)
    ensures Prefixed(front, None) == None
  {}

  lemma PrefixedNothing(front: seq<byte>)
    ensures Prefixed(front, Some([])) == Some(front)
  {
    assert front + [] == front;
  }

  method ReadStreamPrefix(directory: seq<byte>, file: seq<byte>, blockSize: nat, streams: nat, stream: nat, count: nat)
    returns (r: Option<seq<byte>>)
    requires blockSize > 0
    ensures r == StreamPrefix(directory, file, blockSize, streams, stream, count)
  {
    hide BlockStart, BlockCount, CeilDiv;
    var offset := 4 + streams * 4;
    for index := 0 to stream
      invariant ListOffset(directory, blockSize, streams, index) == Some(offset)
    {
      var size := U32At(directory, 4 + index * 4);
      if size.None? {
        NoOffset(directory, blockSize, streams, index + 1, stream);
        return None;
      }
      offset := offset + BlockCount(size.value, blockSize) * 4;
    }
    var needed := CeilDiv(count, blockSize);
    if offset + needed * 4 > |directory| { return None; }
    var blocks := Words(directory[offset..offset + needed * 4]);
    r := GatherBlocks(file, blockSize, blocks, count);
  }

  lemma {:induction false} NoOffset(directory: seq<byte>, blockSize: nat, streams: nat, failed: nat, stream: nat)
    requires blockSize > 0 && failed <= stream && ListOffset(directory, blockSize, streams, failed).None?
    ensures ListOffset(directory, blockSize, streams, stream).None?
    decreases stream
  {
    if failed < stream {
      NoOffset(directory, blockSize, streams, failed, stream - 1);
    }
  }

  method GatherBlocks(file: seq<byte>, blockSize: nat, blocks: seq<nat>, count: nat) returns (r: Option<seq<byte>>)
    requires blockSize > 0
    ensures r == Gather(file, blockSize, blocks, count)
  {
    hide BlockStart, Gather, Prefixed;
    var out: seq<byte> := [];
    var entry: nat := 0;
    ghost var whole := Gather(file, blockSize, blocks, count);
    PrefixedTwice([], [], whole);
    assert blocks[0..] == blocks;
    while entry < |blocks| && |out| < count
      invariant entry <= |blocks| && |out| <= count
      invariant whole == Prefixed(out, Gather(file, blockSize, blocks[entry..], count - |out|))
    {
      var block := blocks[entry];
      GatherUnfolds(file, blockSize, blocks, entry, count - |out|);
      BlockBound(|file|, blockSize, block);
      NonePrefixed(out);
      if block > |file| / blockSize { return None; }
      StartIs(blockSize, block);
      var start, take := block * blockSize, Min(blockSize, count - |out|);
      if start + take > |file| { return None; }
      PrefixedTwice(out, file[start..start + take], Gather(file, blockSize, blocks[entry + 1..], count - |out| - take));
      out := out + file[start..start + take];
      entry := entry + 1;
    }
    NothingRemains(file, blockSize, blocks[entry..], count - |out|);
    NonePrefixed(out);
    if |out| != count { return None; }
    PrefixedNothing(out);
    r := Some(out);
  }

  method ParsePdbIdentity(usable: string -> bool, file: seq<byte>, debugFile: string) returns (r: Identity)
    ensures r == ParsePdb(usable, file, debugFile)
  {
    hide Assemble, Gather, Consecutive, StreamPrefix, U32, IsPowerOfTwo;
    if !usable(debugFile) { return BadName; }
    if |file| < 32 || file[..32] != MAGIC { return NotPdb; }
    if |file| < SUPERBLOCK { return Unreadable; }
    var blockSize, directoryBytes, mapBlock := U32(file[32..36]), U32(file[44..48]), U32(file[52..56]);
    if !GoodSuperblock(file, blockSize, directoryBytes) { return Unreadable; }
    var blockMap := ReadConsecutive(file, blockSize, mapBlock, CeilDiv(directoryBytes, blockSize) * 4);
    if blockMap.None? || |blockMap.value| % 4 != 0 { return Unreadable; }
    var directory := AssembleDirectory(file, blockSize, Words(blockMap.value), directoryBytes);
    if directory.None? { return Unreadable; }
    var d := directory.value;
    var streams, size := U32At(d, 0), U32At(d, 8);
    if streams.None? || streams.value < 2 || 4 + streams.value * 4 > |d| { return Unreadable; }
    if size.None? || size.value < INFO_HEADER { return Unreadable; }
    var prefix := ReadStreamPrefix(d, file, blockSize, streams.value, 1, INFO_HEADER);
    if prefix.None? { return Unreadable; }
    r := InfoIdentity(debugFile, prefix.value);
  }

  // ---- files as they are laid out ----

  /** A stream directory: one size and one block list per stream. */
  datatype Layout = Layout(blockSize: nat, mapBlock: nat, directoryBlocks: seq<nat>, sizes: seq<nat>, lists: seq<seq<nat>>)

  function Flat(lists: seq<seq<nat>>): seq<nat> {
    if lists == [] then [] else lists[0] + Flat(lists[1..])
  }

  function DirectoryWords(l: Layout): seq<nat> {
    [|l.sizes|] + l.sizes + Flat(l.lists)
  }

  function Pow2(k: nat): nat {
    if k == 0 then 1 else 2 * Pow2(k - 1)
  }

  ghost predicate IsPow2(n: nat) {
    exists k: nat :: Pow2(k) == n
  }

  /** A power of two from 512 to 2^30 that fits in the file, and a directory of at most 256 MiB that does. */
  ghost predicate SizesAllowed(file: seq<byte>, blockSize: nat, directoryBytes: nat) {
    && 512 <= blockSize <= 1073741824 && IsPow2(blockSize) && blockSize <= |file|
    && 0 < directoryBytes <= |file| && directoryBytes <= 268435456
  }

  lemma {:induction false} PowerOfTwoIs(n: nat)
    ensures IsPowerOfTwo(n) <==> IsPow2(n)
    decreases n
  {
    if n > 1 && n % 2 == 0 {
      PowerOfTwoIs(n / 2);
      if IsPow2(n / 2) {
        var k: nat :| Pow2(k) == n / 2;
        assert Pow2(k + 1) == n;
      }
      if IsPow2(n) {
        var k: nat :| Pow2(k) == n;
        assert Pow2(k - 1) == n / 2;
      }
    } else if n == 1 {
      assert Pow2(0) == 1;
    } else {
      forall k: nat ensures Pow2(k) != n {
        if k > 0 { assert Pow2(k) == 2 * Pow2(k - 1); }
        if k == 1 { assert Pow2(0) == 1; }
        PowPositive(k);
      }
    }
  }

  lemma {:induction false} PowPositive(k: nat)
    ensures Pow2(k) >= 1
  {
    if k > 0 { PowPositive(k - 1); }
  }

  /** The superblock's check is the format's. */
  lemma SuperblockIs(file: seq<byte>, blockSize: nat, directoryBytes: nat)
    ensures GoodSuperblock(file, blockSize, directoryBytes) <==> SizesAllowed(file, blockSize, directoryBytes)
  {
    hide IsPowerOfTwo, IsPow2;
    PowerOfTwoIs(blockSize);
  }

  /** The signature in letters. */
  lemma MagicText()
    ensures |MAGIC| == 32 && |"Microsoft C/C++ MSF 7.00\r\n"| == 26
    ensures forall k :: 0 <= k < 26 ==> MAGIC[k] == "Microsoft C/C++ MSF 7.00\r\n"[k] as int
    ensures MAGIC[26] == 0x1a && MAGIC[27] == 'D' as int && MAGIC[28] == 'S' as int && MAGIC[29] == MAGIC[30] == MAGIC[31] == 0
  {}

  /** The format: a good superblock, a contiguous block map, a directory scattered over its blocks, and for each stream
      as many blocks as its size takes. */
  ghost predicate LaidOut(file: seq<byte>, l: Layout) {
    && |file| >= SUPERBLOCK && file[..32] == MAGIC
    && AllU32(DirectoryWords(l)) && AllU32(l.directoryBlocks)
    && var directory := Bytes(DirectoryWords(l));
       && SizesAllowed(file, l.blockSize, |directory|) && l.mapBlock < 0x1_0000_0000
       && file[32..36] == Le32(l.blockSize) && file[44..48] == Le32(|directory|) && file[52..56] == Le32(l.mapBlock)
       && |l.directoryBlocks| == CeilDiv(|directory|, l.blockSize)
       && Consecutive(file, l.blockSize, l.mapBlock, 4 * |l.directoryBlocks|) == Some(Bytes(l.directoryBlocks))
       && Scattered(file, l.blockSize, l.directoryBlocks, directory)
       && |l.sizes| == |l.lists| >= 2
       && forall k :: 0 <= k < |l.lists| ==> |l.lists[k]| == BlockCount(l.sizes[k], l.blockSize)
  }

  lemma OneBlockNeeded(blockSize: nat)
    requires blockSize >= MIN_BLOCK
    ensures CeilDiv(INFO_HEADER, blockSize) == 1
  {}

  lemma WordsOfLayout(l: Layout)
    requires |l.sizes| == |l.lists| >= 2 && Flat(l.lists[1..]) != []
    ensures var words, k := DirectoryWords(l), 1 + |l.sizes| + |l.lists[0]|;
            && k < |words| && words[0] == |l.sizes| && words[1] == l.sizes[0] && words[2] == l.sizes[1]
            && words[k] == Flat(l.lists[1..])[0]
  {
    assert Flat(l.lists) == l.lists[0] + Flat(l.lists[1..]);
    assert DirectoryWords(l)[1 + 1] == l.sizes[1];
  }

  lemma WordList(words: seq<nat>, k: nat)
    requires k < |words| && AllU32(words)
    ensures 4 * k + 4 <= |Bytes(words)| && Words(Bytes(words)[4 * k..4 * k + 4]) == [words[k]]
  {
    hide Bytes, Words, U32, Le32;
    BytesSlice(words, k, k + 1);
    assert words[k..k + 1] == [words[k]];
    WordsOfBytes([words[k]]);
    assert 4 * (k + 1) == 4 * k + 4;
  }

  lemma FirstListOffset(directory: seq<byte>, blockSize: nat, streams: nat, size: nat)
    requires blockSize > 0 && U32At(directory, 4) == Some(size)
    ensures ListOffset(directory, blockSize, streams, 1) == Some(4 + streams * 4 + BlockCount(size, blockSize) * 4)
  {
    hide BlockCount, U32At;
    assert ListOffset(directory, blockSize, streams, 0) == Some(4 + streams * 4);
  }

  lemma LaidOutParts(file: seq<byte>, l: Layout)
    requires LaidOut(file, l)
    ensures l.blockSize > 0 && AllU32(DirectoryWords(l)) && |l.sizes| == |l.lists| >= 2
    ensures |l.lists[0]| == BlockCount(l.sizes[0], l.blockSize)
  {
    hide Bytes, BlockCount, CeilDiv, Scattered, Consecutive, IsPowerOfTwo, AllU32, DirectoryWords;
  }

  /** The block list the walk reads for stream 1 starts at the first block listed after stream 0. */
  lemma ListOfStreamOne(file: seq<byte>, l: Layout)
    requires LaidOut(file, l) && Flat(l.lists[1..]) != []
    ensures var words := DirectoryWords(l);
            var directory := Bytes(words);
            var k := 1 + |l.sizes| + |l.lists[0]|;
            && U32At(directory, 0) == Some(|l.sizes|) && U32At(directory, 8) == Some(l.sizes[1])
            && ListOffset(directory, l.blockSize, |l.sizes|, 1) == Some(4 * k)
            && 4 * k + 4 <= |directory|
  {
    hide Bytes, Words, BlockCount, U32, U32At, DirectoryWords, Flat, ListOffset, AllU32, LaidOut;
    LaidOutParts(file, l);
    var words := DirectoryWords(l);
    var k := 1 + |l.sizes| + |l.lists[0]|;
    WordsOfLayout(l);
    WordAt(words, 0);
    WordAt(words, 1);
    WordAt(words, 2);
    FirstListOffset(Bytes(words), l.blockSize, |l.sizes|, l.sizes[0]);
  }

  lemma GathersOne(file: seq<byte>, blockSize: nat, block: nat, count: nat)
    requires blockSize >= count > 0
    ensures Gather(file, blockSize, [block], count) ==
            if BlockStart(blockSize, block) + count <= |file| then Some(file[BlockStart(blockSize, block)..BlockStart(blockSize, block) + count]) else None
  {
    hide BlockStart;
    assert [block][1..] == [];
    var start := BlockStart(blockSize, block);
    if start + count <= |file| {
      assert file[start..start + count] + [] == file[start..start + count];
    }
  }

  /** The directory of a laid-out file is reassembled, and stream 1 looked up in it. */
  lemma DirectoryIsRead(usable: string -> bool, file: seq<byte>, l: Layout, debugFile: string)
    requires LaidOut(file, l) && usable(debugFile)
    ensures l.blockSize > 0 && AllU32(DirectoryWords(l))
    ensures ParsePdb(usable, file, debugFile) == ReadInfo(Bytes(DirectoryWords(l)), file, l.blockSize, debugFile)
  {
    hide Bytes, Words, BlockCount, CeilDiv, Scattered, Consecutive, U32, U32At, Assemble, Gather, BlockStart, Flat, InfoIdentity,
         IsPowerOfTwo, ReadInfo;
    var directory := Bytes(DirectoryWords(l));
    SuperblockIs(file, l.blockSize, |directory|);
    WordsOfBytes(l.directoryBlocks);
    ScatteredAssembles(file, l.blockSize, l.directoryBlocks, directory);
    assert U32(file[32..36]) == l.blockSize && U32(file[44..48]) == |directory| && U32(file[52..56]) == l.mapBlock;
    assert |Bytes(l.directoryBlocks)| % 4 == 0;
  }

  /** The identity read is the head of the first block listed after stream 0, whichever stream it belongs to. */
  lemma InfoOfFirstListed(file: seq<byte>, l: Layout, debugFile: string)
    requires LaidOut(file, l) && Flat(l.lists[1..]) != [] && l.sizes[1] >= INFO_HEADER
    ensures l.blockSize > 0 && AllU32(DirectoryWords(l))
    ensures var start := BlockStart(l.blockSize, Flat(l.lists[1..])[0]);
            ReadInfo(Bytes(DirectoryWords(l)), file, l.blockSize, debugFile) ==
            if start + INFO_HEADER <= |file| then InfoIdentity(debugFile, file[start..start + INFO_HEADER]) else Unreadable
  {
    hide Bytes, Words, BlockCount, CeilDiv, Scattered, Consecutive, U32, U32At, Assemble, Gather, BlockStart, Flat, InfoIdentity, IsPowerOfTwo;
    var directory, k := Bytes(DirectoryWords(l)), 1 + |l.sizes| + |l.lists[0]|;
    ListOfStreamOne(file, l);
    WordsOfLayout(l);
    WordList(DirectoryWords(l), k);
    OneBlockNeeded(l.blockSize);
    GathersOne(file, l.blockSize, Flat(l.lists[1..])[0], INFO_HEADER);
    assert StreamPrefix(directory, file, l.blockSize, |l.sizes|, 1, INFO_HEADER) ==
           Gather(file, l.blockSize, [Flat(l.lists[1..])[0]], INFO_HEADER);
  }

  /** Without a block listed after stream 0 the lookup runs off the directory. */
  lemma NothingListed(file: seq<byte>, l: Layout, debugFile: string)
    requires LaidOut(file, l) && Flat(l.lists[1..]) == []
    ensures l.blockSize > 0 && AllU32(DirectoryWords(l))
    ensures ReadInfo(Bytes(DirectoryWords(l)), file, l.blockSize, debugFile) == Unreadable
  {
    hide Bytes, Words, BlockCount, CeilDiv, Scattered, Consecutive, U32, U32At, Gather, BlockStart, IsPowerOfTwo, ListOffset, AllU32, LaidOut;
    LaidOutParts(file, l);
    LaidOutBlockSize(file, l);
    var words := DirectoryWords(l);
    assert |words| == 1 + |l.sizes| + |l.lists[0]|;
    WordAt(words, 0);
    WordAt(words, 1);
    FirstListOffset(Bytes(words), l.blockSize, |l.sizes|, l.sizes[0]);
    OneBlockNeeded(l.blockSize);
  }

  lemma LaidOutBlockSize(file: seq<byte>, l: Layout)
    requires LaidOut(file, l)
    ensures l.blockSize >= MIN_BLOCK
  {
    hide Bytes, BlockCount, CeilDiv, Scattered, Consecutive, IsPowerOfTwo, AllU32, DirectoryWords;
  }

  /** For every MSF file, however its directory and streams are scattered over blocks and whichever streams are nil, the
      parser returns exactly the GUID and age at the head of stream 1. */
  lemma StreamOneIdentifies(usable: string -> bool, file: seq<byte>, l: Layout, debugFile: string, stream: seq<byte>)
    requires LaidOut(file, l) && usable(debugFile)
    requires l.sizes[1] != 0xffff_ffff && |stream| == l.sizes[1] && |stream| >= 28
    requires Scattered(file, l.blockSize, l.lists[1], stream)
    ensures ParsePdb(usable, file, debugFile) ==
            if U32(stream[..4]) in {19941610, 19950623, 19950814, 19960307, 19970604, 19990604, 20000404, 20030902, 20091201, 20140508}
            then Found(debugFile, DebugId(stream[12..28], U32(stream[8..12]))) else Unreadable
  {
    hide Bytes, Words, Consecutive, U32, U32At, Assemble, Gather, BlockStart, ParsePdb, ReadInfo, DebugId, IsPowerOfTwo;
    var first := l.lists[1][0];
    assert Flat(l.lists[1..]) == l.lists[1] + Flat(l.lists[1..][1..]);
    assert Flat(l.lists[1..])[0] == first;
    var start := BlockStart(l.blockSize, first);
    var take := Min(l.blockSize, |stream|);
    assert take >= INFO_HEADER && stream[..take] == file[start..start + take];
    var info := file[start..start + INFO_HEADER];
    assert info == stream[..take][..INFO_HEADER] == stream[..INFO_HEADER];
    DirectoryIsRead(usable, file, l, debugFile);
    InfoOfFirstListed(file, l, debugFile);
    assert info[..4] == stream[..4] && info[8..12] == stream[8..12] && info[12..28] == stream[12..28];
  }

  /** A nil stream 1 is not noticed: its size passes for a large one, and the walk takes the first block of the next stream
      that has blocks. So it gives an identity exactly when there is such a block, a header fits behind its start, and the
      header carries a known version; otherwise it refuses, as it should. */
  lemma NilStreamOneMisread(usable: string -> bool, file: seq<byte>, l: Layout, debugFile: string)
    requires LaidOut(file, l) && usable(debugFile) && l.sizes[1] == 0xffff_ffff
    ensures l.lists[1] == [] && Flat(l.lists[1..]) == Flat(l.lists[2..])
    ensures ParsePdb(usable, file, debugFile).Found? <==>
              Flat(l.lists[2..]) != [] &&
              var start := BlockStart(l.blockSize, Flat(l.lists[2..])[0]);
              start + 28 <= |file|
              && U32(file[start..start + 4]) in {19941610, 19950623, 19950814, 19960307, 19970604, 19990604, 20000404, 20030902, 20091201, 20140508}
    ensures var r := ParsePdb(usable, file, debugFile);
            if r.Found? then
              var start := BlockStart(l.blockSize, Flat(l.lists[2..])[0]);
              r.debugId == DebugId(file[start + 12..start + 28], U32(file[start + 8..start + 12]))
            else r == Unreadable
  {
    hide SizesAllowed, GoodSuperblock, AllU32, CeilDiv;
    hide Bytes, Words, Consecutive, U32, U32At, Assemble, Gather, BlockStart, ParsePdb, ReadInfo, DebugId, IsPowerOfTwo, Scattered;
    assert l.lists[1..][0] == l.lists[1] == [] && l.lists[1..][1..] == l.lists[2..];
    assert Flat(l.lists[1..]) == [] + Flat(l.lists[2..]);
    DirectoryIsRead(usable, file, l, debugFile);
    if Flat(l.lists[2..]) == [] {
      NothingListed(file, l, debugFile);
    } else {
      InfoOfFirstListed(file, l, debugFile);
      var start := BlockStart(l.blockSize, Flat(l.lists[2..])[0]);
      if start + INFO_HEADER <= |file| {
        var info := file[start..start + INFO_HEADER];
        assert info[..4] == file[start..start + 4] && info[8..12] == file[start + 8..start + 12]
            && info[12..28] == file[start + 12..start + 28];
      }
    }
  }

  function Zeros(n: nat): (r: seq<byte>)
    ensures |r| == n
  {
    seq(n, _ => 0)
  }

  /** Four blocks: superblock, block map, directory of three streams, and the head of the last stream. */
  function NilFile(): (file: seq<byte>)
    ensures |file| == 2048
  {
    MAGIC + Le32(512) + Zeros(8) + Le32(20) + Zeros(4) + Le32(1) + Zeros(456)
    + Le32(2) + Zeros(508) + Bytes([3, 0, NIL_STREAM, 28, 3]) + Zeros(492) + Le32(20000404) + Zeros(508)
  }

  function NilLayout(): Layout {
    Layout(512, 1, [2], [0, NIL_STREAM, 28], [[], [], [3]])
  }

  lemma NilFileParts()
    ensures var file := NilFile();
            && file[..32] == MAGIC && file[32..36] == Le32(512) && file[44..48] == Le32(20) && file[52..56] == Le32(1)
            && file[512..516] == Le32(2) && file[1024..1044] == Bytes([3, 0, NIL_STREAM, 28, 3]) && file[1536..1540] == Le32(20000404)
  {
    hide Bytes, Le32;
  }

  lemma NilFileLaidOut()
    ensures LaidOut(NilFile(), NilLayout())
  {
    hide Bytes, Le32, NilFile, BlockStart, U32;
    var file, l := NilFile(), NilLayout();
    NilFileParts();
    assert Flat(l.lists[1..][1..]) == [3] + Flat(l.lists[1..][1..][1..]);
    assert Flat(l.lists) == [3];
    var words := [3, 0, NIL_STREAM, 28, 3];
    assert DirectoryWords(l) == words;
    var directory := Bytes(words);
    assert |directory| == 20;
    assert Pow2(9) == 512 by { Powers(); }
    OneWord(2);
    BlockStarts();
    assert directory[..20] == directory && directory[20..] == [];
    assert file[1024..1044][..20] == file[1024..1044];
    assert Scattered(file, 512, [2], directory);
  }

  lemma Powers()
    ensures IsPowerOfTwo(512) && Pow2(9) == 512
  {
    assert Pow2(2) == 4 && Pow2(4) == 16 && Pow2(6) == 64 && Pow2(8) == 256;
    assert IsPowerOfTwo(2) && IsPowerOfTwo(4) && IsPowerOfTwo(8);
    assert IsPowerOfTwo(16) && IsPowerOfTwo(32) && IsPowerOfTwo(64);
    assert IsPowerOfTwo(128) && IsPowerOfTwo(256);
  }

  lemma BlockStarts()
    ensures BlockStart(512, 1) == 512 && BlockStart(512, 2) == 1024 && BlockStart(512, 3) == 1536
  {}

  /** A well-formed file without a stream 1 for which the parser gives an identity. */
  lemma NilFileIdentified(usable: string -> bool, debugFile: string)
    requires usable(debugFile)
    ensures LaidOut(NilFile(), NilLayout()) && NilLayout().sizes[1] == NIL_STREAM
    ensures ParsePdb(usable, NilFile(), debugFile).Found?
  {
    hide ParsePdb, LaidOut, NilFile, Le32, U32;
    NilFileLaidOut();
    NilFileParts();
    BlockStarts();
    var l := NilLayout();
    assert l.lists[2..] == [l.lists[2]] && l.lists[2..][1..] == [];
    assert Flat(l.lists[2..]) == [3] + Flat([]);
    assert U32(Le32(20000404)) == 20000404;
    NilStreamOneMisread(usable, NilFile(), l, debugFile);
  }

  /** Five blocks, the last cut off after 100 bytes: superblock, end of the directory, block map, head of stream 1, and the
      start of the directory. */
  function ShiftedFile(): (file: seq<byte>)
    ensures |file| == 2148
  {
    MAGIC + Le32(512) + Zeros(8) + Le32(600) + Zeros(4) + Le32(2) + Zeros(456)
    + Le32(3) + Zeros(508) + Bytes([4, 1]) + Zeros(504) + Le32(20000404) + Zeros(508) + Bytes([24, 0, 28]) + Zeros(88)
  }

  lemma ShiftedFileParts()
    ensures var file := ShiftedFile();
            && file[..32] == MAGIC && file[32..36] == Le32(512) && file[44..48] == Le32(600) && file[52..56] == Le32(2)
            && file[512..516] == Le32(3) && file[1024..1032] == Bytes([4, 1]) && file[1536..1540] == Le32(20000404)
            && file[2048..2060] == Bytes([24, 0, 28])
  {
    hide Bytes, Le32;
  }

  /** What the parser takes for the directory: the 100 bytes left of block 4, and the rest from block 1. */
  function ShiftedDirectory(): (d: seq<byte>)
    ensures |d| == 600
  {
    ShiftedFile()[2048..2148] + ShiftedFile()[512..1012]
  }

  lemma ShiftedDirectoryRead()
    ensures Assemble(ShiftedFile(), 512, [4, 1], 600) == Some(ShiftedDirectory())
    ensures !NoneShort(ShiftedFile(), 512, [4, 1], 600)
  {
    hide ShiftedFile;
    var file := ShiftedFile();
    assert [4, 1][1..] == [1];
    assert BlockStart(512, 4) == 2048 && BlockStart(512, 1) == 512;
    assert Assemble(file, 512, [1], 500) == Some(file[512..1012]) by {
      assert Assemble(file, 512, [1][1..], 0) == Some([]);
      assert file[512..1012] + [] == file[512..1012];
    }
  }

  lemma ShiftedWords()
    ensures var d := ShiftedDirectory();
            && U32At(d, 0) == Some(24) && U32At(d, 4) == Some(0) && U32At(d, 8) == Some(28) && Words(d[100..104]) == [3]
  {
    hide ShiftedFile, Bytes, Words, U32At, U32, Le32;
    ShiftedFileParts();
    var d, words := ShiftedDirectory(), [24, 0, 28];
    assert d[..12] == ShiftedFile()[2048..2060];
    forall i | i in {0, 4, 8} ensures U32At(d, i) == U32At(Bytes(words), i) {
      SameWord(d, Bytes(words), i);
    }
    WordAt(words, 0);
    WordAt(words, 1);
    WordAt(words, 2);
    assert d[100..104] == ShiftedFile()[512..516];
    OneWord(3);
    WordsOfBytes([3]);
  }

  lemma SameWord(d: seq<byte>, front: seq<byte>, i: nat)
    requires front <= d && i + 4 <= |front|
    ensures U32At(d, i) == U32At(front, i)
  {
    hide U32;
    assert d[i..i + 4] == front[i..i + 4];
  }

  /** A file whose directory cannot be read, its first block being cut off, is given an identity all the same: the block list
      of stream 1 is taken from the start of the next block. */
  lemma ShiftedFileIdentified(usable: string -> bool, debugFile: string)
    requires usable(debugFile)
    ensures var file := ShiftedFile();
            && Consecutive(file, 512, U32(file[52..56]), 8) == Some(Bytes([4, 1])) && U32(file[44..48]) == 600
            && (forall directory :: |directory| == 600 ==> !Scattered(file, 512, [4, 1], directory))
            && ParsePdb(usable, file, debugFile).Found?
  {
    hide ShiftedFile, ShiftedDirectory, Bytes, Words, U32, Le32, Assemble, Gather, Scattered, NoneShort, U32At, IsPowerOfTwo, DebugId;
    var file, d := ShiftedFile(), ShiftedDirectory();
    ShiftedFileParts();
    ShiftedDirectoryRead();
    forall directory | |directory| == 600 ensures !Scattered(file, 512, [4, 1], directory) {
      if Scattered(file, 512, [4, 1], directory) {
        ScatteredAssembles(file, 512, [4, 1], directory);
        AssembledIsScattered(file, 512, [4, 1], 600);
        assert false;
      }
    }
    Powers();
    assert U32(Le32(512)) == 512 && U32(Le32(600)) == 600 && U32(Le32(2)) == 2 && U32(Le32(20000404)) == 20000404;
    WordsOfBytes([4, 1]);
    assert CeilDiv(600, 512) * 4 == 8;
    assert BlockStart(512, 2) == 1024 && BlockStart(512, 3) == 1536;
    assert ParsePdb(usable, file, debugFile) == ReadInfo(d, file, 512, debugFile);
    ShiftedWords();
    FirstListOffset(d, 512, 24, 0);
    OneBlockNeeded(512);
    GathersOne(file, 512, 3, INFO_HEADER);
    assert StreamPrefix(d, file, 512, 24, 1, INFO_HEADER) == Some(file[1536..1564]);
    assert file[1536..1564][..4] == file[1536..1540];
  }
}
