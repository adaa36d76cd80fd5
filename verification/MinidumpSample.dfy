/** One minidump, byte for byte, and what the inspector says of it. */
module MinidumpSample {
  import opened Domain
  import opened Msf
  import opened Minidump
  import opened MinidumpLayout
  import opened MinidumpAcceptance
  import opened Pdb

  const WORDS: seq<nat> := [7, 56, 68, 5, 20, 124, 6, 160, 144]

  function HeaderPart(): (b: seq<byte>)
    ensures |b| == 32
  {
    SIGNATURE + Le32(0xa793) + Le32(3) + Le32(32) + Zeros(16)
  }

  function SystemPart(): (b: seq<byte>)
    ensures |b| == 56
  {
    [9, 0] + Zeros(54)
  }

  function MemoryPart(): (b: seq<byte>)
    ensures |b| == 20
  {
    Le32(1) + Zeros(8) + Le32(4) + Le32(304)
  }

  function ExceptionPart(): (b: seq<byte>)
    ensures |b| == 160
  {
    Zeros(8) + Le32(0xc000_0005) + Zeros(12) + Le32(0x40_1000) + Zeros(132)
  }

  /** Three streams: system information, a memory list with one range of four bytes, and an exception record. */
  function SmallDump(): (file: seq<byte>)
    ensures |file| == 308
  {
    HeaderPart() + Bytes(WORDS) + SystemPart() + MemoryPart() + ExceptionPart() + [1, 2, 3, 4]
  }

  lemma Parts()
    ensures var f := SmallDump();
            && f[0..32] == HeaderPart() && f[32..68] == Bytes(WORDS) && f[68..124] == SystemPart() && f[124..144] == MemoryPart()
            && f[144..304] == ExceptionPart()
  {
    hide HeaderPart, SystemPart, MemoryPart, ExceptionPart, Bytes;
  }

  lemma {:induction false} Known4(file: seq<byte>, at: nat, v: nat)
    requires at + 4 <= |file| && v < 0x1_0000_0000 && file[at..at + 4] == Le32(v)
    ensures LeAt(file, at, 4) == v
  {
    Number4(file, at);
  }

  lemma {:induction false} Known8(file: seq<byte>, at: nat, v: nat)
    requires at + 8 <= |file| && LeAt(file, at, 4) == v && LeAt(file, at + 4, 4) == 0
    ensures LeAt(file, at, 8) == v
  {
    LeSplit(file, at, 4, 4);
  }

  lemma {:induction false} Zero4(file: seq<byte>, at: nat)
    requires at + 4 <= |file| && file[at..at + 4] == Zeros(4)
    ensures LeAt(file, at, 4) == 0
  {
    Number4(file, at);
  }

  lemma HeaderBytes()
    ensures var f := SmallDump();
            && f[..4] == SIGNATURE && f[4..8] == Le32(0xa793) && f[8..12] == Le32(3) && f[12..16] == Le32(32)
            && f[24..28] == Zeros(4) && f[28..32] == Zeros(4)
  {
    Parts();
    hide Le32, SmallDump;
    var f, h := SmallDump(), HeaderPart();
    assert h[0..4] == SIGNATURE && h[4..8] == Le32(0xa793) && h[8..12] == Le32(3) && h[12..16] == Le32(32);
    assert h[24..28] == Zeros(4) && h[28..32] == Zeros(4);
    hide HeaderPart;
    Field(f, 0, 32, 0, 4);
    Field(f, 0, 32, 4, 8);
    Field(f, 0, 32, 8, 12);
    Field(f, 0, 32, 12, 16);
    Field(f, 0, 32, 24, 28);
    Field(f, 0, 32, 28, 32);
  }

  lemma MemoryBytes()
    ensures var f := SmallDump();
            && f[124..128] == Le32(1) && f[128..132] == Zeros(4) && f[132..136] == Zeros(4)
            && f[136..140] == Le32(4) && f[140..144] == Le32(304)
  {
    Parts();
    hide Le32, SmallDump;
    var f, m := SmallDump(), MemoryPart();
    assert m[0..4] == Le32(1) && m[4..8] == Zeros(4) && m[8..12] == Zeros(4) && m[12..16] == Le32(4) && m[16..20] == Le32(304);
    hide MemoryPart;
    Field(f, 124, 20, 0, 4);
    Field(f, 124, 20, 4, 8);
    Field(f, 124, 20, 8, 12);
    Field(f, 124, 20, 12, 16);
    Field(f, 124, 20, 16, 20);
  }

  lemma ExceptionBytes()
    ensures var f := SmallDump();
            && f[152..156] == Le32(0xc000_0005) && f[168..172] == Le32(0x40_1000) && f[172..176] == Zeros(4) && f[176..180] == Zeros(4)
  {
    Parts();
    hide Le32, SmallDump;
    var f, x := SmallDump(), ExceptionPart();
    assert x[8..12] == Le32(0xc000_0005) && x[24..28] == Le32(0x40_1000) && x[28..32] == Zeros(4) && x[32..36] == Zeros(4);
    hide ExceptionPart;
    Field(f, 144, 160, 8, 12);
    Field(f, 144, 160, 24, 28);
    Field(f, 144, 160, 28, 32);
    Field(f, 144, 160, 32, 36);
  }

  lemma SampleHeader()
    ensures var f := SmallDump();
            && HeaderGood(f) && LeAt(f, 8, 4) == 3 && LeAt(f, 12, 4) == 32 && LeAt(f, 24, 8) == 0
  {
    hide SmallDump;
    var f := SmallDump();
    HeaderBytes();
    assert f[4] == f[4..8][0] == Le32(0xa793)[0] == 0x93 && f[5] == f[4..8][1] == Le32(0xa793)[1] == 0xa7;
    Digit(f, 4, 1);
    Digit(f, 5, 0);
    hide LeAt, Le32;
    Known4(f, 8, 3);
    Known4(f, 12, 32);
    Zero4(f, 24);
    Zero4(f, 28);
    Known8(f, 24, 0);
  }

  lemma SampleWord(i: nat)
    requires i < 9
    ensures LeAt(SmallDump(), 32 + 4 * i, 4) == WORDS[i]
  {
    hide SmallDump, LeAt, Le32, Bytes, U32;
    var f := SmallDump();
    Parts();
    WordAt(WORDS, i);
    Field(f, 32, 36, 4 * i, 4 * i + 4);
    Number4(f, 32 + 4 * i);
  }

  lemma SampleDirectory()
    ensures var f := SmallDump();
            && DirectoryInside(f) && StreamCount(f) == 3
            && StreamAt(f, 0) == Entry(7, 56, 68) && StreamAt(f, 1) == Entry(5, 20, 124) && StreamAt(f, 2) == Entry(6, 160, 144)
  {
    hide SmallDump, LeAt;
    SampleHeader();
    SampleWord(0);
    SampleWord(1);
    SampleWord(2);
    SampleWord(3);
    SampleWord(4);
    SampleWord(5);
    SampleWord(6);
    SampleWord(7);
    SampleWord(8);
  }

  lemma SystemSample()
    ensures SystemGood(SmallDump(), Entry(7, 56, 68)) && LeAt(SmallDump(), 68, 2) == 9
  {
    hide SmallDump;
    var f := SmallDump();
    Parts();
    assert f[68] == f[68..124][0] == 9 && f[69] == f[68..124][1] == 0;
    Digit(f, 68, 1);
    Digit(f, 69, 0);
    hide LeAt;
  }

  lemma MemorySample()
    ensures var f, e := SmallDump(), Entry(5, 20, 124);
            MemoryGood(f, e) && CapturedIn(f, e) == 4 && RangesIn(f, e) == 1
  {
    hide SmallDump, LeAt, Le32;
    var f := SmallDump();
    MemoryBytes();
    Known4(f, 124, 1);
    Zero4(f, 128);
    Zero4(f, 132);
    Known8(f, 128, 0);
    Known4(f, 136, 4);
    Known4(f, 140, 304);
    assert SizeAt(f, 128, 0, 4) == 4;
    assert SizesFrom(f, 128, 1, 1, 4) == 0;
    assert SizesFrom(f, 128, 0, 1, 4) == 4;
  }

  lemma ExceptionSample()
    ensures var f, e := SmallDump(), Entry(6, 160, 144);
            ExceptionGood(f, e) && LeAt(f, 152, 4) == 0xc000_0005 && LeAt(f, 168, 8) == 0x40_1000
  {
    hide SmallDump, LeAt, Le32;
    var f := SmallDump();
    ExceptionBytes();
    Known4(f, 152, 0xc000_0005);
    Known4(f, 168, 0x40_1000);
    Zero4(f, 172);
    Known8(f, 168, 0x40_1000);
    Zero4(f, 176);
  }

  lemma SampleStreams()
    ensures var f := SmallDump();
            && SystemGood(f, Entry(7, 56, 68)) && LeAt(f, 68, 2) == 9
            && MemoryGood(f, Entry(5, 20, 124)) && CapturedIn(f, Entry(5, 20, 124)) == 4 && RangesIn(f, Entry(5, 20, 124)) == 1
            && ExceptionGood(f, Entry(6, 160, 144)) && LeAt(f, 152, 4) == 0xc000_0005 && LeAt(f, 168, 8) == 0x40_1000
  {
    hide SmallDump, LeAt, CapturedIn, RangesIn, MemoryGood, SystemGood, ExceptionGood;
    SystemSample();
    MemorySample();
    ExceptionSample();
  }

  lemma SampleTotals()
    ensures DirectoryInside(SmallDump()) && CapturedFrom(SmallDump(), 0) == 4 && RangesFrom(SmallDump(), 0) == 1
  {
    hide SmallDump, StreamAt, StreamCount, LeAt, SizesFrom, Count32At, Count64At, SizeAt;
    var f := SmallDump();
    SampleDirectory();
    SampleStreams();
    assert CapturedFrom(f, 3) == 0 && RangesFrom(f, 3) == 0;
    assert CapturedFrom(f, 2) == 0 && RangesFrom(f, 2) == 0;
    assert CapturedFrom(f, 1) == 4 && RangesFrom(f, 1) == 1;
  }

  lemma SampleLaidOut()
    ensures LaidOutDump(SmallDump())
  {
    hide SmallDump, StreamAt, LeAt, SizesFrom, CapturedFrom, MemoryGood, SystemGood, ExceptionGood, HeaderGood;
    SampleHeader();
    SampleDirectory();
    SampleStreams();
    SampleTotals();
    var f := SmallDump();
    forall k | 0 <= k < StreamCount(f) ensures EntryInside(f, StreamAt(f, k)) && StreamGood(f, StreamAt(f, k)) {
      assert k == 0 || k == 1 || k == 2;
    }
  }

  /** An accepted file and all its facts. */
  lemma SampleAccepted(decode: Decoder)
    ensures Inspect(SmallDump(), decode) ==
            Fine(Facts(Partial, 0, 4, 1, true, false, Some("x86_64"), Some(Exception(0xc000_0005, 0x40_1000)), None))
  {
    hide SmallDump, StreamAt, LeAt, SizesFrom, CapturedFrom, RangesFrom, MemoryGood, SystemGood, ExceptionGood, HeaderGood, Inspect, LaidOutDump,
         ModulesAre;
    var f := SmallDump();
    SampleHeader();
    SampleDirectory();
    SampleStreams();
    SampleTotals();
    SampleLaidOut();
    AcceptedExactly(f, decode);
    assert Listed(f, 7, StreamAt(f, 0)) && Listed(f, 5, StreamAt(f, 1)) && Listed(f, 6, StreamAt(f, 2));
    forall kind, e | Listed(f, kind, e) ensures kind == 7 || kind == 5 || kind == 6 {
      var k :| 0 <= k < StreamCount(f) && StreamAt(f, k) == e && e.kind == kind;
      assert k == 0 || k == 1 || k == 2;
    }
  }
}
