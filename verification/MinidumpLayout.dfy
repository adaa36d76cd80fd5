/** The minidump format as the inspector means it, said of the bytes of a file: which files are accepted, and what their
    header, directory and streams declare. */
module MinidumpLayout {
  import opened Domain
  import opened Msf
  import opened Minidump

  /** The little-endian number in `n` bytes. */
  function LeAt(file: seq<byte>, at: nat, n: nat): (v: nat)
    requires at + n <= |file|
    decreases n
  {
    if n == 0 then 0 else (file[at] as nat) + 256 * LeAt(file, at + 1, n - 1)
  }

  const SIGNATURE: seq<byte> := [0x4d, 0x44, 0x4d, 0x50]

  // ---- header and directory ----

  predicate HeaderGood(file: seq<byte>) {
    |file| >= 32 && file[..4] == SIGNATURE && LeAt(file, 4, 2) == 0xa793
  }

  function StreamCount(file: seq<byte>): nat
    requires |file| >= 32
  {
    LeAt(file, 8, 4)
  }

  function DirectoryStart(file: seq<byte>): nat
    requires |file| >= 32
  {
    LeAt(file, 12, 4)
  }

  predicate DirectoryInside(file: seq<byte>) {
    && |file| >= 32 && StreamCount(file) <= 4096 && (StreamCount(file) > 0 ==> DirectoryStart(file) >= 32)
    && DirectoryStart(file) + 12 * StreamCount(file) <= |file|
  }

  /** The k-th directory record: type, size, position. */
  function StreamAt(file: seq<byte>, k: nat): Entry
    requires DirectoryInside(file) && k < StreamCount(file)
  {
    var at := DirectoryStart(file) + 12 * k;
    Entry(LeAt(file, at, 4), LeAt(file, at + 4, 4), LeAt(file, at + 8, 4))
  }

  predicate EntryInside(file: seq<byte>, e: Entry) {
    e.dataSize > 0 ==> e.rva + e.dataSize <= |file|
  }

  ghost predicate DirectoryGood(file: seq<byte>) {
    && DirectoryInside(file)
    && (forall k :: 0 <= k < StreamCount(file) ==> EntryInside(file, StreamAt(file, k)))
    && (forall j, k :: 0 <= j < k < StreamCount(file) && StreamAt(file, j).kind == StreamAt(file, k).kind ==>
          StreamAt(file, k).kind !in {4, 5, 6, 7, 9, 16})
  }

  ghost predicate Listed(file: seq<byte>, kind: nat, e: Entry)
    requires DirectoryInside(file)
  {
    exists k :: 0 <= k < StreamCount(file) && StreamAt(file, k) == e && e.kind == kind
  }

  // ---- streams ----

  predicate InfoGood(file: seq<byte>, e: Entry) {
    && EntryInside(file, e) && e.dataSize >= 16
    && var headerSize, entrySize, count := LeAt(file, e.rva, 4), LeAt(file, e.rva + 4, 4), LeAt(file, e.rva + 8, 8);
       headerSize >= 16 && entrySize >= 48 && count <= 65536 && headerSize + count * entrySize <= e.dataSize
  }

  function Count32At(file: seq<byte>, e: Entry): nat {
    if EntryInside(file, e) && e.dataSize >= 4 then LeAt(file, e.rva, 4) else 0
  }

  function Count64At(file: seq<byte>, e: Entry): nat {
    if EntryInside(file, e) && e.dataSize >= 16 then LeAt(file, e.rva, 8) else 0
  }

  /** The size in the i-th 16-byte record from `at` on, `width` bytes wide. */
  function SizeAt(file: seq<byte>, at: nat, i: nat, width: nat): nat {
    if at + 16 * i + 8 + width <= |file| then LeAt(file, at + 16 * i + 8, width) else 0
  }

  /** What the records from the i-th to the n-th declare together. */
  function SizesFrom(file: seq<byte>, at: nat, i: nat, n: nat, width: nat): nat
    requires i <= n
    decreases n - i
  {
    if i == n then 0 else SizeAt(file, at, i, width) + SizesFrom(file, at, i + 1, n, width)
  }

  /** The record's virtual range does not wrap. */
  predicate VirtualGood(file: seq<byte>, at: nat, i: nat, width: nat)
    requires at + 16 * i + 16 <= |file|
  {
    LeAt(file, at + 16 * i, 8) + SizeAt(file, at, i, width) <= UINT64_MAX
  }

  predicate MemoryGood(file: seq<byte>, e: Entry) {
    && EntryInside(file, e) && e.dataSize >= 4
    && var count, at := Count32At(file, e), e.rva + 4;
       && count <= 65536 && 4 + 16 * count <= e.dataSize
       && forall i :: 0 <= i < count ==>
            VirtualGood(file, at, i, 4) && LeAt(file, at + 16 * i + 12, 4) + SizeAt(file, at, i, 4) <= |file|
  }

  predicate Memory64Good(file: seq<byte>, e: Entry) {
    && EntryInside(file, e) && e.dataSize >= 16
    && var count, at := Count64At(file, e), e.rva + 16;
       && count <= 65536 && 16 + 16 * count <= e.dataSize
       && (forall i :: 0 <= i < count ==> VirtualGood(file, at, i, 8))
       && var end := LeAt(file, e.rva + 8, 8) + SizesFrom(file, at, 0, count, 8);
          end <= |file| && end <= UINT64_MAX
  }

  predicate SystemGood(file: seq<byte>, e: Entry) {
    EntryInside(file, e) && e.dataSize >= 56
  }

  predicate ExceptionGood(file: seq<byte>, e: Entry) {
    EntryInside(file, e) && e.dataSize >= 160 && LeAt(file, e.rva + 32, 4) <= 15
  }

  function ModuleCount(file: seq<byte>, e: Entry): nat {
    if EntryInside(file, e) && e.dataSize >= 4 then LeAt(file, e.rva, 4) else 0
  }

  /** The name of the module record at `d`: absent, or an even number of bytes behind its length. */
  predicate NameGood(file: seq<byte>, d: nat)
    requires d + 108 <= |file|
  {
    var rva := LeAt(file, d + 20, 4);
    rva == 0 || (rva + 4 <= |file| && LeAt(file, rva, 4) <= 65536 && LeAt(file, rva, 4) % 2 == 0 && rva + 4 + LeAt(file, rva, 4) <= |file|)
  }

  /** What a module record may cost in output: three bytes a byte of its name, six a byte read of its CodeView record. */
  function ModuleCost(file: seq<byte>, d: nat): nat
    requires d + 108 <= |file| && NameGood(file, d)
  {
    var rva, size, record := LeAt(file, d + 20, 4), LeAt(file, d + 76, 4), LeAt(file, d + 80, 4);
    (if rva == 0 then 0 else 3 * LeAt(file, rva, 4)) + (if record == 0 then 0 else if size > 65536 then 6 * 65536 else 6 * size)
  }

  predicate NamesGood(file: seq<byte>, at: nat, i: nat, n: nat)
  {
    at + 108 * n <= |file| && forall k :: i <= k < n ==> NameGood(file, at + 108 * k)
  }

  function CostFrom(file: seq<byte>, at: nat, i: nat, n: nat): nat
    requires i <= n && NamesGood(file, at, i, n)
    decreases n - i
  {
    if i == n then 0 else ModuleCost(file, at + 108 * i) + CostFrom(file, at, i + 1, n)
  }

  predicate ModulesGood(file: seq<byte>, e: Entry) {
    && EntryInside(file, e) && e.dataSize >= 4
    && var count := ModuleCount(file, e);
       && count <= 4096 && 4 + 108 * count <= e.dataSize
       && NamesGood(file, e.rva + 4, 0, count)
       && 256 * count + CostFrom(file, e.rva + 4, 0, count) <= 4 * 1024 * 1024 - 1024
  }

  predicate StreamGood(file: seq<byte>, e: Entry) {
    && (e.kind == 4 ==> ModulesGood(file, e)) && (e.kind == 5 ==> MemoryGood(file, e)) && (e.kind == 6 ==> ExceptionGood(file, e))
    && (e.kind == 7 ==> SystemGood(file, e)) && (e.kind == 9 ==> Memory64Good(file, e)) && (e.kind == 16 ==> InfoGood(file, e))
  }

  /** What one stream adds to the captured memory, in bytes and in ranges. */
  function CapturedIn(file: seq<byte>, e: Entry): nat {
    if e.kind == 5 then SizesFrom(file, e.rva + 4, 0, Count32At(file, e), 4)
    else if e.kind == 9 then SizesFrom(file, e.rva + 16, 0, Count64At(file, e), 8)
    else 0
  }

  function RangesIn(file: seq<byte>, e: Entry): nat {
    if e.kind == 5 then Count32At(file, e) else if e.kind == 9 then Count64At(file, e) else 0
  }

  /** Over the whole directory. */
  function CapturedFrom(file: seq<byte>, k: nat): nat
    requires DirectoryInside(file) && k <= StreamCount(file)
    decreases StreamCount(file) - k
  {
    if k == StreamCount(file) then 0 else CapturedIn(file, StreamAt(file, k)) + CapturedFrom(file, k + 1)
  }

  function RangesFrom(file: seq<byte>, k: nat): nat
    requires DirectoryInside(file) && k <= StreamCount(file)
    decreases StreamCount(file) - k
  {
    if k == StreamCount(file) then 0 else RangesIn(file, StreamAt(file, k)) + RangesFrom(file, k + 1)
  }

  /** A well-formed minidump. */
  ghost predicate LaidOutDump(file: seq<byte>) {
    && HeaderGood(file) && DirectoryGood(file)
    && (forall k :: 0 <= k < StreamCount(file) ==> StreamGood(file, StreamAt(file, k)))
    && CapturedFrom(file, 0) <= UINT64_MAX
  }

  // ---- fields ----

  lemma {:induction false} Number2(file: seq<byte>, at: nat)
    requires at + 2 <= |file|
    ensures U16(file[at..at + 2]) == LeAt(file, at, 2)
  {
    assert LeAt(file, at + 2, 0) == 0;
    assert LeAt(file, at + 1, 1) == file[at + 1];
  }

  lemma {:induction false} Number4(file: seq<byte>, at: nat)
    requires at + 4 <= |file|
    ensures U32(file[at..at + 4]) == LeAt(file, at, 4) < 0x1_0000_0000
  {
    var b := file[at..at + 4];
    assert U32(b) == (file[at] as nat) + 0x100 * (file[at + 1] as nat) + 0x1_0000 * (file[at + 2] as nat) + 0x100_0000 * (file[at + 3] as nat);
    hide U32;
    Digit(file, at + 3, 0);
    Digit(file, at + 2, 1);
    Digit(file, at + 1, 2);
    Digit(file, at, 3);
    assert LeAt(file, at + 3, 1) == file[at + 3];
    assert LeAt(file, at + 2, 2) == (file[at + 2] as nat) + 256 * (file[at + 3] as nat);
    assert LeAt(file, at + 1, 3) == (file[at + 1] as nat) + 256 * LeAt(file, at + 2, 2);
    assert LeAt(file, at, 4) == (file[at] as nat) + 256 * LeAt(file, at + 1, 3);
  }

  lemma {:induction false} Digit(file: seq<byte>, at: nat, n: nat)
    requires at + n + 1 <= |file|
    ensures LeAt(file, at, n + 1) == (file[at] as nat) + 256 * LeAt(file, at + 1, n)
    ensures LeAt(file, at + n + 1, 0) == 0
  {}

  lemma {:induction false} LeSplit(file: seq<byte>, at: nat, n: nat, m: nat)
    requires at + n + m <= |file| && n == 4
    ensures LeAt(file, at, n + m) == LeAt(file, at, 4) + 0x1_0000_0000 * LeAt(file, at + 4, m)
  {
    Digit(file, at, 3 + m);
    Digit(file, at + 1, 2 + m);
    Digit(file, at + 2, 1 + m);
    Digit(file, at + 3, m);
    Number4(file, at);
    Digit(file, at, 3);
    Digit(file, at + 1, 2);
    Digit(file, at + 2, 1);
    Digit(file, at + 3, 0);
    hide LeAt;
  }

  lemma {:induction false} Number8(file: seq<byte>, at: nat)
    requires at + 8 <= |file|
    ensures U64(file[at..at + 8]) == LeAt(file, at, 8) <= UINT64_MAX
  {
    hide U32, LeAt;
    var b := file[at..at + 8];
    assert b[..4] == file[at..at + 4] && b[4..] == file[at + 4..at + 8];
    Number4(file, at);
    Number4(file, at + 4);
    LeSplit(file, at, 4, 4);
  }

  /** A field of a record that was read. */
  lemma {:induction false} Field(file: seq<byte>, at: nat, n: nat, i: nat, j: nat)
    requires at + n <= |file| && i <= j <= n
    ensures file[at..at + n][i..j] == file[at + i..at + j]
  {
    var a, b := file[at..at + n][i..j], file[at + i..at + j];
    assert |a| == |b|;
    forall k | 0 <= k < |a| ensures a[k] == b[k] {
      assert a[k] == file[at..at + n][i + k];
    }
  }

  lemma Readable(file: seq<byte>, at: nat, n: nat)
    requires n <= MAX_READ && at + n <= UINT64_MAX
    ensures ReadExact(file, at, n) == if at + n <= |file| then Fine(file[at..at + n]) else Failed(Truncated)
  {}

  /** Small numbers are never refused for overflow. */
  lemma Offset(e: Entry, header: nat, index: nat, size: nat)
    requires e.rva < 0x1_0000_0000 && header <= 0x1_0000_0000 && index <= 65536 && 0 < size <= 108
    ensures RecordOffset(e, header, index, size) == Fine(e.rva + header + index * size)
  {
    assert index * size <= 65536 * 108 by { Product(index, 65536, size, 108); }
    Quotient(index, size);
  }

  lemma Product(a: nat, b: nat, c: nat, d: nat)
    requires a <= b && c <= d
    ensures a * c <= b * d
  {
    assert a * c <= b * c;
    assert b * c <= b * d;
  }

  lemma Quotient(a: nat, b: nat)
    requires b > 0 && a * b <= UINT64_MAX
    ensures a <= UINT64_MAX / b
  {
    var q := UINT64_MAX / b;
    assert UINT64_MAX < q * b + b;
    if a > q {
      Product(q + 1, a, b, b);
    }
  }

  lemma ListFits(e: Entry, header: nat, count: nat, size: nat)
    requires e.dataSize < 0x1_0000_0000 && header < 0x1_0000_0000 && 0 < size < 0x1_0000_0000 && count <= 65536
    ensures RequireList(e, header, count, size).Fine? <==> header + count * size <= e.dataSize
  {
    Product(count, 65536, size, 0x1_0000_0000);
    Quotient(count, size);
  }
}
