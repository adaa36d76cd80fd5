/** The 512-byte ustar header of one regular file. */
module TarHeader {
  import opened Domain
  import opened TarFields

  const BLOCK_SIZE := 512
  const NAME_BYTES := 100
  const MAGIC: seq<byte> := [0x75, 0x73, 0x74, 0x61, 0x72, 0x00, 0x30, 0x30]
  const REGULAR: byte := 0x30
  const SLASH: byte := 0x2f

  function Zeros(n: nat): (r: seq<byte>)
    ensures |r| == n && AllZero(r)
  {
    seq(n, _ => 0)
  }

  predicate AllZero(s: seq<byte>) {
    forall k :: 0 <= k < |s| ==> s[k] == 0
  }

  function Sum(s: seq<byte>): nat {
    if s == [] then 0 else Sum(s[..|s| - 1]) + s[|s| - 1]
  }

  lemma {:induction false} SumBound(s: seq<byte>)
    ensures Sum(s) <= 255 * |s|
  {
    if s != [] {
      SumBound(s[..|s| - 1]);
    }
  }

  lemma {:induction false} SumJoin(a: seq<byte>, b: seq<byte>)
    ensures Sum(a + b) == Sum(a) + Sum(b)
    decreases |b|
  {
    if b == [] {
      assert a + b == a;
    } else {
      assert (a + b)[..|a + b| - 1] == a + b[..|b| - 1];
      SumJoin(a, b[..|b| - 1]);
    }
  }

  /** `name.split("/")`. */
  function Components(name: seq<byte>): (r: seq<seq<byte>>)
    ensures r != []
  {
    if name == [] then [[]]
    else
      var rest := Components(name[1..]);
      if name[0] == SLASH then [[]] + rest else [[name[0]] + rest[0]] + rest[1..]
  }

  predicate IsDriveLetter(c: byte) {
    0x41 <= c <= 0x5a || 0x61 <= c <= 0x7a
  }

  /** A relative path that stays below its root. Names are UTF-8 bytes, and every rule is about ASCII bytes. */
  predicate SafeName(name: seq<byte>) {
    && |name| > 0 && 0 !in name && 0x5c !in name
    && name[0] != SLASH && !(|name| >= 2 && IsDriveLetter(name[0]) && name[1] == 0x3a)
    && forall c :: c in Components(name) ==> c != [] && c != [0x2e, 0x2e]
  }

  const BOM: seq<byte> := [0xef, 0xbb, 0xbf]

  /** `TextDecoder` drops one leading byte order mark. */
  function Decoded(name: seq<byte>): seq<byte> {
    if BOM <= name then name[3..] else name
  }

  function NameField(name: seq<byte>): seq<byte>
    requires |name| <= NAME_BYTES
  {
    name + Zeros(NAME_BYTES - |name|)
  }

  function OctalField(v: nat, n: nat): seq<byte> {
    Octal(v, n) + [0]
  }

  function Prefix(name: seq<byte>, size: seq<byte>, mtime: nat, mode: nat): (r: seq<byte>)
    requires |name| <= NAME_BYTES && |size| == 12
    ensures |r| == 148
  {
    NameField(name) + OctalField(mode, 7) + OctalField(0, 7) + OctalField(0, 7) + size + OctalField(mtime, 11)
  }

  function Suffix(): (r: seq<byte>)
    ensures |r| == 356
  {
    [REGULAR] + Zeros(100) + MAGIC + Zeros(247)
  }

  /** The sum of a header whose checksum field reads as eight spaces. */
  function HeaderSum(block: seq<byte>): nat
    requires |block| == BLOCK_SIZE
  {
    Sum(block[..148]) + 256 + Sum(block[156..])
  }

  function ChecksumField(sum: nat): (r: seq<byte>)
    ensures |r| == 8
  {
    Octal(sum, 6) + [0, 0x20]
  }

  function HeaderBlock(name: seq<byte>, size: seq<byte>, mtime: nat, mode: nat): (r: seq<byte>)
    requires |name| <= NAME_BYTES && |size| == 12
    ensures |r| == BLOCK_SIZE
  {
    Prefix(name, size, mtime, mode)
    + ChecksumField(Sum(Prefix(name, size, mtime, mode)) + 256 + Sum(Suffix()))
    + Suffix()
  }

  method Put(block: array<byte>, offset: nat, bytes: seq<byte>)
    requires offset + |bytes| <= block.Length
    modifies block
    ensures block[..] == old(block[..])[..offset] + bytes + old(block[..])[offset + |bytes|..]
  {
    for k := 0 to |bytes|
      invariant forall j :: 0 <= j < block.Length ==>
                  block[j] == if offset <= j < offset + k then bytes[j - offset] else old(block[j])
    {
      block[offset + k] := bytes[k];
    }
  }

  /** Sets the field that starts where the header is still blank. */
  method PutField(block: array<byte>, offset: nat, bytes: seq<byte>, ghost done: seq<byte>)
    requires |done| <= block.Length && block[..] == done + Zeros(block.Length - |done|)
    requires offset == |done| && offset + |bytes| <= block.Length
    modifies block
    ensures block[..] == done + bytes + Zeros(block.Length - |done| - |bytes|)
  {
    Put(block, offset, bytes);
  }

  /** Overwrites the middle of a block. */
  method PutWithin(block: array<byte>, offset: nat, ghost before: seq<byte>, ghost was: seq<byte>, ghost rest: seq<byte>, bytes: seq<byte>)
    requires block[..] == before + was + rest && |was| == |bytes| && offset == |before|
    modifies block
    ensures block[..] == before + bytes + rest
  {
    Put(block, offset, bytes);
  }

  lemma Padded(done: seq<byte>, n: nat, m: nat)
    ensures done + Zeros(n + m) == done + Zeros(n) + Zeros(m)
  {}

  /** `encodeHeaderBlock`: fields set in place, the checksum taken with its own field blank, then written. */
  method EncodeHeaderBlock(name: seq<byte>, size: seq<byte>, mtime: nat, mode: nat) returns (r: seq<byte>)
    requires |name| <= NAME_BYTES && |size| == 12
    ensures r == HeaderBlock(name, size, mtime, mode)
  {
    hide Zeros, Octal, Sum;
    var block := new byte[BLOCK_SIZE](_ => 0);
    assert block[..] == [] + Zeros(BLOCK_SIZE) by { assert AllZero(block[..]); AllZeroIs(block[..]); }
    PutField(block, 0, name, []);
    assert [] + name == name;
    Padded(name, NAME_BYTES - |name|, 412);
    ghost var done := NameField(name);
    PutField(block, 100, OctalField(mode, 7), done);
    done := done + OctalField(mode, 7);
    PutField(block, 108, OctalField(0, 7), done);
    done := done + OctalField(0, 7);
    PutField(block, 116, OctalField(0, 7), done);
    done := done + OctalField(0, 7);
    PutField(block, 124, size, done);
    done := done + size;
    PutField(block, 136, OctalField(mtime, 11), done);
    done := done + OctalField(mtime, 11);
    assert done == Prefix(name, size, mtime, mode);
    r := Checksummed(block, done);
  }

  /** The tail of `encodeHeaderBlock`, from the blank checksum on. */
  method Checksummed(block: array<byte>, ghost prefix: seq<byte>) returns (r: seq<byte>)
    requires block.Length == BLOCK_SIZE && |prefix| == 148 && block[..] == prefix + Zeros(364)
    modifies block
    ensures r == prefix + ChecksumField(Sum(prefix) + 256 + Sum(Suffix())) + Suffix()
  {
    hide Zeros, Octal, Sum;
    var blank := seq(8, _ => 0x20);
    PutField(block, 148, blank, prefix);
    ghost var done := prefix + blank;
    PutField(block, 156, [REGULAR], done);
    done := done + [REGULAR];
    Padded(done, 100, 255);
    PutField(block, 257, MAGIC, done + Zeros(100));
    assert block[..] == prefix + blank + Suffix();
    var sum := SumBlock(block);
    assert prefix + blank + Suffix() == prefix + blank[..6] + (blank[6..] + Suffix());
    SumJoin(prefix + blank, Suffix());
    SumJoin(prefix, blank);
    BlankSum(blank);
    PutWithin(block, 148, prefix, blank[..6], blank[6..] + Suffix(), Octal(sum, 6));
    PutWithin(block, 154, prefix + Octal(sum, 6), blank[6..], Suffix(), [0, 0x20]);
    r := block[..];
    assert r == prefix + ChecksumField(sum) + Suffix();
  }

  method SumBlock(block: array<byte>) returns (sum: nat)
    ensures sum == Sum(block[..])
  {
    sum := 0;
    for k := 0 to block.Length
      invariant sum == Sum(block[..k])
    {
      assert block[..k + 1] == block[..k] + [block[k]];
      sum := sum + block[k];
    }
    assert block[..block.Length] == block[..];
  }

  lemma AllZeroIs(s: seq<byte>)
    requires AllZero(s)
    ensures s == Zeros(|s|)
  {}

  lemma {:induction false} BlankSum(blank: seq<byte>)
    requires forall k :: 0 <= k < |blank| ==> blank[k] == 0x20
    ensures Sum(blank) == 32 * |blank|
  {
    if blank != [] {
      BlankSum(blank[..|blank| - 1]);
    }
  }

  /** `verifyChecksum`: the refusal, if any. */
  function ChecksumProblem(block: seq<byte>): Option<ErrorCode>
    requires |block| == BLOCK_SIZE
  {
    if !AllOctal(block[148..154]) || block[154] != 0 || block[155] != 0x20 then Some(InvalidInput)
    else if OctalValue(block[148..154]) != HeaderSum(block) then Some(IntegrityFailure)
    else None
  }

  method VerifyChecksum(block: seq<byte>) returns (problem: Option<ErrorCode>)
    requires |block| == BLOCK_SIZE
    ensures problem == ChecksumProblem(block)
  {
    var stored: nat := 0;
    for k := 0 to 6
      invariant AllOctal(block[148..148 + k]) && stored == OctalValue(block[148..148 + k])
    {
      var c := block[148 + k];
      if c < 0x30 || c > 0x37 {
        assert block[148..154][k] == c;
        return Some(InvalidInput);
      }
      assert block[148..148 + k + 1] == block[148..148 + k] + [c];
      OctalValueSnoc(block[148..148 + k], c);
      stored := stored * 8 + (c - 0x30);
    }
    if block[154] != 0 || block[155] != 0x20 { return Some(InvalidInput); }
    var sum := 0;
    for k := 0 to BLOCK_SIZE
      invariant k <= 148 ==> sum == Sum(block[..k])
      invariant 148 <= k <= 156 ==> sum == Sum(block[..148]) + 32 * (k - 148)
      invariant 156 <= k ==> sum == Sum(block[..148]) + 256 + Sum(block[156..k])
    {
      if k < 148 {
        assert block[..k + 1] == block[..k] + [block[k]];
      } else if k >= 156 {
        assert block[156..k + 1] == block[156..k] + [block[k]];
      }
      var c: nat := if k >= 148 && k < 156 then 0x20 else block[k];
      sum := sum + c;
    }
    assert block[156..BLOCK_SIZE] == block[156..];
    problem := if sum != stored then Some(IntegrityFailure) else None;
  }

  datatype Header = Header(name: seq<byte>, size: nat)

  /** The bytes before the first NUL of the name field. */
  function NameEnd(field: seq<byte>): (k: nat)
    ensures k <= |field| && (k < |field| ==> field[k] == 0) && 0 !in field[..k]
  {
    if field == [] || field[0] == 0 then 0
    else
      var k := NameEnd(field[1..]);
      assert field[..k + 1] == [field[0]] + field[1..][..k];
      k + 1
  }

  function ParseName(utf8: seq<byte> -> bool, field: seq<byte>, maxNameLength: nat): Result<seq<byte>> {
    var end := NameEnd(field);
    if !AllZero(field[end..]) then Err(InvalidInput)
    else if end > maxNameLength then Err(InvalidInput)
    else if !utf8(field[..end]) then Err(InvalidInput)
    else if !SafeName(Decoded(field[..end])) then Err(InvalidInput)
    else Ok(Decoded(field[..end]))
  }

  predicate WellFormedFields(block: seq<byte>)
    requires |block| == BLOCK_SIZE
  {
    && ParseOctal(block[100..108]).Some? && ParseOctal(block[108..116]).Some?
    && ParseOctal(block[116..124]).Some? && ParseOctal(block[136..148]).Some?
  }

  /** `parseHeaderBlock`. */
  function ParseHeader(utf8: seq<byte> -> bool, block: seq<byte>, maxNameLength: nat): Result<Header>
    requires |block| == BLOCK_SIZE
  {
    if ChecksumProblem(block).Some? then Err(ChecksumProblem(block).value)
    else if block[257..265] != MAGIC then Err(InvalidInput)
    else if block[156] != REGULAR && block[156] != 0 then Err(InvalidInput)
    else if !AllZero(block[157..257]) || !AllZero(block[329..500]) then Err(InvalidInput)
    else
      var name :- ParseName(utf8, block[..100], maxNameLength);
      if !WellFormedFields(block) then Err(InvalidInput)
      else
        var size := ParseSize(block[124..136]);
        if size.None? then Err(InvalidInput) else Ok(Header(name, size.value))
  }

  /** The name a written header reads back as. */
  lemma NameReadsBack(utf8: seq<byte> -> bool, name: seq<byte>, maxNameLength: nat)
    requires SafeName(name) && |name| <= NAME_BYTES && utf8(name)
    ensures ParseName(utf8, NameField(name), maxNameLength) ==
            if |name| <= maxNameLength && SafeName(Decoded(name)) then Ok(Decoded(name)) else Err(InvalidInput)
  {
    assert NameField(name)[..|name|] == name;
    NameEndIs(NameField(name), |name|);
    assert NameField(name)[|name|..] == Zeros(NAME_BYTES - |name|);
  }

  lemma PrefixSlices(name: seq<byte>, size: seq<byte>, mtime: nat, mode: nat)
    requires |name| <= NAME_BYTES && |size| == 12
    ensures var p := Prefix(name, size, mtime, mode);
            && p[..100] == NameField(name) && p[100..108] == OctalField(mode, 7) && p[108..116] == OctalField(0, 7)
            && p[116..124] == OctalField(0, 7) && p[124..136] == size && p[136..148] == OctalField(mtime, 11)
  {}

  lemma SuffixSlices()
    ensures var s := Suffix();
            && s[0] == REGULAR && AllZero(s[1..101])
            && s[101..109] == MAGIC
            && AllZero(s[173..344])
  {
    var s := Suffix();
    assert s[1..101] == Zeros(100);
    assert s[101..109] == MAGIC;
    assert s[109..] == Zeros(247);
    assert s[109..356] == s[109..];
    SubSlice(s, 109, 356, 64, 235);
    assert AllZero(s[109..356]);
    assert AllZero(s[173..344]);
  }

  lemma HeaderSlices(name: seq<byte>, size: seq<byte>, mtime: nat, mode: nat)
    requires |name| <= NAME_BYTES && |size| == 12
    ensures var h := HeaderBlock(name, size, mtime, mode);
            && h[..148] == Prefix(name, size, mtime, mode) && h[156..] == Suffix()
            && h[148..156] == ChecksumField(HeaderSum(h))
  {
    hide Sum, Prefix, Suffix, Octal;
    var h := HeaderBlock(name, size, mtime, mode);
    assert h[..148] == Prefix(name, size, mtime, mode);
    assert h[156..] == Suffix();
  }

  lemma SubSlice(h: seq<byte>, a: nat, b: nat, i: nat, j: nat)
    requires a <= b <= |h| && i <= j <= b - a
    ensures h[a + i..a + j] == h[a..b][i..j]
  {
    forall k | 0 <= k < j - i ensures h[a + i..a + j][k] == h[a..b][i..j][k] {
      assert h[a..b][i + k] == h[a + i + k];
    }
  }

  lemma WrittenChecksum(h: seq<byte>)
    requires |h| == BLOCK_SIZE && h[148..156] == ChecksumField(HeaderSum(h))
    ensures ChecksumProblem(h).None?
  {
    SumIsSmall(h);
    Capacities();
    SubSlice(h, 148, 156, 0, 6);
    assert h[148..154] == Octal(HeaderSum(h), 6);
    assert h[154] == h[148..156][6] && h[155] == h[148..156][7];
    OctalRoundTrip(HeaderSum(h), 6);
  }

  lemma SumIsSmall(h: seq<byte>)
    requires |h| == BLOCK_SIZE
    ensures HeaderSum(h) < 262144
  {
    SumBound(h[..148]);
    SumBound(h[156..]);
  }

  /** A written header reads back as its name, short of a byte order mark, and its size. */
  lemma HeaderReadsBack(utf8: seq<byte> -> bool, name: seq<byte>, size: nat, mtime: nat, mode: nat, maxNameLength: nat)
    requires SafeName(name) && |name| <= NAME_BYTES && utf8(name)
    requires size < BASE256_SIZE_LIMIT && mtime <= OCTAL_SIZE_LIMIT && mode <= 4095
    ensures ParseHeader(utf8, HeaderBlock(name, EncodeSize(size).value, mtime, mode), maxNameLength) ==
            if |name| <= maxNameLength && SafeName(Decoded(name)) then Ok(Header(Decoded(name), size)) else Err(InvalidInput)
  {
    hide HeaderBlock, Prefix, Suffix, ChecksumProblem, ParseName, ParseOctal, ParseSize, EncodeSize, SafeName, NameField, Octal;
    var field := EncodeSize(size).value;
    var h := HeaderBlock(name, field, mtime, mode);
    HeaderSlices(name, field, mtime, mode);
    WrittenChecksum(h);
    PrefixSlices(name, field, mtime, mode);
    SuffixSlices();
    assert h[..100] == h[..148][..100];
    SubSlice(h, 0, 148, 100, 108);
    SubSlice(h, 0, 148, 108, 116);
    SubSlice(h, 0, 148, 116, 124);
    SubSlice(h, 0, 148, 124, 136);
    SubSlice(h, 0, 148, 136, 148);
    SubSlice(h, 156, 512, 1, 101);
    SubSlice(h, 156, 512, 101, 109);
    SubSlice(h, 156, 512, 173, 344);
    assert h[156] == Suffix()[0];
    NameReadsBack(utf8, name, maxNameLength);
    Capacities();
    FieldRoundTrip(mode, 7);
    FieldRoundTrip(0, 7);
    FieldRoundTrip(mtime, 11);
    SizeRoundTrip(size);
    assert h[156..512] == Suffix();
    assert h[157..257] == Suffix()[1..101] && h[329..500] == Suffix()[173..344];
  }

  /** `parseHeaderBlock`, with its scans as loops. */
  method ParseHeaderBlock(utf8: seq<byte> -> bool, block: seq<byte>, maxNameLength: nat) returns (r: Result<Header>)
    requires |block| == BLOCK_SIZE
    ensures r == ParseHeader(utf8, block, maxNameLength)
  {
    var problem := VerifyChecksum(block);
    if problem.Some? { return Err(problem.value); }
    if block[257..265] != MAGIC { return Err(InvalidInput); }
    if block[156] != REGULAR && block[156] != 0 { return Err(InvalidInput); }
    var link := ScanZeros(block, 157, 257);
    var device := ScanZeros(block, 329, 500);
    if !link || !device { return Err(InvalidInput); }
    var nameEnd := 0;
    while nameEnd < NAME_BYTES && block[nameEnd] != 0
      invariant nameEnd <= NAME_BYTES && 0 !in block[..nameEnd]
    {
      assert block[..nameEnd + 1] == block[..nameEnd] + [block[nameEnd]];
      nameEnd := nameEnd + 1;
    }
    NameEndIs(block[..100], nameEnd);
    var clean := ScanZeros(block, nameEnd, NAME_BYTES);
    assert block[..100][nameEnd..] == block[nameEnd..100] && block[..100][..nameEnd] == block[..nameEnd];
    if !clean || nameEnd > maxNameLength || !utf8(block[..nameEnd]) { return Err(InvalidInput); }
    var name := Decoded(block[..nameEnd]);
    if !SafeName(name) { return Err(InvalidInput); }
    var mode := ParseOctalField(block[100..108]);
    var uid := ParseOctalField(block[108..116]);
    var gid := ParseOctalField(block[116..124]);
    var mtime := ParseOctalField(block[136..148]);
    if mode.None? || uid.None? || gid.None? || mtime.None? { return Err(InvalidInput); }
    var size := ParseSize(block[124..136]);
    r := if size.None? then Err(InvalidInput) else Ok(Header(name, size.value));
  }

  lemma NameEndIs(field: seq<byte>, k: nat)
    requires k <= |field| && 0 !in field[..k] && (k < |field| ==> field[k] == 0)
    ensures NameEnd(field) == k
  {
    var m := NameEnd(field);
    assert forall j :: 0 <= j < k ==> field[j] == field[..k][j] && field[j] in field[..k];
    assert forall j :: 0 <= j < m ==> field[j] == field[..m][j] && field[j] in field[..m];
  }

  method ScanZeros(block: seq<byte>, from: nat, to: nat) returns (clean: bool)
    requires from <= to <= |block|
    ensures clean == AllZero(block[from..to])
  {
    for k := from to to
      invariant AllZero(block[from..k])
    {
      if block[k] != 0 {
        assert block[from..to][k - from] == block[k];
        return false;
      }
      assert block[from..k + 1] == block[from..k] + [block[k]];
    }
    clean := true;
  }
}
