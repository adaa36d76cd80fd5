/** The ustar format said of the bytes of a block, and which names are safe, said of their segments. */
module TarFormat {
  import opened Domain
  import opened TarFields
  import opened TarHeader

  /** The bytes between two slashes, or between a slash and an end. */
  predicate Segment(name: seq<byte>, i: nat, j: nat) {
    && i <= j <= |name|
    && (i == 0 || name[i - 1] == 0x2f) && (j == |name| || name[j] == 0x2f) && forall k :: i <= k < j ==> name[k] != 0x2f
  }

  ghost predicate HasSegment(name: seq<byte>, part: seq<byte>) {
    exists i: nat, j: nat :: i <= j <= |name| && Segment(name, i, j) && name[i..j] == part
  }

  function FirstSlash(name: seq<byte>): (p: nat)
    ensures p <= |name| && (p < |name| ==> name[p] == 0x2f) && forall k :: 0 <= k < p ==> name[k] != 0x2f
  {
    if name == [] || name[0] == 0x2f then 0 else 1 + FirstSlash(name[1..])
  }

  lemma {:induction false} ComponentsSplit(name: seq<byte>)
    ensures var p := FirstSlash(name);
            Components(name) == [name[..p]] + if p < |name| then Components(name[p + 1..]) else []
  {
    if name != [] && name[0] != 0x2f {
      var rest, q := name[1..], FirstSlash(name[1..]);
      ComponentsSplit(rest);
      assert [name[0]] + rest[..q] == name[..q + 1];
      if q < |rest| { assert rest[q + 1..] == name[q + 2..]; }
    } else if name != [] {
      assert name[..0] == [];
    }
  }

  lemma RestAt(name: seq<byte>, from: nat)
    requires from <= |name|
    ensures forall k :: 0 <= k < |name| - from ==> name[from..][k] == name[from + k]
  {}

  /** Segments behind a slash are the segments of what follows it. */
  lemma {:induction false} SegmentDown(name: seq<byte>, from: nat, i: nat, j: nat)
    requires 0 < from <= i && from <= |name| && name[from - 1] == 0x2f && Segment(name, i, j)
    ensures Segment(name[from..], i - from, j - from) && name[from..][i - from..j - from] == name[i..j]
  {
    RestAt(name, from);
    var rest := name[from..];
    if i > from { assert rest[i - from - 1] == name[i - 1]; }
    if j < |name| { assert rest[j - from] == name[j]; }
    forall k | i - from <= k < j - from ensures rest[k] != 0x2f {
      assert rest[k] == name[from + k];
    }
    SubSlice(name, from, |name|, i - from, j - from);
    assert name[from..|name|] == rest;
  }

  lemma {:induction false} SegmentUp(name: seq<byte>, from: nat, i: nat, j: nat)
    requires 0 < from <= |name| && name[from - 1] == 0x2f && Segment(name[from..], i, j)
    ensures Segment(name, from + i, from + j) && name[from + i..from + j] == name[from..][i..j]
  {
    RestAt(name, from);
    var rest := name[from..];
    if i > 0 { assert rest[i - 1] == name[from + i - 1]; }
    if j < |rest| { assert rest[j] == name[from + j]; }
    forall k | from + i <= k < from + j ensures name[k] != 0x2f {
      assert rest[k - from] == name[k];
    }
    SubSlice(name, from, |name|, i, j);
    assert name[from..|name|] == rest;
  }

  lemma FirstSegment(name: seq<byte>, i: nat, j: nat)
    requires Segment(name, i, j) && i <= FirstSlash(name)
    ensures i == 0 && j == FirstSlash(name)
  {}

  lemma FirstIs(name: seq<byte>)
    ensures Segment(name, 0, FirstSlash(name)) && name[0..FirstSlash(name)] == name[..FirstSlash(name)]
  {}

  lemma {:induction false} ComponentsAre(name: seq<byte>, part: seq<byte>)
    ensures part in Components(name) <==> HasSegment(name, part)
    decreases |name|
  {
    hide Components, Segment;
    var p := FirstSlash(name);
    ComponentsSplit(name);
    FirstIs(name);
    if p < |name| { ComponentsAre(name[p + 1..], part); }
    if part in Components(name) && part != name[..p] {
      var rest := name[p + 1..];
      var i: nat, j: nat :| i <= j <= |rest| && Segment(rest, i, j) && rest[i..j] == part;
      SegmentUp(name, p + 1, i, j);
    }
    if HasSegment(name, part) && part != name[..p] {
      var i: nat, j: nat :| i <= j <= |name| && Segment(name, i, j) && name[i..j] == part;
      if i <= p {
        FirstSegment(name, i, j);
      } else {
        SegmentDown(name, p + 1, i, j);
      }
    }
  }

  /** A name is safe exactly when it is not empty, has no NUL and no backslash, starts with neither a slash nor a drive letter
      and a colon, and no segment of it is empty or "..". */
  lemma SafeNameMeans(name: seq<byte>)
    ensures SafeName(name) <==>
            && name != [] && (forall k :: 0 <= k < |name| ==> name[k] != 0 && name[k] != 0x5c)
            && name[0] != 0x2f
            && !(|name| >= 2 && name[1] == 0x3a && (0x41 <= name[0] <= 0x5a || 0x61 <= name[0] <= 0x7a))
            && !HasSegment(name, []) && !HasSegment(name, [0x2e, 0x2e])
  {
    hide Components, HasSegment;
    ComponentsAre(name, []);
    ComponentsAre(name, [0x2e, 0x2e]);
    assert (forall c :: c in Components(name) ==> c != [] && c != [0x2e, 0x2e]) <==> [] !in Components(name) && [0x2e, 0x2e] !in Components(name);
  }

  // ---- the header block ----

  predicate OctalText(s: seq<byte>) {
    forall k :: 0 <= k < |s| ==> 0x30 <= s[k] <= 0x37
  }

  function OctalNumber(s: seq<byte>): nat
    requires OctalText(s)
  {
    if s == [] then 0 else 8 * OctalNumber(s[..|s| - 1]) + (s[|s| - 1] - 0x30)
  }

  function BigEndian(s: seq<byte>): nat {
    if s == [] then 0 else 256 * BigEndian(s[..|s| - 1]) + s[|s| - 1]
  }

  /** A numeric field: `n` octal digits and a NUL. */
  predicate HoldsOctal(h: seq<byte>, at: nat, n: nat, v: nat) {
    at + n < |h| && OctalText(h[at..at + n]) && OctalNumber(h[at..at + n]) == v && h[at + n] == 0
  }

  lemma {:induction false} OctalNumberIs(s: seq<byte>)
    requires OctalText(s)
    ensures AllOctal(s) && OctalNumber(s) == OctalValue(s)
  {
    if s == [] {
      assert OctalValue(s) == 0;
    } else {
      var front := s[..|s| - 1];
      OctalNumberIs(front);
      OctalValueSnoc(front, s[|s| - 1]);
      assert front + [s[|s| - 1]] == s;
    }
  }

  lemma OctalWritten(v: nat, n: nat)
    requires v < Eight.Capacity(n)
    ensures OctalText(Octal(v, n)) && OctalNumber(Octal(v, n)) == v
  {
    OctalRoundTrip(v, n);
    OctalNumberIs(Octal(v, n));
  }

  lemma {:induction false} BigEndianWritten(v: nat, n: nat)
    requires v < TwoFiftySix.Capacity(n)
    ensures BigEndian(Base256(v, n)) == v
    decreases n
  {
    if n > 0 {
      BigEndianWritten(v / 256, n - 1);
      var digits := TwoFiftySix.Digits(v, n);
      assert digits[..n - 1] == TwoFiftySix.Digits(v / 256, n - 1);
      assert Base256(v, n)[..n - 1] == Base256(v / 256, n - 1) by {
        forall k | 0 <= k < n - 1 ensures Base256(v, n)[k] == Base256(v / 256, n - 1)[k] {
          assert digits[k] == digits[..n - 1][k];
        }
      }
    }
  }

  lemma FieldHolds(h: seq<byte>, at: nat, n: nat, v: nat)
    requires at + n < |h| && v < Eight.Capacity(n) && h[at..at + n + 1] == Octal(v, n) + [0]
    ensures HoldsOctal(h, at, n, v)
  {
    OctalWritten(v, n);
    var field := h[at..at + n + 1];
    SubSlice(h, at, at + n + 1, 0, n);
    assert field[0..n] == Octal(v, n);
    assert h[at + n] == field[n];
  }

  /** Where a written header has what: name, mode, owner and group 0, size in octal or big-endian, time, the checksum over the
      block with its own field blank, type "0", the magic "ustar" with version "00", and zeros everywhere else. */
  lemma UstarFields(name: seq<byte>, size: nat, mtime: nat, mode: nat)
    requires |name| <= 100 && size < BASE256_SIZE_LIMIT && mtime <= 8589934591 && mode <= 4095
    ensures var h := HeaderBlock(name, EncodeSize(size).value, mtime, mode);
            && |h| == 512 && h[..|name|] == name && (forall k :: |name| <= k < 100 ==> h[k] == 0)
            && HoldsOctal(h, 100, 7, mode) && HoldsOctal(h, 108, 7, 0) && HoldsOctal(h, 116, 7, 0) && HoldsOctal(h, 136, 11, mtime)
            && (if size <= 8589934591 then HoldsOctal(h, 124, 11, size) else h[124] == 0x80 && BigEndian(h[125..136]) == size)
            && OctalText(h[148..154]) && OctalNumber(h[148..154]) == Sum(h[..148]) + 8 * 32 + Sum(h[156..])
            && h[154] == 0 && h[155] == 0x20 && h[156] == 0x30 && (forall k :: 157 <= k < 257 ==> h[k] == 0)
            && h[257..265] == [0x75, 0x73, 0x74, 0x61, 0x72, 0, 0x30, 0x30] && (forall k :: 265 <= k < 512 ==> h[k] == 0)
  {
    hide HeaderBlock, Sum, Octal, Prefix, Suffix, EncodeSize, HoldsOctal, OctalText, OctalNumber, BigEndian;
    var field := EncodeSize(size).value;
    var h := HeaderBlock(name, field, mtime, mode);
    HeaderSlices(name, field, mtime, mode);
    NumbersHeld(h, name, field, mtime, mode);
    SizeHeld(h, name, size, mtime, mode);
    NameHeld(h, name, field, mtime, mode);
    ChecksumHeld(h);
    SuffixHeld(h);
  }

  lemma NumbersHeld(h: seq<byte>, name: seq<byte>, field: seq<byte>, mtime: nat, mode: nat)
    requires |name| <= 100 && |field| == 12 && mtime <= 8589934591 && mode <= 4095
    requires |h| == 512 && h[..148] == Prefix(name, field, mtime, mode)
    ensures HoldsOctal(h, 100, 7, mode) && HoldsOctal(h, 108, 7, 0) && HoldsOctal(h, 116, 7, 0) && HoldsOctal(h, 136, 11, mtime)
  {
    hide Octal, Prefix, HoldsOctal;
    PrefixSlices(name, field, mtime, mode);
    Capacities();
    assert h[0..148] == h[..148];
    SubSlice(h, 0, 148, 100, 108);
    SubSlice(h, 0, 148, 108, 116);
    SubSlice(h, 0, 148, 116, 124);
    SubSlice(h, 0, 148, 136, 148);
    FieldHolds(h, 100, 7, mode);
    FieldHolds(h, 108, 7, 0);
    FieldHolds(h, 116, 7, 0);
    FieldHolds(h, 136, 11, mtime);
  }

  lemma SizeHeld(h: seq<byte>, name: seq<byte>, size: nat, mtime: nat, mode: nat)
    requires |name| <= 100 && size < BASE256_SIZE_LIMIT && |h| == 512 && h[..148] == Prefix(name, EncodeSize(size).value, mtime, mode)
    ensures if size <= 8589934591 then HoldsOctal(h, 124, 11, size) else h[124] == 0x80 && BigEndian(h[125..136]) == size
  {
    hide Octal, Prefix, HoldsOctal, Base256;
    var field := EncodeSize(size).value;
    PrefixSlices(name, field, mtime, mode);
    Capacities();
    assert h[0..148] == h[..148];
    SubSlice(h, 0, 148, 124, 136);
    if size <= 8589934591 {
      FieldHolds(h, 124, 11, size);
    } else {
      BigEndianWritten(size, 11);
      assert field == [0x80] + Base256(size, 11);
      SubSlice(h, 124, 136, 1, 12);
      assert field[1..12] == Base256(size, 11);
      assert h[124] == h[124..136][0];
    }
  }

  lemma NameHeld(h: seq<byte>, name: seq<byte>, field: seq<byte>, mtime: nat, mode: nat)
    requires |name| <= 100 && |field| == 12 && |h| == 512 && h[..148] == Prefix(name, field, mtime, mode)
    ensures h[..|name|] == name && forall k :: |name| <= k < 100 ==> h[k] == 0
  {
    hide Prefix;
    PrefixSlices(name, field, mtime, mode);
    assert h[..100] == h[..148][..100] == NameField(name);
    assert h[..|name|] == h[..100][..|name|];
    forall k | |name| <= k < 100 ensures h[k] == 0 {
      assert h[k] == h[..100][k];
    }
  }

  lemma ChecksumHeld(h: seq<byte>)
    requires |h| == 512 && h[148..156] == ChecksumField(HeaderSum(h))
    ensures OctalText(h[148..154]) && OctalNumber(h[148..154]) == Sum(h[..148]) + 8 * 32 + Sum(h[156..]) && h[154] == 0 && h[155] == 0x20
  {
    hide Octal, Sum;
    SumIsSmall(h);
    Capacities();
    OctalWritten(HeaderSum(h), 6);
    SubSlice(h, 148, 156, 0, 6);
    assert h[148..156][0..6] == Octal(HeaderSum(h), 6);
    assert h[154] == h[148..156][6] && h[155] == h[148..156][7];
  }

  lemma SuffixHeld(h: seq<byte>)
    requires |h| == 512 && h[156..] == Suffix()
    ensures h[156] == 0x30 && (forall k :: 157 <= k < 257 ==> h[k] == 0)
    ensures h[257..265] == [0x75, 0x73, 0x74, 0x61, 0x72, 0, 0x30, 0x30] && forall k :: 265 <= k < 512 ==> h[k] == 0
  {
    var s := Suffix();
    assert h[156..512] == s;
    forall k | 156 <= k < 512 ensures h[k] == s[k - 156] {}
    assert forall k :: 1 <= k < 101 ==> s[k] == 0;
    assert forall k :: 109 <= k < 356 ==> s[k] == 0;
    SubSlice(h, 156, 512, 101, 109);
    assert s[101..109] == MAGIC;
  }
}
