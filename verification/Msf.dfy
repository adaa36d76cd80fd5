/** Symbol identity of a PDB: MSF blocks reassembled through two levels of indirection, and the debug id they yield. */
module Msf {
  import opened Domain

  const MIN_BLOCK := 512
  const MAX_BLOCK := 1073741824
  const MAX_DIRECTORY := 268435456
  const NIL_STREAM := 0xffff_ffff
  const INFO_HEADER := 28
  const SUPERBLOCK := 56

  /** "Microsoft C/C++ MSF 7.00\r\n", 0x1a, "DS", padded with NULs to 32 bytes. */
  const MAGIC: seq<byte> := [
    0x4d, 0x69, 0x63, 0x72, 0x6f, 0x73, 0x6f, 0x66, 0x74, 0x20, 0x43, 0x2f, 0x43, 0x2b, 0x2b, 0x20,
    0x4d, 0x53, 0x46, 0x20, 0x37, 0x2e, 0x30, 0x30, 0x0d, 0x0a, 0x1a, 0x44, 0x53, 0x00, 0x00, 0x00]

  const INFO_VERSIONS := {19941610, 19950623, 19950814, 19960307, 19970604, 19990604, 20000404, 20030902, 20091201, 20140508}

  // ---- little-endian fields ----

  function U32(b: seq<byte>): (v: nat)
    requires |b| == 4
    ensures v < 0x1_0000_0000
  {
    (b[0] as nat) + 0x100 * (b[1] as nat) + 0x1_0000 * (b[2] as nat) + 0x100_0000 * (b[3] as nat)
  }

  function Le32(v: nat): (b: seq<byte>)
    requires v < 0x1_0000_0000
    ensures |b| == 4 && U32(b) == v
  {
    assert v == v % 0x100 + 0x100 * (v / 0x100);
    assert v / 0x100 == v / 0x100 % 0x100 + 0x100 * (v / 0x1_0000);
    assert v / 0x1_0000 == v / 0x1_0000 % 0x100 + 0x100 * (v / 0x100_0000);
    [v % 0x100, v / 0x100 % 0x100, v / 0x1_0000 % 0x100, v / 0x100_0000]
  }

  lemma U32Injective(a: seq<byte>, b: seq<byte>)
    requires |a| == 4 && |b| == 4 && U32(a) == U32(b)
    ensures a == b
  {
    assert a[3] == b[3] && a[2] == b[2] && a[1] == b[1] && a[0] == b[0];
  }

  function U32At(s: seq<byte>, offset: nat): Option<nat> {
    if offset + 4 <= |s| then Some(U32(s[offset..offset + 4])) else None
  }

  // ---- blocks ----

  /** Where a block starts in the file. */
  function BlockStart(blockSize: nat, block: nat): nat {
    block * blockSize
  }

  lemma NextBlock(blockSize: nat, block: nat)
    ensures BlockStart(blockSize, block + 1) == BlockStart(blockSize, block) + blockSize
  {}

  lemma BlockBound(size: nat, blockSize: nat, block: nat)
    requires blockSize > 0
    ensures block > size / blockSize <==> BlockStart(blockSize, block) > size
  {
    var q := size / blockSize;
    assert q * blockSize <= size < q * blockSize + blockSize;
    if block > q {
      MulMonotone(q + 1, block, blockSize);
    } else {
      MulMonotone(block, q, blockSize);
    }
  }

  lemma MulMonotone(a: nat, b: nat, c: nat)
    requires a <= b
    ensures a * c <= b * c
  {}

  function Min(a: int, b: int): int {
    if a < b then a else b
  }

  /** What a consecutive read amounts to: one slice, exactly when it fits in the file. */
  function Consecutive(file: seq<byte>, blockSize: nat, startBlock: nat, count: nat): Option<seq<byte>> {
    var start := BlockStart(blockSize, startBlock);
    if count == 0 then Some([])
    else if start + count <= |file| then Some(file[start..start + count])
    else None
  }

  /** One block's readable part copied into the output. */
  method CopyInto(file: seq<byte>, start: nat, take: nat, target: array<byte>, offset: nat)
    requires start + take <= |file| && offset + take <= target.Length
    modifies target
    ensures target[..offset + take] == old(target[..offset]) + file[start..start + take]
  {
    for k := 0 to take
      invariant target[..offset] == old(target[..offset])
      invariant target[offset..offset + k] == file[start..start + k]
    {
      target[offset + k] := file[start + k];
      assert target[offset..offset + k + 1] == target[offset..offset + k] + [file[start + k]];
    }
    assert target[..offset + take] == target[..offset] + target[offset..offset + take];
  }

  /** `readConsecutiveBlocksFrom`: block after block into one output array. It is one contiguous slice of the file
      exactly when nothing is asked for or the whole range fits, and otherwise nothing. */
  method ReadConsecutive(file: seq<byte>, blockSize: nat, startBlock: nat, count: nat) returns (r: Option<seq<byte>>)
    requires blockSize > 0
    ensures r == Consecutive(file, blockSize, startBlock, count)
  {
    hide BlockStart;
    var out := new byte[count];
    var copied: nat, block: nat := 0, startBlock;
    ghost var origin := BlockStart(blockSize, startBlock);
    while copied < count
      invariant copied <= count
      invariant copied < count ==>
                  BlockStart(blockSize, block) == origin + copied
                  || (BlockStart(blockSize, block) > |file| && origin + count > |file|)
      invariant copied > 0 ==> origin + copied <= |file|
      invariant out[..copied] == if copied == 0 then [] else file[origin..origin + copied]
    {
      BlockBound(|file|, blockSize, block);
      if block > |file| / blockSize { return None; }
      var start := block * blockSize;
      assert start == BlockStart(blockSize, block) by { StartIs(blockSize, block); }
      var take := Min(blockSize, Min(|file| - start, count - copied));
      if take <= 0 { return None; }
      NextBlock(blockSize, block);
      ghost var before := out[..copied];
      CopyInto(file, start, take, out, copied);
      assert start == origin + copied;
      if copied > 0 { SliceJoin(file, origin, start, start + take); }
      copied := copied + take;
      block := block + 1;
    }
    assert out[..count] == out[..];
    r := Some(out[..]);
  }

  lemma SliceJoin(s: seq<byte>, a: nat, b: nat, c: nat)
    requires a <= b <= c <= |s|
    ensures s[a..b] + s[b..c] == s[a..c]
  {}

  lemma StartIs(blockSize: nat, block: nat)
    ensures block * blockSize == BlockStart(blockSize, block)
  {}

  /** `copyBlockIntoFrom` over the directory blocks: each gives what the file still holds of it, up to what is missing. */
  function Assemble(file: seq<byte>, blockSize: nat, blocks: seq<nat>, remaining: nat): (r: Option<seq<byte>>)
    requires blockSize > 0
    ensures r.Some? ==> |r.value| == remaining
    decreases |blocks|
  {
    if remaining == 0 then Some([])
    else if blocks == [] then None
    else
      var start := BlockStart(blockSize, blocks[0]);
      if start >= |file| then None
      else
        var take := Min(blockSize, Min(|file| - start, remaining));
        var rest := Assemble(file, blockSize, blocks[1..], remaining - take);
        if rest.None? then None else Some(file[start..start + take] + rest.value)
  }

  /** `readStreamPrefix`: every block but the last has to be whole, and the last has to hold what is missing. */
  function Gather(file: seq<byte>, blockSize: nat, blocks: seq<nat>, remaining: nat): (r: Option<seq<byte>>)
    requires blockSize > 0
    ensures r.Some? ==> |r.value| == remaining
    decreases |blocks|
  {
    if remaining == 0 then Some([])
    else if blocks == [] then None
    else
      var start, take := BlockStart(blockSize, blocks[0]), Min(blockSize, remaining);
      if start + take > |file| then None
      else
        var rest := Gather(file, blockSize, blocks[1..], remaining - take);
        if rest.None? then None else Some(file[start..start + take] + rest.value)
  }

  /** The bytes lie in the listed blocks, one block's worth after another. */
  predicate Scattered(file: seq<byte>, blockSize: nat, blocks: seq<nat>, data: seq<byte>)
    requires blockSize > 0
    decreases |blocks|
  {
    if data == [] then true
    else if blocks == [] then false
    else
      var start, take := BlockStart(blockSize, blocks[0]), Min(blockSize, |data|);
      && start + take <= |file| && data[..take] == file[start..start + take]
      && Scattered(file, blockSize, blocks[1..], data[take..])
  }

  /** No block but the last one needed is cut off by the end of the file. */
  predicate NoneShort(file: seq<byte>, blockSize: nat, blocks: seq<nat>, remaining: nat)
    requires blockSize > 0
    decreases |blocks|
  {
    if remaining == 0 then true
    else if blocks == [] then false
    else
      var take := Min(blockSize, remaining);
      BlockStart(blockSize, blocks[0]) + take <= |file| && NoneShort(file, blockSize, blocks[1..], remaining - take)
  }

  lemma {:induction false} GatherIsScattered(file: seq<byte>, blockSize: nat, blocks: seq<nat>, data: seq<byte>)
    requires blockSize > 0
    ensures Gather(file, blockSize, blocks, |data|) == Some(data) <==> Scattered(file, blockSize, blocks, data)
    decreases |blocks|
  {
    hide BlockStart;
    if data != [] && blocks != [] {
      var take := Min(blockSize, |data|);
      assert data == data[..take] + data[take..];
      GatherIsScattered(file, blockSize, blocks[1..], data[take..]);
    }
  }

  /** A directory that lies in its blocks is reassembled exactly. */
  lemma {:induction false} ScatteredAssembles(file: seq<byte>, blockSize: nat, blocks: seq<nat>, data: seq<byte>)
    requires blockSize > 0 && Scattered(file, blockSize, blocks, data)
    ensures Assemble(file, blockSize, blocks, |data|) == Some(data)
    decreases |blocks|
  {
    hide BlockStart;
    if data != [] {
      var take := Min(blockSize, |data|);
      assert data == data[..take] + data[take..];
      ScatteredAssembles(file, blockSize, blocks[1..], data[take..]);
    }
  }

  /** What was reassembled is what lies in the blocks exactly when no block short of the last is cut off; otherwise the
      code goes on and shifts the rest. */
  lemma {:induction false} AssembledIsScattered(file: seq<byte>, blockSize: nat, blocks: seq<nat>, remaining: nat)
    requires blockSize > 0 && Assemble(file, blockSize, blocks, remaining).Some?
    ensures Scattered(file, blockSize, blocks, Assemble(file, blockSize, blocks, remaining).value)
            <==> NoneShort(file, blockSize, blocks, remaining)
    decreases |blocks|
  {
    hide BlockStart;
    if remaining != 0 {
      var start := BlockStart(blockSize, blocks[0]);
      var take := Min(blockSize, Min(|file| - start, remaining));
      var data := Assemble(file, blockSize, blocks, remaining).value;
      AssembledIsScattered(file, blockSize, blocks[1..], remaining - take);
      assert data[take..] == Assemble(file, blockSize, blocks[1..], remaining - take).value;
    }
  }

  lemma BlockWithin(blockSize: nat, block: nat, n: nat)
    requires BlockStart(blockSize, block) < BlockStart(blockSize, n)
    ensures BlockStart(blockSize, block) + blockSize <= BlockStart(blockSize, n)
  {
    NextBlock(blockSize, block);
    if block < n {
      MulMonotone(block + 1, n, blockSize);
    } else {
      MulMonotone(n, block, blockSize);
    }
  }

  /** In a file of whole blocks no block is cut off. */
  lemma {:induction false} WholeBlocks(file: seq<byte>, blockSize: nat, blocks: seq<nat>, remaining: nat, n: nat)
    requires blockSize > 0 && |file| == BlockStart(blockSize, n) && Assemble(file, blockSize, blocks, remaining).Some?
    ensures NoneShort(file, blockSize, blocks, remaining)
    decreases |blocks|
  {
    hide BlockStart, Assemble;
    if remaining != 0 {
      AssembleStep(file, blockSize, blocks, remaining);
      BlockWithin(blockSize, blocks[0], n);
      WholeBlocks(file, blockSize, blocks[1..], remaining - Min(blockSize, remaining), n);
    }
  }

  lemma AssembleStep(file: seq<byte>, blockSize: nat, blocks: seq<nat>, remaining: nat)
    requires blockSize > 0 && remaining > 0 && Assemble(file, blockSize, blocks, remaining).Some?
    ensures blocks != [] && BlockStart(blockSize, blocks[0]) < |file|
    ensures BlockStart(blockSize, blocks[0]) + blockSize <= |file| ==>
              Assemble(file, blockSize, blocks[1..], remaining - Min(blockSize, remaining)).Some?
  {
    hide BlockStart;
  }

  /** A directory whose first block is the file's short last one is accepted, shifted. */
  lemma ShortBlockShifts(file: seq<byte>)
    requires |file| == 3 * 512 + 100
    ensures Assemble(file, 512, [3, 1], 600) == Some(file[1536..1636] + file[512..1012])
    ensures !NoneShort(file, 512, [3, 1], 600)
  {
    assert [3, 1][1..] == [1];
    assert Assemble(file, 512, [1], 500) == Some(file[512..1012]) by {
      assert Assemble(file, 512, [1][1..], 0) == Some([]);
      assert file[512..1012] + [] == file[512..1012];
    }
  }

  // ---- words ----

  predicate AllU32(words: seq<nat>) {
    forall k :: 0 <= k < |words| ==> words[k] < 0x1_0000_0000
  }

  function Words(b: seq<byte>): (r: seq<nat>)
    requires |b| % 4 == 0
    ensures |r| == |b| / 4
    decreases |b|
  {
    if b == [] then [] else [U32(b[..4])] + Words(b[4..])
  }

  function Bytes(words: seq<nat>): (r: seq<byte>)
    requires AllU32(words)
    ensures |r| == 4 * |words|
  {
    if words == [] then [] else Le32(words[0]) + Bytes(words[1..])
  }

  lemma {:induction false} WordsOfBytes(words: seq<nat>)
    requires AllU32(words)
    ensures Words(Bytes(words)) == words
  {
    hide U32, Le32;
    if words != [] {
      assert Bytes(words)[..4] == Le32(words[0]) && Bytes(words)[4..] == Bytes(words[1..]);
      WordsOfBytes(words[1..]);
    }
  }

  /** A slice of the bytes on word boundaries is the bytes of that slice of the words. */
  lemma {:induction false} BytesSlice(words: seq<nat>, i: nat, j: nat)
    requires i <= j <= |words| && AllU32(words)
    ensures Bytes(words)[4 * i..4 * j] == Bytes(words[i..j])
    decreases |words|
  {
    hide U32, Le32;
    if words != [] {
      var b, rest := Bytes(words), Bytes(words[1..]);
      assert b == Le32(words[0]) + rest;
      if i > 0 {
        BytesSlice(words[1..], i - 1, j - 1);
        assert words[1..][i - 1..j - 1] == words[i..j];
        assert b[4 * i..4 * j] == rest[4 * (i - 1)..4 * (j - 1)];
      } else if j > 0 {
        BytesSlice(words[1..], 0, j - 1);
        assert words[i..j][1..] == words[1..][0..j - 1];
        assert b[..4 * j] == Le32(words[0]) + rest[..4 * (j - 1)];
      }
    }
  }

  lemma OneWord(w: nat)
    requires w < 0x1_0000_0000
    ensures Bytes([w]) == Le32(w)
  {
    assert Bytes([w]) == Le32(w) + Bytes([]);
  }

  lemma WordAt(words: seq<nat>, i: nat)
    requires i < |words| && AllU32(words)
    ensures U32At(Bytes(words), 4 * i) == Some(words[i])
  {
    hide U32, Le32, Bytes;
    var b := Bytes(words);
    BytesSlice(words, i, i + 1);
    assert words[i..i + 1] == [words[i]];
    OneWord(words[i]);
    assert b[4 * i..4 * i + 4] == Le32(words[i]);
    assert U32(b[4 * i..4 * i + 4]) == words[i];
  }

  // ---- the debug id ----

  function HexDigit(d: nat): char
    requires d < 16
  {
    if d < 10 then (d as char) + '0' else ((d - 10) as char) + 'A'
  }

  function HexPad(v: nat, n: nat): (s: string)
    ensures |s| == n
  {
    if n == 0 then "" else HexPad(v / 16, n - 1) + [HexDigit(v % 16)]
  }

  /** Upper-case hexadecimal without leading zeros. */
  function Hex(v: nat): (s: string)
    ensures s != ""
  {
    if v < 16 then [HexDigit(v)] else Hex(v / 16) + [HexDigit(v % 16)]
  }

  function HexBytes(b: seq<byte>): (s: string)
    ensures |s| == 2 * |b|
  {
    if b == [] then "" else HexPad(b[0], 2) + HexBytes(b[1..])
  }

  /** `formatSymsrvDebugId`: Data1 to Data3 as numbers, Data4 in file order, then the age. */
  function DebugId(guid: seq<byte>, age: nat): string
    requires |guid| == 16
  {
    HexPad(U32(guid[..4]), 8)
    + HexPad((guid[4] as nat) + 0x100 * (guid[5] as nat), 4) + HexPad((guid[6] as nat) + 0x100 * (guid[7] as nat), 4)
    + HexBytes(guid[8..]) + Hex(age)
  }

  lemma HexDigitInjective(a: nat, b: nat)
    requires a < 16 && b < 16 && HexDigit(a) == HexDigit(b)
    ensures a == b
  {}

  function Pow16(n: nat): nat {
    if n == 0 then 1 else 16 * Pow16(n - 1)
  }

  lemma {:induction false} HexPadInjective(a: nat, b: nat, n: nat)
    requires a < Pow16(n) && b < Pow16(n) && HexPad(a, n) == HexPad(b, n)
    ensures a == b
  {
    if n > 0 {
      var x, y := HexPad(a, n), HexPad(b, n);
      assert x[..n - 1] == HexPad(a / 16, n - 1) && y[..n - 1] == HexPad(b / 16, n - 1);
      assert x[n - 1] == y[n - 1];
      HexDigitInjective(a % 16, b % 16);
      HexPadInjective(a / 16, b / 16, n - 1);
    }
  }

  lemma {:induction false} HexInjective(a: nat, b: nat)
    requires Hex(a) == Hex(b)
    ensures a == b
  {
    var x, y := Hex(a), Hex(b);
    assert x[|x| - 1] == HexDigit(a % 16) && y[|y| - 1] == HexDigit(b % 16);
    HexDigitInjective(a % 16, b % 16);
    if a >= 16 && b >= 16 {
      assert x[..|x| - 1] == Hex(a / 16) && y[..|y| - 1] == Hex(b / 16);
      HexInjective(a / 16, b / 16);
    } else {
      assert a < 16 ==> |x| == 1;
      assert b < 16 ==> |y| == 1;
      assert a >= 16 ==> |x| >= 2;
      assert b >= 16 ==> |y| >= 2;
    }
  }

  lemma {:induction false} HexBytesInjective(a: seq<byte>, b: seq<byte>)
    requires |a| == |b| && HexBytes(a) == HexBytes(b)
    ensures a == b
  {
    if a != [] {
      var x, y := HexBytes(a), HexBytes(b);
      assert x[..2] == HexPad(a[0], 2) && y[..2] == HexPad(b[0], 2);
      assert x[2..] == HexBytes(a[1..]) && y[2..] == HexBytes(b[1..]);
      assert Pow16(2) == 256;
      HexPadInjective(a[0], b[0], 2);
      HexBytesInjective(a[1..], b[1..]);
      assert a == [a[0]] + a[1..] && b == [b[0]] + b[1..];
    }
  }

  lemma DebugIdParts(guid: seq<byte>, age: nat)
    requires |guid| == 16
    ensures var id := DebugId(guid, age);
            && |id| > 32 && id[..8] == HexPad(U32(guid[..4]), 8)
            && id[8..12] == HexPad((guid[4] as nat) + 0x100 * (guid[5] as nat), 4)
            && id[12..16] == HexPad((guid[6] as nat) + 0x100 * (guid[7] as nat), 4)
            && id[16..32] == HexBytes(guid[8..]) && id[32..] == Hex(age)
  {
    hide U32, HexPad, HexBytes, Hex;
  }

  /** Distinct (GUID, age) pairs give distinct debug ids. */
  lemma DebugIdInjective(g: seq<byte>, a: nat, h: seq<byte>, b: nat)
    requires |g| == 16 && |h| == 16 && DebugId(g, a) == DebugId(h, b)
    ensures g == h && a == b
  {
    hide U32, HexPad, HexBytes, Hex, DebugId;
    DebugIdParts(g, a);
    DebugIdParts(h, b);
    assert Pow16(4) == 65536 && Pow16(6) == 16777216 && Pow16(8) == 0x1_0000_0000;
    HexPadInjective(U32(g[..4]), U32(h[..4]), 8);
    U32Injective(g[..4], h[..4]);
    HexPadInjective((g[4] as nat) + 0x100 * (g[5] as nat), (h[4] as nat) + 0x100 * (h[5] as nat), 4);
    HexPadInjective((g[6] as nat) + 0x100 * (g[7] as nat), (h[6] as nat) + 0x100 * (h[7] as nat), 4);
    HexBytesInjective(g[8..], h[8..]);
    HexInjective(a, b);
    assert g == g[..4] + [g[4], g[5], g[6], g[7]] + g[8..];
    assert h == h[..4] + [h[4], h[5], h[6], h[7]] + h[8..];
  }

  /** Upper-case hexadecimal, read digit by digit. */
  predicate IsHexText(s: string) {
    forall k :: 0 <= k < |s| ==> '0' <= s[k] <= '9' || 'A' <= s[k] <= 'F'
  }

  function HexNumber(s: string): nat
    requires IsHexText(s)
  {
    if s == "" then 0
    else
      var c := s[|s| - 1];
      16 * HexNumber(s[..|s| - 1]) + if c <= '9' then c as nat - '0' as nat else c as nat - 'A' as nat + 10
  }

  lemma HexDigitReads(d: nat)
    requires d < 16
    ensures IsHexText([HexDigit(d)]) && HexNumber([HexDigit(d)]) == d && (HexDigit(d) == '0' <==> d == 0)
  {
    assert [HexDigit(d)][..0] == "";
  }

  lemma HexAppend(s: string, d: nat)
    requires IsHexText(s) && d < 16
    ensures IsHexText(s + [HexDigit(d)]) && HexNumber(s + [HexDigit(d)]) == 16 * HexNumber(s) + d
  {
    assert (s + [HexDigit(d)])[..|s|] == s;
  }

  lemma {:induction false} HexReads(v: nat)
    ensures IsHexText(Hex(v)) && HexNumber(Hex(v)) == v && (|Hex(v)| > 1 ==> Hex(v)[0] != '0')
  {
    if v < 16 {
      HexDigitReads(v);
    } else {
      HexReads(v / 16);
      HexAppend(Hex(v / 16), v % 16);
      if |Hex(v / 16)| == 1 { HexDigitReads(v / 16); }
    }
  }

  lemma {:induction false} HexPadReads(v: nat, n: nat)
    requires v < Pow16(n)
    ensures IsHexText(HexPad(v, n)) && HexNumber(HexPad(v, n)) == v
  {
    if n > 0 {
      HexPadReads(v / 16, n - 1);
      HexAppend(HexPad(v / 16, n - 1), v % 16);
    }
  }

  lemma {:induction false} HexBytesRead(b: seq<byte>)
    ensures forall k :: 0 <= k < |b| ==>
              IsHexText(HexBytes(b)[2 * k..2 * k + 2]) && HexNumber(HexBytes(b)[2 * k..2 * k + 2]) == b[k]
  {
    hide HexNumber, HexPad, IsHexText;
    if b != [] {
      var x, rest := HexBytes(b), HexBytes(b[1..]);
      assert x == HexPad(b[0], 2) + rest;
      assert Pow16(2) == 256;
      HexPadReads(b[0], 2);
      HexBytesRead(b[1..]);
      forall k | 0 <= k < |b| ensures IsHexText(x[2 * k..2 * k + 2]) && HexNumber(x[2 * k..2 * k + 2]) == b[k] {
        if k == 0 {
          assert x[0..2] == HexPad(b[0], 2);
        } else {
          assert x[2 * k..2 * k + 2] == rest[2 * (k - 1)..2 * (k - 1) + 2];
          assert b[1..][k - 1] == b[k];
        }
      }
    }
  }

  /** The id read back: Data1, Data2 and Data3 as little-endian numbers in 8, 4 and 4 upper-case digits, Data4 byte by byte, and
      the age without leading zeros. */
  lemma DebugIdReads(guid: seq<byte>, age: nat)
    requires |guid| == 16
    ensures var id := DebugId(guid, age);
            && |id| > 32
            && IsHexText(id[..8])
            && HexNumber(id[..8]) == (guid[0] as nat) + 0x100 * (guid[1] as nat) + 0x1_0000 * (guid[2] as nat) + 0x100_0000 * (guid[3] as nat)
            && IsHexText(id[8..12]) && HexNumber(id[8..12]) == (guid[4] as nat) + 0x100 * (guid[5] as nat)
            && IsHexText(id[12..16]) && HexNumber(id[12..16]) == (guid[6] as nat) + 0x100 * (guid[7] as nat)
            && (forall k :: 0 <= k < 8 ==>
                  IsHexText(id[16 + 2 * k..18 + 2 * k]) && HexNumber(id[16 + 2 * k..18 + 2 * k]) == guid[8 + k])
            && IsHexText(id[32..]) && HexNumber(id[32..]) == age && (|id| > 33 ==> id[32] != '0')
  {
    hide HexNumber, IsHexText, HexPad, HexBytes, Hex;
    var id := DebugId(guid, age);
    DebugIdParts(guid, age);
    PowersOf16();
    HexPadReads(U32(guid[..4]), 8);
    HexPadReads((guid[4] as nat) + 0x100 * (guid[5] as nat), 4);
    HexPadReads((guid[6] as nat) + 0x100 * (guid[7] as nat), 4);
    HexBytesRead(guid[8..]);
    HexReads(age);
    forall k | 0 <= k < 8 ensures id[16 + 2 * k..18 + 2 * k] == HexBytes(guid[8..])[2 * k..2 * k + 2] && guid[8..][k] == guid[8 + k] {
      SubSlice(id, 16, 32, 2 * k);
    }
  }

  lemma {:induction false} SubSlice(s: string, from: nat, to: nat, at: nat)
    requires from <= to <= |s| && from + at + 2 <= to
    ensures s[from..to][at..at + 2] == s[from + at..from + at + 2]
  {
    var a, b := s[from..to][at..at + 2], s[from + at..from + at + 2];
    assert |a| == |b| && a[0] == b[0] && a[1] == b[1];
  }

  lemma PowersOf16()
    ensures Pow16(4) == 0x1_0000 && Pow16(8) == 0x1_0000_0000
  {
    assert Pow16(2) == 256;
    assert Pow16(4) == 65536;
    assert Pow16(6) == 16777216;
  }
}
