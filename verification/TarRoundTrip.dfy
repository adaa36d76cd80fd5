/** Reading back what the writer wrote, whole or cut short. */
module TarRoundTrip {
  import opened Domain
  import opened TarFields
  import opened TarHeader
  import opened TarArchive

  /** What a reader makes of one written entry. */
  function EntryRefusal(e: Entry, lim: Limits, c: Cursor): Option<ErrorCode> {
    if |e.name| > lim.maxNameLength || !SafeName(Decoded(e.name)) then Some(InvalidInput)
    else if c.entries + 1 > lim.maxEntries || c.totalBytes + |e.data| > lim.maxBytes then Some(InvalidInput)
    else if Decoded(e.name) in c.seen then Some(InvalidInput)
    else None
  }

  /** The listing of a run of written entries, up to the first refusal. */
  function Expected(es: seq<Entry>, lim: Limits, c: Cursor): Listing {
    if es == [] then Listing([], None)
    else if EntryRefusal(es[0], lim, c).Some? then Listing([], EntryRefusal(es[0], lim, c))
    else
      var rest := Expected(es[1..], lim, c.Past(Decoded(es[0].name), |es[0].data|));
      rest.(entries := [Listed(Decoded(es[0].name), |es[0].data|, c.offset + BLOCK_SIZE)] + rest.entries)
  }

  /** The cursor after a run of accepted entries. */
  function CursorPast(es: seq<Entry>, c: Cursor): Cursor
    decreases |es|
  {
    if es == [] then c else CursorPast(es[1..], c.Past(Decoded(es[0].name), |es[0].data|))
  }

  ghost predicate Encodable(utf8: seq<byte> -> bool, es: seq<Entry>, mode: nat) {
    mode <= 4095 && AllWritable(es) && forall k :: 0 <= k < |es| ==> utf8(es[k].name)
  }

  lemma WritableParts(e: Entry)
    requires Writable(e)
    ensures SafeName(e.name) && |e.name| <= NAME_BYTES && |e.data| < BASE256_SIZE_LIMIT && e.mtime <= OCTAL_SIZE_LIMIT
  {}

  lemma EntrySlices(src: seq<byte>, offset: nat, e: Entry, mode: nat, rest: seq<byte>)
    requires offset <= |src| && Writable(e) && src[offset..] == EntryBytes(e, mode) + rest
    ensures offset + BLOCK_SIZE + |e.data| + Padding(|e.data|) <= |src|
    ensures src[offset..offset + BLOCK_SIZE] == EntryHeader(e.name, |e.data|, e.mtime, mode)
    ensures src[offset + BLOCK_SIZE..offset + BLOCK_SIZE + |e.data|] == e.data
    ensures src[offset + BLOCK_SIZE + |e.data| + Padding(|e.data|)..] == rest
  {
    hide EntryHeader, Zeros, Writable, Padding;
    WritableParts(e);
    var header, pad := EntryHeader(e.name, |e.data|, e.mtime, mode), Zeros(Padding(|e.data|));
    var tail := src[offset..];
    assert tail == header + e.data + pad + rest;
    assert src[offset..offset + BLOCK_SIZE] == tail[..BLOCK_SIZE] == header;
    assert src[offset + BLOCK_SIZE..offset + BLOCK_SIZE + |e.data|] == tail[BLOCK_SIZE..BLOCK_SIZE + |e.data|] == e.data;
    assert src[offset + BLOCK_SIZE + |e.data| + |pad|..] == tail[BLOCK_SIZE + |e.data| + |pad|..] == rest;
  }

  lemma HeaderNotZero(e: Entry, size: nat, mode: nat)
    requires Writable(e) && size < BASE256_SIZE_LIMIT
    ensures !AllZero(EntryHeader(e.name, size, e.mtime, mode))
  {
    var h := EntryHeader(e.name, size, e.mtime, mode);
    HeaderSlices(e.name, EncodeSize(size).value, e.mtime, mode);
    PrefixSlices(e.name, EncodeSize(size).value, e.mtime, mode);
    assert h[0] == h[..148][0] == h[..148][..100][0] == e.name[0];
    assert e.name[0] in e.name;
  }

  /** One written entry at the cursor is listed or refused as expected. */
  lemma EntryReads(utf8: seq<byte> -> bool, src: seq<byte>, lim: Limits, c: Cursor, e: Entry, mode: nat)
    requires c.offset + BLOCK_SIZE <= |src| && mode <= 4095 && Writable(e) && utf8(e.name)
    requires src[c.offset..c.offset + BLOCK_SIZE] == EntryHeader(e.name, |e.data|, e.mtime, mode)
    ensures var next := c.Past(Decoded(e.name), |e.data|);
            var r := ReadFrom(utf8, src, lim, c);
            if EntryRefusal(e, lim, c).Some? then
              r.entries == [] && r.problem.Some? &&
              (next.offset <= |src| ==> r.problem == EntryRefusal(e, lim, c))
            else if next.offset > |src| then r == Listing([], Some(IntegrityFailure))
            else
              var rest := ReadFrom(utf8, src, lim, next);
              r == rest.(entries := [Listed(Decoded(e.name), |e.data|, c.offset + BLOCK_SIZE)] + rest.entries)
  {
    hide ParseHeader, EntryHeader, Decoded, SafeName, AllZero, Padding;
    HeaderNotZero(e, |e.data|, mode);
    assert EntryHeader(e.name, |e.data|, e.mtime, mode) == HeaderBlock(e.name, EncodeSize(|e.data|).value, e.mtime, mode) by {
      HeaderIs(e, mode);
    }
    WritableParts(e);
    HeaderReadsBack(utf8, e.name, |e.data|, e.mtime, mode, lim.maxNameLength);
  }

  lemma HeaderIs(e: Entry, mode: nat)
    requires Writable(e)
    ensures EntryHeader(e.name, |e.data|, e.mtime, mode) == HeaderBlock(e.name, EncodeSize(|e.data|).value, e.mtime, mode)
  {}

  lemma EncodableParts(utf8: seq<byte> -> bool, es: seq<Entry>, mode: nat)
    requires Encodable(utf8, es, mode)
    ensures mode <= 4095 && AllWritable(es)
    ensures es != [] ==> Writable(es[0]) && utf8(es[0].name) && Encodable(utf8, es[1..], mode)
  {
    hide Writable;
  }

  /** Written entries followed by anything: the listing starts as expected and goes on after them. */
  lemma {:induction false} EntriesRead(utf8: seq<byte> -> bool, src: seq<byte>, lim: Limits, c: Cursor, es: seq<Entry>,
                                       mode: nat, tail: seq<byte>)
    requires c.offset <= |src| && Encodable(utf8, es, mode) && src[c.offset..] == EntriesBytes(es, mode) + tail
    ensures var expected := Expected(es, lim, c);
            var end := CursorPast(es, c);
            && end.offset <= |src| && src[end.offset..] == tail
            && (expected.problem.Some? ==> ReadFrom(utf8, src, lim, c) == expected)
            && (expected.problem.None? ==>
                  var rest := ReadFrom(utf8, src, lim, end);
                  ReadFrom(utf8, src, lim, c) == rest.(entries := expected.entries + rest.entries))
    decreases |es|
  {
    hide ReadFrom, EntryBytes, EntryRefusal, Decoded, Writable, Padding, Encodable;
    EncodableParts(utf8, es, mode);
    if es == [] {
      assert src[c.offset..] == tail;
      var r := ReadFrom(utf8, src, lim, c);
      assert r == r.(entries := [] + r.entries);
    } else {
      var e, next := es[0], c.Past(Decoded(es[0].name), |es[0].data|);
      assert Writable(e) && utf8(e.name);
      assert EntriesBytes(es, mode) + tail == EntryBytes(e, mode) + (EntriesBytes(es[1..], mode) + tail);
      EntrySlices(src, c.offset, e, mode, EntriesBytes(es[1..], mode) + tail);
      EntryReads(utf8, src, lim, c, e, mode);
      EntriesRead(utf8, src, lim, next, es[1..], mode, tail);
      var first := [Listed(Decoded(e.name), |e.data|, c.offset + BLOCK_SIZE)];
      var rest := ReadFrom(utf8, src, lim, CursorPast(es, c));
      var some := Expected(es[1..], lim, next);
      assert (first + some.entries) + rest.entries == first + (some.entries + rest.entries);
    }
  }

  /** The offset at which the entries end depends on the entries alone. */
  lemma {:induction false} CursorPastOffset(es: seq<Entry>, c: Cursor, mode: nat)
    requires AllWritable(es)
    ensures CursorPast(es, c).offset == c.offset + |EntriesBytes(es, mode)|
    decreases |es|
  {
    if es != [] {
      CursorPastOffset(es[1..], c.Past(Decoded(es[0].name), |es[0].data|), mode);
    }
  }

  /** What a caller can check before writing. */
  ghost predicate Readable(es: seq<Entry>, lim: Limits) {
    && |es| <= lim.maxEntries && TotalData(es) <= lim.maxBytes
    && (forall k :: 0 <= k < |es| ==> |es[k].name| <= lim.maxNameLength && !(BOM <= es[k].name))
    && (forall j, k :: 0 <= j < k < |es| ==> es[j].name != es[k].name)
  }

  function TotalData(es: seq<Entry>): nat {
    if es == [] then 0 else |es[0].data| + TotalData(es[1..])
  }

  /** The listing shows the entries: names, sizes and bytes, in order. */
  ghost predicate Shows(src: seq<byte>, listed: seq<Listed>, es: seq<Entry>) {
    && |listed| == |es|
    && forall k :: 0 <= k < |es| ==>
         && listed[k].name == es[k].name && listed[k].size == |es[k].data|
         && listed[k].dataOffset + listed[k].size <= |src|
         && src[listed[k].dataOffset..listed[k].dataOffset + listed[k].size] == es[k].data
  }

  ghost predicate Unread(es: seq<Entry>, lim: Limits, c: Cursor) {
    && c.entries + |es| <= lim.maxEntries && c.totalBytes + TotalData(es) <= lim.maxBytes
    && (forall k :: 0 <= k < |es| ==> |es[k].name| <= lim.maxNameLength && !(BOM <= es[k].name) && es[k].name !in c.seen)
    && (forall j, k :: 0 <= j < k < |es| ==> es[j].name != es[k].name)
  }

  ghost predicate SameNames(listed: seq<Listed>, es: seq<Entry>) {
    |listed| == |es| && forall k :: 0 <= k < |es| ==> listed[k].name == es[k].name && listed[k].size == |es[k].data|
  }

  lemma UnreadHead(es: seq<Entry>, lim: Limits, c: Cursor)
    requires es != [] && SafeName(es[0].name)
    ensures Unread(es, lim, c) <==>
            (EntryRefusal(es[0], lim, c).None? && Decoded(es[0].name) == es[0].name
             && Unread(es[1..], lim, c.Past(es[0].name, |es[0].data|)))
  {
    var e, rest := es[0], es[1..];
    assert TotalData(es) == |e.data| + TotalData(rest);
    assert Decoded(e.name) == e.name <==> !(BOM <= e.name);
    if EntryRefusal(e, lim, c).None? && Decoded(e.name) == e.name && Unread(rest, lim, c.Past(e.name, |e.data|)) {
      forall k | 0 <= k < |es|
        ensures |es[k].name| <= lim.maxNameLength && !(BOM <= es[k].name) && es[k].name !in c.seen
      {
        if k > 0 { assert es[k] == rest[k - 1]; }
      }
      forall j, k | 0 <= j < k < |es| ensures es[j].name != es[k].name {
        assert es[k] == rest[k - 1];
        if j > 0 { assert es[j] == rest[j - 1]; }
      }
    }
  }

  /** Written entries are listed unchanged, without a problem, exactly when a reader has room for them. */
  lemma {:induction false} ListedUnchanged(es: seq<Entry>, lim: Limits, c: Cursor)
    requires AllWritable(es)
    requires es == [] ==> c.entries <= lim.maxEntries && c.totalBytes <= lim.maxBytes
    ensures (Expected(es, lim, c).problem.None? && SameNames(Expected(es, lim, c).entries, es)) <==> Unread(es, lim, c)
    decreases |es|
  {
    hide Unread, EntryRefusal, Decoded, SafeName, Padding;
    if es == [] {
      assert Unread(es, lim, c) by { UnreadNothing(lim, c); }
    } else {
      var e, rest := es[0], es[1..];
      var next := c.Past(Decoded(e.name), |e.data|);
      WritableParts(e);
      UnreadHead(es, lim, c);
      if EntryRefusal(e, lim, c).None? {
        assert next.entries <= lim.maxEntries && next.totalBytes <= lim.maxBytes by { RefusalBounds(e, lim, c); }
        ListedUnchanged(rest, lim, next);
        var tail := Expected(rest, lim, next).entries;
        assert Expected(es, lim, c).entries[1..] == tail;
        assert SameNames(Expected(es, lim, c).entries, es) <==> (Decoded(e.name) == e.name && SameNames(tail, rest)) by {
          SameNamesCons(Listed(Decoded(e.name), |e.data|, c.offset + BLOCK_SIZE), tail, e, rest);
          assert es == [e] + rest;
        }
      }
    }
  }

  lemma UnreadNothing(lim: Limits, c: Cursor)
    requires c.entries <= lim.maxEntries && c.totalBytes <= lim.maxBytes
    ensures Unread([], lim, c)
  {}

  lemma RefusalBounds(e: Entry, lim: Limits, c: Cursor)
    requires EntryRefusal(e, lim, c).None?
    ensures c.entries + 1 <= lim.maxEntries && c.totalBytes + |e.data| <= lim.maxBytes
  {}

  lemma SameNamesCons(l: Listed, tail: seq<Listed>, e: Entry, rest: seq<Entry>)
    ensures SameNames([l] + tail, [e] + rest) <==> (l.name == e.name && l.size == |e.data| && SameNames(tail, rest))
  {
    var a, b := [l] + tail, [e] + rest;
    if SameNames(a, b) {
      forall k | 0 <= k < |rest| ensures tail[k].name == rest[k].name && tail[k].size == |rest[k].data| {
        assert a[k + 1] == tail[k] && b[k + 1] == rest[k];
      }
      assert a[0] == l && b[0] == e;
    }
  }

  /** The data regions of an expected listing hold the data written. */
  lemma {:induction false} RegionsHoldData(src: seq<byte>, lim: Limits, c: Cursor, es: seq<Entry>, mode: nat, tail: seq<byte>)
    requires c.offset <= |src| && AllWritable(es) && src[c.offset..] == EntriesBytes(es, mode) + tail
    requires Expected(es, lim, c).problem.None? && SameNames(Expected(es, lim, c).entries, es)
    ensures Shows(src, Expected(es, lim, c).entries, es)
    decreases |es|
  {
    hide EntryBytes, EntryRefusal, Decoded, Writable, Padding, Shows, SameNames;
    if es != [] {
      var e, rest, next := es[0], es[1..], c.Past(Decoded(es[0].name), |es[0].data|);
      var listed := Expected(rest, lim, next).entries;
      assert Writable(e);
      assert EntriesBytes(es, mode) + tail == EntryBytes(e, mode) + (EntriesBytes(rest, mode) + tail);
      EntrySlices(src, c.offset, e, mode, EntriesBytes(rest, mode) + tail);
      var l := Listed(Decoded(e.name), |e.data|, c.offset + BLOCK_SIZE);
      assert es == [e] + rest && Expected(es, lim, c).entries == [l] + listed;
      SameNamesCons(l, listed, e, rest);
      RegionsHoldData(src, lim, next, rest, mode, tail);
      ShowsCons(src, l, listed, e, rest);
    } else {
      ShowsNothing(src);
    }
  }

  lemma ShowsNothing(src: seq<byte>)
    ensures Shows(src, [], [])
  {}

  lemma ShowsCons(src: seq<byte>, l: Listed, listed: seq<Listed>, e: Entry, rest: seq<Entry>)
    requires l.name == e.name && l.size == |e.data| && l.dataOffset + l.size <= |src|
    requires src[l.dataOffset..l.dataOffset + l.size] == e.data && Shows(src, listed, rest)
    ensures Shows(src, [l] + listed, [e] + rest)
  {}

  lemma ZeroTail(utf8: seq<byte> -> bool, src: seq<byte>, lim: Limits, c: Cursor)
    requires c.offset <= |src| && AllZero(src[c.offset..]) && |src| - c.offset <= 2 * BLOCK_SIZE
    ensures ReadFrom(utf8, src, lim, c).entries == []
    ensures ReadFrom(utf8, src, lim, c).problem.None? <==>
            (|src| - c.offset == BLOCK_SIZE || |src| - c.offset == 2 * BLOCK_SIZE)
  {
    if |src| - c.offset >= BLOCK_SIZE {
      var zero := src[c.offset..];
      assert src[c.offset..c.offset + BLOCK_SIZE] == zero[..BLOCK_SIZE];
      if |src| - c.offset == 2 * BLOCK_SIZE {
        assert src[c.offset + BLOCK_SIZE..c.offset + 2 * BLOCK_SIZE] == zero[BLOCK_SIZE..2 * BLOCK_SIZE];
        assert TrailerProblem(src, c.offset + 2 * BLOCK_SIZE).None?;
      }
    }
  }

  /** Reading back an archive gives its entries, names, sizes and bytes, exactly when the names are distinct, none starts
      with a byte order mark, and everything is within the reader's bounds. */
  lemma RoundTrip(utf8: seq<byte> -> bool, es: seq<Entry>, mode: nat, lim: Limits)
    requires Encodable(utf8, es, mode)
    ensures var src := Archive(es, mode);
            var r := ReadFrom(utf8, src, lim, START);
            (r.problem.None? && Shows(src, r.entries, es)) <==> Readable(es, lim)
  {
    hide ReadFrom, Expected, CursorPast, EntriesBytes;
    var src := Archive(es, mode);
    assert src[0..] == src;
    EntriesRead(utf8, src, lim, START, es, mode, Zeros(2 * BLOCK_SIZE));
    var end := CursorPast(es, START);
    ZeroTail(utf8, src, lim, end);
    ListedUnchanged(es, lim, START);
    var expected := Expected(es, lim, START);
    assert expected.entries + [] == expected.entries;
    assert Unread(es, lim, START) <==> Readable(es, lim);
    if Readable(es, lim) {
      RegionsHoldData(src, lim, START, es, mode, Zeros(2 * BLOCK_SIZE));
    }
  }

  /** A byte order mark is dropped by the reader: the archive is accepted, under another name. */
  lemma ByteOrderMarkLost(utf8: seq<byte> -> bool, mode: nat)
    requires mode <= 4095 && utf8(BOM + [0x61])
    ensures var e := Entry(BOM + [0x61], [], 0);
            Writable(e) &&
            var r := ReadFrom(utf8, Archive([e], mode), Limits(1, 0, 100), START);
            r.problem.None? && |r.entries| == 1 && r.entries[0].name == [0x61]
  {
    hide ReadFrom, EntriesBytes;
    var e := Entry(BOM + [0x61], [], 0);
    var lim := Limits(1, 0, 100);
    PlainSafe();
    assert Decoded(e.name) == [0x61];
    var src := Archive([e], mode);
    assert src[0..] == src;
    EntriesRead(utf8, src, lim, START, [e], mode, Zeros(2 * BLOCK_SIZE));
    assert [e][1..] == [];
    assert Expected([e], lim, START) == Listing([Listed([0x61], 0, BLOCK_SIZE)], None);
    ZeroTail(utf8, src, lim, CursorPast([e], START));
  }

  lemma {:induction false} OneComponent(name: seq<byte>)
    requires SLASH !in name
    ensures Components(name) == [name]
  {
    if name != [] {
      assert name[0] in name;
      OneComponent(name[1..]);
      assert [name[0]] + name[1..] == name;
    }
  }

  lemma PlainSafe()
    ensures SafeName([0x61]) && SafeName(BOM + [0x61])
  {
    OneComponent([0x61]);
    OneComponent(BOM + [0x61]);
  }

  /** Entries cut short never read clean. */
  lemma {:induction false} CutEntriesFail(utf8: seq<byte> -> bool, src: seq<byte>, lim: Limits, c: Cursor, es: seq<Entry>, mode: nat)
    requires c.offset <= |src| && Encodable(utf8, es, mode)
    requires src[c.offset..] <= EntriesBytes(es, mode) && src[c.offset..] != EntriesBytes(es, mode)
    ensures ReadFrom(utf8, src, lim, c).problem.Some?
    decreases |es|
  {
    hide EntryBytes, EntryRefusal, Decoded, Writable, Padding, EntryHeader, ParseHeader, AllZero;
    var left := src[c.offset..];
    if |left| >= BLOCK_SIZE {
      var e, rest, next := es[0], es[1..], c.Past(Decoded(es[0].name), |es[0].data|);
      assert Writable(e) && utf8(e.name);
      var first := EntryBytes(e, mode);
      EntryStartsWithHeader(e, mode);
      assert src[c.offset..c.offset + BLOCK_SIZE] == left[..BLOCK_SIZE] == first[..BLOCK_SIZE];
      EntryReads(utf8, src, lim, c, e, mode);
      if EntryRefusal(e, lim, c).None? && next.offset <= |src| {
        assert src[next.offset..] == left[|first|..];
        assert EntriesBytes(es, mode)[|first|..] == EntriesBytes(rest, mode);
        CutEntriesFail(utf8, src, lim, next, rest, mode);
      }
    } else {
      assert ReadFrom(utf8, src, lim, c).problem.Some?;
    }
  }

  lemma EntryStartsWithHeader(e: Entry, mode: nat)
    requires Writable(e)
    ensures EntryBytes(e, mode)[..BLOCK_SIZE] == EntryHeader(e.name, |e.data|, e.mtime, mode)
  {
    hide EntryHeader;
  }

  /** A prefix of a readable archive is accepted exactly when it ends after one of the two closing zero blocks. */
  lemma CutArchives(utf8: seq<byte> -> bool, es: seq<Entry>, mode: nat, lim: Limits, cut: nat)
    requires Encodable(utf8, es, mode) && Readable(es, lim) && cut <= |Archive(es, mode)|
    ensures var end := |EntriesBytes(es, mode)|;
            ReadFrom(utf8, Archive(es, mode)[..cut], lim, START).problem.None?
            <==> cut == end + BLOCK_SIZE || cut == end + 2 * BLOCK_SIZE
  {
    hide ReadFrom, Expected, CursorPast, EntriesBytes;
    var body, src := EntriesBytes(es, mode), Archive(es, mode)[..cut];
    assert src[0..] == src;
    if cut < |body| {
      assert src == body[..cut];
      CutEntriesFail(utf8, src, lim, START, es, mode);
    } else {
      var tail := Zeros(2 * BLOCK_SIZE)[..cut - |body|];
      assert src == body + tail;
      EntriesRead(utf8, src, lim, START, es, mode, tail);
      CursorPastOffset(es, START, mode);
      ZeroTail(utf8, src, lim, CursorPast(es, START));
      ListedUnchanged(es, lim, START);
      assert Unread(es, lim, START);
    }
  }
}
