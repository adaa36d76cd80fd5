/** The streaming tar writer and the strict tar reader: what the reader makes of written archives, of cut archives and
    of arbitrary bytes. */
module TarArchive {
  import opened Domain
  import opened Vaults
  import opened TarFields
  import opened TarHeader

  const ENTRY_CHUNK_SIZE := 256 * 1024

  datatype Entry = Entry(name: seq<byte>, data: seq<byte>, mtime: nat)

  predicate Writable(e: Entry) {
    && SafeName(e.name) && |e.name| <= NAME_BYTES && |e.data| < BASE256_SIZE_LIMIT && e.mtime <= OCTAL_SIZE_LIMIT
  }

  predicate AllWritable(es: seq<Entry>) {
    forall k :: 0 <= k < |es| ==> Writable(es[k])
  }

  function Padding(size: nat): (r: nat)
    ensures r < BLOCK_SIZE && (size + r) % BLOCK_SIZE == 0
  {
    assert size == BLOCK_SIZE * (size / BLOCK_SIZE) + size % BLOCK_SIZE;
    assert size + (BLOCK_SIZE - size % BLOCK_SIZE) == BLOCK_SIZE * (size / BLOCK_SIZE + 1);
    (BLOCK_SIZE - size % BLOCK_SIZE) % BLOCK_SIZE
  }

  function EntryHeader(name: seq<byte>, size: nat, mtime: nat, mode: nat): (r: seq<byte>)
    requires |name| <= NAME_BYTES && size < BASE256_SIZE_LIMIT
    ensures |r| == BLOCK_SIZE
  {
    HeaderBlock(name, EncodeSize(size).value, mtime, mode)
  }

  function EntryBytes(e: Entry, mode: nat): (r: seq<byte>)
    requires Writable(e)
    ensures |r| == BLOCK_SIZE + |e.data| + Padding(|e.data|)
  {
    EntryHeader(e.name, |e.data|, e.mtime, mode) + e.data + Zeros(Padding(|e.data|))
  }

  function EntriesBytes(es: seq<Entry>, mode: nat): seq<byte>
    requires AllWritable(es)
  {
    if es == [] then [] else EntryBytes(es[0], mode) + EntriesBytes(es[1..], mode)
  }

  function Archive(es: seq<Entry>, mode: nat): seq<byte>
    requires AllWritable(es)
  {
    EntriesBytes(es, mode) + Zeros(2 * BLOCK_SIZE)
  }

  lemma {:induction false} EntriesSnoc(es: seq<Entry>, e: Entry, mode: nat)
    requires AllWritable(es) && Writable(e)
    ensures AllWritable(es + [e])
    ensures EntriesBytes(es + [e], mode) == EntriesBytes(es, mode) + EntryBytes(e, mode)
  {
    hide EntryBytes;
    if es == [] {
      assert es + [e] == [e] && [e][1..] == [];
      assert EntriesBytes([e], mode) == EntryBytes(e, mode) + EntriesBytes([], mode);
    } else {
      EntriesSnoc(es[1..], e, mode);
      assert (es + [e])[0] == es[0] && (es + [e])[1..] == es[1..] + [e];
    }
  }

  datatype OpenEntry = OpenEntry(name: seq<byte>, size: nat, mtime: nat, remaining: nat)

  predicate Declared(o: OpenEntry) {
    Writable(Entry(o.name, [], o.mtime)) && o.size < BASE256_SIZE_LIMIT
  }

  /** The bytes a writer has put out. */
  function Written(es: seq<Entry>, mode: nat, open: Option<OpenEntry>, pending: seq<byte>, finished: bool): seq<byte>
    requires AllWritable(es) && (open.Some? ==> Declared(open.value))
  {
    EntriesBytes(es, mode)
    + (if open.Some? then EntryHeader(open.value.name, open.value.size, open.value.mtime, mode) + pending else [])
    + (if finished then Zeros(2 * BLOCK_SIZE) else [])
  }

  lemma NoneWritten(es: seq<Entry>, mode: nat, pending: seq<byte>)
    requires AllWritable(es)
    ensures Written(es, mode, None, pending, false) == Written(es, mode, None, [], false) == EntriesBytes(es, mode)
  {}

  lemma WrittenHeader(es: seq<Entry>, mode: nat, o: OpenEntry)
    requires AllWritable(es) && Declared(o)
    ensures Written(es, mode, Some(o), [], false) ==
            Written(es, mode, None, [], false) + EntryHeader(o.name, o.size, o.mtime, mode)
  {
    hide EntryHeader;
  }

  lemma WrittenChunk(es: seq<Entry>, mode: nat, o: OpenEntry, p: OpenEntry, pending: seq<byte>, chunk: seq<byte>)
    requires AllWritable(es) && Declared(o) && p == o.(remaining := p.remaining)
    ensures Written(es, mode, Some(p), pending + chunk, false) == Written(es, mode, Some(o), pending, false) + chunk
  {
    hide EntryHeader;
    var before, header := EntriesBytes(es, mode), EntryHeader(o.name, o.size, o.mtime, mode);
    assert before + (header + (pending + chunk)) + [] == (before + (header + pending) + []) + chunk;
  }

  lemma WrittenEntry(es: seq<Entry>, mode: nat, o: OpenEntry, pending: seq<byte>)
    requires AllWritable(es) && Declared(o) && o.size == |pending|
    ensures var e := Entry(o.name, pending, o.mtime);
            && AllWritable(es + [e])
            && Written(es + [e], mode, None, [], false) == Written(es, mode, Some(o), pending, false) + Zeros(Padding(o.size))
  {
    hide EntryHeader, Zeros, Padding;
    EntriesSnoc(es, Entry(o.name, pending, o.mtime), mode);
  }

  /** `createTarWriter`; a `RangeError` is an `InvalidInput` here. */
  class TarWriter {
    const mode: nat
    var sink: seq<byte>
    var open: Option<OpenEntry>
    var finished: bool
    ghost var entries: seq<Entry>
    ghost var pending: seq<byte>

    ghost predicate Valid()
      reads this
    {
      && AllWritable(entries) && (finished ==> open.None?)
      && (open.Some? ==> Declared(open.value) && |pending| + open.value.remaining == open.value.size)
      && sink == Written(entries, mode, open, pending, finished)
    }

    constructor (mode: nat)
      requires mode <= 4095
      ensures Valid() && this.mode == mode && entries == [] && open.None? && !finished
    {
      this.mode := mode;
      sink, open, finished, entries, pending := [], None, false, [], [];
    }

    method AddEntry(name: seq<byte>, size: nat, now: nat) returns (r: Result<()>)
      requires Valid()
      modifies this
      ensures Valid() && entries == old(entries) && finished == old(finished)
      ensures r.Ok? <==> (!old(finished) && old(open).None? && SafeName(name) && |name| <= NAME_BYTES
                          && now <= OCTAL_SIZE_LIMIT && size < BASE256_SIZE_LIMIT)
      ensures r.Ok? ==> open == Some(OpenEntry(name, size, now, size)) && pending == []
      ensures r.Err? ==> open == old(open) && sink == old(sink) && pending == old(pending)
      ensures r.Err? ==> r.code == if old(finished) || old(open).Some? then InvalidTransition else InvalidInput
    {
      hide EncodeSize, SafeName, HeaderBlock, Written, EntriesBytes;
      if finished || open.Some? { return Err(InvalidTransition); }
      if !SafeName(name) || |name| > NAME_BYTES || now > OCTAL_SIZE_LIMIT { return Err(InvalidInput); }
      var field := EncodeTarSize(size);
      if field.None? { return Err(InvalidInput); }
      var header := EncodeHeaderBlock(name, field.value, now, mode);
      WrittenHeader(entries, mode, OpenEntry(name, size, now, size));
      NoneWritten(entries, mode, pending);
      sink := sink + header;
      open, pending := Some(OpenEntry(name, size, now, size)), [];
      r := Ok(());
    }

    method Append(chunk: seq<byte>) returns (r: Result<()>)
      requires Valid()
      modifies this
      ensures Valid() && entries == old(entries) && finished == old(finished)
      ensures r.Ok? <==> (old(open).Some? && |chunk| <= old(open).value.remaining)
      ensures r.Ok? ==> pending == old(pending) + chunk &&
                        open == Some(old(open).value.(remaining := old(open).value.remaining - |chunk|))
      ensures r.Err? ==> open == old(open) && sink == old(sink) && pending == old(pending)
    {
      if open.None? { return Err(InvalidTransition); }
      if |chunk| > open.value.remaining { return Err(InvalidInput); }
      hide Written, SafeName;
      var next := open.value.(remaining := open.value.remaining - |chunk|);
      WrittenChunk(entries, mode, open.value, next, pending, chunk);
      sink := sink + chunk;
      open, pending := Some(next), pending + chunk;
      r := Ok(());
    }

    method FinishEntry() returns (r: Result<()>)
      requires Valid()
      modifies this
      ensures Valid() && finished == old(finished)
      ensures r.Ok? <==> (old(open).Some? && old(open).value.remaining == 0)
      ensures r.Ok? ==> open.None? && entries == old(entries) + [Entry(old(open).value.name, old(pending), old(open).value.mtime)]
      ensures r.Err? ==> open == old(open) && sink == old(sink) && pending == old(pending) && entries == old(entries)
    {
      hide Written, SafeName, Padding, EntriesBytes, Zeros;
      if open.None? { return Err(InvalidTransition); }
      if open.value.remaining != 0 { return Err(InvalidInput); }
      ghost var e := Entry(open.value.name, pending, open.value.mtime);
      var padding := Padding(open.value.size);
      WrittenEntry(entries, mode, open.value, pending);
      NoneWritten(entries + [e], mode, pending);
      sink := sink + Zeros(padding);
      open, entries := None, entries + [e];
      r := Ok(());
    }

    method Finish() returns (r: Result<()>)
      requires Valid()
      modifies this
      ensures Valid() && entries == old(entries) && open == old(open)
      ensures r.Ok? <==> (!old(finished) && old(open).None?)
      ensures r.Ok? ==> finished && sink == Archive(entries, mode)
      ensures r.Err? ==> sink == old(sink) && finished == old(finished)
    {
      if finished || open.Some? { return Err(InvalidTransition); }
      assert sink == EntriesBytes(entries, mode);
      sink := sink + Zeros(2 * BLOCK_SIZE);
      finished := true;
      assert sink == EntriesBytes(entries, mode) + [] + Zeros(2 * BLOCK_SIZE);
      r := Ok(());
    }
  }

  datatype Limits = Limits(maxEntries: nat, maxBytes: nat, maxNameLength: nat)

  datatype Listed = Listed(name: seq<byte>, size: nat, dataOffset: nat)

  /** The entries yielded, and the error iteration ended with. */
  datatype Listing = Listing(entries: seq<Listed>, problem: Option<ErrorCode>)

  function TrailerProblem(src: seq<byte>, offset: nat): Option<ErrorCode>
    decreases |src| - offset
  {
    if offset >= |src| then None
    else if |src| - offset < BLOCK_SIZE || !AllZero(src[offset..offset + BLOCK_SIZE]) then Some(InvalidInput)
    else TrailerProblem(src, offset + BLOCK_SIZE)
  }

  /** What has been seen of an archive up to `offset`. */
  datatype Cursor = Cursor(offset: nat, entries: nat, totalBytes: nat, seen: set<seq<byte>>) {
    function Past(name: seq<byte>, size: nat): Cursor {
      Cursor(offset + BLOCK_SIZE + size + Padding(size), entries + 1, totalBytes + size, seen + {name})
    }
  }

  const START := Cursor(0, 0, 0, {})

  function EntryProblem(src: seq<byte>, lim: Limits, c: Cursor, h: Header): Option<ErrorCode> {
    if c.entries + 1 > lim.maxEntries then Some(InvalidInput)
    else if c.totalBytes + h.size > lim.maxBytes then Some(InvalidInput)
    else if c.Past(h.name, h.size).offset > |src| then Some(IntegrityFailure)
    else if h.name in c.seen then Some(InvalidInput)
    else None
  }

  function ReadFrom(utf8: seq<byte> -> bool, src: seq<byte>, lim: Limits, c: Cursor): Listing
    requires c.offset <= |src|
    decreases |src| - c.offset
  {
    if |src| - c.offset < BLOCK_SIZE then Listing([], Some(IntegrityFailure))
    else
      var block := src[c.offset..c.offset + BLOCK_SIZE];
      if AllZero(block) then Listing([], TrailerProblem(src, c.offset + BLOCK_SIZE))
      else
        match ParseHeader(utf8, block, lim.maxNameLength)
        case Err(e) => Listing([], Some(e))
        case Ok(h) =>
          if EntryProblem(src, lim, c, h).Some? then Listing([], EntryProblem(src, lim, c, h))
          else
            var rest := ReadFrom(utf8, src, lim, c.Past(h.name, h.size));
            rest.(entries := [Listed(h.name, h.size, c.offset + BLOCK_SIZE)] + rest.entries)
  }

  method CheckTrailer(src: seq<byte>, start: nat) returns (problem: Option<ErrorCode>)
    ensures problem == TrailerProblem(src, start)
  {
    var offset := start;
    while offset < |src|
      invariant TrailerProblem(src, start) == TrailerProblem(src, offset)
    {
      if |src| - offset < BLOCK_SIZE { return Some(InvalidInput); }
      var zero := ScanZeros(src, offset, offset + BLOCK_SIZE);
      if !zero { return Some(InvalidInput); }
      offset := offset + BLOCK_SIZE;
    }
    problem := None;
  }

  /** One turn of the reader. */
  function Turn(utf8: seq<byte> -> bool, src: seq<byte>, lim: Limits, c: Cursor): Listing
    requires c.offset <= |src|
  {
    if |src| - c.offset < BLOCK_SIZE then Listing([], Some(IntegrityFailure))
    else
      var block := src[c.offset..c.offset + BLOCK_SIZE];
      if AllZero(block) then Listing([], TrailerProblem(src, c.offset + BLOCK_SIZE))
      else
        var header := ParseHeader(utf8, block, lim.maxNameLength);
        if header.Err? then Listing([], Some(header.code))
        else if EntryProblem(src, lim, c, header.value).Some? then Listing([], EntryProblem(src, lim, c, header.value))
        else
          var h := header.value;
          Onto([Listed(h.name, h.size, c.offset + BLOCK_SIZE)], ReadFrom(utf8, src, lim, c.Past(h.name, h.size)))
  }

  lemma ReadTurn(utf8: seq<byte> -> bool, src: seq<byte>, lim: Limits, c: Cursor)
    requires c.offset <= |src|
    ensures ReadFrom(utf8, src, lim, c) == Turn(utf8, src, lim, c)
  {
    hide ParseHeader, AllZero, TrailerProblem;
  }

  /** A listing behind entries already yielded. */
  function Onto(front: seq<Listed>, rest: Listing): Listing {
    rest.(entries := front + rest.entries)
  }

  lemma OntoBoth(front: seq<Listed>, item: Listed, rest: Listing)
    ensures Onto(front, Onto([item], rest)) == Onto(front + [item], rest)
    ensures Onto([], rest) == rest
  {}

  /** `iterateTar`, drained. Every slice taken of the source is in range. */
  method ReadTar(utf8: seq<byte> -> bool, src: seq<byte>, lim: Limits) returns (listing: Listing)
    ensures listing == ReadFrom(utf8, src, lim, START)
  {
    hide ReadFrom, ParseHeader, AllZero, TrailerProblem, SafeName, Padding;
    var c := START;
    var entries: seq<Listed> := [];
    OntoBoth([], Listed([], 0, 0), ReadFrom(utf8, src, lim, START));
    while true
      invariant c.offset <= |src|
      invariant Onto(entries, ReadFrom(utf8, src, lim, c)) == ReadFrom(utf8, src, lim, START)
      decreases |src| - c.offset
    {
      ReadTurn(utf8, src, lim, c);
      if |src| - c.offset < BLOCK_SIZE { return Listing(entries, Some(IntegrityFailure)); }
      var block := src[c.offset..c.offset + BLOCK_SIZE];
      var zero := ScanZeros(block, 0, BLOCK_SIZE);
      assert block[0..BLOCK_SIZE] == block;
      if zero {
        var problem := CheckTrailer(src, c.offset + BLOCK_SIZE);
        return Listing(entries, problem);
      }
      var header := ParseHeaderBlock(utf8, block, lim.maxNameLength);
      if header.Err? { return Listing(entries, Some(header.code)); }
      var h := header.value;
      if c.entries + 1 > lim.maxEntries { return Listing(entries, Some(InvalidInput)); }
      if c.totalBytes + h.size > lim.maxBytes { return Listing(entries, Some(InvalidInput)); }
      if c.Past(h.name, h.size).offset > |src| { return Listing(entries, Some(IntegrityFailure)); }
      if h.name in c.seen { return Listing(entries, Some(InvalidInput)); }
      OntoBoth(entries, Listed(h.name, h.size, c.offset + BLOCK_SIZE), ReadFrom(utf8, src, lim, c.Past(h.name, h.size)));
      entries := entries + [Listed(h.name, h.size, c.offset + BLOCK_SIZE)];
      c := c.Past(h.name, h.size);
    }
  }

  /** Entry data cut into the pieces it is read in. */
  function Chunked(data: seq<byte>): (chunks: seq<seq<byte>>)
    ensures Concat(chunks) == data
    ensures forall k :: 0 <= k < |chunks| ==> 0 < |chunks[k]| <= ENTRY_CHUNK_SIZE
  {
    if data == [] then []
    else
      var wanted := if |data| < ENTRY_CHUNK_SIZE then |data| else ENTRY_CHUNK_SIZE;
      assert data[..wanted] + data[wanted..] == data;
      [data[..wanted]] + Chunked(data[wanted..])
  }

  lemma ChunkedStep(data: seq<byte>, wanted: nat)
    requires data != [] && wanted == if |data| < ENTRY_CHUNK_SIZE then |data| else ENTRY_CHUNK_SIZE
    ensures Chunked(data) == [data[..wanted]] + Chunked(data[wanted..])
  {}

  /** `entryChunks`: the data of one yielded entry, in bounded reads. */
  method EntryChunks(src: seq<byte>, dataOffset: nat, size: nat) returns (chunks: seq<seq<byte>>)
    requires dataOffset + size <= |src|
    ensures chunks == Chunked(src[dataOffset..dataOffset + size])
  {
    hide Concat, Chunked;
    chunks := [];
    var position: nat, remaining: nat := dataOffset, size;
    while remaining > 0
      invariant position + remaining == dataOffset + size
      invariant Chunked(src[dataOffset..dataOffset + size]) == chunks + Chunked(src[position..position + remaining])
    {
      var wanted := if remaining < ENTRY_CHUNK_SIZE then remaining else ENTRY_CHUNK_SIZE;
      ghost var left := src[position..position + remaining];
      ChunkedStep(left, wanted);
      assert left[..wanted] == src[position..position + wanted];
      assert left[wanted..] == src[position + wanted..position + remaining];
      chunks := chunks + [src[position..position + wanted]];
      position, remaining := position + wanted, remaining - wanted;
    }
    assert Chunked(src[position..position]) == [] by { ChunkedNothing(src[position..position]); }
    assert chunks + [] == chunks;
  }

  lemma ChunkedNothing(data: seq<byte>)
    requires data == []
    ensures Chunked(data) == []
  {}

  /** A listing of arbitrary bytes after the cursor: new safe names, disjoint data regions in file order, limits kept. */
  ghost predicate Sound(src: seq<byte>, lim: Limits, c: Cursor, es: seq<Listed>) {
    && (es != [] ==> c.entries + |es| <= lim.maxEntries && c.totalBytes + TotalSize(es) <= lim.maxBytes)
    && (forall k :: 0 <= k < |es| ==>
          && SafeName(es[k].name) && es[k].name !in c.seen
          && c.offset + BLOCK_SIZE <= es[k].dataOffset && es[k].dataOffset + es[k].size <= |src|)
    && (forall j, k :: 0 <= j < k < |es| ==>
          es[j].name != es[k].name && es[j].dataOffset + es[j].size + BLOCK_SIZE <= es[k].dataOffset)
  }

  function TotalSize(es: seq<Listed>): nat {
    if es == [] then 0 else es[0].size + TotalSize(es[1..])
  }

  lemma SoundCons(src: seq<byte>, lim: Limits, c: Cursor, h: Header, rest: seq<Listed>)
    requires SafeName(h.name) && EntryProblem(src, lim, c, h).None?
    requires Sound(src, lim, c.Past(h.name, h.size), rest)
    ensures Sound(src, lim, c, [Listed(h.name, h.size, c.offset + BLOCK_SIZE)] + rest)
  {
    var es := [Listed(h.name, h.size, c.offset + BLOCK_SIZE)] + rest;
    assert es[1..] == rest;
    assert TotalSize(es) == h.size + TotalSize(rest);
  }

  /** On arbitrary bytes the reader terminates and yields distinct, safe names over ordered, disjoint regions of the source. */
  lemma {:induction false} ReadingIsSound(utf8: seq<byte> -> bool, src: seq<byte>, lim: Limits, c: Cursor)
    requires c.offset <= |src|
    ensures Sound(src, lim, c, ReadFrom(utf8, src, lim, c).entries)
    decreases |src| - c.offset
  {
    hide Sound, SafeName, Padding;
    if |src| - c.offset >= BLOCK_SIZE && !AllZero(src[c.offset..c.offset + BLOCK_SIZE]) {
      match ParseHeader(utf8, src[c.offset..c.offset + BLOCK_SIZE], lim.maxNameLength)
      case Ok(h) =>
        if EntryProblem(src, lim, c, h).None? {
          ReadingIsSound(utf8, src, lim, c.Past(h.name, h.size));
          SoundCons(src, lim, c, h, ReadFrom(utf8, src, lim, c.Past(h.name, h.size)).entries);
        } else {
          NothingSound(src, lim, c);
        }
      case Err(_) => NothingSound(src, lim, c);
    } else {
      NothingSound(src, lim, c);
    }
  }

  lemma NothingSound(src: seq<byte>, lim: Limits, c: Cursor)
    ensures Sound(src, lim, c, [])
  {}
}
