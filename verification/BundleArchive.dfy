/** A bundle as bytes: the tar entries an export writes, and what an import opens again. */
module BundleArchive {
  import opened Domain
  import opened Ledgers
  import opened TarFields
  import opened TarHeader
  import opened TarArchive
  import opened TarRoundTrip
  import opened Manifests
  import opened Exports

  /** "manifest.json" and "ledger.sqlite". */
  const MANIFEST_NAME: seq<byte> := [0x6d, 0x61, 0x6e, 0x69, 0x66, 0x65, 0x73, 0x74, 0x2e, 0x6a, 0x73, 0x6f, 0x6e]
  const LEDGER_NAME: seq<byte> := [0x6c, 0x65, 0x64, 0x67, 0x65, 0x72, 0x2e, 0x73, 0x71, 0x6c, 0x69, 0x74, 0x65]
  /** "vault" and "original.dmp". */
  const VAULT_PART: seq<byte> := [0x76, 0x61, 0x75, 0x6c, 0x74]
  const FILE_PART: seq<byte> := [0x6f, 0x72, 0x69, 0x67, 0x69, 0x6e, 0x61, 0x6c, 0x2e, 0x64, 0x6d, 0x70]
  /** "dump_", and how many letters and digits follow it. */
  const ID_PART: seq<byte> := [0x64, 0x75, 0x6d, 0x70, 0x5f]
  const ID_DIGITS := 26
  const MAX_MANIFEST := 16 * 1024 * 1024

  /** Identifier texts, UTF-8, JSON text and the SQLite file format, decided elsewhere. */
  datatype Codec = Codec(
    idText: DumpId -> seq<byte>, utf8: seq<byte> -> bool,
    manifestText: Manifest -> seq<byte>, parseManifest: seq<byte> -> Option<Manifest>,
    ledgerFile: Ledger -> seq<byte>, readLedger: seq<byte> -> Option<Ledger>)

  /** Crockford's digits and letters: none of I, L, O and U. */
  predicate IsIdByte(c: byte) {
    0x30 <= c <= 0x39 || (0x41 <= c <= 0x5a && c !in [0x49, 0x4c, 0x4f, 0x55])
  }

  predicate IsIdText(s: seq<byte>) {
    && |s| == |ID_PART| + ID_DIGITS && s[..|ID_PART|] == ID_PART
    && forall k :: |ID_PART| <= k < |s| ==> IsIdByte(s[k])
  }

  predicate IsAscii(s: seq<byte>) {
    forall k :: 0 <= k < |s| ==> s[k] < 0x80
  }

  /** The ids in use have the shape of ids, no two ids share a text, and ASCII is UTF-8. */
  ghost predicate CodecSound(c: Codec, ids: set<DumpId>) {
    && (forall id :: id in ids ==> IsIdText(c.idText(id)))
    && (forall a, b :: c.idText(a) == c.idText(b) ==> a == b)
    && (forall s :: IsAscii(s) ==> c.utf8(s))
  }

  /** `dumpEntryName`. */
  function VaultName(c: Codec, id: DumpId): seq<byte> {
    VAULT_PART + [SLASH] + c.idText(id) + [SLASH] + FILE_PART
  }

  function FileEntries(c: Codec, files: map<DumpId, seq<byte>>, ids: seq<DumpId>): (r: seq<Entry>)
    requires forall id :: id in ids ==> id in files
    ensures |r| == |ids| && forall k :: 0 <= k < |ids| ==> r[k] == Entry(VaultName(c, ids[k]), files[ids[k]], 0)
  {
    if ids == [] then [] else [Entry(VaultName(c, ids[0]), files[ids[0]], 0)] + FileEntries(c, files, ids[1..])
  }

  /** What `run` writes: manifest, ledger copy, then the promised dumps in id order, under the fixed clock. */
  function BundleEntries(c: Codec, b: Bundle): seq<Entry> {
    [Entry(MANIFEST_NAME, c.manifestText(b.manifest), 0), Entry(LEDGER_NAME, c.ledgerFile(b.rows), 0)]
    + FileEntries(c, b.files, SortedIds(b.files.Keys))
  }

  function Letters(s: string): seq<byte>
    requires forall k :: 0 <= k < |s| ==> s[k] as int < 128
  {
    seq(|s|, k requires 0 <= k < |s| => s[k] as int)
  }

  /** The entry names in letters. */
  lemma NamesText(c: Codec, id: DumpId)
    ensures MANIFEST_NAME == Letters("manifest.json") && LEDGER_NAME == Letters("ledger.sqlite")
    ensures VaultName(c, id) == Letters("vault/") + c.idText(id) + Letters("/original.dmp") && ID_PART == Letters("dump_")
  {
    assert VAULT_PART + [SLASH] == Letters("vault/");
    assert [SLASH] + FILE_PART == Letters("/original.dmp");
    assert VaultName(c, id) == (VAULT_PART + [SLASH]) + c.idText(id) + ([SLASH] + FILE_PART);
  }

  /** The entries of a listing, by name. */
  function Collect(src: seq<byte>, listed: seq<Listed>): map<seq<byte>, seq<byte>>
    requires forall k :: 0 <= k < |listed| ==> listed[k].dataOffset + listed[k].size <= |src|
  {
    if listed == [] then map[]
    else
      var last := listed[|listed| - 1];
      Collect(src, listed[..|listed| - 1])[last.name := src[last.dataOffset..last.dataOffset + last.size]]
  }

  /** `VAULT_ENTRY_PATTERN`. */
  ghost predicate IsVaultName(c: Codec, name: seq<byte>) {
    exists id :: VaultName(c, id) == name && IsIdText(c.idText(id))
  }

  predicate WithinSize(data: seq<byte>, max: nat) {
    0 < |data| <= max
  }

  /** `collectEntries` and the parses behind it; none stands for any refusal. */
  ghost function Open(c: Codec, src: seq<byte>, lim: Limits, maxLedger: nat): Option<Bundle> {
    var listing := ReadFrom(c.utf8, src, lim, START);
    ListedInside(c.utf8, src, lim);
    if listing.problem.Some? then None
    else
      var entries := Collect(src, listing.entries);
      if exists name :: name in entries && name != MANIFEST_NAME && name != LEDGER_NAME && !IsVaultName(c, name) then None
      else if MANIFEST_NAME !in entries || !WithinSize(entries[MANIFEST_NAME], MAX_MANIFEST) then None
      else if LEDGER_NAME !in entries || !WithinSize(entries[LEDGER_NAME], maxLedger) then None
      else
        var manifest, rows := c.parseManifest(entries[MANIFEST_NAME]), c.readLedger(entries[LEDGER_NAME]);
        if manifest.None? || rows.None? then None else Some(Bundle(manifest.value, rows.value, FilesOf(c, entries)))
  }

  ghost function FilesOf(c: Codec, entries: map<seq<byte>, seq<byte>>): map<DumpId, seq<byte>> {
    var named := map name | name in entries && IsVaultName(c, name) :: IdOf(c, name);
    map id | id in named.Values && VaultName(c, id) in entries :: entries[VaultName(c, id)]
  }

  ghost function IdOf(c: Codec, name: seq<byte>): (id: DumpId)
    requires IsVaultName(c, name)
    ensures VaultName(c, id) == name && IsIdText(c.idText(id))
  {
    var id :| VaultName(c, id) == name && IsIdText(c.idText(id));
    id
  }

  lemma ListedInside(utf8: seq<byte> -> bool, src: seq<byte>, lim: Limits)
    ensures forall k :: 0 <= k < |ReadFrom(utf8, src, lim, START).entries| ==>
              var e := ReadFrom(utf8, src, lim, START).entries[k]; e.dataOffset + e.size <= |src|
  {
    hide ReadFrom;
    ReadingIsSound(utf8, src, lim, START);
  }

  lemma {:induction false} JoinedComponents(a: seq<byte>, rest: seq<byte>)
    requires SLASH !in a
    ensures Components(a + [SLASH] + rest) == [a] + Components(rest)
    decreases |a|
  {
    var name := a + [SLASH] + rest;
    if a == [] {
      assert name[1..] == rest;
    } else {
      assert a[0] in a;
      assert name[1..] == a[1..] + [SLASH] + rest;
      JoinedComponents(a[1..], rest);
      assert [a[0]] + a[1..] == a;
    }
  }

  predicate IsNameByte(c: byte) {
    0x30 <= c <= 0x39 || 0x41 <= c <= 0x5a || 0x61 <= c <= 0x7a || c == 0x5f || c == 0x2e || c == SLASH
  }

  predicate PlainName(s: seq<byte>) {
    forall k :: 0 <= k < |s| ==> IsNameByte(s[k])
  }

  lemma PlainNameIsSafe(name: seq<byte>)
    requires PlainName(name) && |name| > 0 && name[0] != SLASH
    requires forall part :: part in Components(name) ==> part != [] && part != [0x2e, 0x2e]
    ensures SafeName(name) && IsAscii(name) && !(BOM <= name)
  {
    hide Components;
    assert 0 !in name && 0x5c !in name;
    assert |name| >= 2 ==> IsNameByte(name[1]);
    assert IsNameByte(name[0]);
  }

  lemma IdTextPlain(text: seq<byte>)
    requires IsIdText(text)
    ensures PlainName(text) && SLASH !in text && text != [] && text != [0x2e, 0x2e] && |text| == 31
  {
    assert text == ID_PART + text[|ID_PART|..];
    assert PlainName(ID_PART) && SLASH !in ID_PART;
  }

  lemma VaultNamePlain(c: Codec, id: DumpId)
    requires IsIdText(c.idText(id))
    ensures PlainName(VaultName(c, id)) && |VaultName(c, id)| == 50
  {
    hide IsIdText;
    var text, name := c.idText(id), VaultName(c, id);
    IdTextPlain(text);
    assert PlainName(VAULT_PART + [SLASH]) && PlainName([SLASH] + FILE_PART);
    assert name == (VAULT_PART + [SLASH]) + text + ([SLASH] + FILE_PART);
  }

  lemma VaultNameStart(c: Codec, id: DumpId)
    ensures |VaultName(c, id)| == |c.idText(id)| + 19 && VaultName(c, id)[0] == 0x76
  {}

  lemma VaultNameSafe(c: Codec, ids: set<DumpId>, id: DumpId)
    requires CodecSound(c, ids) && id in ids
    ensures SafeName(VaultName(c, id)) && |VaultName(c, id)| == 50 && !(BOM <= VaultName(c, id)) && c.utf8(VaultName(c, id))
  {
    hide Components, PlainName, SafeName, IsAscii, IsIdText;
    var text, name := c.idText(id), VaultName(c, id);
    VaultNamePlain(c, id);
    IdTextPlain(text);
    assert name == VAULT_PART + [SLASH] + (text + [SLASH] + FILE_PART);
    JoinedComponents(VAULT_PART, text + [SLASH] + FILE_PART);
    JoinedComponents(text, FILE_PART);
    OneComponent(FILE_PART);
    assert Components(name) == [VAULT_PART] + ([text] + [FILE_PART]);
    PlainNameIsSafe(name);
  }

  lemma FixedNamesSafe(c: Codec, ids: set<DumpId>)
    requires CodecSound(c, ids)
    ensures SafeName(MANIFEST_NAME) && SafeName(LEDGER_NAME) && c.utf8(MANIFEST_NAME) && c.utf8(LEDGER_NAME)
    ensures !(BOM <= MANIFEST_NAME) && !(BOM <= LEDGER_NAME)
    ensures forall id :: VaultName(c, id) != MANIFEST_NAME && VaultName(c, id) != LEDGER_NAME
  {
    hide Components, SafeName, IsAscii, VaultName, IsIdText;
    OneComponent(MANIFEST_NAME);
    OneComponent(LEDGER_NAME);
    PlainNameIsSafe(MANIFEST_NAME);
    PlainNameIsSafe(LEDGER_NAME);
    forall id ensures VaultName(c, id) != MANIFEST_NAME && VaultName(c, id) != LEDGER_NAME {
      VaultNameStart(c, id);
    }
  }

  lemma VaultNameInjective(c: Codec, ids: set<DumpId>, a: DumpId, b: DumpId)
    requires CodecSound(c, ids) && VaultName(c, a) == VaultName(c, b)
    ensures a == b
  {
    var n := |c.idText(a)|;
    VaultNameStart(c, a);
    VaultNameStart(c, b);
    assert VaultName(c, a)[6..6 + n] == c.idText(a) && VaultName(c, b)[6..6 + n] == c.idText(b);
  }

  /** The bundle is within what one archive and its reader can hold. */
  ghost predicate Fits(c: Codec, b: Bundle, lim: Limits, maxLedger: nat) {
    && c.parseManifest(c.manifestText(b.manifest)) == Some(b.manifest) && c.readLedger(c.ledgerFile(b.rows)) == Some(b.rows)
    && WithinSize(c.manifestText(b.manifest), MAX_MANIFEST) && WithinSize(c.ledgerFile(b.rows), maxLedger)
    && |c.ledgerFile(b.rows)| < BASE256_SIZE_LIMIT && (forall id :: id in b.files ==> |b.files[id]| < BASE256_SIZE_LIMIT)
    && |b.files| + 2 <= lim.maxEntries && TotalData(BundleEntries(c, b)) <= lim.maxBytes && lim.maxNameLength >= 50
  }

  lemma EntryNames(c: Codec, b: Bundle, k: nat)
    requires k < |BundleEntries(c, b)|
    ensures var es, ids := BundleEntries(c, b), SortedIds(b.files.Keys);
            && |es| == |ids| + 2
            && es[k] == (if k == 0 then Entry(MANIFEST_NAME, c.manifestText(b.manifest), 0)
                         else if k == 1 then Entry(LEDGER_NAME, c.ledgerFile(b.rows), 0)
                         else Entry(VaultName(c, ids[k - 2]), b.files[ids[k - 2]], 0))
  {
    hide VaultName, SortedIds;
  }

  lemma EntriesReadable(c: Codec, b: Bundle, lim: Limits, maxLedger: nat)
    requires CodecSound(c, b.files.Keys) && Fits(c, b, lim, maxLedger)
    ensures Encodable(c.utf8, BundleEntries(c, b), 420) && Readable(BundleEntries(c, b), lim)
  {
    hide BundleEntries, SafeName, VaultName, TotalData, SortedIds, CodecSound;
    var es, ids := BundleEntries(c, b), SortedIds(b.files.Keys);
    FixedNamesSafe(c, b.files.Keys);
    forall k | 0 <= k < |es|
      ensures Writable(es[k]) && c.utf8(es[k].name) && |es[k].name| <= lim.maxNameLength && !(BOM <= es[k].name)
    {
      EntryNames(c, b, k);
      if k >= 2 { VaultNameSafe(c, b.files.Keys, ids[k - 2]); }
    }
    forall j, k | 0 <= j < k < |es| ensures es[j].name != es[k].name {
      EntryNames(c, b, j);
      EntryNames(c, b, k);
      if j >= 2 && es[j].name == es[k].name { VaultNameInjective(c, b.files.Keys, ids[j - 2], ids[k - 2]); }
    }
    if |es| > 0 { EntryNames(c, b, 0); }
  }

  lemma ShownLast(src: seq<byte>, listed: seq<Listed>, es: seq<Entry>)
    requires Shows(src, listed, es) && es != []
    ensures var n := |es| - 1;
            && |listed| == |es| && Shows(src, listed[..n], es[..n])
            && (forall k :: 0 <= k < |listed| ==> listed[k].dataOffset + listed[k].size <= |src|)
            && Collect(src, listed) == Collect(src, listed[..n])[es[n].name := es[n].data]
  {}

  /** The collected map holds exactly the entries shown. */
  ghost predicate Holds(entries: map<seq<byte>, seq<byte>>, es: seq<Entry>) {
    && (forall k :: 0 <= k < |es| ==> es[k].name in entries && entries[es[k].name] == es[k].data)
    && (forall name :: name in entries ==> exists k :: 0 <= k < |es| && es[k].name == name)
  }

  lemma OneMoreHeld(entries: map<seq<byte>, seq<byte>>, es: seq<Entry>, e: Entry)
    requires Holds(entries, es) && forall k :: 0 <= k < |es| ==> es[k].name != e.name
    ensures Holds(entries[e.name := e.data], es + [e])
  {
    var more, after := es + [e], entries[e.name := e.data];
    forall name | name in after ensures exists k :: 0 <= k < |more| && more[k].name == name {
      if name == e.name {
        assert more[|es|].name == name;
      } else {
        var k :| 0 <= k < |es| && es[k].name == name;
        assert more[k].name == name;
      }
    }
  }

  /** The collected map of a listing that shows the entries. */
  lemma {:induction false} CollectsShown(src: seq<byte>, listed: seq<Listed>, es: seq<Entry>)
    requires Shows(src, listed, es) && forall j, k :: 0 <= j < k < |es| ==> es[j].name != es[k].name
    requires forall k :: 0 <= k < |listed| ==> listed[k].dataOffset + listed[k].size <= |src|
    ensures Holds(Collect(src, listed), es)
    decreases |es|
  {
    if es != [] {
      hide Shows, Collect, Holds;
      var n := |es| - 1;
      ShownLast(src, listed, es);
      CollectsShown(src, listed[..n], es[..n]);
      OneMoreHeld(Collect(src, listed[..n]), es[..n], es[n]);
      assert es[..n] + [es[n]] == es;
    }
  }

  lemma FileNameMatches(c: Codec, b: Bundle, id: DumpId)
    requires CodecSound(c, b.files.Keys) && id in b.files
    ensures IsVaultName(c, VaultName(c, id))
  {
    hide VaultName, IsIdText;
  }

  lemma FilesCollected(c: Codec, b: Bundle, entries: map<seq<byte>, seq<byte>>)
    requires CodecSound(c, b.files.Keys)
    requires forall id :: id in b.files ==> VaultName(c, id) in entries && entries[VaultName(c, id)] == b.files[id]
    requires forall name :: name in entries && IsVaultName(c, name) ==> exists id :: id in b.files && VaultName(c, id) == name
    ensures FilesOf(c, entries) == b.files
  {
    hide VaultName, CodecSound;
    var named := map name | name in entries && IsVaultName(c, name) :: IdOf(c, name);
    var files := FilesOf(c, entries);
    forall id | id in b.files ensures id in files && files[id] == b.files[id] {
      var name := VaultName(c, id);
      FileNameMatches(c, b, id);
      assert name in named;
      VaultNameInjective(c, b.files.Keys, IdOf(c, name), id);
      assert named[name] == id && id in named.Values;
    }
    forall id | id in files ensures id in b.files {
      assert id in named.Values;
      var other :| other in b.files && VaultName(c, other) == VaultName(c, id);
      VaultNameInjective(c, b.files.Keys, other, id);
    }
  }

  /** Every entry but the two fixed ones is a file of the bundle. */
  lemma OnlyBundleNames(c: Codec, b: Bundle, entries: map<seq<byte>, seq<byte>>)
    requires CodecSound(c, b.files.Keys) && Holds(entries, BundleEntries(c, b))
    ensures forall name :: name in entries && name != MANIFEST_NAME && name != LEDGER_NAME ==>
              IsVaultName(c, name) && exists id :: id in b.files && VaultName(c, id) == name
  {
    hide BundleEntries, VaultName, CodecSound, SortedIds;
    var es, ids := BundleEntries(c, b), SortedIds(b.files.Keys);
    forall name | name in entries && name != MANIFEST_NAME && name != LEDGER_NAME
      ensures IsVaultName(c, name) && exists id :: id in b.files && VaultName(c, id) == name
    {
      var k :| 0 <= k < |es| && es[k].name == name;
      EntryNames(c, b, k);
      assert ids[k - 2] in ids;
      FileNameMatches(c, b, ids[k - 2]);
    }
  }

  /** Every file of the bundle is there under its name. */
  lemma FilesHeld(c: Codec, b: Bundle, entries: map<seq<byte>, seq<byte>>)
    requires CodecSound(c, b.files.Keys) && Holds(entries, BundleEntries(c, b))
    ensures forall id :: id in b.files ==> VaultName(c, id) in entries && entries[VaultName(c, id)] == b.files[id]
  {
    hide BundleEntries, VaultName, CodecSound, SortedIds;
    var es, ids := BundleEntries(c, b), SortedIds(b.files.Keys);
    BundleSize(c, b);
    forall id | id in b.files ensures VaultName(c, id) in entries && entries[VaultName(c, id)] == b.files[id] {
      assert id in ids;
      var k :| 0 <= k < |ids| && ids[k] == id;
      EntryNames(c, b, k + 2);
      assert es[k + 2].name in entries;
    }
  }

  /** Opening what was sealed gives back the same manifest, rows and bytes. */
  lemma SealedBundleOpens(c: Codec, b: Bundle, lim: Limits, maxLedger: nat)
    requires CodecSound(c, b.files.Keys) && Fits(c, b, lim, maxLedger)
    ensures AllWritable(BundleEntries(c, b)) && Open(c, Archive(BundleEntries(c, b), 420), lim, maxLedger) == Some(b)
  {
    hide ReadFrom, Archive, BundleEntries, VaultName, CodecSound, SafeName, FilesOf, Collect, SortedIds, Writable, Readable, TotalData, Shows;
    var es, ids := BundleEntries(c, b), SortedIds(b.files.Keys);
    EntriesReadable(c, b, lim, maxLedger);
    var src := Archive(es, 420);
    RoundTrip(c.utf8, es, 420, lim);
    var listing := ReadFrom(c.utf8, src, lim, START);
    ReadableDistinct(es, lim);
    ListedInside(c.utf8, src, lim);
    CollectsShown(src, listing.entries, es);
    var entries := Collect(src, listing.entries);
    assert |es| >= 2 by { BundleSize(c, b); }
    EntryNames(c, b, 0);
    EntryNames(c, b, 1);
    FixedNamesSafe(c, b.files.Keys);
    OnlyBundleNames(c, b, entries);
    FilesHeld(c, b, entries);
    FilesCollected(c, b, entries);
  }

  lemma BundleSize(c: Codec, b: Bundle)
    ensures |BundleEntries(c, b)| == |SortedIds(b.files.Keys)| + 2
  {}

  lemma ReadableDistinct(es: seq<Entry>, lim: Limits)
    requires Readable(es, lim)
    ensures forall j, k :: 0 <= j < k < |es| ==> es[j].name != es[k].name
  {}

  // ---- the hypotheses have instances ----

  const NAMED_IDS := Eight.Capacity(ID_DIGITS)

  function DigitBytes(digits: seq<nat>): (s: seq<byte>)
    requires forall k :: 0 <= k < |digits| ==> digits[k] < 8
    ensures |s| == |digits| && forall k :: 0 <= k < |s| ==> s[k] as nat == 0x30 + digits[k]
  {
    seq(|digits|, k requires 0 <= k < |digits| => (0x30 + digits[k]) as byte)
  }

  /** Ids as 26 octal digits while they fit, and any longer text of their own above. */
  function OctalText(id: DumpId): seq<byte> {
    if id < NAMED_IDS then ID_PART + DigitBytes(Eight.Digits(id, ID_DIGITS)) else seq(id, _ => 0x30)
  }

  lemma OctalTextShape(id: DumpId)
    requires id < NAMED_IDS
    ensures IsIdText(OctalText(id))
  {
    var digits := DigitBytes(Eight.Digits(id, ID_DIGITS));
    assert OctalText(id) == ID_PART + digits;
    forall k | |ID_PART| <= k < |OctalText(id)| ensures IsIdByte(OctalText(id)[k]) {
      assert OctalText(id)[k] == digits[k - |ID_PART|];
    }
  }

  lemma OctalTextInjective(a: DumpId, b: DumpId)
    requires OctalText(a) == OctalText(b)
    ensures a == b
  {
    assert NAMED_IDS > |ID_PART| + ID_DIGITS by { CapacityGrows(ID_DIGITS); }
    if a < NAMED_IDS && b < NAMED_IDS {
      var x, y := Eight.Digits(a, ID_DIGITS), Eight.Digits(b, ID_DIGITS);
      assert OctalText(a)[|ID_PART|..] == DigitBytes(x) && OctalText(b)[|ID_PART|..] == DigitBytes(y);
      assert x == y by {
        forall k | 0 <= k < ID_DIGITS ensures x[k] == y[k] {
          assert DigitBytes(x)[k] == DigitBytes(y)[k];
        }
      }
      Eight.DigitsValue(a, ID_DIGITS);
      Eight.DigitsValue(b, ID_DIGITS);
    }
  }

  lemma {:induction false} CapacityGrows(n: nat)
    ensures Eight.Capacity(n) > 7 * n
  {
    if n > 0 { CapacityGrows(n - 1); }
  }

  /** A codec for one bundle: octal ids, and one byte for the manifest and for the ledger file. */
  function PlainCodec(b: Bundle): Codec {
    Codec(OctalText, s => true, m => [0x6d], s => Some(b.manifest), l => [0x6c], s => Some(b.rows))
  }

  /** Limits that just hold the bundle. */
  function ExactLimits(c: Codec, b: Bundle): Limits {
    Limits(|b.files| + 2, TotalData(BundleEntries(c, b)), 50)
  }

  /** Every bundle of small ids whose files can be written at all meets the hypotheses under some codec. */
  lemma SomeCodecFits(b: Bundle, ids: set<DumpId>)
    requires forall id :: id in ids ==> id < NAMED_IDS
    requires forall id :: id in b.files ==> |b.files[id]| < BASE256_SIZE_LIMIT
    ensures CodecSound(PlainCodec(b), ids) && Fits(PlainCodec(b), b, ExactLimits(PlainCodec(b), b), 1)
  {
    hide IsIdText, OctalText, BundleEntries, TotalData;
    var c := PlainCodec(b);
    forall id | id in ids ensures IsIdText(c.idText(id)) {
      OctalTextShape(id);
    }
    forall x, y | c.idText(x) == c.idText(y) ensures x == y {
      OctalTextInjective(x, y);
    }
  }
}
