/** The export manifest: what `select` promises, the tree it is written as, and the strict parser of that tree. */
module Manifests {
  import opened Domain
  import opened Ledgers

  /** A parsed JSON text. Objects keep one value per key; `Fraction` is any number that is not a safe integer. */
  datatype Json = Null | Flag(b: bool) | Number(n: int) | Fraction | Text(s: string) | List(items: seq<Json>)
                | Object(fields: map<string, Json>)

  const SCHEMA := "dump-ledger.export-manifest/v1"
  const MAX_LIST_ENTRIES := 1000000
  const MAX_COUNT := 1000000000
  const MAX_DECIMAL_DIGITS := 40
  const NOT_STABLE := "not-stable"

  /** The text form of identifiers and timestamps, decided elsewhere. */
  datatype Texts = Texts(
    dump: DumpId -> string, parseDump: string -> Option<DumpId>,
    caseId: CaseId -> string, parseCase: string -> Option<CaseId>,
    canonicalTime: string -> bool)

  ghost predicate Faithful(t: Texts) {
    && (forall id: nat, s :: t.parseDump(s) == Some(id) <==> t.dump(id) == s)
    && (forall id: nat, s :: t.parseCase(s) == Some(id) <==> t.caseId(id) == s)
  }

  datatype Declared = Declared(
    dumpId: DumpId, caseId: CaseId, phase: Phase, originalName: string,
    byteSize: Option<nat>, sha256: Option<Digest>)

  datatype Skipped = Skipped(dumpId: DumpId, phase: Phase, reason: string)

  datatype Manifest = Manifest(
    createdAt: string, version: string, schemaMigrations: nat, fingerprint: string,
    counts: Counts, skippedAnalyses: Option<nat>, skipped: seq<Skipped>, dumps: seq<Declared>)

  predicate IsStable(p: Phase) {
    p == Available || p == Rejected || p == Deleted
  }

  function PhaseText(p: Phase): string {
    match p
    case Receiving => "receiving"
    case Sealed => "sealed"
    case Quarantined => "quarantined"
    case Available => "available"
    case Rejected => "rejected"
    case Deleting => "deleting"
    case Deleted => "deleted"
  }

  function ParsePhase(s: string): Option<Phase> {
    if s == "receiving" then Some(Receiving)
    else if s == "sealed" then Some(Sealed)
    else if s == "quarantined" then Some(Quarantined)
    else if s == "available" then Some(Available)
    else if s == "rejected" then Some(Rejected)
    else if s == "deleting" then Some(Deleting)
    else if s == "deleted" then Some(Deleted)
    else None
  }

  lemma PhaseTexts(p: Phase, s: string)
    ensures ParsePhase(s) == Some(p) <==> PhaseText(p) == s
  {
    assert "receiving"[0] != "sealed"[0];
    assert "rejected"[2] != "receiving"[2];
    assert "deleting"[5] != "deleted"[5];
    assert |"sealed"| == 6 && |"quarantined"| == 11 && |"available"| == 9 && |"rejected"| == 8;
    assert |"receiving"| == 9 && |"deleting"| == 8 && |"deleted"| == 7;
    assert "available"[0] != "receiving"[0] && "rejected"[0] != "deleting"[0];
  }

  /** `n.toString()`. */
  function Decimal(n: nat): (s: string)
    ensures s != [] && (forall k :: 0 <= k < |s| ==> '0' <= s[k] <= '9') && (s[0] == '0' ==> s == "0")
  {
    if n < 10 then [Digit(n)] else Decimal(n / 10) + [Digit(n % 10)]
  }

  function Digit(d: nat): (c: char)
    requires d < 10
    ensures '0' <= c <= '9'
  {
    (d as char) + '0'
  }

  predicate IsDecimal(s: string) {
    s != [] && (forall k :: 0 <= k < |s| ==> '0' <= s[k] <= '9') && (s[0] == '0' ==> |s| == 1)
  }

  function DecimalValue(s: string): nat
    requires forall k :: 0 <= k < |s| ==> '0' <= s[k] <= '9'
  {
    if s == [] then 0 else DecimalValue(s[..|s| - 1]) * 10 + (s[|s| - 1] - '0') as nat
  }

  lemma {:induction false} DecimalReads(n: nat)
    ensures IsDecimal(Decimal(n)) && DecimalValue(Decimal(n)) == n
  {
    if n < 10 {
      assert Decimal(n)[..0] == [];
      assert DecimalValue([]) == 0;
    } else {
      DecimalReads(n / 10);
      assert Decimal(n)[..|Decimal(n)| - 1] == Decimal(n / 10);
    }
  }

  /** Canonical decimals are exactly the texts of the naturals. */
  lemma {:induction false} DecimalWrites(s: string)
    requires IsDecimal(s)
    ensures Decimal(DecimalValue(s)) == s
  {
    var front, d := s[..|s| - 1], (s[|s| - 1] - '0') as nat;
    if |s| == 1 {
      assert front == [] && s == [Digit(d)];
    } else {
      DecimalWrites(front);
      var v := DecimalValue(front);
      assert front[0] == s[0];
      assert Decimal(0) == "0";
      assert v != 0;
      assert (v * 10 + d) / 10 == v && (v * 10 + d) % 10 == d;
      assert s == front + [Digit(d)];
    }
  }

  predicate IsText(s: string, max: nat) {
    0 < |s| <= max && '\0' !in s
  }

  predicate IsHash(s: string) {
    |s| == 64 && forall c :: c in s ==> '0' <= c <= '9' || 'a' <= c <= 'f'
  }

  predicate IsFingerprint(s: string) {
    |s| == 43 && forall c :: c in s ==> '0' <= c <= '9' || 'a' <= c <= 'z' || 'A' <= c <= 'Z' || c == '-' || c == '_'
  }

  predicate IsCount(n: int) {
    0 <= n <= MAX_COUNT
  }

  function EntryName(t: Texts, id: DumpId): string {
    "vault/" + t.dump(id) + "/original.dmp"
  }

  // ---- serialization ----

  function SizeTree(size: Option<nat>): Json {
    if size.Some? then Text(Decimal(size.value)) else Null
  }

  function HashTree(hash: Option<Digest>): Json {
    if hash.Some? then Text(hash.value) else Null
  }

  function DeclaredTree(t: Texts, d: Declared): Json {
    Object(map[
      "dumpId" := Text(t.dump(d.dumpId)), "caseId" := Text(t.caseId(d.caseId)), "phase" := Text(PhaseText(d.phase)),
      "originalName" := Text(d.originalName), "byteSize" := SizeTree(d.byteSize), "sha256" := HashTree(d.sha256),
      "entry" := if d.phase == Available then Text(EntryName(t, d.dumpId)) else Null])
  }

  function SkippedTree(t: Texts, s: Skipped): Json {
    Object(map["dumpId" := Text(t.dump(s.dumpId)), "phase" := Text(PhaseText(s.phase)), "reason" := Text(s.reason)])
  }

  function CountsTree(c: Counts): Json {
    var required := map["customers" := Number(c.customers), "cases" := Number(c.cases),
                        "grants" := Number(c.grants), "dumps" := Number(c.dumps)];
    Object(if c.auditEvents.Some? then required["auditEvents" := Number(c.auditEvents.value)] else required)
  }

  function GeneratorTree(version: string, migrations: nat): Json {
    Object(map["version" := Text(version), "schemaMigrations" := Number(migrations)])
  }

  function DeclaredTrees(t: Texts, items: seq<Declared>): seq<Json> {
    if items == [] then [] else [DeclaredTree(t, items[0])] + DeclaredTrees(t, items[1..])
  }

  function SkippedTrees(t: Texts, items: seq<Skipped>): seq<Json> {
    if items == [] then [] else [SkippedTree(t, items[0])] + SkippedTrees(t, items[1..])
  }

  function Tree(t: Texts, m: Manifest): Json {
    var required := map[
      "schema" := Text(SCHEMA), "createdAt" := Text(m.createdAt),
      "generator" := GeneratorTree(m.version, m.schemaMigrations),
      "grantKeyFingerprint" := Text(m.fingerprint), "counts" := CountsTree(m.counts),
      "skipped" := List(SkippedTrees(t, m.skipped)), "dumps" := List(DeclaredTrees(t, m.dumps))];
    Object(if m.skippedAnalyses.Some? then required["skippedAnalyses" := Number(m.skippedAnalyses.value)] else required)
  }

  // ---- strict parsing: none stands for `invalid_input` ----

  function TextField(v: Json, max: nat): Option<string> {
    if v.Text? && IsText(v.s, max) then Some(v.s) else None
  }

  function CountField(v: Json): Option<nat> {
    if v.Number? && IsCount(v.n) then Some(v.n) else None
  }

  /** The outer option is the parse, the inner one the nullable value. */
  function SizeField(v: Json): Option<Option<nat>> {
    if v.Null? then Some(None)
    else
      var s := TextField(v, MAX_DECIMAL_DIGITS);
      if s.Some? && IsDecimal(s.value) then Some(Some(DecimalValue(s.value))) else None
  }

  function HashField(v: Json): Option<Option<Digest>> {
    if v.Null? then Some(None)
    else
      var s := TextField(v, 64);
      if s.Some? && IsHash(s.value) then Some(s) else None
  }

  function ParseDeclared(t: Texts, v: Json): Option<Declared> {
    if !v.Object? || v.fields.Keys != {"dumpId", "caseId", "phase", "originalName", "byteSize", "sha256", "entry"} then None
    else
      var f := v.fields;
      if !f["dumpId"].Text? || !f["caseId"].Text? || !f["phase"].Text? then None
      else
        var id, caseId, phase := t.parseDump(f["dumpId"].s), t.parseCase(f["caseId"].s), ParsePhase(f["phase"].s);
        var name, size, hash := TextField(f["originalName"], 1024), SizeField(f["byteSize"]), HashField(f["sha256"]);
        if id.None? || caseId.None? || phase.None? || !IsStable(phase.value) || name.None? || size.None? || hash.None? then None
        else if phase.value == Available && (size.value.None? || hash.value.None?) then None
        else if f["entry"] != (if phase.value == Available then Text(EntryName(t, id.value)) else Null) then None
        else Some(Declared(id.value, caseId.value, phase.value, name.value, size.value, hash.value))
  }

  function ParseSkipped(t: Texts, v: Json): Option<Skipped> {
    if !v.Object? || v.fields.Keys != {"dumpId", "phase", "reason"} then None
    else
      var f := v.fields;
      if !f["dumpId"].Text? || !f["phase"].Text? then None
      else
        var id, phase, reason := t.parseDump(f["dumpId"].s), ParsePhase(f["phase"].s), TextField(f["reason"], 200);
        if id.None? || phase.None? || IsStable(phase.value) || reason.None? then None
        else Some(Skipped(id.value, phase.value, reason.value))
  }

  function ParseCounts(v: Json): Option<Counts> {
    if !v.Object? || v.fields.Keys - {"auditEvents"} != {"customers", "cases", "grants", "dumps"} then None
    else
      var f := v.fields;
      var customers, cases, grants, dumps :=
        CountField(f["customers"]), CountField(f["cases"]), CountField(f["grants"]), CountField(f["dumps"]);
      if customers.None? || cases.None? || grants.None? || dumps.None? then None
      else if "auditEvents" !in f then Some(Counts(customers.value, cases.value, grants.value, dumps.value, None))
      else
        var events := CountField(f["auditEvents"]);
        if events.None? then None else Some(Counts(customers.value, cases.value, grants.value, dumps.value, events))
  }

  function ParseGenerator(v: Json): Option<(string, nat)> {
    if !v.Object? || v.fields.Keys != {"version", "schemaMigrations"} then None
    else
      var version, migrations := TextField(v.fields["version"], 64), CountField(v.fields["schemaMigrations"]);
      if version.None? || migrations.None? then None else Some((version.value, migrations.value))
  }

  function ParseAllDeclared(t: Texts, items: seq<Json>): Option<seq<Declared>> {
    if items == [] then Some([])
    else
      var first, rest := ParseDeclared(t, items[0]), ParseAllDeclared(t, items[1..]);
      if first.None? || rest.None? then None else Some([first.value] + rest.value)
  }

  function ParseAllSkipped(t: Texts, items: seq<Json>): Option<seq<Skipped>> {
    if items == [] then Some([])
    else
      var first, rest := ParseSkipped(t, items[0]), ParseAllSkipped(t, items[1..]);
      if first.None? || rest.None? then None else Some([first.value] + rest.value)
  }

  function BoundedList(v: Json): Option<seq<Json>> {
    if v.List? && |v.items| <= MAX_LIST_ENTRIES then Some(v.items) else None
  }

  function ParseDumps(t: Texts, v: Json): Option<seq<Declared>> {
    if BoundedList(v).None? then None else ParseAllDeclared(t, BoundedList(v).value)
  }

  function ParseSkips(t: Texts, v: Json): Option<seq<Skipped>> {
    if BoundedList(v).None? then None else ParseAllSkipped(t, BoundedList(v).value)
  }

  function DumpIds(m: Manifest): seq<DumpId> {
    seq(|m.dumps|, k requires 0 <= k < |m.dumps| => m.dumps[k].dumpId) +
    seq(|m.skipped|, k requires 0 <= k < |m.skipped| => m.skipped[k].dumpId)
  }

  predicate Unrepeated(ids: seq<DumpId>) {
    forall i, j :: 0 <= i < j < |ids| ==> ids[i] != ids[j]
  }

  function Parse(t: Texts, v: Json): Option<Manifest> {
    if !v.Object? || v.fields.Keys - {"skippedAnalyses"} !=
         {"schema", "createdAt", "generator", "grantKeyFingerprint", "counts", "skipped", "dumps"} then None
    else
      var f := v.fields;
      if f["schema"] != Text(SCHEMA) then None
      else
        var createdAt, generator, fingerprint := TextField(f["createdAt"], 40), ParseGenerator(f["generator"]), TextField(f["grantKeyFingerprint"], 43);
        var counts := ParseCounts(f["counts"]);
        var skipped, dumps := ParseSkips(t, f["skipped"]), ParseDumps(t, f["dumps"]);
        var analyses := if "skippedAnalyses" in f then CountField(f["skippedAnalyses"]) else None;
        if createdAt.None? || !t.canonicalTime(createdAt.value) || generator.None? then None
        else if fingerprint.None? || !IsFingerprint(fingerprint.value) || counts.None? then None
        else if ("skippedAnalyses" in f && analyses.None?) || skipped.None? || dumps.None? then None
        else
          var m := Manifest(createdAt.value, generator.value.0, generator.value.1, fingerprint.value, counts.value, analyses,
                            skipped.value, dumps.value);
          if !Unrepeated(DumpIds(m)) || m.counts.dumps != |m.dumps| then None else Some(m)
  }

  /** `for (const dump of dumps) if (seen.has(...)) fail(...)`, then the same over skipped. */
  method CheckUnrepeated(m: Manifest) returns (ok: bool)
    ensures ok == Unrepeated(DumpIds(m))
  {
    var seen: set<DumpId> := {};
    ghost var ids := DumpIds(m);
    for k := 0 to |m.dumps|
      invariant forall x :: x in seen <==> x in ids[..k]
      invariant Unrepeated(ids[..k])
    {
      assert ids[..k + 1] == ids[..k] + [m.dumps[k].dumpId];
      if m.dumps[k].dumpId in seen {
        RepeatedPrefix(ids, k);
        return false;
      }
      seen := seen + {m.dumps[k].dumpId};
    }
    for k := 0 to |m.skipped|
      invariant forall x :: x in seen <==> x in ids[..|m.dumps| + k]
      invariant Unrepeated(ids[..|m.dumps| + k])
    {
      assert ids[..|m.dumps| + k + 1] == ids[..|m.dumps| + k] + [m.skipped[k].dumpId];
      if m.skipped[k].dumpId in seen {
        RepeatedPrefix(ids, |m.dumps| + k);
        return false;
      }
      seen := seen + {m.skipped[k].dumpId};
    }
    assert ids[..|m.dumps| + |m.skipped|] == ids;
    ok := true;
  }

  lemma RepeatedPrefix(ids: seq<DumpId>, k: nat)
    requires k < |ids| && ids[k] in ids[..k]
    ensures !Unrepeated(ids)
  {}

  // ---- the values a manifest can carry ----

  predicate DeclaredFits(d: Declared) {
    && IsStable(d.phase) && IsText(d.originalName, 1024)
    && (d.byteSize.Some? ==> |Decimal(d.byteSize.value)| <= MAX_DECIMAL_DIGITS) && (d.sha256.Some? ==> IsHash(d.sha256.value))
    && (d.phase == Available ==> d.byteSize.Some? && d.sha256.Some?)
  }

  predicate CountsFit(c: Counts) {
    && IsCount(c.customers) && IsCount(c.cases) && IsCount(c.grants) && IsCount(c.dumps)
    && (c.auditEvents.Some? ==> IsCount(c.auditEvents.value))
  }

  predicate Fits(t: Texts, m: Manifest) {
    && IsText(m.createdAt, 40) && t.canonicalTime(m.createdAt) && IsText(m.version, 64) && IsCount(m.schemaMigrations)
    && IsFingerprint(m.fingerprint) && CountsFit(m.counts) && (m.skippedAnalyses.Some? ==> IsCount(m.skippedAnalyses.value))
    && |m.dumps| <= MAX_LIST_ENTRIES && |m.skipped| <= MAX_LIST_ENTRIES
    && (forall k :: 0 <= k < |m.dumps| ==> DeclaredFits(m.dumps[k]))
    && (forall k :: 0 <= k < |m.skipped| ==> !IsStable(m.skipped[k].phase) && IsText(m.skipped[k].reason, 200))
    && Unrepeated(DumpIds(m)) && m.counts.dumps == |m.dumps|
  }

  lemma SizeReads(size: Option<nat>)
    requires size.Some? ==> |Decimal(size.value)| <= MAX_DECIMAL_DIGITS
    ensures SizeField(SizeTree(size)) == Some(size)
  {
    if size.Some? {
      DecimalReads(size.value);
    }
  }

  lemma DeclaredReads(t: Texts, d: Declared)
    requires Faithful(t) && DeclaredFits(d)
    ensures ParseDeclared(t, DeclaredTree(t, d)) == Some(d)
  {
    PhaseTexts(d.phase, PhaseText(d.phase));
    SizeReads(d.byteSize);
    HashReads(d.sha256);
    assert t.parseDump(t.dump(d.dumpId)) == Some(d.dumpId) && t.parseCase(t.caseId(d.caseId)) == Some(d.caseId);
    assert DeclaredTree(t, d).fields.Keys == {"dumpId", "caseId", "phase", "originalName", "byteSize", "sha256", "entry"};
  }

  lemma HashReads(hash: Option<Digest>)
    requires hash.Some? ==> IsHash(hash.value)
    ensures HashField(HashTree(hash)) == Some(hash)
  {
    if hash.Some? {
      assert '\0' !in hash.value;
    }
  }

  lemma SkippedReads(t: Texts, s: Skipped)
    requires Faithful(t) && !IsStable(s.phase) && IsText(s.reason, 200)
    ensures ParseSkipped(t, SkippedTree(t, s)) == Some(s)
  {
    PhaseTexts(s.phase, PhaseText(s.phase));
    assert t.parseDump(t.dump(s.dumpId)) == Some(s.dumpId);
    assert SkippedTree(t, s).fields.Keys == {"dumpId", "phase", "reason"};
  }

  lemma CountsRead(c: Counts)
    requires CountsFit(c)
    ensures ParseCounts(CountsTree(c)) == Some(c)
  {
    assert CountsTree(c).fields.Keys - {"auditEvents"} == {"customers", "cases", "grants", "dumps"};
  }

  lemma {:induction false} DumpsRead(t: Texts, items: seq<Declared>)
    requires Faithful(t) && forall d :: d in items ==> DeclaredFits(d)
    ensures |DeclaredTrees(t, items)| == |items| && ParseAllDeclared(t, DeclaredTrees(t, items)) == Some(items)
  {
    hide ParseDeclared, DeclaredTree, DeclaredFits;
    if items != [] {
      DeclaredReads(t, items[0]);
      DumpsRead(t, items[1..]);
      assert DeclaredTrees(t, items)[1..] == DeclaredTrees(t, items[1..]);
      assert items == [items[0]] + items[1..];
    }
  }

  lemma {:induction false} SkipsRead(t: Texts, items: seq<Skipped>)
    requires Faithful(t) && forall s :: s in items ==> !IsStable(s.phase) && IsText(s.reason, 200)
    ensures |SkippedTrees(t, items)| == |items| && ParseAllSkipped(t, SkippedTrees(t, items)) == Some(items)
  {
    hide ParseSkipped, SkippedTree;
    if items != [] {
      SkippedReads(t, items[0]);
      SkipsRead(t, items[1..]);
      assert SkippedTrees(t, items)[1..] == SkippedTrees(t, items[1..]);
      assert items == [items[0]] + items[1..];
    }
  }

  /** A manifest within the bounds comes back unchanged from its tree. */
  lemma ManifestReads(t: Texts, m: Manifest)
    requires Faithful(t) && Fits(t, m)
    ensures Parse(t, Tree(t, m)) == Some(m)
  {
    hide CountsTree, ParseCounts, SkippedTrees, DeclaredTrees, ParseAllSkipped, ParseAllDeclared;
    CountsRead(m.counts);
    DumpsRead(t, m.dumps);
    SkipsRead(t, m.skipped);
    assert '\0' !in m.fingerprint;
    GeneratorReads(m.version, m.schemaMigrations);
    assert Tree(t, m).fields.Keys - {"skippedAnalyses"} ==
      {"schema", "createdAt", "generator", "grantKeyFingerprint", "counts", "skipped", "dumps"};
  }

  lemma GeneratorReads(version: string, migrations: nat)
    requires IsText(version, 64) && IsCount(migrations)
    ensures ParseGenerator(GeneratorTree(version, migrations)) == Some((version, migrations))
  {
    assert GeneratorTree(version, migrations).fields.Keys == {"version", "schemaMigrations"};
  }

  lemma DeclaredStrict(t: Texts, v: Json)
    requires Faithful(t) && ParseDeclared(t, v).Some?
    ensures DeclaredTree(t, ParseDeclared(t, v).value) == v && DeclaredFits(ParseDeclared(t, v).value)
  {
    var f := v.fields;
    var d := ParseDeclared(t, v).value;
    PhaseTexts(d.phase, f["phase"].s);
    SizeStrict(f["byteSize"]);
    assert HashTree(d.sha256) == f["sha256"];
    assert t.dump(d.dumpId) == f["dumpId"].s && t.caseId(d.caseId) == f["caseId"].s;
    assert DeclaredTree(t, d).fields == f;
  }

  lemma SizeStrict(v: Json)
    requires SizeField(v).Some?
    ensures SizeTree(SizeField(v).value) == v
    ensures SizeField(v).value.Some? ==> |Decimal(SizeField(v).value.value)| <= MAX_DECIMAL_DIGITS
  {
    if v.Text? {
      DecimalWrites(v.s);
    }
  }

  lemma SkippedStrict(t: Texts, v: Json)
    requires Faithful(t) && ParseSkipped(t, v).Some?
    ensures SkippedTree(t, ParseSkipped(t, v).value) == v
    ensures !IsStable(ParseSkipped(t, v).value.phase) && IsText(ParseSkipped(t, v).value.reason, 200)
  {
    var s := ParseSkipped(t, v).value;
    PhaseTexts(s.phase, v.fields["phase"].s);
    assert t.dump(s.dumpId) == v.fields["dumpId"].s;
    assert SkippedTree(t, s).fields == v.fields;
  }

  lemma CountsStrict(v: Json)
    requires ParseCounts(v).Some?
    ensures CountsTree(ParseCounts(v).value) == v && CountsFit(ParseCounts(v).value)
  {
    assert forall key :: key in v.fields && key != "auditEvents" ==> key in v.fields.Keys - {"auditEvents"};
    assert CountsTree(ParseCounts(v).value).fields == v.fields;
  }

  lemma {:induction false} DumpsStrict(t: Texts, items: seq<Json>)
    requires Faithful(t) && ParseAllDeclared(t, items).Some?
    ensures var ds := ParseAllDeclared(t, items).value;
            |ds| == |items| && DeclaredTrees(t, ds) == items && forall d :: d in ds ==> DeclaredFits(d)
  {
    hide ParseDeclared, DeclaredTree, DeclaredFits;
    if items != [] {
      DeclaredStrict(t, items[0]);
      DumpsStrict(t, items[1..]);
      assert ParseAllDeclared(t, items).value[1..] == ParseAllDeclared(t, items[1..]).value;
    }
  }

  lemma {:induction false} SkipsStrict(t: Texts, items: seq<Json>)
    requires Faithful(t) && ParseAllSkipped(t, items).Some?
    ensures var ss := ParseAllSkipped(t, items).value;
            |ss| == |items| && SkippedTrees(t, ss) == items && forall s :: s in ss ==> !IsStable(s.phase) && IsText(s.reason, 200)
  {
    hide ParseSkipped, SkippedTree;
    if items != [] {
      SkippedStrict(t, items[0]);
      SkipsStrict(t, items[1..]);
      assert ParseAllSkipped(t, items).value[1..] == ParseAllSkipped(t, items[1..]).value;
    }
  }

  /** The parser is strict: a tree it accepts is exactly the tree of the manifest it returns, which is within the bounds. */
  lemma ParserIsStrict(t: Texts, v: Json)
    requires Faithful(t) && Parse(t, v).Some?
    ensures Tree(t, Parse(t, v).value) == v && Fits(t, Parse(t, v).value)
  {
    hide CountsTree, ParseCounts, SkippedTrees, DeclaredTrees, ParseAllSkipped, ParseAllDeclared, DeclaredFits;
    var f := v.fields;
    var m := Parse(t, v).value;
    CountsStrict(f["counts"]);
    DumpsStrict(t, f["dumps"].items);
    SkipsStrict(t, f["skipped"].items);
    assert GeneratorTree(m.version, m.schemaMigrations).fields == f["generator"].fields;
    assert forall key :: key in f && key != "skippedAnalyses" ==> key in f.Keys - {"skippedAnalyses"};
    assert Tree(t, m).fields == f;
  }
}
