/** The manifest format, key by key and bound by bound. */
module ManifestFormat {
  import opened Domain
  import opened Manifests

  function Pow10(n: nat): nat {
    if n == 0 then 1 else 10 * Pow10(n - 1)
  }

  lemma {:induction false} DecimalDigits(v: nat, n: nat)
    requires n > 0
    ensures |Decimal(v)| <= n <==> v < Pow10(n)
    decreases n
  {
    if v >= 10 && n > 1 {
      DecimalDigits(v / 10, n - 1);
    } else if n > 1 {
      PowerGrows(n - 1);
    }
  }

  lemma {:induction false} PowerGrows(n: nat)
    ensures Pow10(n) >= 1
  {
    if n > 0 { PowerGrows(n - 1); }
  }

  predicate TextWithin(s: string, max: nat) {
    0 < |s| <= max && forall k :: 0 <= k < |s| ==> s[k] != '\0'
  }

  predicate DeclaredWithin(d: Declared) {
    && (d.phase == Available || d.phase == Rejected || d.phase == Deleted) && TextWithin(d.originalName, 1024)
    && (d.byteSize.Some? ==> d.byteSize.value < Pow10(40))
    && (d.sha256.Some? ==> |d.sha256.value| == 64 && forall c :: c in d.sha256.value ==> '0' <= c <= '9' || 'a' <= c <= 'f')
    && (d.phase == Available ==> d.byteSize.Some? && d.sha256.Some?)
  }

  predicate SkippedWithin(s: Skipped) {
    s.phase != Available && s.phase != Rejected && s.phase != Deleted && TextWithin(s.reason, 200)
  }

  lemma DeclaredBounds(d: Declared)
    ensures DeclaredFits(d) <==> DeclaredWithin(d)
  {
    if d.byteSize.Some? { DecimalDigits(d.byteSize.value, 40); }
    hide Pow10, Decimal;
  }

  /** No dump is named twice, among the declared and the skipped together. */
  predicate NamedOnce(m: Manifest) {
    && (forall j, k :: 0 <= j < k < |m.dumps| ==> m.dumps[j].dumpId != m.dumps[k].dumpId)
    && (forall j, k :: 0 <= j < k < |m.skipped| ==> m.skipped[j].dumpId != m.skipped[k].dumpId)
    && (forall j, k :: 0 <= j < |m.dumps| && 0 <= k < |m.skipped| ==> m.dumps[j].dumpId != m.skipped[k].dumpId)
  }

  lemma NamesOnce(m: Manifest)
    ensures Unrepeated(DumpIds(m)) <==> NamedOnce(m)
  {
    var ids, n := DumpIds(m), |m.dumps|;
    assert forall k :: 0 <= k < n ==> ids[k] == m.dumps[k].dumpId;
    assert forall k :: 0 <= k < |m.skipped| ==> ids[n + k] == m.skipped[k].dumpId;
    if NamedOnce(m) {
      forall i, j | 0 <= i < j < |ids| ensures ids[i] != ids[j] {
        if i >= n { assert ids[i] == m.skipped[i - n].dumpId && ids[j] == m.skipped[j - n].dumpId; }
        if i < n <= j { assert ids[j] == m.skipped[j - n].dumpId; }
      }
    }
    if Unrepeated(ids) {
      forall j, k | 0 <= j < k < |m.skipped| ensures m.skipped[j].dumpId != m.skipped[k].dumpId {
        assert ids[n + j] != ids[n + k];
      }
      forall j, k | 0 <= j < |m.dumps| && 0 <= k < |m.skipped| ensures m.dumps[j].dumpId != m.skipped[k].dumpId {
        assert ids[j] != ids[n + k];
      }
    }
  }

  predicate Small(n: nat) {
    n <= 1000000000
  }

  /** The bounds of a manifest, in numbers. */
  lemma ManifestBounds(t: Texts, m: Manifest)
    ensures Fits(t, m) <==>
            && TextWithin(m.createdAt, 40) && t.canonicalTime(m.createdAt) && TextWithin(m.version, 64) && Small(m.schemaMigrations)
            && |m.fingerprint| == 43
            && (forall c :: c in m.fingerprint ==> '0' <= c <= '9' || 'a' <= c <= 'z' || 'A' <= c <= 'Z' || c == '-' || c == '_')
            && Small(m.counts.customers) && Small(m.counts.cases) && Small(m.counts.grants) && m.counts.dumps == |m.dumps|
            && (m.counts.auditEvents.Some? ==> Small(m.counts.auditEvents.value))
            && (m.skippedAnalyses.Some? ==> Small(m.skippedAnalyses.value))
            && |m.dumps| <= 1000000 && |m.skipped| <= 1000000
            && (forall k :: 0 <= k < |m.dumps| ==> DeclaredWithin(m.dumps[k]))
            && (forall k :: 0 <= k < |m.skipped| ==> SkippedWithin(m.skipped[k]))
            && NamedOnce(m)
  {
    hide DeclaredFits, DeclaredWithin, Unrepeated, NamedOnce, DumpIds;
    NamesOnce(m);
    forall k | 0 <= k < |m.dumps| { DeclaredBounds(m.dumps[k]); }
  }

  /** The tree of one declared dump. */
  predicate ShowsDeclared(t: Texts, v: Json, d: Declared) {
    v == Object(map[
      "dumpId" := Text(t.dump(d.dumpId)), "caseId" := Text(t.caseId(d.caseId)),
      "phase" := Text(if d.phase == Available then "available" else if d.phase == Rejected then "rejected" else "deleted"),
      "originalName" := Text(d.originalName),
      "byteSize" := if d.byteSize.Some? then Text(Decimal(d.byteSize.value)) else Null,
      "sha256" := if d.sha256.Some? then Text(d.sha256.value) else Null,
      "entry" := if d.phase == Available then Text("vault/" + t.dump(d.dumpId) + "/original.dmp") else Null])
  }

  predicate ShowsSkipped(t: Texts, v: Json, s: Skipped) {
    && v.Object? && v.fields.Keys == {"dumpId", "phase", "reason"}
    && v.fields["dumpId"] == Text(t.dump(s.dumpId)) && v.fields["reason"] == Text(s.reason)
    && v.fields["phase"] == Text(if s.phase == Receiving then "receiving" else if s.phase == Sealed then "sealed"
                                 else if s.phase == Quarantined then "quarantined" else "deleting")
  }

  predicate ShowsCounts(v: Json, c: Counts) {
    && v.Object?
    && v.fields.Keys == {"customers", "cases", "grants", "dumps"} + (if c.auditEvents.Some? then {"auditEvents"} else {})
    && v.fields["customers"] == Number(c.customers) && v.fields["cases"] == Number(c.cases)
    && v.fields["grants"] == Number(c.grants) && v.fields["dumps"] == Number(c.dumps)
    && (c.auditEvents.Some? ==> v.fields["auditEvents"] == Number(c.auditEvents.value))
  }

  lemma CountsShown(c: Counts)
    ensures ShowsCounts(CountsTree(c), c)
  {}

  lemma DeclaredShown(t: Texts, d: Declared)
    requires DeclaredFits(d)
    ensures ShowsDeclared(t, DeclaredTree(t, d), d)
  {}

  lemma SkippedShown(t: Texts, s: Skipped)
    requires !IsStable(s.phase)
    ensures ShowsSkipped(t, SkippedTree(t, s), s)
  {}

  lemma {:induction false} DeclaredAt(t: Texts, items: seq<Declared>, k: nat)
    requires k < |items|
    ensures |DeclaredTrees(t, items)| == |items| && DeclaredTrees(t, items)[k] == DeclaredTree(t, items[k])
    decreases |items|
  {
    hide DeclaredTree;
    if |items| > 1 { DeclaredAt(t, items[1..], if k > 0 then k - 1 else 0); }
  }

  lemma {:induction false} SkippedAt(t: Texts, items: seq<Skipped>, k: nat)
    requires k < |items|
    ensures |SkippedTrees(t, items)| == |items| && SkippedTrees(t, items)[k] == SkippedTree(t, items[k])
    decreases |items|
  {
    hide SkippedTree;
    if |items| > 1 { SkippedAt(t, items[1..], if k > 0 then k - 1 else 0); }
  }

  /** What stands under which key of a manifest. */
  lemma ManifestKeys(t: Texts, m: Manifest)
    requires Fits(t, m)
    ensures var v := Tree(t, m);
            && v.Object?
            && var f := v.fields;
               && f.Keys == {"schema", "createdAt", "generator", "grantKeyFingerprint", "counts", "skipped", "dumps"}
                            + (if m.skippedAnalyses.Some? then {"skippedAnalyses"} else {})
               && f["schema"] == Text("dump-ledger.export-manifest/v1") && f["createdAt"] == Text(m.createdAt)
               && f["generator"] == Object(map["version" := Text(m.version), "schemaMigrations" := Number(m.schemaMigrations)])
               && f["grantKeyFingerprint"] == Text(m.fingerprint)
               && ShowsCounts(f["counts"], m.counts)
               && (m.skippedAnalyses.Some? ==> f["skippedAnalyses"] == Number(m.skippedAnalyses.value))
               && f["dumps"].List? && |f["dumps"].items| == |m.dumps|
               && (forall k :: 0 <= k < |m.dumps| ==> ShowsDeclared(t, f["dumps"].items[k], m.dumps[k]))
               && f["skipped"].List? && |f["skipped"].items| == |m.skipped|
               && (forall k :: 0 <= k < |m.skipped| ==> ShowsSkipped(t, f["skipped"].items[k], m.skipped[k]))
  {
    hide DeclaredTrees, SkippedTrees, DeclaredTree, SkippedTree, ShowsDeclared, ShowsSkipped, DeclaredFits, ShowsCounts, CountsTree, Fits;
    CountsShown(m.counts);
    TreesLength(t, m);
    forall k | 0 <= k < |m.dumps| ensures ShowsDeclared(t, DeclaredTrees(t, m.dumps)[k], m.dumps[k]) {
      DeclaredAt(t, m.dumps, k);
      assert DeclaredFits(m.dumps[k]) by { FitsEach(t, m); }
      DeclaredShown(t, m.dumps[k]);
    }
    forall k | 0 <= k < |m.skipped| ensures ShowsSkipped(t, SkippedTrees(t, m.skipped)[k], m.skipped[k]) {
      SkippedAt(t, m.skipped, k);
      assert !IsStable(m.skipped[k].phase) by { FitsEach(t, m); }
      SkippedShown(t, m.skipped[k]);
    }
  }

  lemma FitsEach(t: Texts, m: Manifest)
    requires Fits(t, m)
    ensures forall k :: 0 <= k < |m.dumps| ==> DeclaredFits(m.dumps[k])
    ensures forall k :: 0 <= k < |m.skipped| ==> !IsStable(m.skipped[k].phase)
  {
    hide DeclaredFits;
  }

  lemma TreesLength(t: Texts, m: Manifest)
    ensures |DeclaredTrees(t, m.dumps)| == |m.dumps| && |SkippedTrees(t, m.skipped)| == |m.skipped|
  {
    if m.dumps != [] { DeclaredAt(t, m.dumps, 0); }
    if m.skipped != [] { SkippedAt(t, m.skipped, 0); }
  }
}
