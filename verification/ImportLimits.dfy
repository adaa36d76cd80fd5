/** Reachable instances the import limits leave behind: one grant with 17 slots, and one case closed over too many grants. */
module ImportLimits {
  import opened Domain
  import opened Vaults
  import opened Ledgers
  import opened Engines
  import opened Runs
  import opened Manifests
  import opened Exports
  import opened Imports
  import opened Restarts
  import opened Restoration

  /** Everything logged so far is native, and no import was finished. */
  predicate Early(l: Ledger) {
    forall k :: 0 <= k < |l.audit| ==> l.audit[k].eventId.origin == 0 && !l.audit[k].detail.FinishImportDetail?
  }

  lemma EarlyUnseen(l: Ledger, origin: nat)
    requires Early(l) && origin != 0
    ensures Unseen(l, origin)
  {}

  /** One more command of a run. */
  lemma OneMore(ports: Ports, w: World, c: Command, at: Time)
    requires Reachable(ports, w) && Run(c, at).Enabled(w)
    ensures Reachable(ports, Holding(w, w.store.Execute(ports, c, at).0))
  {
    hide Store.Execute;
    var end := Run(c, at).Next(ports, w);
    ReachesStep(ports, w, Run(c, at), [], end);
    ReachesReachable(ports, w, [Run(c, at)], end);
  }

  lemma EmptyReachable(ports: Ports)
    ensures Reachable(ports, EmptyWorld(0))
  {
    assert Reaches(ports, EmptyWorld(0), [], EmptyWorld(0));
  }

  /** `n` open grants of `slots` slots in one new case, each with a secret of its own. */
  ghost predicate Issuing(l: Ledger, n: nat, slots: nat) {
    && l.origin == 0 && Early(l) && 0 in l.cases && l.cases[0].status == New && l.dumps == map[]
    && (forall g: nat :: g in l.grants <==> g < n)
    && (forall g :: g in l.grants ==> l.grants[g] == Grant(0, Dashes(g), Issued, 1, 1, slots, 0, None, 0))
  }

  function Dashes(n: nat): (s: string)
    ensures |s| == n
  {
    seq(n, _ => '-')
  }

  lemma CaseOpened(ports: Ports)
    ensures var first := EmptyWorld(0).store.Execute(ports, CreateCustomer(0, "c"), 0).0;
            var l := first.Execute(ports, CreateCase(0, 0, "t"), 0).0.ledger;
            forall slots :: Issuing(l, 0, slots)
  {
    var l := EmptyLedger(0);
    var first := EmptyWorld(0).store.Execute(ports, CreateCustomer(0, "c"), 0).0;
    assert first.ledger == l.CreateCustomer(0, "c", 0).value;
    assert first.ledger.customers.Keys == {0} && first.ledger.cases == map[];
    var second := first.Execute(ports, CreateCase(0, 0, "t"), 0).0;
    assert second.ledger == first.ledger.CreateCase(0, 0, "t", 0).value;
    assert Early(second.ledger) && second.ledger.grants == map[] && second.ledger.dumps == map[];
    forall slots ensures Issuing(second.ledger, 0, slots) {}
  }

  lemma IssuesOne(ports: Ports, s: Store, n: nat, slots: nat)
    requires Issuing(s.ledger, n, slots) && 1 <= slots <= MAX_GRANT_UPLOAD_SLOTS
    ensures Issuing(s.Execute(ports, IssueGrant(n, 0, Dashes(n), 1, 1, slots), 0).0.ledger, n + 1, slots)
  {
    var l := s.ledger;
    assert forall g :: g in l.grants ==> |l.grants[g].secretDigest| == g;
    assert l.HoldersOf(Dashes(n)) == {};
    assert s.Execute(ports, IssueGrant(n, 0, Dashes(n), 1, 1, slots), 0).0.ledger
        == l.IssueGrant(n, 0, Dashes(n), 1, 1, slots, 0).value;
  }

  lemma {:induction false} IssuesMany(ports: Ports, n: nat, slots: nat) returns (w: World)
    requires 1 <= slots <= MAX_GRANT_UPLOAD_SLOTS
    ensures Reachable(ports, w) && Issuing(w.store.ledger, n, slots)
  {
    hide Store.Execute, Issuing, Reachable;
    if n == 0 {
      EmptyReachable(ports);
      CaseOpened(ports);
      OneMore(ports, EmptyWorld(0), CreateCustomer(0, "c"), 0);
      var first := Holding(EmptyWorld(0), EmptyWorld(0).store.Execute(ports, CreateCustomer(0, "c"), 0).0);
      OneMore(ports, first, CreateCase(0, 0, "t"), 0);
      w := Holding(first, first.store.Execute(ports, CreateCase(0, 0, "t"), 0).0);
    } else {
      var v := IssuesMany(ports, n - 1, slots);
      IssuesOne(ports, v.store, n - 1, slots);
      OneMore(ports, v, IssueGrant(n - 1, 0, Dashes(n - 1), 1, 1, slots), 0);
      w := Holding(v, v.store.Execute(ports, IssueGrant(n - 1, 0, Dashes(n - 1), 1, 1, slots), 0).0);
    }
  }

  // ---- too many slots ----

  lemma SeventeenSlots(l: Ledger)
    requires Issuing(l, 1, 17)
    ensures Early(l) && !SlotsFit(l.grants)
  {
    assert 0 in l.grants && l.grants[0].maxUploads == 17;
  }

  /** One native grant with 17 slots keeps a whole instance from being imported. */
  lemma SeventeenSlotsStayBehind(ports: Ports, stamp: Stamp, analyses: map<DumpId, nat>, origin: nat, digest: Digest, at: Time)
    requires origin != 0
    ensures exists w :: Reachable(ports, w) && var m := Select(w.store.ledger, stamp, analyses);
              m.Ok? && SealBundle(w.store.vault, w.store.ledger, m.value).Some? &&
              Import(ports, Fresh(origin), SealBundle(w.store.vault, w.store.ledger, m.value).value, digest, false, at) == Unfinished(Fresh(origin))
  {
    hide Import, Select, SealBundle, Reachable, Issuing, Early, Unseen;
    var w := IssuesMany(ports, 1, 17);
    SeventeenSlots(w.store.ledger);
    EarlyUnseen(w.store.ledger, origin);
    ImportCarries(ports, w, stamp, analyses, origin, digest, false, at);
  }

  // ---- too long a detail ----

  ghost predicate ClosedOver(l: Ledger, n: nat) {
    && Early(l) && SlotsFit(l.grants) && l.dumps == map[]
    && exists e :: e in l.audit && e.dumpId.None? && e.detail.CloseDetail? && |e.detail.revokedGrantIds| == n
  }

  lemma {:induction false} FirstNaturals(s: set<nat>, n: nat)
    requires forall x: nat :: x in s <==> x < n
    ensures |s| == n
  {
    if n > 0 {
      FirstNaturals(s - {n - 1}, n - 1);
      assert s == (s - {n - 1}) + {n - 1};
    }
  }

  lemma MovesOn(ports: Ports, s: Store, n: nat)
    requires Issuing(s.ledger, n, 1)
    ensures var started := s.Execute(ports, MoveCase(0, StartEdge), 0).0;
            var settled := started.Execute(ports, MoveCase(0, ResolveEdge), 0).0;
            && settled.ledger.grants == s.ledger.grants && settled.ledger.dumps == map[] && Early(settled.ledger)
            && settled.ledger.origin == 0 && 0 in settled.ledger.cases && settled.ledger.cases[0].status == CaseStatus.Resolved
  {
    var l := s.ledger;
    var started := s.Execute(ports, MoveCase(0, StartEdge), 0).0;
    assert started.ledger == l.TransitionCase(0, StartEdge, 0).value;
    var settled := started.Execute(ports, MoveCase(0, ResolveEdge), 0).0;
    assert settled.ledger == started.ledger.TransitionCase(0, ResolveEdge, 0).value;
  }

  lemma ClosesOver(ports: Ports, s: Store, before: Ledger, n: nat)
    requires Issuing(before, n, 1) && s.ledger.grants == before.grants && s.ledger.dumps == map[] && Early(s.ledger)
    requires s.ledger.origin == 0 && 0 in s.ledger.cases && s.ledger.cases[0].status == CaseStatus.Resolved
    ensures ClosedOver(s.Execute(ports, CloseCase(0), 0).0.ledger, n)
  {
    hide SortedIds;
    var l := s.ledger;
    assert forall g :: g in l.IssuedFor(0) <==> g in l.grants;
    FirstNaturals(l.IssuedFor(0), n);
    var m := s.Execute(ports, CloseCase(0), 0).0.ledger;
    assert m == l.CloseCase(0, 0).value;
    var e := m.audit[|l.audit|];
    assert e in m.audit && e.detail == CloseDetail(SortedIds(l.IssuedFor(0)));
  }

  lemma TooLongToKeep(ports: Ports, l: Ledger)
    requires ClosedOver(l, MAX_AUDIT_DETAIL_BYTES + 1) && forall ids :: ports.detailBytes(CloseDetail(ids)) >= |ids|
    ensures Early(l) && SlotsFit(l.grants) && !DetailsFit(ports, Kept(l.audit, StableIds(l.dumps)))
  {
    hide Kept;
    var e :| e in l.audit && e.dumpId.None? && e.detail.CloseDetail? && |e.detail.revokedGrantIds| == MAX_AUDIT_DETAIL_BYTES + 1;
    assert e.detail == CloseDetail(e.detail.revokedGrantIds);
    TravellersKept(l.audit, StableIds(l.dumps), e);
  }

  lemma {:induction false} TravellersKept(audit: seq<AuditEvent>, exported: set<DumpId>, e: AuditEvent)
    requires e in audit && Travels(e, exported)
    ensures e in Kept(audit, exported)
  {
    if audit[0] != e {
      assert e in audit[1..];
      TravellersKept(audit[1..], exported, e);
    }
  }

  /** Closing a case over more grants than a replayed detail has bytes for keeps a whole instance from being imported, in which
      no grant passes the slot limit: all that is asked of the serialised detail is a byte for each grant it lists. */
  lemma LongDetailStaysBehind(ports: Ports, stamp: Stamp, analyses: map<DumpId, nat>, origin: nat, digest: Digest, mismatch: bool, at: Time)
    requires origin != 0 && forall ids :: ports.detailBytes(CloseDetail(ids)) >= |ids|
    ensures exists w :: Reachable(ports, w) && SlotsFit(w.store.ledger.grants) && var m := Select(w.store.ledger, stamp, analyses);
              m.Ok? && SealBundle(w.store.vault, w.store.ledger, m.value).Some? &&
              Import(ports, Fresh(origin), SealBundle(w.store.vault, w.store.ledger, m.value).value, digest, mismatch, at).Unfinished?
  {
    hide Import, Select, SealBundle, Reachable, Issuing, Early, Unseen, ClosedOver, Store.Execute, Kept, DetailsFit, SlotsFit, StableIds;
    var n := MAX_AUDIT_DETAIL_BYTES + 1;
    var v := IssuesMany(ports, n, 1);
    MovesOn(ports, v.store, n);
    OneMore(ports, v, MoveCase(0, StartEdge), 0);
    var started := Holding(v, v.store.Execute(ports, MoveCase(0, StartEdge), 0).0);
    OneMore(ports, started, MoveCase(0, ResolveEdge), 0);
    var settled := Holding(started, started.store.Execute(ports, MoveCase(0, ResolveEdge), 0).0);
    ClosesOver(ports, settled.store, v.store.ledger, n);
    OneMore(ports, settled, CloseCase(0), 0);
    var w := Holding(settled, settled.store.Execute(ports, CloseCase(0), 0).0);
    TooLongToKeep(ports, w.store.ledger);
    EarlyUnseen(w.store.ledger, origin);
    ImportCarries(ports, w, stamp, analyses, origin, digest, mismatch, at);
  }
}
