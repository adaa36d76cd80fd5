/** What the receivers see over a whole run: in order, at least once, never again once delivered, boundedly often, backed off. */
module DeliveryProtocol {
  import opened Domain
  import opened Feed
  import opened Webhooks

  function Posts(log: seq<Note>, s: SubId, r: nat): nat {
    if log == [] then 0
    else Posts(log[..|log| - 1], s, r) + (if IsPost(log[|log| - 1], s, r) then 1 else 0)
  }

  function Interruptions(log: seq<Note>, s: SubId, r: nat): nat {
    if log == [] then 0
    else Interruptions(log[..|log| - 1], s, r) + (if log[|log| - 1] == Interrupted(s, r) then 1 else 0)
  }

  predicate IsPost(n: Note, s: SubId, r: nat) {
    n.Posted? && n.sub == s && n.rowid == r
  }

  predicate IsRecord(n: Note, s: SubId, r: nat) {
    n.Recorded? && n.sub == s && n.rowid == r
  }

  /** The due time the last recorded failure set, if no POST followed it. */
  function LastDue(log: seq<Note>, s: SubId, r: nat): Option<Time> {
    if log == [] then None
    else
      var n := log[|log| - 1];
      if IsPost(n, s, r) then None
      else if IsRecord(n, s, r) then n.delivery.nextAttemptAt
      else LastDue(log[..|log| - 1], s, r)
  }

  lemma Snoc(log: seq<Note>, n: Note)
    ensures (log + [n])[..|log + [n]| - 1] == log && (log + [n])[|log + [n]| - 1] == n
  {}

  /** Posts, records and interruptions of one delivery add up. */
  ghost predicate Counted(w: World, s: SubId, r: nat) {
    var inFlight := if w.task.Answered? && w.task.sub == s && w.task.rowid == r then 1 else 0;
    match FindDelivery(w.storage, s, r)
    case None => Posts(w.log, s, r) == 0 && Interruptions(w.log, s, r) == 0 && LastDue(w.log, s, r).None?
    case Some(d) =>
      && Posts(w.log, s, r) == d.attempts + (if d.status == Delivered then 1 else 0) + Interruptions(w.log, s, r) + inFlight
      && (LastDue(w.log, s, r).Some? ==> d.status == Pending && d.nextAttemptAt == LastDue(w.log, s, r))
  }

  predicate PostedInOrder(log: seq<Note>, s: SubId) {
    forall i, j :: 0 <= i < j < |log| && log[i].Posted? && log[j].Posted? && log[i].sub == s && log[j].sub == s ==>
      log[i].rowid <= log[j].rowid
  }

  /** A settled record is the last word on its event. */
  predicate SettledForGood(log: seq<Note>, s: SubId) {
    forall i, j :: 0 <= i < j < |log| && log[i].Recorded? && log[i].sub == s && Settled(log[i].delivery) ==>
      !IsPost(log[j], s, log[i].rowid)
  }

  predicate RecordsHold(w: World, s: SubId) {
    forall i :: 0 <= i < |w.log| && w.log[i].Recorded? && w.log[i].sub == s && Settled(w.log[i].delivery) ==>
      FindDelivery(w.storage, s, w.log[i].rowid) == Some(w.log[i].delivery)
  }

  ghost predicate DuesSet(settings: Settings, log: seq<Note>) {
    forall i :: 0 <= i < |log| && log[i].Recorded? && log[i].delivery.status == Pending ==>
      log[i].delivery.attempts > 0 &&
      log[i].delivery.nextAttemptAt == Some(DueAfter(settings, log[i].delivery.attempts, log[i].at))
  }

  ghost predicate SubLogSound(w: World, s: SubId) {
    && (forall r :: Counted(w, s, r)) && PostedInOrder(w.log, s) && SettledForGood(w.log, s) && RecordsHold(w, s)
  }

  ghost predicate KnownSubs(w: World) {
    forall i :: 0 <= i < |w.log| ==> w.log[i].sub in w.used
  }

  /** Backoff concerns live subscriptions: a POST in flight when its subscription goes leaves a note of its own. */
  ghost predicate LogSound(settings: Settings, w: World) {
    && (forall s :: s in w.storage ==> SubLogSound(w, s) && SubBackedOff(w.log, s))
    && KnownSubs(w) && DuesSet(settings, w.log)
  }

  ghost predicate SubBackedOff(log: seq<Note>, s: SubId) {
    forall i :: 0 <= i < |log| && log[i].Posted? && log[i].sub == s ==>
      var due := LastDue(log[..i], s, log[i].rowid);
      due.Some? ==> due.value <= log[i].at
  }

  /** A note about another subscription changes nothing for this one. */
  lemma ElsewhereNoted(w: World, t: World, s: SubId, n: Note)
    requires SubLogSound(w, s) && SubBackedOff(w.log, s) && t.log == w.log + [n] && n.sub != s
    requires (s in t.storage <==> s in w.storage) && (s in w.storage ==> t.storage[s] == w.storage[s])
    requires t.task.Answered? && t.task.sub == s ==> w.task.Answered? && w.task == t.task
    requires w.task.Answered? && w.task.sub == s ==> t.task == w.task
    ensures SubLogSound(t, s) && SubBackedOff(t.log, s)
  {
    forall r ensures Counted(t, s, r) {
      assert Counted(w, s, r);
      Snoc(w.log, n);
    }
    forall i | 0 <= i < |w.log| ensures t.log[i] == w.log[i] && t.log[..i] == w.log[..i] {}
  }

  /** The row is untouched, or was just created. */
  predicate SameOrNew(st: Storage, tt: Storage, s: SubId, r: nat) {
    || FindDelivery(tt, s, r) == FindDelivery(st, s, r)
    || (FindDelivery(st, s, r).None? && FindDelivery(tt, s, r) == Some(NEW_DELIVERY))
  }

  lemma UnnotedCounts(w: World, t: World, s: SubId, r: nat)
    requires Counted(w, s, r) && t.log == w.log && t.task.Answered? == w.task.Answered?
    requires w.task.Answered? ==> t.task == w.task
    requires SameOrNew(w.storage, t.storage, s, r)
    requires w.task.Answered? && w.task.sub == s && w.task.rowid == r ==> FindDelivery(w.storage, s, r).Some?
    ensures Counted(t, s, r)
  {}

  lemma NewRowCounts(w: World, t: World, s: SubId)
    requires SubLogSound(w, s) && SubBackedOff(w.log, s) && t.log == w.log && !w.task.Answered? && !t.task.Answered?
    requires forall r :: SameOrNew(w.storage, t.storage, s, r)
    ensures SubLogSound(t, s)
  {
    forall r ensures Counted(t, s, r) {
      UnnotedCounts(w, t, s, r);
    }
    forall i | 0 <= i < |w.log| && w.log[i].Recorded? && w.log[i].sub == s && Settled(w.log[i].delivery)
      ensures FindDelivery(t.storage, s, w.log[i].rowid) == Some(w.log[i].delivery)
    {
      assert SameOrNew(w.storage, t.storage, s, w.log[i].rowid);
    }
  }

  /** POSTs go to the next event: everything posted before is at or below it. */
  lemma PostIsLast(settings: Settings, w: World, i: nat)
    requires Inv(settings, w) && w.task.Sending? && w.task.sub in w.storage && SubLogSound(w, w.task.sub)
    requires i < |w.log| && w.log[i].Posted? && w.log[i].sub == w.task.sub
    ensures w.log[i].rowid <= w.task.rowid
  {
    var s, r := w.task.sub, w.log[i].rowid;
    assert Counted(w, s, r);
    PostedCounts(w.log, s, r, i);
    var sub := w.storage[s];
    assert SubscriptionSound(settings, w.feed, sub);
    assert r in sub.deliveries && DeliverySound(settings, w.feed, sub, r, sub.deliveries[r]);
    var page := [w.task.rowid] + w.task.rest;
    assert page[0] in page;
    assert IsWanted(w.feed, sub.filter, w.task.rowid) && sub.cursor < w.task.rowid;
  }

  lemma {:induction false} PostedCounts(log: seq<Note>, s: SubId, r: nat, i: nat)
    requires i < |log| && IsPost(log[i], s, r)
    ensures Posts(log, s, r) > 0
    decreases |log|
  {
    if i < |log| - 1 {
      PostedCounts(log[..|log| - 1], s, r, i);
    }
  }

  lemma PostKeepsLog(settings: Settings, w: World, now: Time, reply: Reply)
    requires Inv(settings, w) && LogSound(settings, w) && w.task.Sending? && w.task.sub in w.storage
    ensures SubLogSound(Advance(settings, w, now, reply), w.task.sub)
    ensures SubBackedOff(Advance(settings, w, now, reply).log, w.task.sub)
  {
    hide SubscriptionSound, Contiguous, IsWanted, DueAfter;
    var t, s := Advance(settings, w, now, reply), w.task.sub;
    var n := Posted(s, w.task.rowid, w.task.at, reply);
    Snoc(w.log, n);
    forall r ensures Counted(t, s, r) {
      assert Counted(w, s, r);
    }
    forall i | 0 <= i < |w.log| && w.log[i].Posted? && w.log[i].sub == s ensures w.log[i].rowid <= w.task.rowid {
      PostIsLast(settings, w, i);
    }
    forall i | 0 <= i < |w.log| ensures t.log[i] == w.log[i] && t.log[..i] == w.log[..i] {}
    assert t.log[..|w.log|] == w.log;
    assert Counted(w, s, w.task.rowid);
    forall i | 0 <= i < |w.log| && w.log[i].Recorded? && w.log[i].sub == s && Settled(w.log[i].delivery)
      ensures w.log[i].rowid != w.task.rowid
    {
      assert FindDelivery(w.storage, s, w.log[i].rowid) == Some(w.log[i].delivery);
    }
  }

  lemma RecordKeepsLog(settings: Settings, w: World, now: Time)
    requires settings.Valid() && Inv(settings, w) && LogSound(settings, w) && w.task.Answered? && w.task.sub in w.storage
    ensures SubLogSound(Record(settings, w, now), w.task.sub)
    ensures SubBackedOff(Record(settings, w, now).log, w.task.sub)
  {
    hide DueAfter, SubscriptionSound, Contiguous, IsWanted;
    var t, s, r := Record(settings, w, now), w.task.sub, w.task.rowid;
    var d := if Succeeded(w.task.reply) then Delivery(Delivered, w.task.attempts, None) else AfterFailure(settings, w.task.attempts, now);
    Snoc(w.log, Recorded(s, r, now, d));
    assert FindDelivery(t.storage, s, r) == Some(d);
    forall x ensures Counted(t, s, x) {
      assert Counted(w, s, x);
      if x != r {
        assert FindDelivery(t.storage, s, x) == FindDelivery(w.storage, s, x);
      }
    }
    forall i | 0 <= i < |w.log| ensures t.log[i] == w.log[i] && t.log[..i] == w.log[..i] {}
    forall i | 0 <= i < |w.log| && w.log[i].Recorded? && w.log[i].sub == s && Settled(w.log[i].delivery)
      ensures w.log[i].rowid != r
    {
      assert FindDelivery(w.storage, s, w.log[i].rowid) == Some(w.log[i].delivery);
    }
  }

  /** The note about the POST in flight settles its account. */
  lemma OwnInterruption(w: World, t: World, s: SubId)
    requires SubLogSound(w, s) && SubBackedOff(w.log, s) && w.task.Answered? && w.task.sub == s && !t.task.Answered?
    requires t.storage == w.storage && t.log == w.log + [Interrupted(s, w.task.rowid)]
    requires FindDelivery(w.storage, s, w.task.rowid).Some?
    ensures SubLogSound(t, s) && SubBackedOff(t.log, s)
  {
    var n := Interrupted(s, w.task.rowid);
    forall r ensures Counted(t, s, r) {
      InterruptedCounts(w, t, s, r);
    }
    forall i | 0 <= i < |w.log| ensures t.log[i] == w.log[i] && t.log[..i] == w.log[..i] {}
  }

  lemma InterruptedCounts(w: World, t: World, s: SubId, r: nat)
    requires SubLogSound(w, s) && w.task.Answered? && w.task.sub == s && !t.task.Answered?
    requires t.storage == w.storage && t.log == w.log + [Interrupted(s, w.task.rowid)]
    requires FindDelivery(w.storage, s, w.task.rowid).Some?
    ensures Counted(t, s, r)
  {
    Snoc(w.log, Interrupted(s, w.task.rowid));
    assert Counted(w, s, r);
  }

  lemma AnsweredHasRow(settings: Settings, w: World)
    requires Inv(settings, w) && w.task.Answered? && w.task.sub in w.storage
    ensures FindDelivery(w.storage, w.task.sub, w.task.rowid).Some?
  {
    hide SubscriptionSound, Contiguous, QueueSound;
  }

  lemma InterruptKeepsLog(settings: Settings, w: World, task: Task, s: SubId)
    requires Inv(settings, w) && LogSound(settings, w) && s in w.storage && !task.Answered?
    ensures SubLogSound(Interrupt(w, task), s) && SubBackedOff(Interrupt(w, task).log, s)
  {
    hide Inv, LogSound, SubLogSound, SubBackedOff;
    assert SubLogSound(w, s) && SubBackedOff(w.log, s) by { LogParts(settings, w, s); }
    var t := Interrupt(w, task);
    if !w.task.Answered? {
      NewRowCounts(w, t, s);
    } else if w.task.sub == s {
      assert FindDelivery(w.storage, s, w.task.rowid).Some? by { AnsweredHasRow(settings, w); }
      OwnInterruption(w, t, s);
    } else {
      ElsewhereNoted(w, t, s, Interrupted(w.task.sub, w.task.rowid));
    }
  }

  lemma KnownStays(settings: Settings, w: World, act: Act)
    requires Inv(settings, w) && KnownSubs(w) && act.Enabled(w)
    ensures KnownSubs(act.Next(settings, w))
  {
    var t := act.Next(settings, w);
    assert t.log == w.log || (|t.log| == |w.log| + 1 && t.log[..|w.log|] == w.log && t.log[|w.log|].sub in w.used);
    forall i | 0 <= i < |t.log| ensures t.log[i].sub in t.used {
      if i < |w.log| {
        assert t.log[i] == t.log[..|w.log|][i];
      }
    }
  }

  lemma DuesStay(settings: Settings, w: World, act: Act)
    requires DuesSet(settings, w.log)
    ensures DuesSet(settings, act.Next(settings, w).log)
  {
    hide DueAfter;
    var t := act.Next(settings, w);
    forall i | 0 <= i < |t.log| && i < |w.log| ensures t.log[i] == w.log[i] {}
  }

  lemma FreshSubLog(w: World, t: World, s: SubId)
    requires KnownSubs(w) && s !in w.used && t.log == w.log && s in t.storage && t.storage[s].deliveries == map[]
    requires w.task.Answered? ==> w.task.sub in w.used
    requires t.task == w.task
    ensures SubLogSound(t, s) && SubBackedOff(t.log, s)
  {
    forall r ensures Counted(t, s, r) {
      NeverNoted(w.log, s, r);
    }
  }

  lemma {:induction false} NeverNoted(log: seq<Note>, s: SubId, r: nat)
    requires forall i :: 0 <= i < |log| ==> log[i].sub != s
    ensures Posts(log, s, r) == 0 && Interruptions(log, s, r) == 0 && LastDue(log, s, r).None?
  {
    if log != [] {
      NeverNoted(log[..|log| - 1], s, r);
    }
  }

  /** A dispatcher step, seen by one live subscription. */
  lemma StepKeepsLog(settings: Settings, w: World, now: Time, reply: Reply, s: SubId)
    requires settings.Valid() && Inv(settings, w) && LogSound(settings, w) && s in w.storage
    ensures s in Advance(settings, w, now, reply).storage
    ensures SubLogSound(Advance(settings, w, now, reply), s) && SubBackedOff(Advance(settings, w, now, reply).log, s)
  {
    hide Inv, LogSound, SubLogSound, SubBackedOff, AfterFailure;
    assert SubLogSound(w, s) && SubBackedOff(w.log, s) by { LogParts(settings, w, s); }
    var t := Advance(settings, w, now, reply);
    match w.task
    case Sending(sub, rowid, _, at, _, _) =>
      if sub == s { PostKeepsLog(settings, w, now, reply); } else { ElsewhereNoted(w, t, s, Posted(sub, rowid, at, reply)); }
    case Answered(sub, rowid, attempts, _, _, _) =>
      if sub == s {
        RecordKeepsLog(settings, w, now);
      } else {
        ElsewhereNoted(w, t, s, t.log[|w.log|]);
      }
    case _ =>
      forall r ensures SameOrNew(w.storage, t.storage, s, r) {}
      NewRowCounts(w, t, s);
  }

  lemma LogParts(settings: Settings, w: World, s: SubId)
    requires LogSound(settings, w) && s in w.storage
    ensures SubLogSound(w, s) && SubBackedOff(w.log, s)
  {}

  lemma SameTaskKeepsLog(w: World, t: World, s: SubId)
    requires SubLogSound(w, s) && SubBackedOff(w.log, s) && t.log == w.log && t.task == w.task
    requires s in w.storage && s in t.storage && t.storage[s] == w.storage[s]
    ensures SubLogSound(t, s) && SubBackedOff(t.log, s)
  {
    forall r ensures Counted(t, s, r) {
      assert Counted(w, s, r);
    }
  }

  lemma StartKeepsLog(w: World, t: World, s: SubId)
    requires SubLogSound(w, s) && SubBackedOff(w.log, s) && t.log == w.log && w.task.Idle? && !t.task.Answered?
    requires t.storage == w.storage
    ensures SubLogSound(t, s) && SubBackedOff(t.log, s)
  {
    forall r ensures Counted(t, s, r) {
      assert Counted(w, s, r);
    }
  }

  lemma NextKeepsLog(settings: Settings, w: World, act: Act)
    requires settings.Valid() && Inv(settings, w) && LogSound(settings, w) && act.Enabled(w)
    ensures LogSound(settings, act.Next(settings, w))
  {
    var t := act.Next(settings, w);
    KnownStays(settings, w, act);
    DuesStay(settings, w, act);
    forall s | s in t.storage ensures SubLogSound(t, s) && SubBackedOff(t.log, s) {
      hide Inv, SubLogSound, SubBackedOff;
      match act
      case Subscribe(sub, _) =>
        if s == sub { assert w.task.Answered? ==> w.task.sub in w.used by { AnsweredUsed(settings, w); } FreshSubLog(w, t, s); }
        else { SameTaskKeepsLog(w, t, s); }
      case Append(_) => SameTaskKeepsLog(w, t, s);
      case Unsubscribe(_) => SameTaskKeepsLog(w, t, s);
      case StartTick(_) => StartKeepsLog(w, t, s);
      case Step(now, reply) => assert s in w.storage by { StepKeepsSubs(settings, w, now, reply); } StepKeepsLog(settings, w, now, reply, s);
      case Fault => InterruptKeepsLog(settings, w, t.task, s);
      case Crash => InterruptKeepsLog(settings, w, Idle, s);
    }
  }

  lemma AnsweredUsed(settings: Settings, w: World)
    requires Inv(settings, w)
    ensures w.task.Answered? ==> w.task.sub in w.used
  {}

  lemma StepKeepsSubs(settings: Settings, w: World, now: Time, reply: Reply)
    ensures Advance(settings, w, now, reply).storage.Keys == w.storage.Keys
  {}

  lemma {:induction false} RunKeepsLog(settings: Settings, w: World, acts: seq<Act>, end: World)
    requires settings.Valid() && Inv(settings, w) && LogSound(settings, w) && Reaches(settings, w, acts, end)
    ensures Inv(settings, end) && LogSound(settings, end)
    decreases |acts|
  {
    hide Inv, LogSound;
    if acts != [] {
      NextKeepsInv(settings, w, acts[0]);
      NextKeepsLog(settings, w, acts[0]);
      RunKeepsLog(settings, acts[0].Next(settings, w), acts[1..], end);
    }
  }

  lemma ReachableSound(settings: Settings, w: World)
    requires settings.Valid() && Reachable(settings, w)
    ensures Inv(settings, w) && LogSound(settings, w)
  {
    var feed, acts :| Reaches(settings, EMPTY_WORLD.(feed := feed), acts, w);
    RunKeepsLog(settings, EMPTY_WORLD.(feed := feed), acts, w);
  }

  /** Across any run of ticks, failures, crashes and faults: everything wanted between a subscription's start and its
      cursor is settled; at most one delivery row lies above the cursor, and it is for the next wanted event. */
  lemma SettledUpToCursor(settings: Settings, w: World, s: SubId)
    requires settings.Valid() && Reachable(settings, w) && s in w.storage
    ensures var sub := w.storage[s];
            && sub.start <= sub.cursor <= |w.feed|
            && (forall r :: sub.start < r <= sub.cursor && IsWanted(w.feed, sub.filter, r) ==> r in sub.deliveries && Settled(sub.deliveries[r]))
            && (forall r :: r in sub.deliveries && sub.cursor < r ==>
                  IsWanted(w.feed, sub.filter, r) && forall x :: sub.cursor < x < r ==> !IsWanted(w.feed, sub.filter, x))
            && (forall q, r :: q in sub.deliveries && r in sub.deliveries && sub.cursor < q && sub.cursor < r ==> q == r)
  {
    ReachableSound(settings, w);
    var sub := w.storage[s];
    assert SubscriptionSound(settings, w.feed, sub);
    forall r | r in sub.deliveries ensures DeliverySound(settings, w.feed, sub, r, sub.deliveries[r]) {}
  }

  /** The receiver's side: POSTs come in event order; once an attempt was recorded as delivered or exhausted there is no
      further POST of that event; and there are at most as many POSTs of it as attempts allowed plus interruptions. */
  lemma ReceivedInOrder(settings: Settings, w: World, s: SubId, r: nat)
    requires settings.Valid() && Reachable(settings, w) && s in w.storage
    ensures PostedInOrder(w.log, s) && SettledForGood(w.log, s)
    ensures Posts(w.log, s, r) <= settings.maxAttempts + Interruptions(w.log, s, r)
  {
    ReachableSound(settings, w);
    LogParts(settings, w, s);
    assert Counted(w, s, r);
    if r in w.storage[s].deliveries {
      assert DeliverySound(settings, w.feed, w.storage[s], r, w.storage[s].deliveries[r]);
    }
  }

  lemma {:induction false} LastRecordDue(log: seq<Note>, s: SubId, r: nat, i: nat)
    requires i < |log| && IsRecord(log[i], s, r)
    requires forall k :: i < k < |log| ==> !IsPost(log[k], s, r) && !IsRecord(log[k], s, r)
    ensures LastDue(log, s, r) == log[i].delivery.nextAttemptAt
    decreases |log|
  {
    if i < |log| - 1 {
      LastRecordDue(log[..|log| - 1], s, r, i);
    }
  }

  /** After the k-th recorded failure the next POST of the event comes at least `base * 5^(k-1)` later. */
  lemma BackoffKept(settings: Settings, w: World, s: SubId, r: nat, i: nat, j: nat)
    requires settings.Valid() && Reachable(settings, w) && s in w.storage
    requires i < j < |w.log| && IsRecord(w.log[i], s, r) && w.log[i].delivery.status == Pending && IsPost(w.log[j], s, r)
    requires forall k :: i < k < j ==> !IsPost(w.log[k], s, r) && !IsRecord(w.log[k], s, r)
    ensures w.log[i].delivery.attempts > 0
    ensures w.log[j].at >= w.log[i].at + settings.retryBase * Pow(5, w.log[i].delivery.attempts - 1)
  {
    ReachableSound(settings, w);
    LogParts(settings, w, s);
    LastRecordDue(w.log[..j], s, r, i);
    assert w.log[i].delivery.attempts > 0;
    PowersOf5(w.log[i].delivery.attempts - 1);
  }

  function Pow(base: nat, n: nat): nat {
    if n == 0 then 1 else base * Pow(base, n - 1)
  }

  lemma {:induction false} PowersOf5(n: nat)
    ensures Power5(n) == Pow(5, n)
  {
    if n > 0 { PowersOf5(n - 1); }
  }

  // ---- the live edge ----

  lemma StartStays(settings: Settings, w: World, act: Act, s: SubId)
    requires act.Enabled(w) && s in w.used && s in act.Next(settings, w).storage
    ensures s in act.Next(settings, w).used && s in w.storage && act.Next(settings, w).storage[s].start == w.storage[s].start
  {
    if act.Step? { StepKeepsSubs(settings, w, act.now, act.reply); }
  }

  lemma {:induction false} StartStaysInRun(settings: Settings, w: World, acts: seq<Act>, end: World, s: SubId)
    requires Reaches(settings, w, acts, end) && s in w.used && s in end.storage
    ensures s in w.storage && end.storage[s].start == w.storage[s].start
    decreases |acts|
  {
    if acts != [] {
      UsedStays(settings, w, acts[0], s);
      StartStaysInRun(settings, acts[0].Next(settings, w), acts[1..], end, s);
      StartStays(settings, w, acts[0], s);
    }
  }

  lemma UsedStays(settings: Settings, w: World, act: Act, s: SubId)
    requires s in w.used
    ensures s in act.Next(settings, w).used
  {}

  /** A subscription sees nothing from before it was made: however the run goes on, every POST to it is of an event appended
      later. */
  lemma OnlyLaterEvents(settings: Settings, w: World, s: SubId, filter: Filter, acts: seq<Act>, end: World, i: nat)
    requires settings.Valid() && Reachable(settings, w) && Subscribe(s, filter).Enabled(w)
    requires Reaches(settings, Subscribe(s, filter).Next(settings, w), acts, end) && s in end.storage
    requires i < |end.log| && end.log[i].Posted? && end.log[i].sub == s
    ensures end.log[i].rowid > |w.feed|
  {
    hide Inv, LogSound, SubscriptionSound;
    var first := Subscribe(s, filter).Next(settings, w);
    ReachableSound(settings, w);
    NextKeepsInv(settings, w, Subscribe(s, filter));
    NextKeepsLog(settings, w, Subscribe(s, filter));
    RunKeepsLog(settings, first, acts, end);
    StartStaysInRun(settings, first, acts, end, s);
    PostedAfterStart(settings, end, s, i);
  }

  lemma PostedAfterStart(settings: Settings, w: World, s: SubId, i: nat)
    requires Inv(settings, w) && LogSound(settings, w) && s in w.storage && i < |w.log| && w.log[i].Posted? && w.log[i].sub == s
    ensures w.log[i].rowid > w.storage[s].start
  {
    var r := w.log[i].rowid;
    assert Counted(w, s, r);
    PostedCounts(w.log, s, r, i);
    assert SubscriptionSound(settings, w.feed, w.storage[s]);
    assert r in w.storage[s].deliveries && DeliverySound(settings, w.feed, w.storage[s], r, w.storage[s].deliveries[r]);
  }
}
