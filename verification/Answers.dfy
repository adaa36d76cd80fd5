/** What the receivers answered decides what becomes of an event: a delivery row is the account of the replies recorded for it. */
module DeliveryAnswers {
  import opened Domain
  import opened Feed
  import opened Webhooks
  import opened DeliveryProtocol

  predicate About(n: Note, s: SubId, r: nat) {
    n.sub == s && n.rowid == r
  }

  /** The reply to the last POST of the event, if nothing was noted about the event since. */
  function OpenReply(log: seq<Note>, s: SubId, r: nat): Option<Reply> {
    if log == [] then None
    else
      var n := log[|log| - 1];
      if !About(n, s, r) then OpenReply(log[..|log| - 1], s, r)
      else if n.Posted? then Some(n.reply)
      else None
  }

  /** The replies to the POSTs of the event that came to be recorded, in order. */
  function Answers(log: seq<Note>, s: SubId, r: nat): seq<Reply> {
    if log == [] then []
    else
      var n, before := log[|log| - 1], log[..|log| - 1];
      if IsRecord(n, s, r) && OpenReply(before, s, r).Some? then Answers(before, s, r) + [OpenReply(before, s, r).value]
      else Answers(before, s, r)
  }

  predicate AllFailed(replies: seq<Reply>) {
    forall k :: 0 <= k < |replies| ==> !(replies[k].Status? && 200 <= replies[k].code < 300)
  }

  /** The row is what the recorded replies make of it. */
  predicate Accounts(settings: Settings, found: Option<Delivery>, replies: seq<Reply>) {
    match found
    case None => replies == []
    case Some(d) =>
      match d.status
      case Pending => |replies| == d.attempts < settings.maxAttempts && AllFailed(replies)
      case Exhausted => |replies| == d.attempts == settings.maxAttempts && AllFailed(replies)
      case Delivered =>
        && |replies| == d.attempts + 1 <= settings.maxAttempts && AllFailed(replies[..d.attempts])
        && replies[d.attempts].Status? && 200 <= replies[d.attempts].code < 300
  }

  ghost predicate AnswersSound(settings: Settings, w: World, s: SubId) {
    && (forall r :: Accounts(settings, FindDelivery(w.storage, s, r), Answers(w.log, s, r)))
    && (w.task.Answered? && w.task.sub == s ==> OpenReply(w.log, s, w.task.rowid) == Some(w.task.reply))
  }

  ghost predicate AllAnswersSound(settings: Settings, w: World) {
    forall s :: s in w.storage ==> AnswersSound(settings, w, s)
  }

  /** A note appended: what it adds to the account of one event. */
  lemma Noted(log: seq<Note>, n: Note, s: SubId, r: nat)
    ensures Answers(log + [n], s, r) ==
            Answers(log, s, r) + if IsRecord(n, s, r) && OpenReply(log, s, r).Some? then [OpenReply(log, s, r).value] else []
    ensures OpenReply(log + [n], s, r) ==
            if !About(n, s, r) then OpenReply(log, s, r) else if n.Posted? then Some(n.reply) else None
  {
    Snoc(log, n);
  }

  /** A step that records no reply leaves the accounts alone. */
  lemma NothingRecorded(settings: Settings, w: World, t: World, s: SubId)
    requires AnswersSound(settings, w, s) && settings.Valid()
    requires t.log == w.log || exists n :: t.log == w.log + [n] && !(n.Recorded? && n.sub == s)
    requires forall r :: SameOrNew(w.storage, t.storage, s, r)
    requires t.task.Answered? && t.task.sub == s ==> OpenReply(t.log, s, t.task.rowid) == Some(t.task.reply)
    ensures AnswersSound(settings, t, s)
  {
    forall r ensures Accounts(settings, FindDelivery(t.storage, s, r), Answers(t.log, s, r)) {
      assert Accounts(settings, FindDelivery(w.storage, s, r), Answers(w.log, s, r)) && SameOrNew(w.storage, t.storage, s, r);
      if t.log != w.log {
        var n :| t.log == w.log + [n] && !(n.Recorded? && n.sub == s);
        Noted(w.log, n, s, r);
      }
    }
  }

  lemma PendingFor(settings: Settings, w: World)
    requires Inv(settings, w) && w.task.Answered? && w.task.sub in w.storage
    ensures var d := FindDelivery(w.storage, w.task.sub, w.task.rowid);
            d.Some? && d.value.status == Pending && d.value.attempts == w.task.attempts < settings.maxAttempts
  {
    hide IsWanted, Contiguous;
    assert SubscriptionSound(settings, w.feed, w.storage[w.task.sub]);
    AttemptsBound(settings, w.feed, w.storage[w.task.sub], w.task.rowid);
  }

  lemma RecordKeepsAnswers(settings: Settings, w: World, now: Time)
    requires settings.Valid() && Inv(settings, w) && w.task.Answered? && w.task.sub in w.storage
    requires AnswersSound(settings, w, w.task.sub)
    ensures AnswersSound(settings, Record(settings, w, now), w.task.sub)
  {
    hide Inv, DueAfter;
    var t, s, x := Record(settings, w, now), w.task.sub, w.task.rowid;
    PendingFor(settings, w);
    var n := t.log[|w.log|];
    assert t.log == w.log + [n] && IsRecord(n, s, x);
    var replies := Answers(w.log, s, x);
    assert Accounts(settings, FindDelivery(w.storage, s, x), replies);
    forall r ensures Accounts(settings, FindDelivery(t.storage, s, r), Answers(t.log, s, r)) {
      assert Accounts(settings, FindDelivery(w.storage, s, r), Answers(w.log, s, r));
      Noted(w.log, n, s, r);
      if r == x {
        assert Answers(t.log, s, r) == replies + [w.task.reply];
        assert (replies + [w.task.reply])[..|replies|] == replies;
      } else {
        assert FindDelivery(t.storage, s, r) == FindDelivery(w.storage, s, r);
      }
    }
  }

  lemma StepKeepsAnswers(settings: Settings, w: World, now: Time, reply: Reply, s: SubId)
    requires settings.Valid() && Inv(settings, w) && AnswersSound(settings, w, s) && s in w.storage
    ensures AnswersSound(settings, Advance(settings, w, now, reply), s)
  {
    hide Inv, AnswersSound, AfterFailure, OpenReply, Answers;
    var t := Advance(settings, w, now, reply);
    if w.task.Answered? && w.task.sub == s {
      RecordKeepsAnswers(settings, w, now);
    } else {
      if w.task.Sending? {
        Noted(w.log, Posted(w.task.sub, w.task.rowid, w.task.at, reply), w.task.sub, w.task.rowid);
      }
      if w.task.Answered? {
        var n := t.log[|w.log|];
        assert t.log == w.log + [n] && !(n.Recorded? && n.sub == s);
      }
      forall r ensures SameOrNew(w.storage, t.storage, s, r) {}
      NothingRecorded(settings, w, t, s);
    }
  }

  lemma {:induction false} NoAnswers(log: seq<Note>, s: SubId, r: nat)
    requires forall i :: 0 <= i < |log| ==> log[i].sub != s
    ensures Answers(log, s, r) == []
  {
    if log != [] { NoAnswers(log[..|log| - 1], s, r); }
  }

  lemma FreshSubAnswers(settings: Settings, w: World, t: World, s: SubId)
    requires KnownSubs(w) && s !in w.used && t.log == w.log && t.task == w.task && s in t.storage && t.storage[s].deliveries == map[]
    requires w.task.Answered? ==> w.task.sub in w.used
    ensures AnswersSound(settings, t, s)
  {
    forall r ensures Accounts(settings, FindDelivery(t.storage, s, r), Answers(t.log, s, r)) {
      NoAnswers(w.log, s, r);
    }
  }

  lemma SameAnswers(settings: Settings, w: World, t: World, s: SubId)
    requires AnswersSound(settings, w, s) && settings.Valid() && s in w.storage && s in t.storage && t.storage[s] == w.storage[s]
    requires t.log == w.log || exists n :: t.log == w.log + [n] && !(n.Recorded? && n.sub == s)
    requires t.task.Answered? ==> t.task == w.task && t.log == w.log
    ensures AnswersSound(settings, t, s)
  {
    forall r ensures SameOrNew(w.storage, t.storage, s, r) {}
    NothingRecorded(settings, w, t, s);
  }

  lemma NextKeepsAnswers(settings: Settings, w: World, act: Act)
    requires settings.Valid() && Inv(settings, w) && KnownSubs(w) && AllAnswersSound(settings, w) && act.Enabled(w)
    ensures AllAnswersSound(settings, act.Next(settings, w))
  {
    hide Inv, AnswersSound, KnownSubs;
    var t := act.Next(settings, w);
    forall s | s in t.storage ensures AnswersSound(settings, t, s) {
      if act.Subscribe? && act.sub == s {
        AnsweredUsed(settings, w);
        FreshSubAnswers(settings, w, t, s);
      } else if act.Step? {
        StepKeepsSubs(settings, w, act.now, act.reply);
        StepKeepsAnswers(settings, w, act.now, act.reply, s);
      } else {
        SameAnswers(settings, w, t, s);
      }
    }
  }

  lemma {:induction false} RunKeepsAnswers(settings: Settings, w: World, acts: seq<Act>, end: World)
    requires settings.Valid() && Inv(settings, w) && LogSound(settings, w) && AllAnswersSound(settings, w) && Reaches(settings, w, acts, end)
    ensures AllAnswersSound(settings, end)
    decreases |acts|
  {
    hide Inv, LogSound, AllAnswersSound, KnownSubs;
    if acts != [] {
      NextKeepsInv(settings, w, acts[0]);
      NextKeepsLog(settings, w, acts[0]);
      assert KnownSubs(w) by { KnownIn(settings, w); }
      NextKeepsAnswers(settings, w, acts[0]);
      RunKeepsAnswers(settings, acts[0].Next(settings, w), acts[1..], end);
    }
  }

  lemma KnownIn(settings: Settings, w: World)
    requires LogSound(settings, w)
    ensures KnownSubs(w)
  {}

  lemma ReachableAnswers(settings: Settings, w: World, s: SubId)
    requires settings.Valid() && Reachable(settings, w) && s in w.storage
    ensures AnswersSound(settings, w, s)
  {
    var feed, acts :| Reaches(settings, EMPTY_WORLD.(feed := feed), acts, w);
    RunKeepsAnswers(settings, EMPTY_WORLD.(feed := feed), acts, w);
  }

  /** In every run of ticks, crashes and faults the row of an event of a live subscription is decided by the replies recorded
      for it: delivered exactly when the last of them is a status from 200 to 299, which no earlier one is; exhausted exactly
      when all of maxAttempts replies failed; pending as long as fewer did. An event without a row has no recorded reply, and
      every POST had its reply recorded, was interrupted, or is the one being worked on. */
  lemma RowIsItsAnswers(settings: Settings, w: World, s: SubId, r: nat)
    requires settings.Valid() && Reachable(settings, w) && s in w.storage
    ensures var found, replies := FindDelivery(w.storage, s, r), Answers(w.log, s, r);
            var failures := |replies| - if replies != [] && !AllFailed(replies) then 1 else 0;
            && |replies| <= settings.maxAttempts && AllFailed(replies[..failures])
            && (found.Some? && found.value.status == Delivered <==>
                  replies != [] && replies[|replies| - 1].Status? && 200 <= replies[|replies| - 1].code < 300)
            && (found.Some? && found.value.status == Exhausted <==> |replies| == settings.maxAttempts && AllFailed(replies))
            && (found.Some? && found.value.status == Pending ==> |replies| < settings.maxAttempts && AllFailed(replies))
            && (found.None? ==> replies == [])
            && (found.Some? ==> found.value.attempts == failures)
            && Posts(w.log, s, r) ==
               |replies| + Interruptions(w.log, s, r) + (if w.task.Answered? && w.task.sub == s && w.task.rowid == r then 1 else 0)
  {
    ReachableAnswers(settings, w, s);
    ReachableSound(settings, w);
    LogParts(settings, w, s);
    assert Counted(w, s, r);
    var found, replies := FindDelivery(w.storage, s, r), Answers(w.log, s, r);
    assert Accounts(settings, found, replies);
    if found.Some? && found.value.status == Delivered {
      assert replies[|replies| - 1] == replies[found.value.attempts];
    }
    assert AllFailed(replies) ==> replies[..|replies|] == replies;
  }

  /** No event is passed over: each wanted event between a live subscription's start and its cursor was answered with a status
      from 200 to 299, or failed maxAttempts times with every one of those replies recorded. */
  lemma PassedEventsWereAnswered(settings: Settings, w: World, s: SubId, r: nat)
    requires settings.Valid() && Reachable(settings, w) && s in w.storage
    requires w.storage[s].start < r <= w.storage[s].cursor && IsWanted(w.feed, w.storage[s].filter, r)
    ensures || (exists i :: 0 <= i < |w.log| && IsPost(w.log[i], s, r) && w.log[i].reply.Status? && 200 <= w.log[i].reply.code < 300)
            || (|Answers(w.log, s, r)| == settings.maxAttempts && AllFailed(Answers(w.log, s, r)))
  {
    hide SubscriptionSound;
    SettledUpToCursor(settings, w, s);
    RowIsItsAnswers(settings, w, s, r);
    var replies := Answers(w.log, s, r);
    if !AllFailed(replies) {
      AnswersWerePosted(w.log, s, r, |replies| - 1);
    }
  }

  lemma {:induction false} OpenWasPosted(log: seq<Note>, s: SubId, r: nat)
    requires OpenReply(log, s, r).Some?
    ensures exists i :: 0 <= i < |log| && IsPost(log[i], s, r) && log[i].reply == OpenReply(log, s, r).value
    decreases |log|
  {
    var before := log[..|log| - 1];
    if !About(log[|log| - 1], s, r) {
      OpenWasPosted(before, s, r);
      var i :| 0 <= i < |before| && IsPost(before[i], s, r) && before[i].reply == OpenReply(before, s, r).value;
      assert log[i] == before[i];
    }
  }

  lemma {:induction false} AnswersWerePosted(log: seq<Note>, s: SubId, r: nat, k: nat)
    requires k < |Answers(log, s, r)|
    ensures exists i :: 0 <= i < |log| && IsPost(log[i], s, r) && log[i].reply == Answers(log, s, r)[k]
    decreases |log|
  {
    var before := log[..|log| - 1];
    if k < |Answers(before, s, r)| {
      AnswersWerePosted(before, s, r, k);
      var i :| 0 <= i < |before| && IsPost(before[i], s, r) && before[i].reply == Answers(before, s, r)[k];
      assert log[i] == before[i];
    } else {
      OpenWasPosted(before, s, r);
      var i :| 0 <= i < |before| && IsPost(before[i], s, r) && before[i].reply == OpenReply(before, s, r).value;
      assert log[i] == before[i];
    }
  }
}
