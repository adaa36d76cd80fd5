/** Cursor reads over changing tables: the append-only audit feed by rowid, and the dump catalog by (receivedAt, id). */
module Feed {
  import opened Domain

  const MAX_FEED_PAGE := 500
  const MAX_CATALOG_PAGE := 200

  /** An absent action list selects all actions, an empty one none. */
  datatype Filter = Filter(actions: Option<set<Action>>, caseId: Option<CaseId>) {
    predicate Wants(e: AuditEvent) {
      && (actions.Some? ==> e.action in actions.value)
      && (caseId.Some? ==> e.caseId == caseId)
    }
  }

  function PageSize(limit: int): nat {
    if limit < 1 then 1 else if limit > MAX_FEED_PAGE then MAX_FEED_PAGE else limit
  }

  /** Whether a rowid, counted from 1, names an event the filter wants. */
  predicate IsWanted(feed: seq<AuditEvent>, filter: Filter, rowid: nat) {
    1 <= rowid <= |feed| && filter.Wants(feed[rowid - 1])
  }

  /** The wanted rowids above `after` up to `upTo`, ascending. */
  function Wanted(feed: seq<AuditEvent>, filter: Filter, after: nat, upTo: nat): (r: seq<nat>)
    requires upTo <= |feed|
    ensures StrictlyAscending(r)
    ensures forall x :: x in r <==> after < x <= upTo && IsWanted(feed, filter, x)
    decreases upTo
  {
    if upTo <= after then []
    else
      var below := Wanted(feed, filter, after, upTo - 1);
      assert forall k :: 0 <= k < |below| ==> below[k] in below;
      below + (if filter.Wants(feed[upTo - 1]) then [upTo] else [])
  }

  /** `readAuditEvents`: the first page of wanted rowids above the cursor. */
  function ReadPage(feed: seq<AuditEvent>, filter: Filter, after: nat, limit: int): (r: seq<nat>)
    ensures StrictlyAscending(r) && |r| <= PageSize(limit)
    ensures forall x :: x in r ==> after < x && IsWanted(feed, filter, x)
  {
    var all := Wanted(feed, filter, after, |feed|);
    if |all| <= PageSize(limit) then all
    else
      assert forall x :: x in all[..PageSize(limit)] ==> x in all;
      all[..PageSize(limit)]
  }

  function LastRowid(page: seq<nat>, after: nat): nat {
    if page == [] then after else page[|page| - 1]
  }

  /** The same query as one pass over the rows. */
  method ReadAuditEvents(feed: seq<AuditEvent>, filter: Filter, after: nat, limit: int) returns (page: seq<nat>, lastRowid: nat)
    ensures page == ReadPage(feed, filter, after, limit) && lastRowid == LastRowid(page, after)
  {
    page := [];
    var rowid := after;
    while rowid < |feed| && |page| < PageSize(limit)
      invariant after <= rowid && (rowid <= |feed| || rowid == after)
      invariant rowid <= |feed| ==> page == Wanted(feed, filter, after, rowid)
      invariant |page| <= PageSize(limit)
      invariant rowid == after ==> page == []
    {
      rowid := rowid + 1;
      if filter.Wants(feed[rowid - 1]) { page := page + [rowid]; }
    }
    if rowid <= |feed| {
      WantedSplit(feed, filter, after, rowid, |feed|);
    }
    lastRowid := LastRowid(page, after);
  }

  lemma {:induction false} WantedSplit(feed: seq<AuditEvent>, filter: Filter, after: nat, mid: nat, upTo: nat)
    requires after <= mid <= upTo <= |feed|
    ensures Wanted(feed, filter, after, upTo) == Wanted(feed, filter, after, mid) + Wanted(feed, filter, mid, upTo)
    decreases upTo
  {
    if mid == upTo {
    } else {
      WantedSplit(feed, filter, after, mid, upTo - 1);
    }
  }

  lemma {:induction false} WantedOfLonger(feed: seq<AuditEvent>, longer: seq<AuditEvent>, filter: Filter, after: nat, upTo: nat)
    requires feed <= longer && upTo <= |feed|
    ensures Wanted(feed, filter, after, upTo) == Wanted(longer, filter, after, upTo)
    decreases upTo
  {
    if upTo > after {
      WantedOfLonger(feed, longer, filter, after, upTo - 1);
    }
  }

  /** A page holds exactly the wanted rowids from the cursor it was asked for to the cursor it answers. */
  lemma PageIsComplete(feed: seq<AuditEvent>, filter: Filter, after: nat, limit: int)
    requires after <= |feed|
    ensures var page := ReadPage(feed, filter, after, limit);
            var last := LastRowid(page, after);
            && after <= last <= |feed| && page == Wanted(feed, filter, after, last)
            && (|page| < PageSize(limit) ==> page == Wanted(feed, filter, after, |feed|))
  {
    var all, page := Wanted(feed, filter, after, |feed|), ReadPage(feed, filter, after, limit);
    var last := LastRowid(page, after);
    if page != [] {
      assert last in page && IsWanted(feed, filter, last);
    }
    WantedSplit(feed, filter, after, last, |feed|);
    AscendingPrefix(all, page, Wanted(feed, filter, after, last), last);
  }

  /** What a page is, in the filter's own terms: at most 500 rowids and as many as were asked for, ascending, above the cursor;
      up to its last one exactly the events whose action and case are asked for; and all there are unless it is full. */
  lemma PageSelects(feed: seq<AuditEvent>, filter: Filter, after: nat, limit: int)
    requires after <= |feed|
    ensures var page := ReadPage(feed, filter, after, limit);
            var size := if limit < 1 then 1 else if limit > 500 then 500 else limit;
            var last := if page == [] || |page| < size then |feed| else page[|page| - 1];
            && |page| <= size && (forall j, k :: 0 <= j < k < |page| ==> page[j] < page[k])
            && (forall x: nat :: x in page <==>
                  && after < x <= last <= |feed|
                  && (filter.actions.Some? ==> feed[x - 1].action in filter.actions.value)
                  && (filter.caseId.Some? ==> feed[x - 1].caseId == filter.caseId))
  {
    hide ReadPage, Wanted;
    PageIsComplete(feed, filter, after, limit);
    var page := ReadPage(feed, filter, after, limit);
    if page != [] { assert page[|page| - 1] in page; }
  }

  /** Two ascending lists cut at the same value agree. */
  lemma AscendingPrefix(all: seq<nat>, page: seq<nat>, upTo: seq<nat>, last: nat)
    requires StrictlyAscending(all) && page <= all && upTo <= all
    requires page != [] ==> page[|page| - 1] == last
    requires page == [] ==> upTo == []
    requires forall x :: x in upTo ==> x <= last
    requires page != [] ==> last in upTo
    ensures page == upTo
  {
    if page != [] {
      var k :| 0 <= k < |upTo| && upTo[k] == last;
      assert all[k] == last && all[|page| - 1] == last;
      assert k == |page| - 1;
      assert upTo[|upTo| - 1] in upTo && upTo[|upTo| - 1] == all[|upTo| - 1];
    }
  }

  /** One poll of a run: what the feed held by then, and the page size asked for. */
  datatype Poll = Poll(feed: seq<AuditEvent>, limit: int)

  /** A poller that passes every answered cursor back. */
  function PollAll(polls: seq<Poll>, filter: Filter, after: nat): (seq<nat>, nat)
    decreases |polls|
  {
    if polls == [] then ([], after)
    else
      var page := ReadPage(polls[0].feed, filter, after, polls[0].limit);
      var (rest, last) := PollAll(polls[1..], filter, LastRowid(page, after));
      (page + rest, last)
  }

  ghost predicate Growing(polls: seq<Poll>) {
    forall j, k :: 0 <= j <= k < |polls| ==> polls[j].feed <= polls[k].feed
  }

  /** However the feed grows between polls and whatever page sizes are asked for, a poller has seen exactly the wanted
      events up to its cursor: none twice, none missed, in order. */
  lemma {:induction false} PollingMissesNothing(polls: seq<Poll>, filter: Filter, after: nat, final: seq<AuditEvent>)
    requires Growing(polls) && (forall k :: 0 <= k < |polls| ==> polls[k].feed <= final && after <= |polls[k].feed|) && after <= |final|
    ensures var (seen, last) := PollAll(polls, filter, after);
            after <= last <= |final| && seen == Wanted(final, filter, after, last)
    decreases |polls|
  {
    if polls != [] {
      var feed := polls[0].feed;
      PageIsComplete(feed, filter, after, polls[0].limit);
      var page := ReadPage(feed, filter, after, polls[0].limit);
      var mid := LastRowid(page, after);
      assert forall k :: 0 <= k < |polls[1..]| ==> polls[1..][k] == polls[k + 1] && feed <= polls[k + 1].feed;
      PollingMissesNothing(polls[1..], filter, mid, final);
      WantedOfLonger(feed, final, filter, after, mid);
      var last := PollAll(polls[1..], filter, mid).1;
      WantedSplit(final, filter, after, mid, last);
    }
  }

  // ---- the dump catalog ----

  /** The keyset of the catalog: `ORDER BY received_at, dump_id`. */
  datatype Key = Key(receivedAt: Time, id: DumpId) {
    predicate Before(k: Key) {
      receivedAt < k.receivedAt || (receivedAt == k.receivedAt && id < k.id)
    }
  }

  predicate IsFirst(k: Key, s: set<Key>) {
    k in s && forall x :: x in s && x != k ==> k.Before(x)
  }

  lemma {:induction false} FirstExists(s: set<Key>)
    requires s != {}
    ensures exists k :: IsFirst(k, s)
    decreases |s|
  {
    var e :| e in s;
    var rest := s - {e};
    if rest == {} {
      assert s == {e} + rest;
      assert IsFirst(e, s);
    } else {
      FirstExists(rest);
      var k :| IsFirst(k, rest);
      assert IsFirst(if e.Before(k) then e else k, s) by {
        assert forall x :: x in s ==> x == e || x in rest;
      }
    }
  }

  function First(s: set<Key>): (k: Key)
    requires s != {}
    ensures IsFirst(k, s)
  {
    FirstExists(s);
    var k :| IsFirst(k, s);
    k
  }

  ghost predicate InOrder(keys: seq<Key>) {
    forall j, k :: 0 <= j < k < |keys| ==> keys[j].Before(keys[k])
  }

  function Ordered(s: set<Key>): (r: seq<Key>)
    ensures InOrder(r) && |r| == |s|
    ensures forall k :: k in r <==> k in s
    decreases |s|
  {
    if s == {} then []
    else
      var first := First(s);
      var rest := Ordered(s - {first});
      assert forall k :: k in rest ==> k in s && k != first;
      [first] + rest
  }

  /** The catalog as one read sees it: the rows that match the filter at that moment, by key. */
  type Catalog = set<Key>

  predicate IsPast(k: Key, after: Option<Key>) {
    after.Some? ==> after.value.Before(k)
  }

  datatype CatalogPage = CatalogPage(rows: seq<Key>, nextAfter: Option<Key>)

  /** `searchDumps`: a page, and a cursor exactly while another row was there to read. */
  function Search(matching: Catalog, after: Option<Key>): CatalogPage {
    var rows := Ordered(set k | k in matching && IsPast(k, after));
    if |rows| > MAX_CATALOG_PAGE then CatalogPage(rows[..MAX_CATALOG_PAGE], Some(rows[MAX_CATALOG_PAGE - 1]))
    else CatalogPage(rows, None)
  }

  /** A client that follows the cursor to the end, each page reading the catalog as it is by then; none stands for a
      traversal that has not ended yet. */
  function Traverse(views: seq<Catalog>, after: Option<Key>): Option<seq<Key>>
    decreases |views|
  {
    if views == [] then None
    else
      var page := Search(views[0], after);
      if page.nextAfter.None? then Some(page.rows)
      else
        var rest := Traverse(views[1..], page.nextAfter);
        if rest.None? then None else Some(page.rows + rest.value)
  }

  lemma SearchFacts(matching: Catalog, after: Option<Key>)
    ensures var page := Search(matching, after);
            && InOrder(page.rows)
            && (forall k :: k in page.rows ==> k in matching && IsPast(k, after))
            && (page.nextAfter.None? ==> forall k :: k in matching && IsPast(k, after) ==> k in page.rows)
            && (page.nextAfter.Some? ==> page.rows != [] && page.nextAfter.value == page.rows[|page.rows| - 1])
            && (page.nextAfter.Some? ==>
                  forall k :: k in matching && IsPast(k, after) && !page.nextAfter.value.Before(k) ==> k in page.rows)
  {
    var all := Ordered(set k | k in matching && IsPast(k, after));
    var page := Search(matching, after);
    forall k | k in page.rows ensures k in all {}
    if page.nextAfter.Some? {
      assert forall i :: MAX_CATALOG_PAGE <= i < |all| ==> page.nextAfter.value.Before(all[i]);
      forall k | k in matching && IsPast(k, after) && !page.nextAfter.value.Before(k) ensures k in page.rows {
        assert k in all;
        var i :| 0 <= i < |all| && all[i] == k;
        assert i < MAX_CATALOG_PAGE;
        assert page.rows[i] == k;
      }
    }
  }

  /** A page holds 200 rows at most, and has a cursor exactly when more than 200 were there to read. */
  lemma SearchPages(matching: Catalog, after: Option<Key>)
    ensures var page, there := Search(matching, after), set k | k in matching && IsPast(k, after);
            && |page.rows| == (if |there| > 200 then 200 else |there|) && (page.nextAfter.Some? <==> |there| > 200)
  {}

  ghost predicate Traversed(views: seq<Catalog>, after: Option<Key>, rows: seq<Key>) {
    && InOrder(rows)
    && (forall k :: k in rows ==> IsPast(k, after) && SeenIn(views, k))
    && (forall k :: IsPast(k, after) && (forall i :: 0 <= i < |views| ==> k in views[i]) ==> k in rows)
  }

  ghost predicate SeenIn(views: seq<Catalog>, k: Key) {
    exists i :: 0 <= i < |views| && k in views[i]
  }

  lemma PageUpToLast(views: seq<Catalog>, after: Option<Key>)
    requires views != [] && Search(views[0], after).nextAfter.Some?
    ensures var page := Search(views[0], after);
            && page.rows != [] && IsPast(page.nextAfter.value, after)
            && (forall k :: k in page.rows ==> k == page.nextAfter.value || k.Before(page.nextAfter.value))
            && (forall k :: k in page.rows ==> IsPast(k, after) && SeenIn(views, k))
  {
    hide Search, Key.Before;
    SearchFacts(views[0], after);
    var page := Search(views[0], after);
    assert page.rows[|page.rows| - 1] in page.rows;
    forall k | k in page.rows ensures k == page.nextAfter.value || k.Before(page.nextAfter.value) {
      var j :| 0 <= j < |page.rows| && page.rows[j] == k;
    }
    forall k | k in page.rows ensures SeenIn(views, k) {
      assert k in views[0];
    }
  }

  lemma BeforeChains(a: Key, b: Key, c: Key)
    requires a.Before(b) && b.Before(c)
    ensures a.Before(c)
  {}

  /** A page and what a complete traversal reads after it. */
  lemma PageThenRest(views: seq<Catalog>, after: Option<Key>, rest: seq<Key>)
    requires views != [] && Search(views[0], after).nextAfter.Some?
    requires Traversed(views[1..], Search(views[0], after).nextAfter, rest)
    ensures Traversed(views, after, Search(views[0], after).rows + rest)
  {
    hide Search, Key.Before;
    var page := Search(views[0], after);
    var last, rows := page.nextAfter.value, page.rows + rest;
    SearchFacts(views[0], after);
    PageUpToLast(views, after);
    forall k | k in rest ensures IsPast(k, after) && SeenIn(views, k) {
      if after.Some? { BeforeChains(after.value, last, k); }
      var i :| 0 <= i < |views[1..]| && k in views[1..][i];
      assert k in views[i + 1];
    }
    forall k | IsPast(k, after) && forall i :: 0 <= i < |views| ==> k in views[i] ensures k in rows {
      assert k in views[0];
      if last.Before(k) {
        assert forall i :: 0 <= i < |views[1..]| ==> views[1..][i] == views[i + 1];
      }
    }
    forall j, k | 0 <= j < k < |rows| ensures rows[j].Before(rows[k]) {
      if j < |page.rows| <= k {
        assert page.rows[j] in page.rows && rest[k - |page.rows|] in rest;
        if rows[j] != last { BeforeChains(rows[j], last, rows[k]); }
      }
    }
  }

  /** Following the catalog cursor to the end while rows come and go: rows come in key order, so none twice; every row
      returned matched when its page was read; and every row that matched throughout is returned. */
  lemma {:induction false} TraversalIsComplete(views: seq<Catalog>, after: Option<Key>)
    requires Traverse(views, after).Some?
    ensures var rows := Traverse(views, after).value;
            && InOrder(rows)
            && (forall k :: k in rows ==> IsPast(k, after) && SeenIn(views, k))
            && (forall k :: IsPast(k, after) && (forall i :: 0 <= i < |views| ==> k in views[i]) ==> k in rows)
    decreases |views|
  {
    hide Search, Key.Before;
    var page := Search(views[0], after);
    if page.nextAfter.Some? {
      TraversalIsComplete(views[1..], page.nextAfter);
      PageThenRest(views, after, Traverse(views[1..], page.nextAfter).value);
    } else {
      SearchFacts(views[0], after);
      assert forall k :: k in page.rows ==> k in views[0];
    }
  }
}
