/** Catalog traversals of the ledger itself: rows may appear and change phase between pages, but keep their key. */
module Catalogs {
  import opened Domain
  import opened Ledgers
  import opened History
  import opened Feed

  function KeyOf(id: DumpId, d: Dump): Key {
    Key(d.receivedAt, id)
  }

  /** The rows one read matches, whatever the filter looks at. */
  function Matched(l: Ledger, matches: (DumpId, Dump) -> bool): Catalog {
    set id | id in l.dumps && matches(id, l.dumps[id]) :: KeyOf(id, l.dumps[id])
  }

  function Views(ledgers: seq<Ledger>, matches: (DumpId, Dump) -> bool): (r: seq<Catalog>)
    ensures |r| == |ledgers| && forall k :: 0 <= k < |r| ==> r[k] == Matched(ledgers[k], matches)
  {
    seq(|ledgers|, k requires 0 <= k < |ledgers| => Matched(ledgers[k], matches))
  }

  /** Each ledger was reached from the one before it by commands. */
  ghost predicate Succeeding(ledgers: seq<Ledger>) {
    forall j, k :: 0 <= j <= k < |ledgers| ==> DumpsLater(ledgers[j], ledgers[k])
  }

  lemma KeyStays(l: Ledger, m: Ledger, id: DumpId)
    requires DumpsLater(l, m) && id in l.dumps
    ensures id in m.dumps && KeyOf(id, m.dumps[id]) == KeyOf(id, l.dumps[id])
  {
    assert DumpLater(l.dumps[id], m.dumps[id]);
  }

  /** Following the catalog cursor over a ledger that keeps running: no dump comes twice, each one returned matched when
      its page was read, and each one that exists and matches throughout comes exactly once, in key order. */
  lemma CatalogTraversal(ledgers: seq<Ledger>, matches: (DumpId, Dump) -> bool)
    requires Succeeding(ledgers) && Traverse(Views(ledgers, matches), None).Some?
    ensures var rows := Traverse(Views(ledgers, matches), None).value;
            && InOrder(rows)
            && (forall i, j :: 0 <= i < j < |rows| ==> rows[i].id != rows[j].id)
            && (forall k :: k in rows ==> exists i :: 0 <= i < |ledgers| && k in Matched(ledgers[i], matches))
            && (forall id :: |ledgers| > 0 && (forall i :: 0 <= i < |ledgers| ==> id in ledgers[i].dumps && matches(id, ledgers[i].dumps[id])) ==>
                  KeyOf(id, ledgers[0].dumps[id]) in rows)
  {
    var views := Views(ledgers, matches);
    var rows := Traverse(views, None).value;
    TraversalIsComplete(views, None);
    forall k | k in rows ensures exists i :: 0 <= i < |ledgers| && k in Matched(ledgers[i], matches) {
      var i :| 0 <= i < |views| && k in views[i];
      assert k in Matched(ledgers[i], matches);
    }
    forall i, j | 0 <= i < j < |rows| ensures rows[i].id != rows[j].id {
      assert rows[i] in rows && rows[j] in rows && rows[i].Before(rows[j]);
      SameIdSameKey(ledgers, matches, rows[i], rows[j]);
    }
    forall id | |ledgers| > 0 && forall i :: 0 <= i < |ledgers| ==> id in ledgers[i].dumps && matches(id, ledgers[i].dumps[id])
      ensures KeyOf(id, ledgers[0].dumps[id]) in rows
    {
      var key := KeyOf(id, ledgers[0].dumps[id]);
      forall i | 0 <= i < |views| ensures key in views[i] {
        assert DumpsLater(ledgers[0], ledgers[i]);
        KeyStays(ledgers[0], ledgers[i], id);
        assert KeyOf(id, ledgers[i].dumps[id]) in Matched(ledgers[i], matches);
      }
      assert IsPast(key, None);
    }
  }

  lemma SameIdSameKey(ledgers: seq<Ledger>, matches: (DumpId, Dump) -> bool, a: Key, b: Key)
    requires Succeeding(ledgers)
    requires exists i :: 0 <= i < |ledgers| && a in Matched(ledgers[i], matches)
    requires exists j :: 0 <= j < |ledgers| && b in Matched(ledgers[j], matches)
    ensures a.id == b.id ==> a == b
  {
    var i :| 0 <= i < |ledgers| && a in Matched(ledgers[i], matches);
    var j :| 0 <= j < |ledgers| && b in Matched(ledgers[j], matches);
    if a.id == b.id {
      if i <= j {
        KeyStays(ledgers[i], ledgers[j], a.id);
      } else {
        KeyStays(ledgers[j], ledgers[i], a.id);
      }
    }
  }
}
