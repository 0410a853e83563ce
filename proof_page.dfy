/**
 * `getLinkedTopics` of the proof page: the topic slugs linked to each of the
 * listed bills, grouped by bill id. The link query is a parameter standing for
 * the database; its rows arrive in the order the database returns them.
 */
module ProofPage {
  import opened Seqs

  /** A row of `bill_topic_links`, as selected. */
  datatype LinkRow = LinkRow(billId: nat, topicSlug: string)

  /** The grouping the loop builds, written as a fold from the end. */
  function Grouped(links: seq<LinkRow>): map<nat, seq<string>>
  {
    if links == [] then map[]
    else
      var g := Grouped(links[..|links| - 1]);
      var l := links[|links| - 1];
      g[l.billId := (if l.billId in g then g[l.billId] else []) + [l.topicSlug]]
  }

  /** The reference definition: the slugs of a bill's links, in link order. */
  function SlugsOf(links: seq<LinkRow>, billId: nat): seq<string>
  {
    Map(Filter(links, (l: LinkRow) => l.billId == billId), (l: LinkRow) => l.topicSlug)
  }

  /** The keys are exactly the bills that occur in the links. */
  lemma {:induction false} GroupedKeys(links: seq<LinkRow>)
    ensures forall id :: id in Grouped(links) <==> exists i :: 0 <= i < |links| && links[i].billId == id
  {
    if links != [] {
      var n := |links| - 1;
      var front, l := links[..n], links[n];
      GroupedKeys(front);
      forall id | id in Grouped(links)
        ensures exists i :: 0 <= i < |links| && links[i].billId == id
      {
        if id == l.billId {
          assert links[n].billId == id;
        } else {
          assert id in Grouped(front);
          var i :| 0 <= i < |front| && front[i].billId == id;
          assert links[i] == front[i];
        }
      }
      forall id | exists i :: 0 <= i < |links| && links[i].billId == id
        ensures id in Grouped(links)
      {
        var i :| 0 <= i < |links| && links[i].billId == id;
        if i < n {
          assert front[i] == links[i];
        }
      }
    }
  }

  lemma SlugsOfSnoc(front: seq<LinkRow>, l: LinkRow, id: nat)
    ensures SlugsOf(front + [l], id) == SlugsOf(front, id) + (if l.billId == id then [l.topicSlug] else [])
  {
    var p := (x: LinkRow) => x.billId == id;
    FilterConcat(front, [l], p);
    assert [l][1..] == [];
    MapConcat(Filter(front, p), Filter([l], p), (x: LinkRow) => x.topicSlug);
  }

  /** Each bill's list is the slugs of its links, in link order. */
  lemma {:induction false} GroupedLists(links: seq<LinkRow>)
    ensures forall id :: id in Grouped(links) ==> Grouped(links)[id] == SlugsOf(links, id)
  {
    if links != [] {
      var n := |links| - 1;
      var front, l := links[..n], links[n];
      GroupedLists(front);
      assert links == front + [l];
      forall id | id in Grouped(links) ensures Grouped(links)[id] == SlugsOf(links, id) {
        SlugsOfSnoc(front, l, id);
        if id == l.billId && id !in Grouped(front) {
          GroupedKeys(front);
          FilterNone(front, (x: LinkRow) => x.billId == id);
        }
      }
    }
  }

  /** The number of slugs over all lists. */
  ghost function Total(m: map<nat, seq<string>>): nat
    decreases |m|
  {
    if m == map[] then 0
    else
      var k :| k in m;
      |m[k]| + Total(m - {k})
  }

  lemma {:induction false} TotalRemove(m: map<nat, seq<string>>, k: nat)
    requires k in m
    ensures Total(m) == |m[k]| + Total(m - {k})
    decreases |m|
  {
    var j :| j in m && Total(m) == |m[j]| + Total(m - {j});
    if j != k {
      TotalRemove(m - {j}, k);
      TotalRemove(m - {k}, j);
      assert (m - {j}) - {k} == (m - {k}) - {j};
    }
  }

  lemma TotalUpdate(m: map<nat, seq<string>>, k: nat, v: seq<string>)
    ensures Total(m[k := v]) + (if k in m then |m[k]| else 0) == Total(m) + |v|
  {
    TotalRemove(m[k := v], k);
    if k in m {
      TotalRemove(m, k);
      assert m[k := v] - {k} == m - {k};
    } else {
      assert m[k := v] - {k} == m;
    }
  }

  /** One slug is listed per link: the lists add up to the number of links. */
  lemma {:induction false} TotalIsLinkCount(links: seq<LinkRow>)
    ensures Total(Grouped(links)) == |links|
  {
    if links != [] {
      var n := |links| - 1;
      TotalIsLinkCount(links[..n]);
      var g := Grouped(links[..n]);
      var l := links[n];
      TotalUpdate(g, l.billId, (if l.billId in g then g[l.billId] else []) + [l.topicSlug]);
    }
  }

  /**
   * `getLinkedTopics`: no query for an empty id list; otherwise the returned
   * rows, grouped by bill in row order.
   */
  method GetLinkedTopics(billIds: seq<nat>, query: seq<nat> -> seq<LinkRow>)
    returns (linked: map<nat, seq<string>>, ghost queried: bool)
    ensures billIds == [] ==> linked == map[] && !queried
    ensures billIds != [] ==> queried && linked == Grouped(query(billIds))
  {
    if |billIds| == 0 {
      return map[], false;
    }
    queried := true;
    var links := query(billIds);
    linked := map[];
    for k := 0 to |links|
      invariant linked == Grouped(links[..k])
    {
      assert links[..k + 1][..k] == links[..k];
      var link := links[k];
      if link.billId !in linked {
        linked := linked[link.billId := []];
      }
      linked := linked[link.billId := linked[link.billId] + [link.topicSlug]];
    }
    assert links[..|links|] == links;
  }
}
