/** Cursor-bounded copying of one table, seen abstractly.  The edge writes rows
    beyond what it has served and deletes rows when it likes; it answers requests
    with pages; a page may reach the mirror at any time, any number of times,
    in any order, or never. */
module CursorProtocol {
  import opened HistorianTables

  datatype Page = Page(after: Position, cursor: Position, rows: seq<Row>)

  /** One table of one edge and its mirror.  `ever` holds every version the
      edge ever wrote, `held` every cursor value the mirror ever had, `pages`
      every page ever served. */
  datatype Link = Link(
    edge: Rows,
    ever: set<Row>,
    mirror: Rows,
    cursor: Position,
    held: set<Position>,
    pages: set<Page>)

  ghost predicate Ascending(rows: seq<Row>) {
    forall i, j :: 0 <= i < j < |rows| ==> Before(PositionOf(rows[i]), PositionOf(rows[j]))
  }

  /** The keys of the edge rows that lie beyond a cursor. */
  function Pending(edge: Rows, after: Position): set<int> {
    set k | k in edge && Before(after, PositionOf(edge[k]))
  }

  /** What `ORDER BY position LIMIT limit` selects beyond `after`. */
  ghost predicate IsSelection(edge: Rows, after: Position, limit: nat, rows: seq<Row>) {
    && Ascending(rows)
    && |rows| == (if |Pending(edge, after)| < limit then |Pending(edge, after)| else limit)
    && (forall r :: r in rows ==> KeyOf(r) in edge && edge[KeyOf(r)] == r && Before(after, PositionOf(r)))
    && (forall k :: k in Pending(edge, after) && rows != [] && AtOrBefore(PositionOf(edge[k]), PositionOf(rows[|rows| - 1]))
                    ==> edge[k] in rows)
  }

  function EndOf(after: Position, rows: seq<Row>): Position {
    if rows == [] then after else PositionOf(rows[|rows| - 1])
  }

  ghost predicate IsPage(edge: Rows, page: Page, limit: nat) {
    && IsSelection(edge, page.after, limit, page.rows)
    && page.cursor == EndOf(page.after, page.rows)
  }

  /** What an import does to the mirrored rows: rows at or below the cursor are
      skipped, the others replace whatever has their key. */
  function Apply(mirror: Rows, cursor: Position, rows: seq<Row>): Rows
    decreases |rows|
  {
    if rows == [] then mirror
    else if AtOrBefore(PositionOf(rows[0]), cursor) then Apply(mirror, cursor, rows[1..])
    else Apply(mirror[KeyOf(rows[0]) := rows[0]], cursor, rows[1..])
  }

  datatype Step =
    | Write(row: Row)
    | Delete(keys: set<int>)
    | Serve(page: Page, limit: nat)
    | Deliver(page: Page)

  function Delivered(l: Link, page: Page): Link {
    var cursor := Later(l.cursor, page.cursor);
    l.(mirror := Apply(l.mirror, l.cursor, page.rows), cursor := cursor, held := l.held + {cursor})
  }

  /** A position beyond the cursor and the end of every page ever served: what
      replication needs of the clock, and no more. */
  ghost predicate Clear(l: Link, p: Position) {
    && Before(l.cursor, p)
    && forall page :: page in l.pages ==> Before(page.cursor, p)
  }

  ghost predicate Enabled(l: Link, step: Step) {
    match step
    case Write(row) => Clear(l, PositionOf(row))
    case Delete(_) => true
    case Serve(page, limit) => page.after in l.held && IsPage(l.edge, page, limit)
    case Deliver(page) => page in l.pages
  }

  function Next(l: Link, step: Step): Link {
    match step
    case Write(row) => l.(edge := l.edge[KeyOf(row) := row], ever := l.ever + {row})
    case Delete(keys) => l.(edge := l.edge - keys)
    case Serve(page, _) => l.(pages := l.pages + {page})
    case Deliver(page) => Delivered(l, page)
  }

  const START := Link(map[], {}, map[], ORIGIN, {ORIGIN}, {})

  // ---------------------------------------------------------------- invariant

  ghost predicate EdgeOk(l: Link) {
    && (forall k :: k in l.edge ==> KeyOf(l.edge[k]) == k && l.edge[k] in l.ever)
    && (forall r :: r in l.ever ==> Before(ORIGIN, PositionOf(r)))
  }

  ghost predicate CursorOk(l: Link) {
    && l.cursor in l.held
    && (forall p :: p in l.held ==> AtOrBefore(ORIGIN, p) && AtOrBefore(p, l.cursor))
  }

  /** The edge's version of the row's key, if there is one, is that row or lies
      after it. */
  ghost predicate NotNewer(edge: Rows, r: Row) {
    KeyOf(r) in edge ==> r == edge[KeyOf(r)] || Before(PositionOf(r), PositionOf(edge[KeyOf(r)]))
  }

  /** A served page lists every row it spans that the edge still has, and no
      version newer than the edge's. */
  ghost predicate PageOk(l: Link, page: Page) {
    && page.after in l.held
    && Ascending(page.rows)
    && page.cursor == EndOf(page.after, page.rows)
    && (forall r :: r in page.rows ==> r in l.ever && Before(page.after, PositionOf(r)) && NotNewer(l.edge, r))
    && (forall k :: k in l.edge && Before(page.after, PositionOf(l.edge[k])) && AtOrBefore(PositionOf(l.edge[k]), page.cursor)
                    ==> l.edge[k] in page.rows)
  }

  ghost predicate MirrorOk(l: Link) {
    forall k :: k in l.mirror ==>
                  KeyOf(l.mirror[k]) == k && l.mirror[k] in l.ever && AtOrBefore(PositionOf(l.mirror[k]), l.cursor)
  }

  /** Whatever the edge still has at or below the cursor, the mirror has too. */
  ghost predicate Agrees(l: Link) {
    forall k :: k in l.edge && AtOrBefore(PositionOf(l.edge[k]), l.cursor) ==>
                  k in l.mirror && l.mirror[k] == l.edge[k]
  }

  ghost predicate Inv(l: Link) {
    && EdgeOk(l)
    && CursorOk(l)
    && (forall page :: page in l.pages ==> PageOk(l, page))
    && MirrorOk(l)
    && Agrees(l)
  }

  // ------------------------------------------------------------- import facts

  /** Exactly the rows beyond the cursor are taken, each under its key, the
      last one winning. */
  lemma {:induction false} ApplyAt(mirror: Rows, cursor: Position, rows: seq<Row>, k: int)
    ensures k in Apply(mirror, cursor, rows) <==>
            k in mirror || exists r :: r in rows && KeyOf(r) == k && Before(cursor, PositionOf(r))
    ensures k in Apply(mirror, cursor, rows) ==>
              || (Apply(mirror, cursor, rows)[k] in rows && KeyOf(Apply(mirror, cursor, rows)[k]) == k
                  && Before(cursor, PositionOf(Apply(mirror, cursor, rows)[k])))
              || (k in mirror && Apply(mirror, cursor, rows)[k] == mirror[k]
                  && forall r :: r in rows && KeyOf(r) == k ==> AtOrBefore(PositionOf(r), cursor))
    decreases |rows|
  {
    if rows != [] {
      var next := if AtOrBefore(PositionOf(rows[0]), cursor) then mirror else mirror[KeyOf(rows[0]) := rows[0]];
      ApplyAt(next, cursor, rows[1..], k);
      assert forall r :: r in rows <==> r == rows[0] || r in rows[1..];
    }
  }

  /** When the rows ascend, the one taken for a key is the latest. */
  lemma {:induction false} ApplyTakesLatest(mirror: Rows, cursor: Position, rows: seq<Row>, r: Row)
    requires Ascending(rows) && r in rows && Before(cursor, PositionOf(r))
    ensures KeyOf(r) in Apply(mirror, cursor, rows)
    ensures Apply(mirror, cursor, rows)[KeyOf(r)] in rows
    ensures KeyOf(Apply(mirror, cursor, rows)[KeyOf(r)]) == KeyOf(r)
    ensures AtOrBefore(PositionOf(r), PositionOf(Apply(mirror, cursor, rows)[KeyOf(r)]))
    decreases |rows|
  {
    var next := if AtOrBefore(PositionOf(rows[0]), cursor) then mirror else mirror[KeyOf(rows[0]) := rows[0]];
    ApplyAt(next, cursor, rows[1..], KeyOf(r));
    if r in rows[1..] {
      ApplyTakesLatest(next, cursor, rows[1..], r);
    }
  }

  /** A page that ends at or below the cursor is ignored. */
  lemma {:induction false} ApplyOldRows(mirror: Rows, cursor: Position, rows: seq<Row>)
    requires forall r :: r in rows ==> AtOrBefore(PositionOf(r), cursor)
    ensures Apply(mirror, cursor, rows) == mirror
    decreases |rows|
  {
    if rows != [] {
      ApplyOldRows(mirror, cursor, rows[1..]);
    }
  }

  // --------------------------------------------------------------- induction

  lemma InvStart()
    ensures Inv(START)
  {
  }

  lemma InvWrite(l: Link, row: Row)
    requires Inv(l) && Enabled(l, Write(row))
    ensures Inv(Next(l, Write(row)))
  {
    var m := Next(l, Write(row));
    forall page | page in m.pages
      ensures PageOk(m, page)
    {
      assert PageOk(l, page);
      forall r | r in page.rows
        ensures NotNewer(m.edge, r)
      {
        LastIsLatest(page.rows, r);
        assert NotNewer(l.edge, r);
      }
    }
  }

  lemma InvDelete(l: Link, keys: set<int>)
    requires Inv(l)
    ensures Inv(Next(l, Delete(keys)))
  {
    var m := Next(l, Delete(keys));
    forall page | page in m.pages
      ensures PageOk(m, page)
    {
      assert PageOk(l, page);
    }
  }

  lemma InvServe(l: Link, page: Page, limit: nat)
    requires Inv(l) && Enabled(l, Serve(page, limit))
    ensures Inv(Next(l, Serve(page, limit)))
  {
    var m := Next(l, Serve(page, limit));
    forall p | p in m.pages
      ensures PageOk(m, p)
    {
      if p in l.pages {
        assert PageOk(l, p);
      } else {
        assert p == page;
        assert page.rows != [] ==> page.rows[|page.rows| - 1] in page.rows;
        forall k | k in l.edge && Before(page.after, PositionOf(l.edge[k])) && AtOrBefore(PositionOf(l.edge[k]), page.cursor)
          ensures l.edge[k] in page.rows
        {
          assert k in Pending(l.edge, page.after);
        }
      }
    }
  }

  lemma LastIsLatest(rows: seq<Row>, r: Row)
    requires Ascending(rows) && r in rows
    ensures AtOrBefore(PositionOf(r), PositionOf(rows[|rows| - 1]))
  {
  }

  lemma InvDeliver(l: Link, page: Page)
    requires Inv(l) && Enabled(l, Deliver(page))
    ensures Inv(Next(l, Deliver(page)))
  {
    var m := Next(l, Deliver(page));
    assert PageOk(l, page);
    forall p | p in m.pages
      ensures PageOk(m, p)
    {
      assert PageOk(l, p);
    }
    forall k | k in m.mirror
      ensures KeyOf(m.mirror[k]) == k && m.mirror[k] in m.ever && AtOrBefore(PositionOf(m.mirror[k]), m.cursor)
    {
      ApplyAt(l.mirror, l.cursor, page.rows, k);
      if m.mirror[k] in page.rows {
        LastIsLatest(page.rows, m.mirror[k]);
      }
    }
    forall k | k in m.edge && AtOrBefore(PositionOf(m.edge[k]), m.cursor)
      ensures k in m.mirror && m.mirror[k] == m.edge[k]
    {
      DeliverAgrees(l, page, k);
    }
  }

  lemma DeliverAgrees(l: Link, page: Page, k: int)
    requires Inv(l) && page in l.pages
    requires k in l.edge && AtOrBefore(PositionOf(l.edge[k]), Later(l.cursor, page.cursor))
    ensures k in Delivered(l, page).mirror && Delivered(l, page).mirror[k] == l.edge[k]
  {
    assert PageOk(l, page);
    var row := l.edge[k];
    ApplyAt(l.mirror, l.cursor, page.rows, k);
    if Before(l.cursor, PositionOf(row)) {
      assert row in page.rows;
      ApplyTakesLatest(l.mirror, l.cursor, page.rows, row);
    }
  }

  lemma InvNext(l: Link, step: Step)
    requires Inv(l) && Enabled(l, step)
    ensures Inv(Next(l, step))
  {
    match step
    case Write(row) => InvWrite(l, row);
    case Delete(keys) => InvDelete(l, keys);
    case Serve(page, limit) => InvServe(l, page, limit);
    case Deliver(page) => InvDeliver(l, page);
  }

  /** A stale page never replaces a newer version, and the cursor never falls. */
  lemma NextAdvances(l: Link, step: Step, k: int)
    requires Inv(l) && Enabled(l, step)
    ensures AtOrBefore(l.cursor, Next(l, step).cursor)
    ensures k in l.mirror ==>
              k in Next(l, step).mirror && AtOrBefore(PositionOf(l.mirror[k]), PositionOf(Next(l, step).mirror[k]))
  {
    if step.Deliver? {
      ApplyAt(l.mirror, l.cursor, step.page.rows, k);
    }
  }

  /** Delivering a page again right away changes nothing. */
  lemma DeliverTwice(l: Link, page: Page)
    requires Inv(l) && page in l.pages
    ensures Delivered(Delivered(l, page), page) == Delivered(l, page)
  {
    var m := Delivered(l, page);
    assert PageOk(l, page);
    forall r | r in page.rows
      ensures AtOrBefore(PositionOf(r), m.cursor)
    {
      LastIsLatest(page.rows, r);
    }
    ApplyOldRows(m.mirror, m.cursor, page.rows);
    assert m.held + {m.cursor} == m.held;
  }

  // ----------------------------------------------------------------- catch-up

  lemma {:induction false} KeysOfAscending(edge: Rows, rows: seq<Row>)
    requires Ascending(rows)
    requires forall k :: k in edge ==> KeyOf(edge[k]) == k
    requires forall r :: r in rows ==> KeyOf(r) in edge && edge[KeyOf(r)] == r
    ensures |set r | r in rows :: KeyOf(r)| == |rows|
    decreases |rows|
  {
    var keys := set r | r in rows :: KeyOf(r);
    if rows == [] {
      assert keys == {};
    } else {
      var n := |rows| - 1;
      var front := set r | r in rows[..n] :: KeyOf(r);
      KeysOfAscending(edge, rows[..n]);
      assert KeyOf(rows[n]) !in front;
      assert forall r :: r in rows <==> r in rows[..n] || r == rows[n];
      assert keys == front + {KeyOf(rows[n])};
    }
  }

  /** Among the rows beyond `page.after`, the page takes exactly those up to its
      own end. */
  lemma SelectedIffUpToEnd(edge: Rows, page: Page, limit: nat, k: int)
    requires IsPage(edge, page, limit) && k in Pending(edge, page.after)
    ensures edge[k] in page.rows <==> !Before(page.cursor, PositionOf(edge[k]))
  {
    if edge[k] in page.rows {
      LastIsLatest(page.rows, edge[k]);
    }
  }

  /** One round of catch-up from the current cursor moves exactly the page's
      rows out of the pending set. */
  lemma RoundShrinksPending(edge: Rows, page: Page, limit: nat)
    requires forall k :: k in edge ==> KeyOf(edge[k]) == k
    requires IsPage(edge, page, limit)
    ensures AtOrBefore(page.after, page.cursor)
    ensures |Pending(edge, page.cursor)| == |Pending(edge, page.after)| - |page.rows|
  {
    var pending, rest := Pending(edge, page.after), Pending(edge, page.cursor);
    var moved := set r | r in page.rows :: KeyOf(r);
    KeysOfAscending(edge, page.rows);
    assert page.rows != [] ==> page.rows[|page.rows| - 1] in page.rows;
    forall k | k in pending
      ensures k in rest <==> k !in moved
    {
      SelectedIffUpToEnd(edge, page, limit, k);
    }
    assert rest <= pending;
    assert moved <= pending;
    assert rest == pending - moved;
    assert |pending - moved| == |pending| - |moved|;
  }

  /** With nothing pending, the mirror holds every row the edge holds. */
  lemma NothingPending(l: Link)
    requires Inv(l) && Pending(l.edge, l.cursor) == {}
    ensures forall k :: k in l.edge ==> k in l.mirror && l.mirror[k] == l.edge[k]
  {
    forall k | k in l.edge
      ensures k in l.mirror && l.mirror[k] == l.edge[k]
    {
      assert k !in Pending(l.edge, l.cursor);
    }
  }

  // --------------------------------------------------- selecting the least

  lemma {:induction false} LeastExists(rows: Rows, keys: set<int>) returns (least: int)
    requires keys != {} && keys <= rows.Keys
    ensures least in keys
    ensures forall k :: k in keys ==> AtOrBefore(PositionOf(rows[least]), PositionOf(rows[k]))
    decreases |keys|
  {
    assert (forall k :: k !in keys) ==> keys == {};
    var some :| some in keys;
    if keys - {some} == {} {
      assert forall k :: k in keys ==> k == some || k in keys - {some};
      least := some;
    } else {
      var other := LeastExists(rows, keys - {some});
      assert forall k :: k in keys ==> k == some || k in keys - {some};
      least := if Before(PositionOf(rows[other]), PositionOf(rows[some])) then other else some;
    }
  }

  lemma {:induction false} LeastId(ids: set<int>) returns (least: int)
    requires ids != {}
    ensures least in ids && forall k :: k in ids ==> least <= k
    decreases |ids|
  {
    assert (forall k :: k !in ids) ==> ids == {};
    var some :| some in ids;
    if ids - {some} == {} {
      assert forall k :: k in ids ==> k == some || k in ids - {some};
      least := some;
    } else {
      var other := LeastId(ids - {some});
      assert forall k :: k in ids ==> k == some || k in ids - {some};
      least := if other < some then other else some;
    }
  }
}
