/** packages/api/src/repositories/delivery-history.ts, services/delivery-history.ts and
    services/delivery-history-query.ts: reading a tenant's deliveries page by page. */
module DeliveryHistory {
  import opened Orders
  import opened Store

  datatype Row = Row(id: DeliveryId, tenant: TenantId, status: Status, createdAt: int)

  /** The columns the history is ordered by. Both are fixed when a row is inserted. */
  datatype Place = Place(createdAt: int, id: DeliveryId)

  datatype Cursor = Cursor(tenant: TenantId, status: Option<Status>, place: Place)

  /** The text of a cursor: the encoding of one, text that the decoder refuses, or text of a length that
      is not looked at. */
  datatype CursorText = Encoded(cursor: Cursor) | Undecodable | EmptyText | Overlong

  datatype Query = Query(tenant: TenantId, status: Option<Status>, limit: nat, cursor: Option<Place>)

  datatype Page = Page(items: seq<Row>, nextCursor: Option<Cursor>)

  // ---- the query ----

  function PlaceOf(row: Row): Place {
    Place(row.createdAt, row.id)
  }

  /** `orderBy: [{ createdAt: "desc" }, { id: "desc" }]` */
  predicate Before(p: Place, q: Place) {
    p.createdAt > q.createdAt || (p.createdAt == q.createdAt && p.id > q.id)
  }

  predicate Newer(a: Row, b: Row) {
    Before(PlaceOf(a), PlaceOf(b))
  }

  /** The primary key. */
  ghost predicate Keyed(rows: set<Row>) {
    forall a, b | a in rows && b in rows && a.id == b.id :: a == b
  }

  predicate InHistory(row: Row, tenant: TenantId, status: Option<Status>) {
    row.tenant == tenant && (status.Some? ==> row.status == status.value)
  }

  function History(rows: set<Row>, tenant: TenantId, status: Option<Status>): set<Row> {
    set r | r in rows && InHistory(r, tenant, status)
  }

  /** The `where` of the query; the cursor's two alternatives are its OR. */
  predicate Wanted(row: Row, q: Query) {
    && InHistory(row, q.tenant, q.status)
    && (q.cursor.Some? ==>
          || row.createdAt < q.cursor.value.createdAt
          || (row.createdAt == q.cursor.value.createdAt && row.id < q.cursor.value.id))
  }

  ghost function Where(rows: set<Row>, q: Query): (s: set<Row>)
    requires Keyed(rows)
    ensures TotalOn(Newer, s)
  {
    set r | r in rows && Wanted(r, q)
  }

  ghost function ListDeliveryHistory(rows: set<Row>, q: Query): seq<Row>
    requires Keyed(rows)
  {
    Take(Sort(Newer, Where(rows, q)), q.limit + 1)
  }

  function Take<T>(q: seq<T>, n: nat): seq<T> {
    if n <= |q| then q[..n] else q
  }

  ghost function GetPage(rows: set<Row>, q: Query): Page
    requires Keyed(rows)
  {
    var fetched := ListDeliveryHistory(rows, q);
    var items := Take(fetched, q.limit);
    Page(items, if |fetched| > q.limit && items != []
                then Some(DeliveryHistoryCursor(q, items[|items| - 1])) else None)
  }

  function DeliveryHistoryCursor(q: Query, row: Row): Cursor {
    Cursor(q.tenant, q.status, PlaceOf(row))
  }

  // ---- what one page holds ----

  lemma PageOfSorted(rows: set<Row>, q: Query)
    requires Keyed(rows) && q.limit >= 1
    ensures var all := Sort(Newer, Where(rows, q)); var page := GetPage(rows, q);
            && page.items == Take(all, q.limit)
            && (page.nextCursor.Some? <==> |all| > q.limit)
            && (page.nextCursor.Some? ==> page.nextCursor.value == DeliveryHistoryCursor(q, all[q.limit - 1]))
  {
    hide Where, Sort, TotalOn, SortedBy, Keyed, Newer;
    var all := Sort(Newer, Where(rows, q));
    assert Take(Take(all, q.limit + 1), q.limit) == Take(all, q.limit);
  }

  /** What a page and what it leaves out are, by the order and the filter. */
  lemma PageOfWanted(rows: set<Row>, q: Query)
    requires Keyed(rows) && q.limit >= 1
    ensures var page := GetPage(rows, q);
            && |page.items| <= q.limit
            && (forall i, j | 0 <= i < j < |page.items| :: Newer(page.items[i], page.items[j]))
            && (forall r | r in page.items :: r in rows && Wanted(r, q))
            && (forall r | r in rows && r !in page.items && Wanted(r, q) ::
                  |page.items| == q.limit && page.nextCursor.Some? && forall x | x in page.items :: Newer(x, r))
            && (page.nextCursor.Some? ==>
                  && |page.items| == q.limit
                  && page.nextCursor.value == DeliveryHistoryCursor(q, page.items[q.limit - 1])
                  && exists r :: r in rows && r !in page.items && Wanted(r, q))
  {
    var all := Sort(Newer, Where(rows, q));
    SortedStrict(rows, q);
    PageOfSorted(rows, q);
    TakenRows(all, q.limit);
    assert forall r :: r in Where(rows, q) <==> r in rows && Wanted(r, q);
    hide *;
    if GetPage(rows, q).nextCursor.Some? {
      assert all[q.limit] in rows && Wanted(all[q.limit], q);
    }
  }

  lemma TakenRows(all: seq<Row>, n: nat)
    requires forall i, j | 0 <= i < j < |all| :: Newer(all[i], all[j]) && all[i] != all[j]
    ensures var items := Take(all, n);
            && |items| <= n && (forall i, j | 0 <= i < j < |items| :: Newer(items[i], items[j]))
            && (forall r | r in items :: r in all)
            && (forall r | r in all && r !in items :: n < |all| && forall x | x in items :: Newer(x, r))
            && (n < |all| ==>
                  |items| == n && all[n] in all && all[n] !in items && (n > 0 ==> items[n - 1] == all[n - 1]))
  {
    hide Newer;
    var items := Take(all, n);
    assert forall k | 0 <= k < |items| :: items[k] == all[k];
    forall r | r in all && r !in items ensures n < |all| && forall x | x in items :: Newer(x, r) {
      var j :| 0 <= j < |all| && all[j] == r;
    }
  }

  lemma SortedStrict(rows: set<Row>, q: Query)
    requires Keyed(rows)
    ensures var all := Sort(Newer, Where(rows, q));
            && (forall i, j | 0 <= i < j < |all| :: Newer(all[i], all[j]) && all[i] != all[j])
            && (forall r :: r in all <==> r in Where(rows, q))
  {
    hide Keyed, Where, TotalOn, Sort;
  }

  /** A page holds the newest rows of the tenant and the status asked for that come after the cursor, the latest
      created first and of those created at the same time the one with the greater identifier first. */
  lemma PageIsNewest(rows: set<Row>, q: Query)
    requires Keyed(rows) && q.limit >= 1
    ensures var items := GetPage(rows, q).items;
            && |items| <= q.limit
            && (forall i, j | 0 <= i < j < |items| ::
                  items[i].createdAt > items[j].createdAt ||
                  (items[i].createdAt == items[j].createdAt && items[i].id > items[j].id))
            && (forall r | r in items ::
                  && r in rows && r.tenant == q.tenant && (q.status.Some? ==> r.status == q.status.value)
                  && (q.cursor.Some? ==>
                        r.createdAt < q.cursor.value.createdAt ||
                        (r.createdAt == q.cursor.value.createdAt && r.id < q.cursor.value.id)))
            && (forall r, x | r in rows && r !in items && x in items && r.tenant == q.tenant &&
                              (q.status.Some? ==> r.status == q.status.value) &&
                              (q.cursor.Some? ==>
                                 r.createdAt < q.cursor.value.createdAt ||
                                 (r.createdAt == q.cursor.value.createdAt && r.id < q.cursor.value.id)) ::
                  |items| == q.limit &&
                  (x.createdAt > r.createdAt || (x.createdAt == r.createdAt && x.id > r.id)))
  {
    PageOfWanted(rows, q);
    hide GetPage, Keyed;
  }

  /** There is a next cursor exactly when such a row is left; it holds the tenant and the status asked for and the
      columns of the page's last row. */
  lemma NextCursorIff(rows: set<Row>, q: Query)
    requires Keyed(rows) && q.limit >= 1
    ensures var page := GetPage(rows, q);
            && (page.nextCursor.Some? <==>
                  exists r :: r in rows && r !in page.items && r.tenant == q.tenant &&
                              (q.status.Some? ==> r.status == q.status.value) &&
                              (q.cursor.Some? ==>
                                 r.createdAt < q.cursor.value.createdAt ||
                                 (r.createdAt == q.cursor.value.createdAt && r.id < q.cursor.value.id)))
            && (page.nextCursor.Some? ==>
                  && |page.items| == q.limit
                  && var last := page.items[q.limit - 1];
                  page.nextCursor.value == Cursor(q.tenant, q.status, Place(last.createdAt, last.id)))
  {
    PageOfWanted(rows, q);
    hide GetPage, Keyed;
    var page := GetPage(rows, q);
    if page.nextCursor.Some? {
      var r :| r in rows && r !in page.items && Wanted(r, q);
    }
  }

  lemma OlderAreWanted(rows: set<Row>, q: Query, row: Row)
    requires Keyed(rows)
    ensures Where(rows, q.(cursor := Some(PlaceOf(row)))) == Above(Newer, Where(rows, q.(cursor := None)), row)
  {
    hide Keyed, TotalOn;
  }

  /** The page after row `i` of a history starts with row `i + 1`. */
  lemma PageAfter(rows: set<Row>, q: Query, i: nat)
    requires Keyed(rows) && q.limit >= 1
    requires i < |Where(rows, q.(cursor := None))|
    ensures var all := Sort(Newer, Where(rows, q.(cursor := None)));
            Sort(Newer, Where(rows, q.(cursor := Some(PlaceOf(all[i]))))) == all[i + 1..]
  {
    hide Keyed, TotalOn, SortedBy, Where, Newer, Sort;
    var first := Where(rows, q.(cursor := None));
    OlderAreWanted(rows, q, Sort(Newer, first)[i]);
    SortAfter(Newer, first, i);
  }

  // ---- following nextCursor ----

  /** One request of a reader: the snapshot the replica answered from and the limit asked for. */
  datatype Visit = Visit(rows: set<Row>, limit: nat)

  datatype Walked = Walked(items: seq<Row>, finished: bool)

  ghost predicate VisitsOk(visits: seq<Visit>) {
    forall i | 0 <= i < |visits| :: Keyed(visits[i].rows) && visits[i].limit >= 1
  }

  /** Asks for pages, each from the cursor of the one before, until there is no next cursor. */
  ghost function Walk(tenant: TenantId, status: Option<Status>, cursor: Option<Place>, visits: seq<Visit>): Walked
    requires VisitsOk(visits)
    decreases |visits|
  {
    if visits == [] then Walked([], false)
    else
      var page := GetPage(visits[0].rows, Query(tenant, status, visits[0].limit, cursor));
      if page.nextCursor.None? then Walked(page.items, true)
      else
        assert VisitsOk(visits[1..]);
        var rest := Walk(tenant, status, Some(page.nextCursor.value.place), visits[1..]);
        Walked(page.items + rest.items, rest.finished)
  }

  lemma PageFacts(rows: set<Row>, q: Query)
    requires Keyed(rows) && q.limit >= 1
    ensures var page := GetPage(rows, q);
            && SortedBy(Newer, page.items)
            && (forall r | r in page.items :: r in rows && Wanted(r, q))
            && (page.nextCursor.Some? ==>
                  && |page.items| == q.limit
                  && page.nextCursor.value.place == PlaceOf(page.items[q.limit - 1]))
  {
    hide GetPage, Sort, TotalOn, Keyed, Wanted, Newer;
    PageOfSorted(rows, q);
    var all := Sort(Newer, Where(rows, q));
    forall r | r in Take(all, q.limit) ensures r in rows && Wanted(r, q) {
      var i :| 0 <= i < |Take(all, q.limit)| && Take(all, q.limit)[i] == r;
      assert all[i] == r && r in Where(rows, q);
    }
  }

  lemma {:induction false} WalkSorted(tenant: TenantId, status: Option<Status>, cursor: Option<Place>,
                                        visits: seq<Visit>)
    requires VisitsOk(visits)
    ensures var items := Walk(tenant, status, cursor, visits).items;
            && SortedBy(Newer, items)
            && (forall r | r in items :: InHistory(r, tenant, status))
            && (cursor.Some? ==> forall r | r in items :: Before(cursor.value, PlaceOf(r)))
    decreases |visits|
  {
    hide GetPage, TotalOn, Keyed, Where;
    if visits != [] {
      var q := Query(tenant, status, visits[0].limit, cursor);
      var page := GetPage(visits[0].rows, q);
      PageFacts(visits[0].rows, q);
      if page.nextCursor.Some? {
        var place := page.nextCursor.value.place;
        WalkSorted(tenant, status, Some(place), visits[1..]);
        var rest := Walk(tenant, status, Some(place), visits[1..]).items;
        JoinSorted(page.items, rest, place);
        assert page.items[q.limit - 1] in page.items;
      }
    }
  }

  /** Whatever happens to the tables between the pages, a reader sees rows of its tenant and status in
      strictly descending order, so no row twice, and only rows that come after its cursor. */
  lemma WalkDescends(tenant: TenantId, status: Option<Status>, cursor: Option<Place>, visits: seq<Visit>)
    requires VisitsOk(visits)
    ensures var items := Walk(tenant, status, cursor, visits).items;
            && (forall i, j | 0 <= i < j < |items| ::
                  items[i].createdAt > items[j].createdAt ||
                  (items[i].createdAt == items[j].createdAt && items[i].id > items[j].id))
            && (forall r | r in items ::
                  && r.tenant == tenant && (status.Some? ==> r.status == status.value)
                  && (cursor.Some? ==>
                        r.createdAt < cursor.value.createdAt ||
                        (r.createdAt == cursor.value.createdAt && r.id < cursor.value.id)))
  {
    WalkSorted(tenant, status, cursor, visits);
    hide Walk, VisitsOk;
  }

  lemma JoinSorted(a: seq<Row>, b: seq<Row>, place: Place)
    requires SortedBy(Newer, a) && SortedBy(Newer, b)
    requires a != [] && place == PlaceOf(a[|a| - 1])
    requires forall r | r in b :: Before(place, PlaceOf(r))
    ensures SortedBy(Newer, a + b)
  {
    var q := a + b;
    forall i, j | 0 <= i < j < |q| ensures Newer(q[i], q[j]) {
      if i < |a| <= j {
        assert q[j] in b && Before(place, PlaceOf(q[j]));
        assert i < |a| - 1 ==> Newer(a[i], a[|a| - 1]);
      }
    }
  }

  ghost function Places(rows: set<Row>): set<Place> {
    set r | r in rows :: PlaceOf(r)
  }

  lemma SeenInEither(a: seq<Row>, b: seq<Row>, place: Place)
    requires place in Places(Elements(a)) || place in Places(Elements(b))
    ensures place in Places(Elements(a + b))
  {
    assert Elements(a) <= Elements(a + b) && Elements(b) <= Elements(a + b);
  }

  lemma {:induction false} PageReaches(rows: set<Row>, q: Query, place: Place)
    requires Keyed(rows) && q.limit >= 1
    requires place in Places(History(rows, q.tenant, q.status))
    requires q.cursor.Some? ==> Before(q.cursor.value, place)
    ensures var page := GetPage(rows, q);
            || place in Places(Elements(page.items))
            || (page.nextCursor.Some? && Before(page.nextCursor.value.place, place))
  {
    PageOfSorted(rows, q);
    hide GetPage, Keyed, TotalOn, Sort;
    var all := Sort(Newer, Where(rows, q));
    var r :| r in History(rows, q.tenant, q.status) && PlaceOf(r) == place;
    assert r in Where(rows, q);
    var i :| 0 <= i < |all| && all[i] == r;
    if i < q.limit {
      assert GetPage(rows, q).items[i] == r;
      assert r in Elements(GetPage(rows, q).items);
    } else {
      assert Newer(all[q.limit - 1], all[i]);
    }
  }

  lemma {:induction false} PlacesAreSeen(tenant: TenantId, status: Option<Status>, cursor: Option<Place>,
                                              visits: seq<Visit>, place: Place)
    requires VisitsOk(visits) && Walk(tenant, status, cursor, visits).finished
    requires forall i | 0 <= i < |visits| :: place in Places(History(visits[i].rows, tenant, status))
    requires cursor.Some? ==> Before(cursor.value, place)
    ensures place in Places(Elements(Walk(tenant, status, cursor, visits).items))
    decreases |visits|
  {
    hide GetPage, Keyed, InHistory, Before;
    var q := Query(tenant, status, visits[0].limit, cursor);
    var page := GetPage(visits[0].rows, q);
    PageReaches(visits[0].rows, q, place);
    if page.nextCursor.Some? {
      var next := page.nextCursor.value.place;
      var rest := Walk(tenant, status, Some(next), visits[1..]).items;
      if place in Places(Elements(page.items)) {
        SeenInEither(page.items, rest, place);
      } else {
        PlacesAreSeen(tenant, status, Some(next), visits[1..], place);
        SeenInEither(page.items, rest, place);
      }
    }
  }

  /** The delivery of this place is in the table, in the history of the tenant and the status. */
  ghost predicate Lasts(rows: set<Row>, tenant: TenantId, status: Option<Status>, place: Place) {
    exists r :: r in rows && r.tenant == tenant && (status.Some? ==> r.status == status.value) &&
                r.createdAt == place.createdAt && r.id == place.id
  }

  /** Whatever else happens between the pages, a delivery that is in the history at every read and comes after
      the cursor is seen by a reader that reaches the end. */
  lemma LastingRowsAreSeen(tenant: TenantId, status: Option<Status>, cursor: Option<Place>, visits: seq<Visit>,
                           place: Place)
    requires VisitsOk(visits) && Walk(tenant, status, cursor, visits).finished
    requires forall i | 0 <= i < |visits| :: Lasts(visits[i].rows, tenant, status, place)
    requires cursor.Some? ==>
               place.createdAt < cursor.value.createdAt ||
               (place.createdAt == cursor.value.createdAt && place.id < cursor.value.id)
    ensures exists r :: r in Walk(tenant, status, cursor, visits).items &&
                        r.createdAt == place.createdAt && r.id == place.id
  {
    forall i | 0 <= i < |visits| ensures place in Places(History(visits[i].rows, tenant, status)) {
      assert Lasts(visits[i].rows, tenant, status, place);
      var r :| r in visits[i].rows && r.tenant == tenant && (status.Some? ==> r.status == status.value) &&
               r.createdAt == place.createdAt && r.id == place.id;
      assert r in History(visits[i].rows, tenant, status) && PlaceOf(r) == place;
    }
    PlacesAreSeen(tenant, status, cursor, visits, place);
    hide Walk;
    var r :| r in Elements(Walk(tenant, status, cursor, visits).items) && PlaceOf(r) == place;
  }

  /** Between the visits the history of `base` only gains rows newer than all it had. */
  ghost predicate OnlyNewer(base: set<Row>, tenant: TenantId, status: Option<Status>, visits: seq<Visit>) {
    forall i | 0 <= i < |visits| ::
      && base <= History(visits[i].rows, tenant, status)
      && forall r, b | r in History(visits[i].rows, tenant, status) - base && b in base :: Newer(r, b)
  }

  lemma {:induction false} OnlyBaseAfter(base: set<Row>, tenant: TenantId, status: Option<Status>, last: Row,
                                         visits: seq<Visit>)
    requires VisitsOk(visits) && OnlyNewer(base, tenant, status, visits) && last in base
    ensures Elements(Walk(tenant, status, Some(PlaceOf(last)), visits).items) <= base
    decreases |visits|
  {
    if visits != [] {
      var q := Query(tenant, status, visits[0].limit, Some(PlaceOf(last)));
      var page := GetPage(visits[0].rows, q);
      PageFacts(visits[0].rows, q);
      forall r | r in page.items ensures r in base {
        assert Wanted(r, q) && r in History(visits[0].rows, tenant, status);
        assert r !in base ==> Newer(r, last);
      }
      if page.nextCursor.Some? {
        var next := page.items[q.limit - 1];
        assert next in base;
        assert OnlyNewer(base, tenant, status, visits[1..]);
        OnlyBaseAfter(base, tenant, status, next, visits[1..]);
      }
    }
  }

  lemma WalkStaysInBase(tenant: TenantId, status: Option<Status>, visits: seq<Visit>)
    requires visits != [] && VisitsOk(visits)
    requires OnlyNewer(History(visits[0].rows, tenant, status), tenant, status, visits)
    ensures Elements(Walk(tenant, status, None, visits).items) <= History(visits[0].rows, tenant, status)
  {
    var base := History(visits[0].rows, tenant, status);
    var q := Query(tenant, status, visits[0].limit, None);
    var page := GetPage(visits[0].rows, q);
    PageFacts(visits[0].rows, q);
    if page.nextCursor.Some? {
      var last := page.items[q.limit - 1];
      assert last in page.items && last in base;
      assert OnlyNewer(base, tenant, status, visits[1..]);
      OnlyBaseAfter(base, tenant, status, last, visits[1..]);
    }
  }

  lemma BaseRowIsSeen(tenant: TenantId, status: Option<Status>, visits: seq<Visit>, row: Row)
    requires visits != [] && VisitsOk(visits)
    requires OnlyNewer(History(visits[0].rows, tenant, status), tenant, status, visits)
    requires Walk(tenant, status, None, visits).finished
    requires row in History(visits[0].rows, tenant, status)
    ensures row in Walk(tenant, status, None, visits).items
  {
    hide Walk, InHistory, Before;
    forall i | 0 <= i < |visits| ensures PlaceOf(row) in Places(History(visits[i].rows, tenant, status)) {
      assert row in History(visits[i].rows, tenant, status);
    }
    WalkStaysInBase(tenant, status, visits);
    PlacesAreSeen(tenant, status, None, visits, PlaceOf(row));
    var seen :| seen in Elements(Walk(tenant, status, None, visits).items) && PlaceOf(seen) == PlaceOf(row);
    assert seen in History(visits[0].rows, tenant, status) && seen.id == row.id;
  }

  lemma WalkIsSorted(tenant: TenantId, status: Option<Status>, visits: seq<Visit>)
    requires visits != [] && VisitsOk(visits)
    requires OnlyNewer(History(visits[0].rows, tenant, status), tenant, status, visits)
    requires Walk(tenant, status, None, visits).finished
    ensures TotalOn(Newer, History(visits[0].rows, tenant, status))
    ensures Walk(tenant, status, None, visits).items == Sort(Newer, History(visits[0].rows, tenant, status))
  {
    var base := History(visits[0].rows, tenant, status);
    var items := Walk(tenant, status, None, visits).items;
    WalkSorted(tenant, status, None, visits);
    WalkStaysInBase(tenant, status, visits);
    forall r ensures r in items <==> r in base {
      assert r in items <==> r in Elements(items);
      if r in base {
        BaseRowIsSeen(tenant, status, visits, r);
      }
    }
    SortedUnique(Newer, base, items, Sort(Newer, base));
  }

  /** After the first visit the tenant's rows of this status stay, and rows that join them are newer than all of
      the first visit. */
  ghost predicate OnlyNewerArrive(tenant: TenantId, status: Option<Status>, visits: seq<Visit>)
    requires visits != []
  {
    forall i, b | 0 <= i < |visits| && b in visits[0].rows && b.tenant == tenant &&
                  (status.Some? ==> b.status == status.value) ::
      && b in visits[i].rows
      && forall r | r in visits[i].rows && r.tenant == tenant && (status.Some? ==> r.status == status.value) &&
                    r !in visits[0].rows ::
           r.createdAt > b.createdAt || (r.createdAt == b.createdAt && r.id > b.id)
  }

  lemma ArrivalsAreNewer(tenant: TenantId, status: Option<Status>, visits: seq<Visit>)
    requires visits != [] && OnlyNewerArrive(tenant, status, visits)
    ensures OnlyNewer(History(visits[0].rows, tenant, status), tenant, status, visits)
  {
    var base := History(visits[0].rows, tenant, status);
    forall i | 0 <= i < |visits|
      ensures base <= History(visits[i].rows, tenant, status)
      ensures forall r, b | r in History(visits[i].rows, tenant, status) - base && b in base :: Newer(r, b)
    {
      forall b | b in base ensures b in History(visits[i].rows, tenant, status) {
        assert b in visits[i].rows;
      }
    }
  }

  /** Following nextCursor from the first page to the end, with any limits and while newer rows arrive, yields
      each row of the tenant and the status that was there at the first page, and nothing else, the latest
      created first. */
  lemma WalkIsHistory(tenant: TenantId, status: Option<Status>, visits: seq<Visit>)
    requires visits != [] && VisitsOk(visits) && OnlyNewerArrive(tenant, status, visits)
    requires Walk(tenant, status, None, visits).finished
    ensures var items := Walk(tenant, status, None, visits).items;
            && (forall i, j | 0 <= i < j < |items| ::
                  items[i].createdAt > items[j].createdAt ||
                  (items[i].createdAt == items[j].createdAt && items[i].id > items[j].id))
            && (forall r :: r in items <==>
                  r in visits[0].rows && r.tenant == tenant && (status.Some? ==> r.status == status.value))
  {
    var base := History(visits[0].rows, tenant, status);
    ArrivalsAreNewer(tenant, status, visits);
    WalkIsSorted(tenant, status, visits);
    WalkDescends(tenant, status, None, visits);
    assert forall r :: r in Sort(Newer, base) <==> r in base;
    hide Walk, OnlyNewerArrive, OnlyNewer, Sort, TotalOn, VisitsOk;
  }

  lemma {:induction false} UnfinishedCount(tenant: TenantId, status: Option<Status>, cursor: Option<Place>,
                                           visits: seq<Visit>)
    requires VisitsOk(visits) && !Walk(tenant, status, cursor, visits).finished
    ensures |Walk(tenant, status, cursor, visits).items| >= |visits|
    decreases |visits|
  {
    hide GetPage, SortedBy, TotalOn, Keyed, Wanted;
    if visits != [] {
      var q := Query(tenant, status, visits[0].limit, cursor);
      PageFacts(visits[0].rows, q);
      var page := GetPage(visits[0].rows, q);
      UnfinishedCount(tenant, status, Some(page.nextCursor.value.place), visits[1..]);
    }
  }

  lemma WalkIsShort(tenant: TenantId, status: Option<Status>, visits: seq<Visit>)
    requires visits != [] && VisitsOk(visits)
    requires OnlyNewer(History(visits[0].rows, tenant, status), tenant, status, visits)
    requires |visits| > |History(visits[0].rows, tenant, status)|
    ensures Walk(tenant, status, None, visits).finished
  {
    var base := History(visits[0].rows, tenant, status);
    if !Walk(tenant, status, None, visits).finished {
      var items := Walk(tenant, status, None, visits).items;
      UnfinishedCount(tenant, status, None, visits);
      WalkSorted(tenant, status, None, visits);
      WalkStaysInBase(tenant, status, visits);
      assert forall i, j | 0 <= i < j < |items| :: Newer(items[i], items[j]);
      DistinctCount(items);
      SubsetSize(Elements(items), base);
      assert false;
    }
  }

  /** A reader gets the null cursor after at most one page for each row of the tenant and the status that was
      there at the first page, and one more page when there is no row. */
  lemma WalkEnds(tenant: TenantId, status: Option<Status>, visits: seq<Visit>)
    requires visits != [] && VisitsOk(visits) && OnlyNewerArrive(tenant, status, visits)
    requires |visits| >
             |set r | r in visits[0].rows && r.tenant == tenant && (status.Some? ==> r.status == status.value)|
    ensures Walk(tenant, status, None, visits).finished
  {
    ArrivalsAreNewer(tenant, status, visits);
    assert History(visits[0].rows, tenant, status) ==
           set r | r in visits[0].rows && r.tenant == tenant && (status.Some? ==> r.status == status.value);
    WalkIsShort(tenant, status, visits);
  }

  // ---- parsing a query ----

  /** A field of the request: absent, text, or something else such as a repeated parameter. */
  datatype Field = Absent | Text(text: string) | NotText

  datatype CursorField = NoCursor | CursorText(text: CursorText) | NotCursorText

  /** `tenant` is None when the path does not hold a UUID. */
  datatype Input = Input(tenant: Option<TenantId>, status: Field, limit: Field, cursor: CursorField, otherFields: bool)

  datatype Error = InvalidQuery | InvalidCursor | Unavailable

  datatype Result<T> = Ok(value: T) | Err(error: Error)

  function StatusName(status: Status): string {
    match status
    case PENDING => "PENDING"
    case IN_FLIGHT => "IN_FLIGHT"
    case SUCCEEDED => "SUCCEEDED"
    case FAILED => "FAILED"
    case DEAD_LETTERED => "DEAD_LETTERED"
  }

  function ParseStatus(text: string): Option<Status> {
    if text == "PENDING" then Some(PENDING)
    else if text == "IN_FLIGHT" then Some(IN_FLIGHT)
    else if text == "SUCCEEDED" then Some(SUCCEEDED)
    else if text == "FAILED" then Some(FAILED)
    else if text == "DEAD_LETTERED" then Some(DEAD_LETTERED)
    else None
  }

  /** The names are those of the statuses, each of its own. */
  lemma StatusNames(field: Field)
    requires field.Text?
    ensures forall s :: ParseStatus(field.text) == Some(s) <==> field.text == StatusName(s)
    ensures ParseStatus(field.text).Some? <==> exists s :: field.text == StatusName(s)
  {
    assert forall s :: ParseStatus(StatusName(s)) == Some(s);
  }

  predicate IsDigit(c: char) {
    '0' <= c <= '9'
  }

  function Digit(c: char): nat
    requires IsDigit(c)
  {
    c as int - '0' as int
  }

  function Number(text: string): nat
    requires forall c | c in text :: IsDigit(c)
  {
    if text == "" then 0 else 10 * Number(text[..|text| - 1]) + Digit(text[|text| - 1])
  }

  /** `/^[1-9][0-9]*$/` and at most 100. */
  predicate LimitAccepted(text: string) {
    text != "" && text[0] != '0' && (forall c | c in text :: IsDigit(c)) && Number(text) <= 100
  }

  const DefaultLimit := "50"

  /** `z.string().min(1).max(1024)`; the encoding of a cursor is far shorter. */
  predicate LengthAccepted(cursor: CursorField) {
    !cursor.NotCursorText? && (cursor.CursorText? ==> !cursor.text.EmptyText? && !cursor.text.Overlong?)
  }

  predicate FieldsAccepted(input: Input) {
    && input.tenant.Some?
    && (input.status.Absent? || (input.status.Text? && ParseStatus(input.status.text).Some?))
    && (input.limit.Absent? || (input.limit.Text? && LimitAccepted(input.limit.text)))
    && LengthAccepted(input.cursor) && !input.otherFields
  }

  function AskedStatus(input: Input): Option<Status> {
    if input.status.Text? then ParseStatus(input.status.text) else None
  }

  /** The cursor is for the tenant and the status filter of this request. */
  predicate CursorAccepted(input: Input)
    requires input.tenant.Some?
  {
    input.cursor.CursorText? ==>
      && input.cursor.text.Encoded?
      && input.cursor.text.cursor.tenant == input.tenant.value
      && input.cursor.text.cursor.status == AskedStatus(input)
  }

  function Asked(input: Input): Query
    requires FieldsAccepted(input) && CursorAccepted(input)
  {
    Query(input.tenant.value, AskedStatus(input),
          if input.limit.Text? then Number(input.limit.text) else 50,
          if input.cursor.CursorText? then Some(input.cursor.text.cursor.place) else None)
  }

  lemma {:induction false} NumberAtLeastOne(text: string)
    requires text != "" && text[0] != '0' && forall c | c in text :: IsDigit(c)
    ensures Number(text) >= 1
  {
    if |text| == 1 {
      assert text[0] in text;
    } else {
      assert text[..|text| - 1][0] == text[0];
      NumberAtLeastOne(text[..|text| - 1]);
    }
  }

  lemma NumberOfDefault()
    ensures LimitAccepted(DefaultLimit) && Number(DefaultLimit) == 50
  {
    assert DefaultLimit[..1] == "5" && "5"[..0] == "";
  }

  lemma {:induction false} NumberFrom(text: string, d: char)
    requires text != "" && text[0] == d && forall c | c in text :: IsDigit(c)
    ensures Number(text) >= Digit(d)
    ensures |text| >= 2 ==> Number(text) >= 10 * Digit(d)
    ensures |text| >= 3 ==> Number(text) >= 100 * Digit(d)
    ensures |text| >= 4 ==> Number(text) >= 1000 * Digit(d)
  {
    if |text| > 1 {
      NumberFrom(text[..|text| - 1], d);
    }
  }

  lemma SmallNumbers(text: string)
    requires 1 <= |text| <= 3 && forall c | c in text :: IsDigit(c)
    ensures Number(text) == if |text| == 1 then Digit(text[0])
                            else if |text| == 2 then 10 * Digit(text[0]) + Digit(text[1])
                            else 100 * Digit(text[0]) + 10 * Digit(text[1]) + Digit(text[2])
  {
    assert text[..1][..0] == "" && forall c | c in text[..1] :: c in text;
    assert Number(text[..1]) == Digit(text[0]);
    if |text| >= 2 {
      assert text[..2][..1] == text[..1] && Number(text[..2]) == 10 * Number(text[..1]) + Digit(text[1]);
    }
    assert text[..|text|] == text;
  }

  /** One or two digits without a leading zero, or 100. */
  lemma LimitTexts(text: string)
    ensures LimitAccepted(text) <==>
              || (|text| == 1 && '1' <= text[0] <= '9')
              || (|text| == 2 && '1' <= text[0] <= '9' && '0' <= text[1] <= '9')
              || text == "100"
  {
    if text != "" && forall c | c in text :: IsDigit(c) {
      assert text[0] in text && IsDigit(text[0]) && (text[0] != '0' ==> Digit(text[0]) >= 1);
      assert |text| >= 2 ==> text[1] in text && IsDigit(text[1]);
      NumberFrom(text, text[0]);
      if |text| <= 3 { SmallNumbers(text); }
      if |text| == 3 && text[0] != '0' {
        assert text[1] in text && text[2] in text;
        assert Number(text) <= 100 ==> text[0] == '1' && text[1] == '0' && text[2] == '0';
        assert Number(text) <= 100 ==> text == "100";
      }
    } else {
      assert text == "100" ==> forall c | c in text :: IsDigit(c);
      assert |text| == 1 ==> forall c | c in text :: c == text[0];
      assert |text| == 2 ==> forall c | c in text :: c == text[0] || c == text[1];
    }
  }

  method ParseDeliveryHistoryQuery(input: Input) returns (result: Result<Query>)
    ensures result == Err(InvalidQuery) <==>
            !(&& input.tenant.Some? && !input.otherFields
              && (input.status.Absent? || (input.status.Text? && exists s :: input.status.text == StatusName(s)))
              && (input.limit.Absent? ||
                  (input.limit.Text? &&
                   var text := input.limit.text;
                   || (|text| == 1 && '1' <= text[0] <= '9')
                   || (|text| == 2 && '1' <= text[0] <= '9' && '0' <= text[1] <= '9')
                   || text == "100"))
              && (input.cursor.NoCursor? ||
                  (input.cursor.CursorText? && !input.cursor.text.EmptyText? && !input.cursor.text.Overlong?)))
    ensures result.Ok? ==>
              && input.tenant == Some(result.value.tenant)
              && input.status == (if result.value.status.Some? then Text(StatusName(result.value.status.value))
                                  else Absent)
              && 1 <= result.value.limit <= 100
              && (input.limit.Absent? ==> result.value.limit == 50)
              && (input.limit.Text? ==> result.value.limit == Number(input.limit.text))
              && (input.cursor.NoCursor? <==> result.value.cursor.None?)
              && (input.cursor.CursorText? ==>
                    input.cursor.text == Encoded(Cursor(result.value.tenant, result.value.status,
                                                        result.value.cursor.value)))
    ensures result == Err(InvalidCursor) ==>
              input.cursor.CursorText? &&
              forall status: Option<Status>, place |
                  input.status == (if status.Some? then Text(StatusName(status.value)) else Absent) ::
                input.cursor.text != Encoded(Cursor(input.tenant.value, status, place))
    ensures result.Ok? || result == Err(InvalidQuery) || result == Err(InvalidCursor)
    ensures result.Ok? <==> FieldsAccepted(input) && CursorAccepted(input)
    ensures result.Ok? ==> result.value == Asked(input)
  {
    if input.status.Text? { StatusNames(input.status); }
    if input.limit.Text? { LimitTexts(input.limit.text); }
    hide LimitAccepted, ParseStatus, StatusName;
    if !FieldsAccepted(input) {
      return Err(InvalidQuery);
    }
    var limit := DefaultLimit;
    if input.limit.Text? {
      limit := input.limit.text;
    }
    NumberOfDefault();
    NumberAtLeastOne(limit);
    var query := Query(input.tenant.value, AskedStatus(input), Number(limit), None);
    if input.cursor.CursorText? {
      if input.cursor.text.Undecodable? {
        return Err(InvalidCursor);
      }
      var cursor := input.cursor.text.cursor;
      if cursor.tenant != query.tenant || cursor.status != query.status {
        return Err(InvalidCursor);
      }
      query := query.(cursor := Some(cursor.place));
    }
    result := Ok(query);
  }
}
