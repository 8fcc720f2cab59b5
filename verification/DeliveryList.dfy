/** packages/web/src/lib/delivery-list.ts: the page the browser asks for, and its stack of cursors. */
module DeliveryList {
  import opened Common
  import opened Orders
  import opened Store
  import opened DeliveryHistory

  type PageSize = n: nat | n in {10, 25, 50, 100} witness 50

  /** `filter` is None for "ALL"; the cursor of the first page is None. */
  datatype State = State(filter: Option<Status>, limit: PageSize, cursors: seq<Option<CursorText>>, revision: nat)

  datatype Action =
    | SetFilter(filter: Option<Status>)
    | SetLimit(limit: PageSize)
    | Next(cursor: CursorText)
    | Previous
    | Refresh

  const Initial := State(None, 50, [None], 0)

  function Reduce(state: State, action: Action): State {
    match action
    case SetFilter(filter) => state.(filter := filter, cursors := [None])
    case SetLimit(limit) => state.(limit := limit, cursors := [None])
    case Next(cursor) => state.(cursors := state.cursors + [Some(cursor)])
    case Previous => if |state.cursors| > 1 then state.(cursors := state.cursors[..|state.cursors| - 1]) else state
    case Refresh => state.(revision := state.revision + 1)
  }

  function Run(actions: seq<Action>): State {
    if actions == [] then Initial else Reduce(Run(actions[..|actions| - 1]), actions[|actions| - 1])
  }

  /** The filter is the one that was set last, or ALL. */
  lemma {:induction false} FilterIsLast(actions: seq<Action>)
    ensures forall i | 0 <= i < |actions| && actions[i].SetFilter? &&
                       (forall j | i < j < |actions| :: !actions[j].SetFilter?) ::
              Run(actions).filter == actions[i].filter
    ensures (forall i | 0 <= i < |actions| :: !actions[i].SetFilter?) ==> Run(actions).filter == None
  {
    if actions != [] {
      FilterIsLast(actions[..|actions| - 1]);
      FilterStep(actions);
      hide Run;
    }
  }

  lemma FilterStep(actions: seq<Action>)
    requires actions != []
    ensures var n := |actions| - 1;
            Run(actions).filter == if actions[n].SetFilter? then actions[n].filter else Run(actions[..n]).filter
  {
  }

  /** The size is the one that was set last, or 50. */
  lemma {:induction false} LimitIsLast(actions: seq<Action>)
    ensures forall i | 0 <= i < |actions| && actions[i].SetLimit? &&
                       (forall j | i < j < |actions| :: !actions[j].SetLimit?) :: Run(actions).limit == actions[i].limit
    ensures (forall i | 0 <= i < |actions| :: !actions[i].SetLimit?) ==> Run(actions).limit == 50
  {
    if actions != [] {
      LimitIsLast(actions[..|actions| - 1]);
      LimitStep(actions);
      hide Run;
    }
  }

  lemma LimitStep(actions: seq<Action>)
    requires actions != []
    ensures var n := |actions| - 1;
            Run(actions).limit == if actions[n].SetLimit? then actions[n].limit else Run(actions[..n]).limit
  {
  }

  /** A new filter or size begins at the first page and is shown; a refresh asks for the same page again, as a
      new revision; a cursor asks for the page after it. */
  lemma StepsOfTheList(actions: seq<Action>, a: Action)
    ensures Run([]).cursors == [None] && Run([]).revision == 0
    ensures var s, t := Run(actions), Run(actions + [a]);
            && (a.SetFilter? || a.SetLimit? ==> t.cursors == [None])
            && (a.Next? ==> Last(t) == Some(a.cursor) && |t.cursors| == |s.cursors| + 1)
            && (a.Previous? ==> |t.cursors| == if |s.cursors| > 1 then |s.cursors| - 1 else |s.cursors|)
            && (a.Refresh? ==> t.cursors == s.cursors && t.revision == s.revision + 1)
            && (!a.Refresh? ==> t.revision == s.revision)
  {
    assert (actions + [a])[..|actions|] == actions;
  }

  function SizeText(limit: PageSize): string {
    if limit == 10 then "10" else if limit == 25 then "25" else if limit == 50 then "50" else "100"
  }

  function Last(state: State): Option<CursorText> {
    if state.cursors == [] then None else state.cursors[|state.cursors| - 1]
  }

  /** `if (cursor)`: empty text is not sent. */
  function Sent(state: State): Option<CursorText> {
    if Last(state).Some? && Last(state).value.EmptyText? then None else Last(state)
  }

  /** The request that `deliveryHistoryPath` makes. */
  function Path(tenant: TenantId, state: State): Input {
    Input(Some(tenant),
          if state.filter.Some? then Text(StatusName(state.filter.value)) else Absent,
          Text(SizeText(state.limit)),
          if Sent(state).Some? then CursorText(Sent(state).value) else NoCursor,
          false)
  }

  /** A cursor that the backend issued for this tenant and filter. */
  predicate Own(text: CursorText, tenant: TenantId, filter: Option<Status>) {
    text.Encoded? && text.cursor.tenant == tenant && text.cursor.status == filter
  }

  lemma NumberAppend(text: string, c: char)
    requires (forall d | d in text :: IsDigit(d)) && IsDigit(c)
    ensures Number(text + [c]) == 10 * Number(text) + Digit(c)
  {
    assert (text + [c])[..|text|] == text;
  }

  lemma SizeAccepted(limit: PageSize)
    ensures LimitAccepted(SizeText(limit)) && Number(SizeText(limit)) == limit
  {
    var text := SizeText(limit);
    NumberAppend("", text[0]);
    NumberAppend([text[0]], text[1]);
    assert [text[0]] + [text[1]] == text[..2];
    if limit == 100 {
      NumberAppend(text[..2], text[2]);
      assert text[..2] + [text[2]] == text;
    } else {
      assert text[..2] == text;
    }
  }

  lemma StatusRoundTrip(status: Status)
    ensures ParseStatus(StatusName(status)) == Some(status)
  {
  }

  predicate Accepted(input: Input) {
    FieldsAccepted(input) && CursorAccepted(input)
  }

  /** In every state, whatever the actions, the backend accepts the request exactly when the cursor it
      sends is absent or its own, and then reads what the state asks for. */
  lemma AcceptedIffOwn(tenant: TenantId, actions: seq<Action>)
    ensures var s := Run(actions);
            && (Accepted(Path(tenant, s)) <==> (Sent(s).Some? ==> Own(Sent(s).value, tenant, s.filter)))
            && (Accepted(Path(tenant, s)) ==>
                  Asked(Path(tenant, s)) ==
                    Query(tenant, s.filter, s.limit, if Sent(s).Some? then Some(Sent(s).value.cursor.place) else None))
  {
    var s := Run(actions);
    SizeAccepted(s.limit);
    if s.filter.Some? {
      StatusRoundTrip(s.filter.value);
    }
    hide Number, LimitAccepted, SizeText;
  }

  /** Every cursor was issued for the filter that was set when it was pushed. */
  predicate OwnRun(tenant: TenantId, actions: seq<Action>) {
    forall i | 0 <= i < |actions| && actions[i].Next? :: Own(actions[i].cursor, tenant, Run(actions[..i]).filter)
  }

  predicate StackOwn(tenant: TenantId, s: State) {
    && s.cursors != [] && s.cursors[0] == None
    && forall k | 1 <= k < |s.cursors| :: s.cursors[k].Some? && Own(s.cursors[k].value, tenant, s.filter)
  }

  lemma EmptyStackOwn(tenant: TenantId)
    ensures StackOwn(tenant, Initial)
  {
  }

  lemma StepKeepsOwn(tenant: TenantId, s: State, a: Action)
    requires StackOwn(tenant, s) && (a.Next? ==> Own(a.cursor, tenant, s.filter))
    ensures StackOwn(tenant, Reduce(s, a))
  {
  }

  lemma {:induction false} StackIsOwn(tenant: TenantId, actions: seq<Action>)
    requires OwnRun(tenant, actions)
    ensures StackOwn(tenant, Run(actions))
  {
    hide Own, StackOwn;
    if actions != [] {
      var n := |actions| - 1;
      assert OwnRun(tenant, actions[..n]) by {
        forall i | 0 <= i < n && actions[..n][i].Next?
          ensures Own(actions[..n][i].cursor, tenant, Run(actions[..n][..i]).filter) {
          assert actions[..n][..i] == actions[..i];
        }
      }
      StackIsOwn(tenant, actions[..n]);
      assert actions[n].Next? ==> Own(actions[n].cursor, tenant, Run(actions[..n]).filter);
      StepKeepsOwn(tenant, Run(actions[..n]), actions[n]);
    } else {
      assert StackOwn(tenant, Initial) by {
        EmptyStackOwn(tenant);
      }
    }
  }

  /** With cursors issued for its own filter, every request the page makes is accepted. */
  lemma OwnCursorsAreAccepted(tenant: TenantId, actions: seq<Action>)
    requires OwnRun(tenant, actions)
    ensures Accepted(Path(tenant, Run(actions)))
  {
    AcceptedIffOwn(tenant, actions);
    StackIsOwn(tenant, actions);
  }

  lemma PreviousUndoesNext(state: State, cursor: CursorText)
    requires state.cursors != []
    ensures Reduce(Reduce(state, Next(cursor)), Previous) == state
  {
    assert (state.cursors + [Some(cursor)])[..|state.cursors|] == state.cursors;
  }

  // ---- what the pages show ----

  /** The page that the backend answers. */
  ghost function Shown(rows: set<Row>, tenant: TenantId, state: State): Page
    requires Keyed(rows) && Accepted(Path(tenant, state))
  {
    GetPage(rows, Asked(Path(tenant, state)))
  }

  ghost function All(rows: set<Row>, tenant: TenantId, filter: Option<Status>): seq<Row>
    requires Keyed(rows)
  {
    Sort(Newer, Where(rows, Query(tenant, filter, 1, None)))
  }

  /** The user goes on with the cursor of the page that is shown. */
  ghost predicate Browse(rows: set<Row>, tenant: TenantId, actions: seq<Action>)
    requires Keyed(rows)
  {
    forall i | 0 <= i < |actions| && actions[i].Next? :: Follows(rows, tenant, Run(actions[..i]), actions[i].cursor)
  }

  ghost predicate Follows(rows: set<Row>, tenant: TenantId, state: State, cursor: CursorText)
    requires Keyed(rows)
  {
    && Accepted(Path(tenant, state))
    && Shown(rows, tenant, state).nextCursor.Some?
    && cursor == Encoded(Shown(rows, tenant, state).nextCursor.value)
  }

  /** Entry `k` of the stack points at the last row of page `k`. */
  ghost predicate StackOk(rows: set<Row>, tenant: TenantId, s: State)
    requires Keyed(rows)
  {
    && s.cursors != [] && s.cursors[0] == None
    && forall k | 1 <= k < |s.cursors| :: EntryOk(rows, tenant, s, k)
  }

  ghost predicate EntryOk(rows: set<Row>, tenant: TenantId, s: State, k: nat)
    requires Keyed(rows) && 1 <= k < |s.cursors|
  {
    var all := All(rows, tenant, s.filter);
    && 1 <= k * s.limit < |all|
    && s.cursors[k] == Some(Encoded(Cursor(tenant, s.filter, PlaceOf(all[k * s.limit - 1]))))
  }

  /** The page holds the rows of `all` from `from` on, and its cursor points at its last row if more follow. */
  ghost predicate Slice(page: Page, all: seq<Row>, tenant: TenantId, filter: Option<Status>, from: int, limit: nat) {
    && 0 <= from <= |all| && limit >= 1
    && page.items == Take(all[from..], limit)
    && page.nextCursor == if |all| - from > limit then Some(Cursor(tenant, filter, PlaceOf(all[from + limit - 1])))
         else None
  }

  ghost function PlaceBefore(all: seq<Row>, from: int): Option<Place>
    requires from <= |all|
  {
    if from <= 0 then None else Some(PlaceOf(all[from - 1]))
  }

  lemma SizeIsNotInWhere(rows: set<Row>, q: Query, limit: nat)
    requires Keyed(rows)
    ensures Where(rows, q) == Where(rows, q.(limit := limit))
  {
    hide TotalOn, Keyed;
  }

  lemma PageFrom(rows: set<Row>, tenant: TenantId, filter: Option<Status>, limit: nat, from: nat)
    requires Keyed(rows) && limit >= 1
    requires from == 0 || from < |All(rows, tenant, filter)|
    ensures var all := All(rows, tenant, filter);
            Slice(GetPage(rows, Query(tenant, filter, limit, PlaceBefore(all, from))), all, tenant, filter, from, limit)
  {
    hide Keyed, GetPage, Sort, TotalOn, SortedBy, Where, Newer;
    var q := Query(tenant, filter, limit, None);
    var all := All(rows, tenant, filter);
    SizeIsNotInWhere(rows, q, 1);
    if from == 0 {
      PageOfSorted(rows, q);
      assert all[0..] == all;
    } else {
      PageAfter(rows, q, from - 1);
      PageOfSorted(rows, q.(cursor := Some(PlaceOf(all[from - 1]))));
      assert all[from - 1 + 1..] == all[from..];
    }
  }

  /** The request asks for the page after the rows that the earlier pages hold. */
  lemma StackQuery(rows: set<Row>, tenant: TenantId, actions: seq<Action>)
    requires Keyed(rows) && StackOk(rows, tenant, Run(actions))
    ensures var s := Run(actions); var all := All(rows, tenant, s.filter); var from := (|s.cursors| - 1) * s.limit;
            && Accepted(Path(tenant, s)) && 0 <= from && (from == 0 || from < |all|)
            && Asked(Path(tenant, s)) == Query(tenant, s.filter, s.limit, PlaceBefore(all, from))
  {
    AcceptedIffOwn(tenant, actions);
    hide Keyed, Path, Asked, All, Accepted, Run;
    var s := Run(actions);
    var k := |s.cursors| - 1;
    if k == 0 {
      assert 0 * s.limit == 0;
    } else {
      assert EntryOk(rows, tenant, s, k);
    }
  }

  lemma StackPage(rows: set<Row>, tenant: TenantId, actions: seq<Action>)
    requires Keyed(rows) && StackOk(rows, tenant, Run(actions))
    ensures PageIs(rows, tenant, Run(actions))
  {
    hide Keyed, Path, Asked, All, Accepted, Run, StackOk, Slice, GetPage, PlaceBefore;
    var s := Run(actions);
    StackQuery(rows, tenant, actions);
    PageFrom(rows, tenant, s.filter, s.limit, (|s.cursors| - 1) * s.limit);
  }

  /** The request of state `s` is accepted, and its answer is the slice of the sorted history that
      the page number and the page size say. */
  ghost predicate PageIs(rows: set<Row>, tenant: TenantId, s: State)
    requires Keyed(rows)
  {
    && Accepted(Path(tenant, s))
    && Slice(Shown(rows, tenant, s), All(rows, tenant, s.filter), tenant, s.filter, (|s.cursors| - 1) * s.limit,
             s.limit)
  }

  lemma {:induction false} BrowseStack(rows: set<Row>, tenant: TenantId, actions: seq<Action>)
    requires Keyed(rows) && Browse(rows, tenant, actions)
    ensures StackOk(rows, tenant, Run(actions))
  {
    if actions != [] {
      var n := |actions| - 1;
      assert Browse(rows, tenant, actions[..n]) by {
        forall i | 0 <= i < n && actions[..n][i].Next?
          ensures Follows(rows, tenant, Run(actions[..n][..i]), actions[..n][i].cursor)
        {
          assert actions[..n][..i] == actions[..i];
        }
      }
      BrowseStack(rows, tenant, actions[..n]);
      StackStep(rows, tenant, actions[..n], actions[n]);
    }
  }

  lemma StackStep(rows: set<Row>, tenant: TenantId, actions: seq<Action>, a: Action)
    requires Keyed(rows) && StackOk(rows, tenant, Run(actions))
    requires a.Next? ==> Follows(rows, tenant, Run(actions), a.cursor)
    ensures StackOk(rows, tenant, Reduce(Run(actions), a))
  {
    hide Shown, Keyed, All, Path, Run, Accepted;
    var s := Run(actions);
    var t := Reduce(s, a);
    if a.Next? {
      StackPage(rows, tenant, actions);
      assert (|s.cursors| - 1) * s.limit + s.limit == |s.cursors| * s.limit;
    }
    forall k | 1 <= k < |t.cursors| ensures EntryOk(rows, tenant, t, k) {
      if k < |s.cursors| {
        assert EntryOk(rows, tenant, s, k);
      }
    }
  }

  /** The deliveries of the tenant and the filter. */
  function Listed(rows: set<Row>, tenant: TenantId, filter: Option<Status>): set<Row> {
    set r | r in rows && r.tenant == tenant && (filter.Some? ==> r.status == filter.value)
  }

  lemma ListedIsAll(rows: set<Row>, tenant: TenantId, filter: Option<Status>)
    requires Keyed(rows)
    ensures var all := All(rows, tenant, filter);
            && |Listed(rows, tenant, filter)| == |all|
            && (forall r :: r in all <==> r in Listed(rows, tenant, filter))
            && (forall i, j | 0 <= i < j < |all| :: Newer(all[i], all[j]) && all[i] != all[j])
  {
    SortedStrict(rows, Query(tenant, filter, 1, None));
    assert Where(rows, Query(tenant, filter, 1, None)) == Listed(rows, tenant, filter);
    hide Newer, Keyed;
  }

  /** Row `k` of a sorted list has `k` rows before it. */
  lemma RankInList(all: seq<Row>, some: set<Row>, k: nat)
    requires forall r :: r in all <==> r in some
    requires forall i, j | 0 <= i < j < |all| :: Newer(all[i], all[j]) && all[i] != all[j]
    requires k < |all|
    ensures |set r | r in some && Newer(r, all[k])| == k
  {
    var x := all[k];
    var newer := set r | r in some && Newer(r, x);
    forall r ensures r in newer <==> r in Elements(all[..k]) {
      if r in newer {
        var i :| 0 <= i < |all| && all[i] == r;
        assert i > k ==> Newer(x, r);
        assert all[..k][i] == r;
      }
      if r in all[..k] {
        var i :| 0 <= i < k && all[..k][i] == r;
        assert all[i] == r && Newer(r, x);
      }
    }
    assert newer == Elements(all[..k]);
    DistinctCount(all[..k]);
  }

  lemma RankInHistory(rows: set<Row>, tenant: TenantId, filter: Option<Status>, k: nat)
    requires Keyed(rows) && k < |All(rows, tenant, filter)|
    ensures var x := All(rows, tenant, filter)[k];
            && x in Listed(rows, tenant, filter)
            && |set r | r in Listed(rows, tenant, filter) &&
                        (r.createdAt > x.createdAt || (r.createdAt == x.createdAt && r.id > x.id))| == k
  {
    var all, some := All(rows, tenant, filter), Listed(rows, tenant, filter);
    var x := all[k];
    ListedIsAll(rows, tenant, filter);
    RankInList(all, some, k);
    assert (set r | r in some && Newer(r, x)) ==
           set r | r in some && (r.createdAt > x.createdAt || (r.createdAt == x.createdAt && r.id > x.id));
    hide All, Listed, Keyed;
  }

  /** The page holds rows `from` to `from + limit` of the tenant's history with the filter, counted from the latest
      created, and offers a next one exactly when rows remain. */
  ghost predicate ShowsFrom(rows: set<Row>, tenant: TenantId, filter: Option<Status>, page: Page, from: int,
                            limit: nat) {
    && 0 <= from <= |Listed(rows, tenant, filter)|
    && |page.items| == Min(limit, |Listed(rows, tenant, filter)| - from)
    && (page.nextCursor.Some? <==> from + limit < |Listed(rows, tenant, filter)|)
    && forall i | 0 <= i < |page.items| ::
         var x := page.items[i];
         && x in Listed(rows, tenant, filter)
         && |set r | r in Listed(rows, tenant, filter) &&
                     (r.createdAt > x.createdAt || (r.createdAt == x.createdAt && r.id > x.id))| == from + i
  }

  lemma SliceShows(rows: set<Row>, tenant: TenantId, filter: Option<Status>, page: Page, from: int, limit: nat)
    requires Keyed(rows) && Slice(page, All(rows, tenant, filter), tenant, filter, from, limit)
    ensures ShowsFrom(rows, tenant, filter, page, from, limit)
  {
    ListedIsAll(rows, tenant, filter);
    hide Keyed, All, Listed, Newer;
    forall i | 0 <= i < |page.items|
      ensures var x := page.items[i];
              && x in Listed(rows, tenant, filter)
              && |set r | r in Listed(rows, tenant, filter) &&
                          (r.createdAt > x.createdAt || (r.createdAt == x.createdAt && r.id > x.id))| == from + i
    {
      assert page.items[i] == All(rows, tenant, filter)[from + i];
      RankInHistory(rows, tenant, filter, from + i);
    }
  }

  /** While the table does not change, page n shows rows (n - 1) * limit to n * limit of the tenant's history
      with the chosen filter, through any changes of filter and size, any steps forth and back and refreshes. */
  lemma PageNumberIsOffset(rows: set<Row>, tenant: TenantId, actions: seq<Action>)
    requires Keyed(rows) && Browse(rows, tenant, actions)
    ensures var s := Run(actions);
            && Accepted(Path(tenant, s))
            && ShowsFrom(rows, tenant, s.filter, Shown(rows, tenant, s), (|s.cursors| - 1) * s.limit, s.limit)
  {
    BrowseStack(rows, tenant, actions);
    StackPage(rows, tenant, actions);
    hide Keyed, Shown, All, Run, Path, Accepted, Browse, StackOk, Slice, ShowsFrom;
    var s := Run(actions);
    SliceShows(rows, tenant, s.filter, Shown(rows, tenant, s), (|s.cursors| - 1) * s.limit, s.limit);
  }
}
