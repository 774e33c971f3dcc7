/** The reporting queries over the `balance_history` ledger: `get_balance_history` (a trailing time
    window, an optional note filter, newest first), `get_account_summary` (one row per account type and
    note with count, first and last timestamp and average, minimum and maximum total, most recently
    updated first) and the re-sort of `print_balance_chart`. The SQL is modelled as functions over
    the ledger's rows; timestamps are integers in seconds. */
module History {
  import opened Wrappers
  import opened Text
  import opened Sorting
  import opened Ledger
  import opened Clock

  // ---------------------------------------------------------------------
  // get_balance_history: the query and its parameters

  /** A value bound to a `?` placeholder. */
  datatype SqlParam = TimeParam(t: int) | TextParam(s: string)

  /** The conditions of the `WHERE` clause, each with one placeholder. */
  datatype Condition =
    | TimestampAtLeast   // "timestamp >= ?"
    | NoteEquals         // "account_note = ?"

  const HistorySelect: string :=
    "SELECT account_type, account_note, account_identifier, timestamp, total_usdt, asset_details"
    + " FROM balance_history WHERE "
  const NewestFirst: string := " ORDER BY timestamp DESC"

  function ConditionText(c: Condition): string
  {
    match c
    case TimestampAtLeast => "timestamp >= ?"
    case NoteEquals => "account_note = ?"
  }

  /** The conditions joined with " AND ". */
  function WhereText(cs: seq<Condition>): string
  {
    if cs == [] then ""
    else if |cs| == 1 then ConditionText(cs[0])
    else ConditionText(cs[0]) + " AND " + WhereText(cs[1..])
  }

  /** Whether a row satisfies the conditions with the parameters bound in order to the placeholders. */
  predicate Satisfies(cs: seq<Condition>, params: seq<SqlParam>, r: Row)
    requires |cs| == |params|
  {
    cs == [] || (Holds(cs[0], params[0], r) && Satisfies(cs[1..], params[1..], r))
  }

  /** One condition with its parameter; a parameter of the wrong type matches nothing. */
  predicate Holds(c: Condition, p: SqlParam, r: Row)
  {
    match (c, p)
    case (TimestampAtLeast, TimeParam(t)) => r.timestamp >= t
    case (NoteEquals, TextParam(note)) => r.accountNote == note
    case _ => false
  }

  /** `if account_note:` on a value that may be `None`. */
  predicate NoteGiven(accountNote: Option<string>)
  {
    accountNote.Some? && accountNote.value != ""
  }

  /** The `WHERE` clause the function means to build. */
  predicate InWindow(r: Row, accountNote: Option<string>, startDate: int)
  {
    r.timestamp >= startDate && (NoteGiven(accountNote) ==> r.accountNote == accountNote.value)
  }

  /** `query += ...` and `params.append(...)`: the note condition and its parameter are added only for a
      non-empty note. Every placeholder gets a parameter of its type, and a row satisfies the built
      query exactly when it is in the window (and of the note, when one is given). */
  method BuildHistoryQuery(accountNote: Option<string>, startDate: int)
    returns (query: string, conditions: seq<Condition>, params: seq<SqlParam>)
    ensures |conditions| == |params|
    ensures forall r :: Satisfies(conditions, params, r) <==> InWindow(r, accountNote, startDate)
    ensures query == HistorySelect + WhereText(conditions) + NewestFirst
    ensures |conditions| >= 1 && conditions[0] == TimestampAtLeast && params[0] == TimeParam(startDate)
    ensures |params| == 2 <==> NoteGiven(accountNote)
  {
    conditions := [TimestampAtLeast];
    params := [TimeParam(startDate)];
    var whereText := ConditionText(TimestampAtLeast);
    if accountNote.Some? && accountNote.value != "" {
      whereText := whereText + " AND " + ConditionText(NoteEquals);
      conditions := conditions + [NoteEquals];
      params := params + [TextParam(accountNote.value)];
      assert conditions[1..] == [NoteEquals] && params[1..] == [TextParam(accountNote.value)];
      assert conditions[1..][1..] == [] && params[1..][1..] == [];
      forall r ensures Satisfies(conditions, params, r) <==> InWindow(r, accountNote, startDate) {
        assert Satisfies(conditions[1..], params[1..], r) <==> r.accountNote == accountNote.value;
      }
    } else {
      assert conditions[1..] == [] && params[1..] == [];
      forall r ensures Satisfies(conditions, params, r) <==> InWindow(r, accountNote, startDate) {
        assert Satisfies(conditions[1..], params[1..], r);
      }
    }
    query := HistorySelect + whereText + NewestFirst;
  }

  // ---------------------------------------------------------------------
  // get_balance_history: what the query selects

  function Where(rows: seq<Row>, accountNote: Option<string>, startDate: int): (r: seq<Row>)
    ensures |r| <= |rows|
  {
    if rows == [] then []
    else
      var last := rows[|rows| - 1];
      Where(rows[..|rows| - 1], accountNote, startDate) + if InWindow(last, accountNote, startDate) then [last] else []
  }

  /** The selected rows are the stored rows in the window, each as often as it is stored. */
  lemma {:induction false} WhereMembers(rows: seq<Row>, accountNote: Option<string>, startDate: int)
    ensures forall x :: x in Where(rows, accountNote, startDate) <==> x in rows && InWindow(x, accountNote, startDate)
    ensures multiset(Where(rows, accountNote, startDate)) <= multiset(rows)
    ensures forall x ::
              multiset(Where(rows, accountNote, startDate))[x] == if InWindow(x, accountNote, startDate) then multiset(rows)[x] else 0
  {
    if rows != [] {
      var init := rows[..|rows| - 1];
      assert rows == init + [rows[|rows| - 1]];
      assert multiset(rows) == multiset(init) + multiset{rows[|rows| - 1]};
      WhereMembers(init, accountNote, startDate);
    }
  }

  /** The rows the built query returns, in storage order: those satisfying its conditions. */
  function Select(rows: seq<Row>, cs: seq<Condition>, params: seq<SqlParam>): (r: seq<Row>)
    requires |cs| == |params|
    ensures |r| <= |rows|
  {
    if rows == [] then []
    else
      var last := rows[|rows| - 1];
      Select(rows[..|rows| - 1], cs, params) + if Satisfies(cs, params, last) then [last] else []
  }

  /** A query whose conditions hold exactly in the window selects what `Where` selects. */
  lemma {:induction false} SelectIsWhere(rows: seq<Row>, cs: seq<Condition>, params: seq<SqlParam>,
                                         accountNote: Option<string>, startDate: int)
    requires |cs| == |params|
    requires forall r :: Satisfies(cs, params, r) <==> InWindow(r, accountNote, startDate)
    ensures Select(rows, cs, params) == Where(rows, accountNote, startDate)
  {
    if rows != [] {
      SelectIsWhere(rows[..|rows| - 1], cs, params, accountNote, startDate);
    }
  }

  predicate NewerFirst(a: Row, b: Row)
  {
    a.timestamp >= b.timestamp
  }

  /** The rows of the last `days` days (and of the given note, if one is given), newest first. */
  function HistoryRows(rows: seq<Row>, accountNote: Option<string>, now: int, days: int): seq<Row>
  {
    SortBy(Where(rows, accountNote, WindowStart(now, days)), NewerFirst)
  }

  lemma NewerFirstPreorder()
    ensures TotalPreorder(NewerFirst)
  {
  }

  /** The history holds every row at or after `now - days` (of the note, when one is given) and no
      other, each as often as it is stored, newest first; an empty or missing note filters nothing. */
  lemma HistoryRowsMeaning(rows: seq<Row>, accountNote: Option<string>, now: int, days: int)
    ensures var h := HistoryRows(rows, accountNote, now, days);
      && (forall x :: x in h <==> x in rows && x.timestamp >= WindowStart(now, days)
                                  && (NoteGiven(accountNote) ==> x.accountNote == accountNote.value))
      && multiset(h) <= multiset(rows)
      && (forall x :: multiset(h)[x] ==
            if x.timestamp >= WindowStart(now, days) && (NoteGiven(accountNote) ==> x.accountNote == accountNote.value)
            then multiset(rows)[x] else 0)
      && (forall i, j :: 0 <= i < j < |h| ==> h[i].timestamp >= h[j].timestamp)
  {
    var start := WindowStart(now, days);
    var w := Where(rows, accountNote, start);
    WhereMembers(rows, accountNote, start);
    NewerFirstPreorder();
    SortBySorted(w, NewerFirst);
    SortByMembers(w, NewerFirst);
    var h := SortBy(w, NewerFirst);
    forall i, j | 0 <= i < j < |h| ensures h[i].timestamp >= h[j].timestamp {
      assert NewerFirst(h[i], h[j]);
    }
  }

  /** `asset_details`: the decoded column, or `[]` for a NULL column. */
  datatype DecodedDetails = EmptyList | Decoded(details: Details)

  /** The built query, executed and ordered newest first, returns the history rows. */
  lemma QueryReturnsHistory(rows: seq<Row>, cs: seq<Condition>, params: seq<SqlParam>,
                            accountNote: Option<string>, now: int, days: int)
    requires |cs| == |params|
    requires forall r :: Satisfies(cs, params, r) <==> InWindow(r, accountNote, WindowStart(now, days))
    ensures SortBy(Select(rows, cs, params), NewerFirst) == HistoryRows(rows, accountNote, now, days)
  {
    SelectIsWhere(rows, cs, params, accountNote, WindowStart(now, days));
  }

  /** One entry of the returned `history` list. */
  datatype Record = Record(
    accountType: string,
    accountNote: string,
    accountIdentifier: string,
    timestamp: int,
    totalUsdt: real,
    assetDetails: DecodedDetails)

  function RecordOf(r: Row): Record
  {
    Record(r.accountType, r.accountNote, r.accountIdentifier, r.timestamp, r.totalUsdt,
           if r.assetDetails.Some? then Decoded(r.assetDetails.value) else EmptyList)
  }

  /** The `for row in rows` loop: one record per fetched row, in order. */
  method RecordsOf(fetched: seq<Row>) returns (history: seq<Record>)
    ensures |history| == |fetched|
    ensures forall i :: 0 <= i < |history| ==> history[i] == RecordOf(fetched[i])
    ensures forall i :: 0 <= i < |history| ==> (history[i].assetDetails == EmptyList <==> fetched[i].assetDetails.None?)
  {
    history := [];
    for i := 0 to |fetched|
      invariant |history| == i
      invariant forall k :: 0 <= k < i ==> history[k] == RecordOf(fetched[k])
    {
      var row := fetched[i];
      var details := if row.assetDetails.Some? then Decoded(row.assetDetails.value) else EmptyList;
      history := history + [Record(row.accountType, row.accountNote, row.accountIdentifier, row.timestamp,
                                   row.totalUsdt, details)];
    }
  }

  /** `get_balance_history`: the built query run over the ledger, one record per selected row, in the
      query's order. */
  method GetBalanceHistory(rows: seq<Row>, accountNote: Option<string>, now: int, days: int)
    returns (history: seq<Record>)
    ensures var selected := HistoryRows(rows, accountNote, now, days);
      |history| == |selected| && forall i :: 0 <= i < |history| ==> history[i] == RecordOf(selected[i])
    ensures forall i :: 0 <= i < |history| ==>
      (history[i].assetDetails == EmptyList <==> HistoryRows(rows, accountNote, now, days)[i].assetDetails.None?)
  {
    var query, conditions, params := BuildHistoryQuery(accountNote, WindowStart(now, days));
    var fetched := SortBy(Select(rows, conditions, params), NewerFirst);
    QueryReturnsHistory(rows, conditions, params, accountNote, now, days);
    history := RecordsOf(fetched);
  }

  // ---------------------------------------------------------------------
  // get_account_summary: GROUP BY account_type, account_note

  datatype GroupKey = GroupKey(accountType: string, accountNote: string)

  function KeyOf(r: Row): GroupKey
  {
    GroupKey(r.accountType, r.accountNote)
  }

  /** The distinct keys, in order of first appearance. */
  function Keys(rows: seq<Row>): (r: seq<GroupKey>)
    ensures forall i, j :: 0 <= i < j < |r| ==> r[i] != r[j]
  {
    if rows == [] then []
    else
      var init := Keys(rows[..|rows| - 1]);
      var k := KeyOf(rows[|rows| - 1]);
      if k in init then init else init + [k]
  }

  lemma {:induction false} KeysMembers(rows: seq<Row>)
    ensures forall k :: k in Keys(rows) <==> exists i :: 0 <= i < |rows| && KeyOf(rows[i]) == k
  {
    if rows != [] {
      var init := rows[..|rows| - 1];
      KeysMembers(init);
      forall k ensures k in Keys(rows) <==> exists i :: 0 <= i < |rows| && KeyOf(rows[i]) == k {
        if k in Keys(init) {
          var i :| 0 <= i < |init| && KeyOf(init[i]) == k;
          assert rows[i] == init[i];
        }
        if exists i :: 0 <= i < |rows| && KeyOf(rows[i]) == k {
          var i :| 0 <= i < |rows| && KeyOf(rows[i]) == k;
          if i < |init| {
            assert init[i] == rows[i];
          }
        }
      }
    }
  }

  /** The rows of one group, in ledger order. */
  function GroupOf(rows: seq<Row>, k: GroupKey): (r: seq<Row>)
    ensures |r| <= |rows|
    ensures forall i :: 0 <= i < |r| ==> KeyOf(r[i]) == k
  {
    if rows == [] then []
    else
      var last := rows[|rows| - 1];
      GroupOf(rows[..|rows| - 1], k) + if KeyOf(last) == k then [last] else []
  }

  lemma {:induction false} GroupOfMembers(rows: seq<Row>, k: GroupKey)
    ensures forall x :: x in GroupOf(rows, k) <==> x in rows && KeyOf(x) == k
  {
    if rows != [] {
      var init := rows[..|rows| - 1];
      assert rows == init + [rows[|rows| - 1]];
      GroupOfMembers(init, k);
    }
  }

  function SumUsdt(s: seq<Row>): real
  {
    if s == [] then 0.0 else SumUsdt(s[..|s| - 1]) + s[|s| - 1].totalUsdt
  }

  function MinUsdt(s: seq<Row>): real
    requires |s| > 0
  {
    if |s| == 1 then s[0].totalUsdt
    else
      var m := MinUsdt(s[..|s| - 1]);
      if s[|s| - 1].totalUsdt < m then s[|s| - 1].totalUsdt else m
  }

  function MaxUsdt(s: seq<Row>): real
    requires |s| > 0
  {
    if |s| == 1 then s[0].totalUsdt
    else
      var m := MaxUsdt(s[..|s| - 1]);
      if s[|s| - 1].totalUsdt > m then s[|s| - 1].totalUsdt else m
  }

  function FirstTime(s: seq<Row>): int
    requires |s| > 0
  {
    if |s| == 1 then s[0].timestamp
    else
      var m := FirstTime(s[..|s| - 1]);
      if s[|s| - 1].timestamp < m then s[|s| - 1].timestamp else m
  }

  function LastTime(s: seq<Row>): int
    requires |s| > 0
  {
    if |s| == 1 then s[0].timestamp
    else
      var m := LastTime(s[..|s| - 1]);
      if s[|s| - 1].timestamp > m then s[|s| - 1].timestamp else m
  }

  /** MIN and MAX of the totals are attained and bound every row. */
  lemma UsdtExtremes(s: seq<Row>)
    requires |s| > 0
    ensures forall i :: 0 <= i < |s| ==> MinUsdt(s) <= s[i].totalUsdt <= MaxUsdt(s)
    ensures exists i :: 0 <= i < |s| && s[i].totalUsdt == MinUsdt(s)
    ensures exists i :: 0 <= i < |s| && s[i].totalUsdt == MaxUsdt(s)
  {
    UsdtBounds(s);
    UsdtAttained(s);
  }

  lemma {:induction false} UsdtBounds(s: seq<Row>)
    requires |s| > 0
    ensures forall i :: 0 <= i < |s| ==> MinUsdt(s) <= s[i].totalUsdt <= MaxUsdt(s)
  {
    if |s| > 1 {
      var init := s[..|s| - 1];
      UsdtBounds(init);
      ExtremesStep(s);
      forall i | 0 <= i < |s| ensures MinUsdt(s) <= s[i].totalUsdt <= MaxUsdt(s) {
        if i < |init| {
          assert init[i] == s[i];
        }
      }
    }
  }

  lemma {:induction false} UsdtAttained(s: seq<Row>)
    requires |s| > 0
    ensures exists i :: 0 <= i < |s| && s[i].totalUsdt == MinUsdt(s)
    ensures exists i :: 0 <= i < |s| && s[i].totalUsdt == MaxUsdt(s)
  {
    if |s| > 1 {
      var init := s[..|s| - 1];
      var last := |s| - 1;
      UsdtAttained(init);
      ExtremesStep(s);
      var lo :| 0 <= lo < |init| && init[lo].totalUsdt == MinUsdt(init);
      var hi :| 0 <= hi < |init| && init[hi].totalUsdt == MaxUsdt(init);
      assert init[lo] == s[lo] && init[hi] == s[hi];
      if MinUsdt(s) == s[last].totalUsdt {
        assert s[last].totalUsdt == MinUsdt(s);
      } else {
        assert s[lo].totalUsdt == MinUsdt(s);
      }
      if MaxUsdt(s) == s[last].totalUsdt {
        assert s[last].totalUsdt == MaxUsdt(s);
      } else {
        assert s[hi].totalUsdt == MaxUsdt(s);
      }
    } else {
      assert s[0].totalUsdt == MinUsdt(s) && s[0].totalUsdt == MaxUsdt(s);
    }
  }

  /** MIN and MAX of the timestamps are attained and bound every row. */
  lemma TimeExtremes(s: seq<Row>)
    requires |s| > 0
    ensures forall i :: 0 <= i < |s| ==> FirstTime(s) <= s[i].timestamp <= LastTime(s)
    ensures exists i :: 0 <= i < |s| && s[i].timestamp == FirstTime(s)
    ensures exists i :: 0 <= i < |s| && s[i].timestamp == LastTime(s)
  {
    TimeBounds(s);
    TimeAttained(s);
  }

  lemma {:induction false} TimeBounds(s: seq<Row>)
    requires |s| > 0
    ensures forall i :: 0 <= i < |s| ==> FirstTime(s) <= s[i].timestamp <= LastTime(s)
  {
    if |s| > 1 {
      var init := s[..|s| - 1];
      TimeBounds(init);
      TimeStep(s);
      forall i | 0 <= i < |s| ensures FirstTime(s) <= s[i].timestamp <= LastTime(s) {
        if i < |init| {
          assert init[i] == s[i];
        }
      }
    }
  }

  lemma {:induction false} TimeAttained(s: seq<Row>)
    requires |s| > 0
    ensures exists i :: 0 <= i < |s| && s[i].timestamp == FirstTime(s)
    ensures exists i :: 0 <= i < |s| && s[i].timestamp == LastTime(s)
  {
    if |s| > 1 {
      var init := s[..|s| - 1];
      var last := |s| - 1;
      TimeAttained(init);
      TimeStep(s);
      var lo :| 0 <= lo < |init| && init[lo].timestamp == FirstTime(init);
      var hi :| 0 <= hi < |init| && init[hi].timestamp == LastTime(init);
      assert init[lo] == s[lo] && init[hi] == s[hi];
      if FirstTime(s) == s[last].timestamp {
        assert s[last].timestamp == FirstTime(s);
      } else {
        assert s[lo].timestamp == FirstTime(s);
      }
      if LastTime(s) == s[last].timestamp {
        assert s[last].timestamp == LastTime(s);
      } else {
        assert s[hi].timestamp == LastTime(s);
      }
    } else {
      assert s[0].timestamp == FirstTime(s) && s[0].timestamp == LastTime(s);
    }
  }

  /** First and last timestamps of a group with one more row, against those of the rows before it. */
  lemma TimeStep(s: seq<Row>)
    requires |s| > 1
    ensures FirstTime(s) == (if s[|s| - 1].timestamp < FirstTime(s[..|s| - 1]) then s[|s| - 1].timestamp else FirstTime(s[..|s| - 1]))
    ensures LastTime(s) == (if s[|s| - 1].timestamp > LastTime(s[..|s| - 1]) then s[|s| - 1].timestamp else LastTime(s[..|s| - 1]))
  {
  }

  /** The sum of the totals lies between `count * MIN` and `count * MAX`. */
  lemma SumBetween(s: seq<Row>)
    requires |s| > 0
    ensures (|s| as real) * MinUsdt(s) <= SumUsdt(s) <= (|s| as real) * MaxUsdt(s)
  {
    SumAtLeast(s);
    SumAtMost(s);
  }

  lemma {:induction false} SumAtLeast(s: seq<Row>)
    requires |s| > 0
    ensures (|s| as real) * MinUsdt(s) <= SumUsdt(s)
  {
    if |s| > 1 {
      var init := s[..|s| - 1];
      SumAtLeast(init);
      var x := s[|s| - 1].totalUsdt;
      assert SumUsdt(s) == SumUsdt(init) + x;
      ExtremesStep(s);
      LowerStep(|init| as real, |s| as real, SumUsdt(init), x, MinUsdt(s), MinUsdt(init));
    } else {
      assert s[..0] == [];
    }
  }

  lemma {:induction false} SumAtMost(s: seq<Row>)
    requires |s| > 0
    ensures SumUsdt(s) <= (|s| as real) * MaxUsdt(s)
  {
    if |s| > 1 {
      var init := s[..|s| - 1];
      SumAtMost(init);
      var x := s[|s| - 1].totalUsdt;
      assert SumUsdt(s) == SumUsdt(init) + x;
      ExtremesStep(s);
      UpperStep(|init| as real, |s| as real, SumUsdt(init), x, MaxUsdt(s), MaxUsdt(init));
    } else {
      assert s[..0] == [];
    }
  }

  /** One more row at or above the new MIN keeps the sum at or above `count * MIN`. */
  lemma LowerStep(n: real, m: real, sum: real, x: real, lo: real, lo0: real)
    requires n >= 0.0 && m == n + 1.0 && n * lo0 <= sum && lo <= lo0 && lo <= x
    ensures m * lo <= sum + x
  {
    assert n * lo <= n * lo0;
  }

  /** One more row at or below the new MAX keeps the sum at or below `count * MAX`. */
  lemma UpperStep(n: real, m: real, sum: real, x: real, hi: real, hi0: real)
    requires n >= 0.0 && m == n + 1.0 && sum <= n * hi0 && hi0 <= hi && x <= hi
    ensures sum + x <= m * hi
  {
    assert n * hi0 <= n * hi;
  }

  /** MIN and MAX of a group with one more row, against those of the rows before it. */
  lemma ExtremesStep(s: seq<Row>)
    requires |s| > 1
    ensures MinUsdt(s) <= MinUsdt(s[..|s| - 1]) && MinUsdt(s) <= s[|s| - 1].totalUsdt
    ensures MaxUsdt(s) >= MaxUsdt(s[..|s| - 1]) && MaxUsdt(s) >= s[|s| - 1].totalUsdt
    ensures MinUsdt(s) == MinUsdt(s[..|s| - 1]) || MinUsdt(s) == s[|s| - 1].totalUsdt
    ensures MaxUsdt(s) == MaxUsdt(s[..|s| - 1]) || MaxUsdt(s) == s[|s| - 1].totalUsdt
  {
  }


  /** One row of the SQL result, before rounding. */
  datatype Aggregate = Aggregate(
    key: GroupKey, recordCount: nat, firstRecord: int, lastRecord: int, avgUsdt: real, minUsdt: real, maxUsdt: real)

  function AggregateOf(rows: seq<Row>, k: GroupKey): Aggregate
    requires |GroupOf(rows, k)| > 0
  {
    var g := GroupOf(rows, k);
    Aggregate(k, |g|, FirstTime(g), LastTime(g), SumUsdt(g) / (|g| as real), MinUsdt(g), MaxUsdt(g))
  }

  lemma KeyHasRows(rows: seq<Row>, k: GroupKey)
    requires k in Keys(rows)
    ensures |GroupOf(rows, k)| > 0
  {
    KeysMembers(rows);
    GroupOfMembers(rows, k);
    var i :| 0 <= i < |rows| && KeyOf(rows[i]) == k;
    assert rows[i] in GroupOf(rows, k);
  }

  function AggregatesOf(rows: seq<Row>, keys: seq<GroupKey>): (r: seq<Aggregate>)
    requires forall i :: 0 <= i < |keys| ==> keys[i] in Keys(rows)
    ensures |r| == |keys|
    ensures forall i :: 0 <= i < |r| ==> r[i].key == keys[i]
  {
    if keys == [] then []
    else
      KeyHasRows(rows, keys[0]);
      [AggregateOf(rows, keys[0])] + AggregatesOf(rows, keys[1..])
  }

  predicate LatestFirst(a: Aggregate, b: Aggregate)
  {
    a.lastRecord >= b.lastRecord
  }

  /** The SQL result: one aggregate per group, most recently updated first. */
  function SummaryRows(rows: seq<Row>): seq<Aggregate>
  {
    SortBy(AggregatesOf(rows, Keys(rows)), LatestFirst)
  }

  /** What the SQL engine promises of one group's row: it counts the group's rows, its average is
      their sum over their count (so it lies between the minimum and maximum), and its timestamps and
      totals are the group's extremes, each bounding every row and attained by one. */
  predicate Describes(rows: seq<Row>, a: Aggregate)
  {
    && a.recordCount == |GroupOf(rows, a.key)| > 0
    && a.avgUsdt == SumUsdt(GroupOf(rows, a.key)) / (a.recordCount as real)
    && a.firstRecord <= a.lastRecord
    && a.minUsdt <= a.avgUsdt <= a.maxUsdt
    && (forall x :: x in rows && KeyOf(x) == a.key ==>
          a.minUsdt <= x.totalUsdt <= a.maxUsdt && a.firstRecord <= x.timestamp <= a.lastRecord)
    && (exists x :: x in rows && KeyOf(x) == a.key && x.totalUsdt == a.minUsdt)
    && (exists x :: x in rows && KeyOf(x) == a.key && x.totalUsdt == a.maxUsdt)
    && (exists x :: x in rows && KeyOf(x) == a.key && x.timestamp == a.firstRecord)
    && (exists x :: x in rows && KeyOf(x) == a.key && x.timestamp == a.lastRecord)
  }

  lemma AggregateOfDescribes(rows: seq<Row>, k: GroupKey)
    requires |GroupOf(rows, k)| > 0
    ensures Describes(rows, AggregateOf(rows, k))
  {
    var g := GroupOf(rows, k);
    AverageOfGroup(g);
    TimeExtremes(g);
    GroupBounds(rows, k);
    GroupAttainsUsdt(rows, k);
    GroupAttainsTime(rows, k);
  }

  /** Every row with the key lies between its group's extremes. */
  lemma GroupBounds(rows: seq<Row>, k: GroupKey)
    requires |GroupOf(rows, k)| > 0
    ensures var g := GroupOf(rows, k);
      forall x :: x in rows && KeyOf(x) == k ==>
        MinUsdt(g) <= x.totalUsdt <= MaxUsdt(g) && FirstTime(g) <= x.timestamp <= LastTime(g)
  {
    var g := GroupOf(rows, k);
    UsdtExtremes(g);
    TimeExtremes(g);
    GroupOfMembers(rows, k);
    forall x | x in rows && KeyOf(x) == k
      ensures MinUsdt(g) <= x.totalUsdt <= MaxUsdt(g) && FirstTime(g) <= x.timestamp <= LastTime(g)
    {
      assert x in g;
    }
  }

  /** MIN and MAX of `total_usdt` are the totals of rows with the key. */
  lemma GroupAttainsUsdt(rows: seq<Row>, k: GroupKey)
    requires |GroupOf(rows, k)| > 0
    ensures var g := GroupOf(rows, k);
      && (exists x :: x in rows && KeyOf(x) == k && x.totalUsdt == MinUsdt(g))
      && (exists x :: x in rows && KeyOf(x) == k && x.totalUsdt == MaxUsdt(g))
  {
    var g := GroupOf(rows, k);
    UsdtExtremes(g);
    GroupOfMembers(rows, k);
    var i :| 0 <= i < |g| && g[i].totalUsdt == MinUsdt(g);
    assert g[i] in g;
    var j :| 0 <= j < |g| && g[j].totalUsdt == MaxUsdt(g);
    assert g[j] in g;
  }

  /** MIN and MAX of `timestamp` are the timestamps of rows with the key. */
  lemma GroupAttainsTime(rows: seq<Row>, k: GroupKey)
    requires |GroupOf(rows, k)| > 0
    ensures var g := GroupOf(rows, k);
      && (exists x :: x in rows && KeyOf(x) == k && x.timestamp == FirstTime(g))
      && (exists x :: x in rows && KeyOf(x) == k && x.timestamp == LastTime(g))
  {
    var g := GroupOf(rows, k);
    TimeExtremes(g);
    GroupOfMembers(rows, k);
    var f :| 0 <= f < |g| && g[f].timestamp == FirstTime(g);
    assert g[f] in g;
    var l :| 0 <= l < |g| && g[l].timestamp == LastTime(g);
    assert g[l] in g;
  }

  lemma AggregatesDescribe(rows: seq<Row>, keys: seq<GroupKey>)
    requires forall i :: 0 <= i < |keys| ==> keys[i] in Keys(rows)
    ensures forall a :: a in AggregatesOf(rows, keys) ==> Describes(rows, a)
  {
    var r := AggregatesOf(rows, keys);
    forall a | a in r ensures Describes(rows, a) {
      var i :| 0 <= i < |r| && r[i] == a;
      AggregateAt(rows, keys, i);
      KeyHasRows(rows, keys[i]);
      AggregateOfDescribes(rows, keys[i]);
    }
  }

  lemma {:induction false} AggregateAt(rows: seq<Row>, keys: seq<GroupKey>, i: nat)
    requires forall i :: 0 <= i < |keys| ==> keys[i] in Keys(rows)
    requires i < |keys|
    ensures |GroupOf(rows, keys[i])| > 0
    ensures AggregatesOf(rows, keys)[i] == AggregateOf(rows, keys[i])
  {
    KeyHasRows(rows, keys[i]);
    if i > 0 {
      AggregateAt(rows, keys[1..], i - 1);
    }
  }

  /** Reordering a sequence whose keys are distinct keeps them distinct. */
  lemma DistinctKeysPermutation(a: seq<Aggregate>, s: seq<Aggregate>)
    requires multiset(a) == multiset(s)
    requires forall i, j :: 0 <= i < j < |a| ==> a[i].key != a[j].key
    ensures forall i, j :: 0 <= i < j < |s| ==> s[i].key != s[j].key
  {
    forall i, j | 0 <= i < j < |s| ensures s[i].key != s[j].key {
      assert s[i] in multiset(a) && s[j] in multiset(a);
      var p :| 0 <= p < |a| && a[p] == s[i];
      var q :| 0 <= q < |a| && a[q] == s[j];
      MultisetCountInDistinct(a, p);
      OccurrencesOfPair(s, i, j);
      assert s[i] != s[j];
      assert p != q;
      if p < q {
        assert a[p].key != a[q].key;
      } else {
        assert a[q].key != a[p].key;
      }
    }
  }

  /** Two positions holding the same element make it occur twice. */
  lemma OccurrencesOfPair<T>(s: seq<T>, i: nat, j: nat)
    requires i < j < |s|
    ensures multiset(s)[s[i]] >= 1 + (if s[i] == s[j] then 1 else 0)
  {
    assert s == s[..i] + [s[i]] + s[i + 1..j] + [s[j]] + s[j + 1..];
  }

  /** One summary row per distinct (account type, note) and none for any other, most recently updated
      first; each row describes its group (count, average as sum over count, attained extremes). */
  lemma SummaryRowsMeaning(rows: seq<Row>)
    ensures var s := SummaryRows(rows);
      forall i, j :: 0 <= i < j < |s| ==> s[i].key != s[j].key && s[i].lastRecord >= s[j].lastRecord
    ensures var s := SummaryRows(rows);
      forall i :: 0 <= i < |s| ==> Describes(rows, s[i])
    ensures var s := SummaryRows(rows);
      forall j :: 0 <= j < |rows| ==> exists g :: g in s && g.key == KeyOf(rows[j])
  {
    SummaryOrdered(rows);
    SummaryDescribes(rows);
    SummaryCovers(rows);
    var s := SummaryRows(rows);
    forall j | 0 <= j < |rows| ensures exists g :: g in s && g.key == KeyOf(rows[j]) {
      var g :| g in s && g.key == KeyOf(rows[j]);
    }
  }

  /** One summary per key, latest first. */
  lemma SummaryOrdered(rows: seq<Row>)
    ensures var s := SummaryRows(rows);
      forall i, j :: 0 <= i < j < |s| ==> s[i].key != s[j].key && s[i].lastRecord >= s[j].lastRecord
  {
    var a := AggregatesOf(rows, Keys(rows));
    var s := SummaryRows(rows);
    LatestFirstPreorder();
    SortBySorted(a, LatestFirst);
    AggregatesDescribe(rows, Keys(rows));
    DistinctKeysPermutation(a, s);
    forall i, j | 0 <= i < j < |s| ensures s[i].lastRecord >= s[j].lastRecord {
      assert LatestFirst(s[i], s[j]);
    }
  }

  /** Every summary describes its group. */
  lemma SummaryDescribes(rows: seq<Row>)
    ensures var s := SummaryRows(rows);
      forall i :: 0 <= i < |s| ==> Describes(rows, s[i])
  {
    var a := AggregatesOf(rows, Keys(rows));
    var s := SummaryRows(rows);
    SortByMembers(a, LatestFirst);
    AggregatesDescribe(rows, Keys(rows));
    forall i | 0 <= i < |s| ensures Describes(rows, s[i]) {
      assert s[i] in a;
    }
  }

  /** Every key present in the ledger has its summary. */
  lemma SummaryCovers(rows: seq<Row>)
    ensures var s := SummaryRows(rows);
      forall j :: 0 <= j < |rows| ==> exists g :: g in s && g.key == KeyOf(rows[j])
  {
    var keys := Keys(rows);
    var a := AggregatesOf(rows, keys);
    var s := SummaryRows(rows);
    SortByMembers(a, LatestFirst);
    KeysMembers(rows);
    forall j | 0 <= j < |rows| ensures exists g :: g in s && g.key == KeyOf(rows[j]) {
      var k := KeyOf(rows[j]);
      assert k in keys;
      var p :| 0 <= p < |keys| && keys[p] == k;
      assert a[p] in a && a[p].key == k;
    }
  }

  lemma LatestFirstPreorder()
    ensures TotalPreorder(LatestFirst)
  {
  }

  /** An element of a sequence with distinct keys occurs in it once. */
  lemma MultisetCountInDistinct(a: seq<Aggregate>, p: nat)
    requires p < |a|
    requires forall i, j :: 0 <= i < j < |a| ==> a[i].key != a[j].key
    ensures multiset(a)[a[p]] == 1
  {
    var x := a[p];
    var pre, post := a[..p], a[p + 1..];
    assert a == pre + [x] + post;
    assert x !in pre by {
      forall i | 0 <= i < |pre| ensures pre[i] != x { assert pre[i] == a[i]; }
    }
    assert x !in post by {
      forall i | 0 <= i < |post| ensures post[i] != x { assert post[i] == a[p + 1 + i]; }
    }
    assert multiset(a) == multiset(pre) + multiset{x} + multiset(post);
  }

  lemma AverageOfGroup(g: seq<Row>)
    requires |g| > 0
    ensures MinUsdt(g) <= SumUsdt(g) / (|g| as real) <= MaxUsdt(g)
  {
    SumBetween(g);
    AverageBetween(SumUsdt(g), |g|, MinUsdt(g), MaxUsdt(g));
  }

  lemma AverageBetween(sum: real, n: nat, lo: real, hi: real)
    requires n > 0 && (n as real) * lo <= sum <= (n as real) * hi
    ensures lo <= sum / (n as real) <= hi
  {
  }

  /** One entry of the returned `summaries` list. */
  datatype Summary = Summary(
    accountType: string, accountNote: string, recordCount: nat, firstRecord: int, lastRecord: int,
    avgUsdt: real, minUsdt: real, maxUsdt: real)

  /** `round(x, 2) if x else 0`: a zero aggregate is reported as 0 without rounding. */
  function Reported(x: real, round2: real -> real): real
  {
    if x != 0.0 then round2(x) else 0.0
  }

  /** `get_account_summary`: the SQL result, in its order, with the three totals rounded to cents
      (`round2`) unless they are zero. */
  method GetAccountSummary(rows: seq<Row>, round2: real -> real) returns (summaries: seq<Summary>)
    ensures var s := SummaryRows(rows);
      && |summaries| == |s|
      && forall i :: 0 <= i < |s| ==>
        && summaries[i].accountType == s[i].key.accountType
        && summaries[i].accountNote == s[i].key.accountNote
        && summaries[i].recordCount == s[i].recordCount
        && summaries[i].firstRecord == s[i].firstRecord
        && summaries[i].lastRecord == s[i].lastRecord
        && summaries[i].avgUsdt == (if s[i].avgUsdt == 0.0 then 0.0 else round2(s[i].avgUsdt))
        && summaries[i].minUsdt == (if s[i].minUsdt == 0.0 then 0.0 else round2(s[i].minUsdt))
        && summaries[i].maxUsdt == (if s[i].maxUsdt == 0.0 then 0.0 else round2(s[i].maxUsdt))
  {
    var fetched := SummaryRows(rows);
    summaries := [];
    for i := 0 to |fetched|
      invariant |summaries| == i
      invariant forall k :: 0 <= k < i ==>
        summaries[k] == Summary(fetched[k].key.accountType, fetched[k].key.accountNote, fetched[k].recordCount,
                                fetched[k].firstRecord, fetched[k].lastRecord, Reported(fetched[k].avgUsdt, round2),
                                Reported(fetched[k].minUsdt, round2), Reported(fetched[k].maxUsdt, round2))
    {
      var a := fetched[i];
      summaries := summaries + [Summary(a.key.accountType, a.key.accountNote, a.recordCount, a.firstRecord,
                                        a.lastRecord, Reported(a.avgUsdt, round2), Reported(a.minUsdt, round2),
                                        Reported(a.maxUsdt, round2))];
    }
  }

  // ---------------------------------------------------------------------
  // print_balance_chart

  predicate RecordOlderFirst(a: Record, b: Record)
  {
    a.timestamp <= b.timestamp
  }

  /** `history.sort(key=lambda x: x['timestamp'])` on the caller's list, after returning early on an
      empty one; `shown` is the records in the order they are printed. */
  method PrintBalanceChart(history: array<Record>) returns (shown: seq<Record>)
    modifies history
    ensures history.Length == 0 ==> shown == []
    ensures history[..] == SortBy(old(history[..]), RecordOlderFirst)
    ensures shown == history[..]
  {
    if history.Length == 0 {
      return [];
    }
    var sorted := SortBy(history[..], RecordOlderFirst);
    forall i | 0 <= i < history.Length {
      history[i] := sorted[i];
    }
    shown := history[..];
  }

  /** The chart lists the same records oldest first. */
  lemma ChartOrder(s: seq<Record>)
    ensures var r := SortBy(s, RecordOlderFirst);
      multiset(r) == multiset(s) && forall i, j :: 0 <= i < j < |r| ==> r[i].timestamp <= r[j].timestamp
  {
    assert TotalPreorder(RecordOlderFirst);
    SortBySorted(s, RecordOlderFirst);
    var r := SortBy(s, RecordOlderFirst);
    forall i, j | 0 <= i < j < |r| ensures r[i].timestamp <= r[j].timestamp {
      assert RecordOlderFirst(r[i], r[j]);
    }
  }
}
