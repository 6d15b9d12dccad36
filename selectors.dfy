/** The read-only queries of payments/selectors.py over the intent table's
    rows. They are functions: they return data and change nothing. */
module Selectors {
  import opened Wrappers
  import opened Choices
  import opened Models

  /** `get_intent_by_reference`: None for the empty reference, otherwise the
      row with that reference if there is one. */
  function GetIntentByReference(rows: seq<IntentRow>, reference: string): (r: Option<IntentRow>)
    ensures reference == "" ==> r.None?
    ensures reference != "" ==> (r.Some? <==> exists i :: 0 <= i < |rows| && rows[i].reference == reference)
    ensures r.Some? ==> r.value in rows && r.value.reference == reference
  {
    if reference == "" then None
    else match IndexOfReference(rows, reference)
      case Some(k) => Some(rows[k])
      case None => None
  }

  /** The status filter applies only when a (non-empty) status is given; a
      string that is no status value matches nothing. */
  predicate MatchesOrder(r: IntentRow, orderId: int, status: string) {
    r.orderId == orderId && (status == "" || r.status.Value() == status)
  }

  /** `list_intents_for_order`: the order's intents, newest (highest id) first. */
  function {:induction false} ListIntentsForOrder(rows: seq<IntentRow>, orderId: int, status: string := ""): (r: seq<IntentRow>)
    ensures forall x :: x in r <==> x in rows && MatchesOrder(x, orderId, status)
    ensures |r| <= |rows|
  {
    if |rows| == 0 then []
    else
      var rest := ListIntentsForOrder(rows[1..], orderId, status);
      assert forall x :: x in rows <==> x == rows[0] || x in rows[1..];
      if MatchesOrder(rows[0], orderId, status) then rest + [rows[0]] else rest
  }

  predicate IdsDecreasing(s: seq<IntentRow>) {
    forall i, j :: 0 <= i < j < |s| ==> s[i].id > s[j].id
  }

  /** Over a table whose ids grow with insertion, the order's intents come
      back strictly newest first, as the model's `ordering = ["-id"]` says. */
  lemma {:induction false} ListIntentsForOrderNewestFirst(rows: seq<IntentRow>, orderId: int, status: string)
    requires IdsIncreasing(rows)
    ensures IdsDecreasing(ListIntentsForOrder(rows, orderId, status))
  {
    if |rows| > 0 {
      ListIntentsForOrderNewestFirst(rows[1..], orderId, status);
      var rest := ListIntentsForOrder(rows[1..], orderId, status);
      forall x | x in rest ensures x.id > rows[0].id {
        var j :| 0 <= j < |rows[1..]| && rows[1..][j] == x;
        assert rows[j + 1] == x;
      }
    }
  }

  predicate IsFailed(r: IntentRow) { r.status == PaymentIntentStatus.Failed }

  /** The failed rows, in table order. */
  function {:induction false} FailedRows(rows: seq<IntentRow>): (r: seq<IntentRow>)
    ensures forall x :: x in r ==> IsFailed(x)
    ensures multiset(r) <= multiset(rows)
    ensures forall x :: x in rows && IsFailed(x) ==> x in r
  {
    if |rows| == 0 then []
    else
      var rest := FailedRows(rows[1..]);
      assert rows == [rows[0]] + rows[1..];
      if IsFailed(rows[0]) then [rows[0]] + rest else rest
  }

  predicate NewestFirst(s: seq<IntentRow>) {
    forall i, j :: 0 <= i < j < |s| ==> s[i].createdAt >= s[j].createdAt
  }

  lemma NewestFirstTail(s: seq<IntentRow>)
    requires NewestFirst(s) && |s| > 0
    ensures NewestFirst(s[1..])
    ensures forall y :: y in s ==> y.createdAt <= s[0].createdAt
  {
    forall y | y in s ensures y.createdAt <= s[0].createdAt {
      var j :| 0 <= j < |s| && s[j] == y;
    }
  }

  lemma NewestFirstCons(h: IntentRow, t: seq<IntentRow>)
    requires NewestFirst(t) && forall y :: y in t ==> y.createdAt <= h.createdAt
    ensures NewestFirst([h] + t)
  {
    var s := [h] + t;
    forall i, j | 0 <= i < j < |s| ensures s[i].createdAt >= s[j].createdAt {
      if i == 0 {
        assert s[j] == t[j - 1];
      } else {
        assert s[i] == t[i - 1] && s[j] == t[j - 1];
      }
    }
  }

  function {:induction false} InsertByCreated(x: IntentRow, s: seq<IntentRow>): (r: seq<IntentRow>)
    requires NewestFirst(s)
    ensures NewestFirst(r)
    ensures multiset(r) == multiset(s) + multiset{x}
    ensures forall y :: y in r <==> y in s || y == x
  {
    if |s| == 0 then [x]
    else
      NewestFirstTail(s);
      if x.createdAt >= s[0].createdAt then
        NewestFirstCons(x, s);
        [x] + s
      else
        var rest := InsertByCreated(x, s[1..]);
        assert s == [s[0]] + s[1..];
        NewestFirstCons(s[0], rest);
        [s[0]] + rest
  }

  /** `order_by("-created_at")`: newest first, the same rows. */
  function {:induction false} SortNewestFirst(s: seq<IntentRow>): (r: seq<IntentRow>)
    ensures NewestFirst(r)
    ensures multiset(r) == multiset(s)
  {
    if |s| == 0 then []
    else
      assert s == [s[0]] + s[1..];
      InsertByCreated(s[0], SortNewestFirst(s[1..]))
  }

  /** A prefix of the sorted failed rows: failed rows of the table, newest first. */
  lemma RecentPrefix(rows: seq<IntentRow>, sorted: seq<IntentRow>, n: nat)
    requires multiset(sorted) == multiset(FailedRows(rows)) && NewestFirst(sorted) && n <= |sorted|
    ensures forall x :: x in sorted[..n] ==> IsFailed(x) && x in rows
    ensures NewestFirst(sorted[..n])
    ensures multiset(sorted[..n]) <= multiset(rows)
  {
    var failed := FailedRows(rows);
    assert sorted == sorted[..n] + sorted[n..];
    forall x | x in sorted[..n] ensures IsFailed(x) && x in rows {
      assert x in multiset(sorted);
      assert x in failed;
      assert x in multiset(rows);
    }
  }

  /** `list_recent_failed_intents(limit)`: the failed intents, newest first,
      sliced to `limit`. A negative limit is an error (Django refuses negative
      slicing of a queryset). */
  function ListRecentFailedIntents(rows: seq<IntentRow>, limit: int := 20): (r: Option<seq<IntentRow>>)
    ensures r.None? <==> limit < 0
    ensures r.Some? ==> |r.value| <= limit
    ensures r.Some? ==> forall x :: x in r.value ==> IsFailed(x) && x in rows
    ensures r.Some? ==> NewestFirst(r.value)
    ensures r.Some? ==> multiset(r.value) <= multiset(rows)
    ensures r.Some? ==> |r.value| == if limit < |FailedRows(rows)| then limit else |FailedRows(rows)|
  {
    if limit < 0 then None
    else
      var sorted := SortNewestFirst(FailedRows(rows));
      var n := if limit < |sorted| then limit else |sorted|;
      RecentPrefix(rows, sorted, n);
      Some(sorted[..n])
  }

  /** No failed intent left out of the result is newer than any intent in it,
      and the result is short only when there are no more failed intents. */
  lemma RecentFailedAreTheNewest(rows: seq<IntentRow>, limit: int, y: IntentRow)
    requires limit >= 0
    requires y in rows && IsFailed(y)
    ensures var r := ListRecentFailedIntents(rows, limit).value;
            y !in r ==> |r| == limit && forall i :: 0 <= i < |r| ==> y.createdAt <= r[i].createdAt
  {
    var sorted := SortNewestFirst(FailedRows(rows));
    var n := if limit < |sorted| then limit else |sorted|;
    var r := sorted[..n];
    assert y in multiset(sorted);
    var j :| 0 <= j < |sorted| && sorted[j] == y;
    if y !in r {
      assert j >= n;
      assert n == limit;
    }
  }
}
