/** Reading the append-only outbox page by page while it grows. */
module OutboxPaging {
  import opened Wrappers
  import opened LedgerTables

  datatype Row = Row(id: nat, fact: Fact)

  datatype Page = Page(events: seq<Row>, nextCursor: nat, hasMore: bool, highWaterMark: nat)

  predicate Wanted(f: Fact, task: Option<TaskId>) { task.None? || f.key.task == task.value }

  /** The rows with an id above `after` of the wanted task, in id order. */
  function Rows(log: seq<Fact>, after: nat, task: Option<TaskId>): seq<Row>
  {
    if |log| <= after then []
    else
      var front, f := Rows(log[..|log| - 1], after, task), log[|log| - 1];
      if Wanted(f, task) then front + [Row(|log|, f)] else front
  }

  /** SELECT * FROM outbox WHERE outbox_id > ? [AND task_id = ?] ORDER BY outbox_id LIMIT ? */
  method Query(log: seq<Fact>, after: nat, task: Option<TaskId>, limit: nat) returns (rows: seq<Row>)
    ensures rows == if |Rows(log, after, task)| <= limit then Rows(log, after, task) else Rows(log, after, task)[..limit]
  {
    rows := [];
    var i := after;
    RowsEmpty(log, after, task);
    while i < |log| && |rows| < limit
      invariant after <= i && (i <= |log| || i == after)
      invariant |rows| <= limit
      invariant rows == Rows(if i <= |log| then log[..i] else log, after, task)
    {
      if Wanted(log[i], task) { rows := rows + [Row(i + 1, log[i])]; }
      i := i + 1;
      assert log[..i][..i - 1] == log[..i - 1];
    }
    if i <= |log| {
      RowsSplit(log, i, after, task);
      assert i == |log| ==> log[..i] == log;
    }
  }

  lemma RowsEmpty(log: seq<Fact>, after: nat, task: Option<TaskId>)
    ensures after <= |log| ==> Rows(log[..after], after, task) == []
    ensures |log| <= after ==> Rows(log, after, task) == []
  {
  }

  /** The rows of a prefix come first. */
  lemma {:induction false} RowsSplit(log: seq<Fact>, n: nat, after: nat, task: Option<TaskId>)
    requires after <= n <= |log|
    ensures Rows(log, after, task) == Rows(log[..n], after, task) + Rows(log, n, task)
  {
    if n == |log| {
      assert log[..n] == log;
    } else {
      RowsSplit(log[..|log| - 1], n, after, task);
      assert log[..|log| - 1][..n] == log[..n];
    }
  }

  lemma {:induction false} RowIds(log: seq<Fact>, after: nat, task: Option<TaskId>, i: nat)
    requires i < |Rows(log, after, task)|
    ensures after < Rows(log, after, task)[i].id <= |log|
    ensures Rows(log, after, task)[i].fact == log[Rows(log, after, task)[i].id - 1]
  {
    if i < |Rows(log[..|log| - 1], after, task)| { RowIds(log[..|log| - 1], after, task, i); }
  }

  /** Cutting the rows after position n is restarting after that row's id. */
  lemma {:induction false} RowsAfter(log: seq<Fact>, after: nat, task: Option<TaskId>, n: nat)
    requires n < |Rows(log, after, task)|
    ensures Rows(log, Rows(log, after, task)[n].id, task) == Rows(log, after, task)[n + 1..]
  {
    var front := log[..|log| - 1];
    if n < |Rows(front, after, task)| {
      RowIds(front, after, task, n);
      RowsAfter(front, after, task, n);
    }
  }

  /** `page_outbox`: one row more than the limit decides hasMore. */
  method PageOutbox(log: seq<Fact>, after: nat, limit: nat, task: Option<TaskId>) returns (page: Page)
    requires 1 <= limit <= 500
    ensures page == PageOf(log, after, limit, task)
  {
    var rows := Query(log, after, task, limit + 1);
    var more := |rows| > limit;
    if more { rows := rows[..limit]; }
    page := Page(rows, if rows != [] then rows[|rows| - 1].id else after, more, |log|);
  }

  function PageOf(log: seq<Fact>, after: nat, limit: nat, task: Option<TaskId>): Page
  {
    var all := Rows(log, after, task);
    var rows := if |all| <= limit then all else all[..limit];
    Page(rows, if rows != [] then rows[|rows| - 1].id else after, |all| > limit, |log|)
  }

  /** One read of a reader that follows nextCursor: the log it saw and its limit. */
  datatype Read = Read(log: seq<Fact>, limit: nat)

  predicate Growing(calls: seq<Read>)
  {
    && (forall i | 0 <= i < |calls| :: 1 <= calls[i].limit <= 500)
    && (forall i | 0 < i < |calls| :: calls[i - 1].log <= calls[i].log)
  }

  /** The concatenated events, and the last page, of a reader that started at 0. */
  function Followed(calls: seq<Read>, task: Option<TaskId>): (seq<Row>, Page)
  {
    if calls == [] then ([], Page([], 0, true, 0))
    else
      var (events, page) := Followed(calls[..|calls| - 1], task);
      var last := calls[|calls| - 1];
      var next := PageOf(last.log, page.nextCursor, last.limit, task);
      (events + next.events, next)
  }

  lemma OnePage(log: seq<Fact>, after: nat, limit: nat, task: Option<TaskId>)
    requires after <= |log| && limit >= 1
    ensures var page := PageOf(log, after, limit, task);
            && page.nextCursor <= |log|
            && Rows(log, after, task) == page.events + Rows(log, page.nextCursor, task)
            && (page.hasMore <==> Rows(log, page.nextCursor, task) != [])
  {
    hide Rows;
    var all := Rows(log, after, task);
    var n := if |all| <= limit then |all| else limit;
    assert all == all[..n] + all[n..];
    if n > 0 {
      RowIds(log, after, task, n - 1);
      RowsAfter(log, after, task, n - 1);
    }
  }

  /** What a reader has seen stays what comes first when the log grows. */
  lemma LogGrew(seen: seq<Fact>, log: seq<Fact>, events: seq<Row>, after: nat, task: Option<TaskId>)
    requires seen <= log && after <= |seen| && Rows(seen, 0, task) == events + Rows(seen, after, task)
    ensures Rows(log, 0, task) == events + Rows(log, after, task)
  {
    hide Rows;
    assert log[..|seen|] == seen;
    RowsSplit(log, |seen|, 0, task);
    RowsSplit(log, |seen|, after, task);
  }

  /** Whatever is appended between the reads, the concatenated pages are the rows up to
      the cursor, in id order, none lost and none repeated; and all of them when the
      last page says there is no more. */
  lemma {:induction false} PagesAreAPrefix(calls: seq<Read>, task: Option<TaskId>)
    requires calls != [] && Growing(calls)
    ensures var (events, page) := Followed(calls, task);
            var log := calls[|calls| - 1].log;
            && page.nextCursor <= |log|
            && Rows(log, 0, task) == events + Rows(log, page.nextCursor, task)
            && (page.hasMore <==> Rows(log, page.nextCursor, task) != [])
            && (!page.hasMore ==> events == Rows(log, 0, task))
  {
    hide Rows, PageOf;
    var front, last := calls[..|calls| - 1], calls[|calls| - 1];
    var (events, page) := Followed(front, task);
    if front != [] {
      PagesAreAPrefix(front, task);
      assert front[|front| - 1] == calls[|calls| - 2];
      LogGrew(front[|front| - 1].log, last.log, events, page.nextCursor, task);
    }
    OnePage(last.log, page.nextCursor, last.limit, task);
  }

  /** Row ids strictly increase, so the pages hold no row twice. */
  lemma {:induction false} RowIdsIncrease(log: seq<Fact>, after: nat, task: Option<TaskId>, i: nat, j: nat)
    requires i < j < |Rows(log, after, task)|
    ensures Rows(log, after, task)[i].id < Rows(log, after, task)[j].id
  {
    var front := log[..|log| - 1];
    if j < |Rows(front, after, task)| {
      RowIdsIncrease(front, after, task, i, j);
    } else {
      RowIds(front, after, task, i);
    }
  }

  /** Every wanted fact of the log is one of the rows. */
  lemma {:induction false} RowsAreComplete(log: seq<Fact>, after: nat, task: Option<TaskId>, id: nat)
    requires after < id <= |log| && Wanted(log[id - 1], task)
    ensures Row(id, log[id - 1]) in Rows(log, after, task)
  {
    if id < |log| { RowsAreComplete(log[..|log| - 1], after, task, id); }
  }
}
