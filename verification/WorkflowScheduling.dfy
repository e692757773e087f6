/** Scheduling of work requests that need no worker: one pass completes synchronization points, starts
    wait tasks, and hands workflow callbacks and root orchestrators to Celery so that a workflow never
    has two callbacks in progress and a root never has two orchestrators in progress. */
module WorkflowScheduling {
  import opened Outcomes

  datatype Kind = SynchronizationPoint | Callback | Workflow | Wait | External

  datatype Status = Blocked | Pending | Running | Completed | Aborted

  datatype Row = Row(kind: Kind, parent: Option<nat>, status: Status)

  type Rows = map<nat, Row>

  /** A child is created after its parent, and a workflow callback has one. */
  ghost predicate RowOk(rows: Rows, id: nat)
    requires id in rows
  {
    && (rows[id].parent.Some? ==> rows[id].parent.value in rows && rows[id].parent.value < id)
    && (rows[id].kind.Callback? ==> rows[id].parent.Some?)
  }

  ghost predicate WellFormed(rows: Rows) {
    forall id {:trigger RowOk(rows, id)} :: id in rows ==> RowOk(rows, id)
  }

  /** The topmost ancestor. */
  function Root(rows: Rows, id: nat): (root: nat)
    requires WellFormed(rows) && id in rows
    ensures root in rows && rows[root].parent.None?
  {
    assert RowOk(rows, id);
    if rows[id].parent.None? then id else Root(rows, rows[id].parent.value)
  }

  /** `id` is next to a work request whose Celery task is in progress. */
  predicate SiblingInProgress(rows: Rows, inProgress: seq<nat>, id: nat)
    requires id in rows
  {
    exists i :: 0 <= i < |inProgress| && inProgress[i] in rows && rows[inProgress[i]].parent == rows[id].parent
  }

  /** The rows that the query of a pass returns. */
  predicate Selected(rows: Rows, inProgress: seq<nat>, id: nat)
    requires WellFormed(rows)
  {
    && id in rows && rows[id].status.Pending? && !rows[id].kind.External?
    && (rows[id].kind.Callback? ==> !SiblingInProgress(rows, inProgress, id))
    && (rows[id].kind.Workflow? ==> Root(rows, id) !in inProgress)
  }

  predicate Increasing(ids: seq<nat>) {
    forall i, j :: 0 <= i < j < |ids| ==> ids[i] < ids[j]
  }

  predicate IsLeast(ids: set<nat>, m: nat) {
    m in ids && forall x :: x in ids ==> m <= x
  }

  lemma {:induction false} LeastOfMore(ids: set<nat>, m: nat, y: nat) returns (least: nat)
    requires IsLeast(ids, m)
    ensures IsLeast(ids + {y}, least)
  {
    least := if m < y then m else y;
  }

  lemma {:induction false} HasLeast(ids: set<nat>)
    requires ids != {}
    ensures exists m :: IsLeast(ids, m)
  {
    var y :| y in ids;
    if ids == {y} {
      assert IsLeast(ids, y);
    } else {
      HasLeast(ids - {y});
      var m :| IsLeast(ids - {y}, m);
      var least := LeastOfMore(ids - {y}, m, y);
      assert ids - {y} + {y} == ids;
    }
  }

  lemma {:induction false} PutFirst(ids: set<nat>, m: nat, rest: seq<nat>)
    requires IsLeast(ids, m) && Increasing(rest) && forall x :: x in rest <==> x in ids - {m}
    ensures Increasing([m] + rest) && forall x :: x in [m] + rest <==> x in ids
  {
    assert forall i :: 0 <= i < |rest| ==> rest[i] in rest;
  }

  /** Ordering by id. */
  function OrderedById(ids: set<nat>): (s: seq<nat>)
    ensures Increasing(s) && forall x :: x in s <==> x in ids
  {
    if ids == {} then []
    else
      HasLeast(ids);
      var m :| IsLeast(ids, m);
      PutFirst(ids, m, OrderedById(ids - {m}));
      [m] + OrderedById(ids - {m})
  }

  /** Statuses may differ, everything else is the same. */
  ghost predicate SameShape(rows: Rows, rows': Rows) {
    && rows'.Keys == rows.Keys
    && forall id :: id in rows ==> rows'[id].kind == rows[id].kind && rows'[id].parent == rows[id].parent
  }

  /** The pending callback with the lowest id of a parent that has no callback in progress. */
  ghost predicate StartsCallback(rows: Rows, inProgress: seq<nat>, id: nat) {
    && id in rows && rows[id].kind.Callback? && rows[id].status.Pending?
    && !SiblingInProgress(rows, inProgress, id)
    && forall x :: x in rows && rows[x].kind.Callback? && rows[x].status.Pending? && rows[x].parent == rows[id].parent
         ==> id <= x
  }

  /** The root of a pending workflow or sub-workflow, whose orchestrator is not in progress. */
  ghost predicate StartsOrchestrator(rows: Rows, inProgress: seq<nat>, root: nat)
    requires WellFormed(rows)
  {
    && root !in inProgress
    && exists id :: id in rows && rows[id].kind.Workflow? && rows[id].status.Pending? && Root(rows, id) == root
  }

  // ----- the callbacks that a pass starts -----

  function ParentsOf(rows: Rows, ids: seq<nat>): set<Option<nat>> {
    set x | x in ids && x in rows :: rows[x].parent
  }

  /** The callbacks among `qs` whose parent has not had one before. */
  function Started(rows: Rows, qs: seq<nat>): (started: seq<nat>)
    requires forall id :: id in qs ==> id in rows
    ensures forall x :: x in started ==> x in qs && rows[x].kind.Callback?
  {
    if qs == [] then []
    else
      var id := qs[|qs| - 1];
      var before := Started(rows, qs[..|qs| - 1]);
      if rows[id].kind.Callback? && rows[id].parent !in ParentsOf(rows, before) then before + [id] else before
  }

  /** What a pass returns for the rows of its query. */
  function Reported(rows: Rows, qs: seq<nat>): seq<nat>
    requires forall id :: id in qs ==> id in rows
  {
    if qs == [] then []
    else
      var id := qs[|qs| - 1];
      Reported(rows, qs[..|qs| - 1]) +
      (if rows[id].kind.SynchronizationPoint? || rows[id].kind.Wait? then [id]
       else if Started(rows, qs) != Started(rows, qs[..|qs| - 1]) then [id]
       else [])
  }

  ghost predicate FirstOfItsParent(rows: Rows, qs: seq<nat>, id: nat)
    requires forall x :: x in qs ==> x in rows
  {
    && id in qs && rows[id].kind.Callback?
    && forall y :: y in qs && rows[y].kind.Callback? && rows[y].parent == rows[id].parent ==> id <= y
  }

  lemma {:induction false} StartedIncreasing(rows: Rows, qs: seq<nat>)
    requires Increasing(qs) && forall x :: x in qs ==> x in rows
    ensures Increasing(Started(rows, qs))
  {
    if qs != [] {
      var front := qs[..|qs| - 1];
      var before := Started(rows, front);
      StartedIncreasing(rows, front);
      forall k | 0 <= k < |before|
        ensures before[k] < qs[|qs| - 1]
      {
        assert before[k] in before;
        var l :| 0 <= l < |front| && front[l] == before[k];
      }
    }
  }

  lemma {:induction false} StartedAreFirst(rows: Rows, qs: seq<nat>)
    requires Increasing(qs) && forall x :: x in qs ==> x in rows
    ensures forall id :: id in Started(rows, qs) <==> FirstOfItsParent(rows, qs, id)
  {
    if qs != [] {
      var last, front := qs[|qs| - 1], qs[..|qs| - 1];
      StartedAreFirst(rows, front);
      assert qs == front + [last];
      forall id
        ensures id in Started(rows, qs) <==> FirstOfItsParent(rows, qs, id)
      {
        if id in front {
          EarlierIsFirst(rows, front, last, id);
        } else if id == last && rows[last].kind.Callback? {
          LastIsFirst(rows, front, last);
        }
      }
    }
  }

  lemma {:induction false} EarlierIsFirst(rows: Rows, front: seq<nat>, last: nat, id: nat)
    requires Increasing(front + [last]) && forall x :: x in front + [last] ==> x in rows
    requires id in front
    ensures id < last && (FirstOfItsParent(rows, front + [last], id) <==> FirstOfItsParent(rows, front, id))
  {
    var k :| 0 <= k < |front| && front[k] == id;
    assert (front + [last])[k] < (front + [last])[|front|];
    assert forall y :: y in front + [last] <==> y in front || y == last;
  }

  /** A callback is the first one of its parent if no callback before it was started for that parent. */
  lemma {:induction false} LastIsFirst(rows: Rows, front: seq<nat>, last: nat)
    requires Increasing(front + [last]) && forall x :: x in front + [last] ==> x in rows
    requires rows[last].kind.Callback?
    requires forall id :: id in Started(rows, front) <==> FirstOfItsParent(rows, front, id)
    ensures rows[last].parent in ParentsOf(rows, Started(rows, front)) <==>
      !FirstOfItsParent(rows, front + [last], last)
  {
    if rows[last].parent in ParentsOf(rows, Started(rows, front)) {
      var x :| x in Started(rows, front) && rows[x].parent == rows[last].parent;
      EarlierIsFirst(rows, front, last, x);
      assert x in front + [last];
    } else if !FirstOfItsParent(rows, front + [last], last) {
      var y :| y in front + [last] && rows[y].kind.Callback? && rows[y].parent == rows[last].parent && y < last;
      var m := FirstWithParent(rows, front, y);
    }
  }

  lemma {:induction false} FirstWithParent(rows: Rows, front: seq<nat>, y: nat) returns (m: nat)
    requires forall x :: x in front ==> x in rows
    requires y in front && rows[y].kind.Callback?
    ensures FirstOfItsParent(rows, front, m) && rows[m].parent == rows[y].parent
  {
    var same := set x | x in front && rows[x].kind.Callback? && rows[x].parent == rows[y].parent;
    assert y in same;
    HasLeast(same);
    m :| m in same && forall x :: x in same ==> m <= x;
    assert forall x :: x in front && rows[x].kind.Callback? && rows[x].parent == rows[m].parent ==> x in same;
  }

  lemma {:induction false} ReportedIncreasing(rows: Rows, qs: seq<nat>)
    requires Increasing(qs) && forall x :: x in qs ==> x in rows
    ensures Increasing(Reported(rows, qs))
  {
    if qs != [] {
      var front := qs[..|qs| - 1];
      var before := Reported(rows, front);
      ReportedIncreasing(rows, front);
      ReportedExactly(rows, front);
      forall k | 0 <= k < |before|
        ensures before[k] < qs[|qs| - 1]
      {
        assert before[k] in before;
        var l :| 0 <= l < |front| && front[l] == before[k];
      }
    }
  }

  /** Reported are the started callbacks, the completed synchronization points and the started waits. */
  lemma {:induction false} ReportedExactly(rows: Rows, qs: seq<nat>)
    requires forall id :: id in qs ==> id in rows
    ensures forall id :: id in Reported(rows, qs) <==>
      (id in Started(rows, qs) || (id in qs && (rows[id].kind.SynchronizationPoint? || rows[id].kind.Wait?)))
  {
    if qs != [] {
      ReportedExactly(rows, qs[..|qs| - 1]);
      assert qs == qs[..|qs| - 1] + [qs[|qs| - 1]];
    }
  }

  /** What a query ordered by id returns: exactly the selected rows. */
  ghost predicate IsAnswer(rows: Rows, inProgress: seq<nat>, qs: seq<nat>)
    requires WellFormed(rows)
  {
    Increasing(qs) && forall id :: id in qs <==> Selected(rows, inProgress, id)
  }

  lemma {:induction false} StartedExactly(rows: Rows, inProgress: seq<nat>, qs: seq<nat>)
    requires WellFormed(rows) && IsAnswer(rows, inProgress, qs)
    ensures forall id :: id in Started(rows, qs) <==> StartsCallback(rows, inProgress, id)
    ensures Increasing(Started(rows, qs))
  {
    StartedIncreasing(rows, qs);
    StartedAreFirst(rows, qs);
    forall id
      ensures FirstOfItsParent(rows, qs, id) <==> StartsCallback(rows, inProgress, id)
    {
      if id in qs {
        forall y | y in rows && rows[y].kind.Callback? && rows[y].status.Pending? && rows[y].parent == rows[id].parent
            && rows[id].kind.Callback?
          ensures y in qs
        {
          assert SiblingInProgress(rows, inProgress, y) == SiblingInProgress(rows, inProgress, id);
        }
      }
    }
  }

  /** The roots of the pending workflows in `qs`. */
  function RootsOf(rows: Rows, qs: seq<nat>): set<nat>
    requires WellFormed(rows) && forall id :: id in qs ==> id in rows
  {
    set id | id in qs && rows[id].kind.Workflow? :: Root(rows, id)
  }

  lemma RootsExactly(rows: Rows, inProgress: seq<nat>, qs: seq<nat>)
    requires WellFormed(rows) && IsAnswer(rows, inProgress, qs)
    ensures forall root :: root in RootsOf(rows, qs) <==> StartsOrchestrator(rows, inProgress, root)
  {
  }

  /** What one more row adds. */
  lemma {:induction false} OneMoreRow(rows: Rows, qs: seq<nat>, i: nat)
    requires WellFormed(rows) && i < |qs| && forall id :: id in qs ==> id in rows
    ensures forall id :: id in qs[..i] || id in qs[..i + 1] ==> id in rows
    ensures var id, before := qs[i], Started(rows, qs[..i]);
      var starts := rows[id].kind.Callback? && rows[id].parent !in ParentsOf(rows, before);
      && Started(rows, qs[..i + 1]) == (if starts then before + [id] else before)
      && Reported(rows, qs[..i + 1]) == Reported(rows, qs[..i]) +
           (if starts || rows[id].kind.SynchronizationPoint? || rows[id].kind.Wait? then [id] else [])
      && RootsOf(rows, qs[..i + 1]) ==
           RootsOf(rows, qs[..i]) + (if rows[id].kind.Workflow? then {Root(rows, id)} else {})
  {
    assert qs[..i + 1] == qs[..i] + [qs[i]] && qs[..i + 1][..i] == qs[..i];
  }

  /** What was collected from some rows of the answer. */
  ghost predicate Collected(rows: Rows, qs: seq<nat>, result: seq<nat>, onCommit: seq<nat>, parents: set<Option<nat>>,
                            roots: set<nat>)
    requires WellFormed(rows)
  {
    && (forall id :: id in qs ==> id in rows)
    && onCommit == Started(rows, qs) && parents == ParentsOf(rows, onCommit)
    && roots == RootsOf(rows, qs) && result == Reported(rows, qs)
  }

  lemma NothingCollected(rows: Rows, qs: seq<nat>)
    requires WellFormed(rows)
    ensures SameShape(rows, rows) && Collected(rows, qs[..0], [], [], {}, {})
  {
  }

  /** The row of each kind that may be in the answer, and what becomes of what was collected. */
  lemma {:induction false} CollectMore(rows: Rows, inProgress: seq<nat>, qs: seq<nat>, i: nat, result: seq<nat>,
                                       onCommit: seq<nat>, parents: set<Option<nat>>, roots: set<nat>)
    requires WellFormed(rows) && IsAnswer(rows, inProgress, qs) && i < |qs|
    requires Collected(rows, qs[..i], result, onCommit, parents, roots)
    ensures qs[i] in rows && !rows[qs[i]].kind.External?
    ensures var id, row, now := qs[i], rows[qs[i]], qs[..i + 1];
      && (row.kind.SynchronizationPoint? || row.kind.Wait? ==>
           Collected(rows, now, result + [id], onCommit, parents, roots))
      && (row.kind.Callback? ==> row.parent.Some?)
      && (row.kind.Callback? && row.parent in parents ==> Collected(rows, now, result, onCommit, parents, roots))
      && (row.kind.Callback? && row.parent !in parents ==>
            Collected(rows, now, result + [id], onCommit + [id], parents + {row.parent}, roots))
      && (row.kind.Workflow? ==> Collected(rows, now, result, onCommit, parents, roots + {Root(rows, id)}))
  {
    assert Selected(rows, inProgress, qs[i]) && RowOk(rows, qs[i]);
    OneMoreRow(rows, qs, i);
    assert forall id :: id in qs[..i + 1] ==> id in qs;
  }

  lemma AllCollected(rows: Rows, qs: seq<nat>, result: seq<nat>, onCommit: seq<nat>, parents: set<Option<nat>>,
                     roots: set<nat>)
    requires WellFormed(rows) && Collected(rows, qs, result, onCommit, parents, roots)
    ensures (forall id :: id in qs ==> id in rows)
    ensures onCommit == Started(rows, qs) && roots == RootsOf(rows, qs) && result == Reported(rows, qs)
  {
  }

  lemma AnswerIsPending(rows: Rows, inProgress: seq<nat>, qs: seq<nat>)
    requires WellFormed(rows) && IsAnswer(rows, inProgress, qs)
    ensures Increasing(qs) && forall x :: x in qs ==> x in rows && rows[x].status.Pending?
  {
  }

  lemma RootsAreRows(rows: Rows, inProgress: seq<nat>)
    requires WellFormed(rows)
    ensures forall root :: StartsOrchestrator(rows, inProgress, root) ==> root in rows
  {
  }

  lemma SameRows(rows: Rows, rows': Rows)
    requires SameShape(rows, rows')
    ensures rows'.Keys == rows.Keys
  {
  }

  lemma TreatedSameShape(rows: Rows, rows': Rows, qs: seq<nat>, started: seq<nat>)
    requires Treated(rows, rows', qs, started)
    ensures SameShape(rows, rows')
  {
  }

  lemma {:induction false} SameShapeWellFormed(rows: Rows, rows': Rows)
    requires WellFormed(rows) && SameShape(rows, rows')
    ensures WellFormed(rows')
  {
    forall id | id in rows'
      ensures RowOk(rows', id)
    {
      assert RowOk(rows, id);
    }
  }

  // ----- what a pass does to the rows -----

  /** What completing a work request may do to another one: if it is blocked, it may be unblocked, or skipped or
      aborted at once; a running workflow may be finished. */
  predicate MayFollow(row: Row, row': Row) {
    || row' == row
    || (row.status.Blocked? && row' == row.(status := row'.status) && row'.status in {Pending, Completed, Aborted})
    || (row.kind.Workflow? && row.status.Running? && row' == row.(status := row'.status)
        && row'.status in {Completed, Aborted})
  }

  predicate Followed(rows: Rows, rows': Rows) {
    rows'.Keys == rows.Keys && forall id :: id in rows ==> MayFollow(rows[id], rows'[id])
  }

  /** A pass has treated the rows `qs` of its query, and started the callbacks `started` among them: synchronization
      points are completed, waits and the started callbacks run, and others have at most followed. */
  ghost predicate Treated(rows: Rows, rows': Rows, qs: seq<nat>, started: seq<nat>) {
    && rows'.Keys == rows.Keys
    && forall id :: id in rows ==>
         if id in qs && rows[id].kind.SynchronizationPoint? then rows'[id] == rows[id].(status := Completed)
         else if id in started || (id in qs && rows[id].kind.Wait?) then rows'[id] == rows[id].(status := Running)
         else MayFollow(rows[id], rows'[id])
  }

  lemma {:induction false} FollowedIsTreated(rows: Rows, rows': Rows, rows'': Rows, qs: seq<nat>, started: seq<nat>)
    requires Treated(rows, rows', qs, started) && Followed(rows', rows'')
    requires forall id :: id in qs && id in rows && rows[id].kind.Workflow? ==> id !in started
    requires forall id :: id in started && id in rows ==> rows[id].kind.Callback?
    ensures Treated(rows, rows'', qs, started)
  {
    assert forall id :: id in rows ==> MayFollow(rows'[id], rows''[id]);
  }

  /** The selected rows are pending until their turn comes. */
  lemma {:induction false} TreatNext(rows: Rows, rows': Rows, qs: seq<nat>, i: nat, started: seq<nat>)
    requires i < |qs| && Increasing(qs) && Treated(rows, rows', qs[..i], started)
    requires forall x :: x in qs ==> x in rows && rows[x].status.Pending?
    requires forall x :: x in started ==> x in qs[..i]
    ensures rows'[qs[i]] == rows[qs[i]] && qs[i] !in qs[..i] && qs[i] !in started
    ensures rows[qs[i]].kind.SynchronizationPoint? ==>
      Treated(rows, rows'[qs[i] := rows[qs[i]].(status := Completed)], qs[..i + 1], started)
    ensures rows[qs[i]].kind.Wait? ==>
      Treated(rows, rows'[qs[i] := rows[qs[i]].(status := Running)], qs[..i + 1], started)
    ensures rows[qs[i]].kind.Callback? ==>
      Treated(rows, rows'[qs[i] := rows[qs[i]].(status := Running)], qs[..i + 1], started + [qs[i]])
    ensures rows[qs[i]].kind.Callback? || rows[qs[i]].kind.Workflow? ==> Treated(rows, rows', qs[..i + 1], started)
  {
    var id := qs[i];
    assert id !in qs[..i];
    assert qs[..i + 1] == qs[..i] + [id];
  }

  /** A pass has also started the orchestrators of `roots`: roots that were pending run. */
  ghost predicate AllTreated(rows: Rows, rows': Rows, qs: seq<nat>, started: seq<nat>, roots: seq<nat>) {
    && rows'.Keys == rows.Keys
    && forall id :: id in rows ==>
         if id in qs && rows[id].kind.SynchronizationPoint? then rows'[id] == rows[id].(status := Completed)
         else if id in started || (id in qs && rows[id].kind.Wait?) then rows'[id] == rows[id].(status := Running)
         else if id in roots && rows[id].status.Pending? then rows'[id] == rows[id].(status := Running)
         else if id in roots then MayFollow(rows[id], rows'[id]) || rows'[id] == rows[id].(status := Running)
         else MayFollow(rows[id], rows'[id])
  }

  /** What a pass does, row by row: pending synchronization points are completed; pending waits and the callbacks that
      are due run; so do the roots that are due, if they were pending; all others have at most followed. */
  ghost predicate PassTreats(rows: Rows, inProgress: seq<nat>, rows': Rows)
    requires WellFormed(rows)
  {
    && rows'.Keys == rows.Keys
    && forall id :: id in rows ==>
         var row, pending := rows[id], rows[id].status.Pending?;
         if row.kind.SynchronizationPoint? && pending then rows'[id] == row.(status := Completed)
         else if (row.kind.Wait? && pending) || StartsCallback(rows, inProgress, id) then
           rows'[id] == row.(status := Running)
         else if StartsOrchestrator(rows, inProgress, id) && pending then rows'[id] == row.(status := Running)
         else if StartsOrchestrator(rows, inProgress, id) then
           MayFollow(row, rows'[id]) || rows'[id] == row.(status := Running)
         else MayFollow(row, rows'[id])
  }

  lemma {:induction false} TreatedByPass(rows: Rows, inProgress: seq<nat>, rows': Rows, qs: seq<nat>,
                                         started: seq<nat>, roots: seq<nat>)
    requires WellFormed(rows) && IsAnswer(rows, inProgress, qs) && AllTreated(rows, rows', qs, started, roots)
    requires forall id :: id in started <==> StartsCallback(rows, inProgress, id)
    requires forall root :: root in roots <==> StartsOrchestrator(rows, inProgress, root)
    ensures PassTreats(rows, inProgress, rows')
  {
    hide StartsCallback, StartsOrchestrator;
    forall id | id in rows && rows[id].status.Pending? && (rows[id].kind.SynchronizationPoint? || rows[id].kind.Wait?)
      ensures id in qs
    {
      assert Selected(rows, inProgress, id);
    }
    assert forall id :: id in qs ==> Selected(rows, inProgress, id);
  }

  lemma RootsTreated(rows: Rows, before: Rows, rows': Rows, qs: seq<nat>, started: seq<nat>, roots: seq<nat>)
    requires Treated(rows, before, qs, started) && rows'.Keys == before.Keys
    requires forall id :: id in before ==>
      rows'[id] == if id in roots && before[id].status.Pending? then before[id].(status := Running) else before[id]
    ensures SameShape(rows, rows') && AllTreated(rows, rows', qs, started, roots)
  {
  }

  class Database {
    var rows: Rows
    var inProgress: seq<nat>  // first arguments of the published and unfinished workflow tasks

    /** The rows are in order, and no two tasks in progress exclude each other. */
    ghost predicate Valid()
      reads this
    {
      WellFormed(rows) && Exclusive(Now())
    }

    ghost function Now(): State
      reads this
    {
      State(rows, inProgress)
    }

    constructor ()
      ensures Valid() && rows == map[] && inProgress == []
    {
      rows, inProgress := map[], [];
    }

    /** Completing a work request may also unblock, finish or abort others. `status` is the status of the instance that
        the caller holds. */
    method MarkCompleted(id: nat, status: Status)
      requires id in rows
      modifies this`rows
      ensures
        if status.Pending? || status.Running?
        then Followed(old(rows)[id := old(rows)[id].(status := Completed)], rows)
        else rows == old(rows)
    {
      if !status.Pending? && !status.Running? {
        return;
      }
      rows := rows[id := rows[id].(status := Completed)];
      var after: Rows := *;
      if Followed(rows, after) {
        rows := after;
      }
    }

    method MarkRunning(id: nat, status: Status)
      requires id in rows
      modifies this`rows
      ensures rows == if status.Pending? then old(rows)[id := old(rows)[id].(status := Running)] else old(rows)
    {
      if status.Pending? {
        rows := rows[id := rows[id].(status := Running)];
      }
    }

    /** The first loop of a pass over the answer `qs` of its query. */
    method ScheduleSelected(qs: seq<nat>) returns (result: seq<nat>, onCommit: seq<nat>, workflowRootIds: set<nat>)
      requires WellFormed(rows) && IsAnswer(rows, inProgress, qs)
      modifies this`rows
      ensures SameShape(old(rows), rows) && Treated(old(rows), rows, qs, onCommit)
      ensures onCommit == Started(old(rows), qs)
      ensures workflowRootIds == RootsOf(old(rows), qs)
      ensures result == Reported(old(rows), qs)
    {
      AnswerIsPending(rows, inProgress, qs);
      hide WellFormed, IsAnswer, Collected, Started, Reported, RootsOf, Root, Treated, Followed, SameShape;
      NothingCollected(rows, qs);
      var was := rows;
      var runningWorkflowCallbackParents: set<Option<nat>> := {};
      result, onCommit, workflowRootIds := [], [], {};
      for i := 0 to |qs|
        invariant Treated(was, rows, qs[..i], onCommit) && inProgress == old(inProgress)
        invariant forall x :: x in onCommit ==> x in qs[..i] && was[x].kind.Callback?
        invariant Collected(was, qs[..i], result, onCommit, runningWorkflowCallbackParents, workflowRootIds)
      {
        var id := qs[i];
        CollectMore(was, inProgress, qs, i, result, onCommit, runningWorkflowCallbackParents, workflowRootIds);
        TreatNext(was, rows, qs, i, onCommit);
        match was[id].kind
        case SynchronizationPoint =>
          ghost var completed := rows[id := rows[id].(status := Completed)];
          MarkCompleted(id, was[id].status);
          FollowedIsTreated(was, completed, rows, qs[..i + 1], onCommit);
          result := result + [id];
        case Callback =>
          var parent := was[id].parent;
          if parent !in runningWorkflowCallbackParents {
            runningWorkflowCallbackParents := runningWorkflowCallbackParents + {parent};
            MarkRunning(id, was[id].status);
            onCommit := onCommit + [id];
            result := result + [id];
          }
        case Workflow =>
          workflowRootIds := workflowRootIds + {Root(was, id)};
        case Wait =>
          MarkRunning(id, was[id].status);
          result := result + [id];
        case External =>
          assert false;
      }
      assert qs[..|qs|] == qs;
      TreatedSameShape(was, rows, qs, onCommit);
      AllCollected(was, qs, result, onCommit, runningWorkflowCallbackParents, workflowRootIds);
    }

    /** The second loop of a pass. */
    method StartOrchestrators(workflowRoots: seq<nat>) returns (onCommit: seq<nat>)
      requires forall root :: root in workflowRoots ==> root in rows
      modifies this`rows
      ensures rows.Keys == old(rows).Keys && onCommit == workflowRoots
      ensures forall id :: id in rows ==>
        rows[id] == if id in workflowRoots && old(rows)[id].status.Pending? then old(rows)[id].(status := Running)
                    else old(rows)[id]
    {
      onCommit := [];
      for i := 0 to |workflowRoots|
        invariant rows.Keys == old(rows).Keys && onCommit == workflowRoots[..i]
        invariant forall id :: id in rows ==>
          rows[id] == if id in workflowRoots[..i] && old(rows)[id].status.Pending?
                      then old(rows)[id].(status := Running)
                      else old(rows)[id]
      {
        assert workflowRoots[i] in workflowRoots;
        MarkRunning(workflowRoots[i], rows[workflowRoots[i]].status);
        onCommit := onCommit + [workflowRoots[i]];
      }
    }

    /** A pass: the rows of its query are treated, the orchestrators of the roots are started, and the tasks are
        published at the commit. */
    method ScheduleInternal()
      returns (result: seq<nat>, qs: seq<nat>, ghost callbacks: seq<nat>, ghost roots: seq<nat>)
      requires Valid()
      modifies this
      ensures Valid() && Pass(old(Now()), Now())
      ensures inProgress == old(inProgress) + callbacks + roots && Starts(old(Now()), callbacks, roots)
      ensures IsAnswer(old(rows), old(inProgress), qs) && result == Reported(old(rows), qs) + roots
      ensures PassTreats(old(rows), old(inProgress), rows)
    {
      hide WellFormed, Exclusive, IsAnswer, Selected, Started, Reported, RootsOf, Root, Treated, AllTreated, PassTreats,
        SameShape, StartsCallback, StartsOrchestrator;
      ghost var before := Now();
      qs := SelectPending();
      StartedExactly(rows, inProgress, qs);
      RootsExactly(rows, inProgress, qs);
      RootsAreRows(rows, inProgress);
      var onCommit, workflowRootIds;
      result, onCommit, workflowRootIds := ScheduleSelected(qs);
      callbacks, roots := onCommit, OrderedById(workflowRootIds);
      ghost var treated := rows;
      TreatedSameShape(before.rows, treated, qs, onCommit);
      SameRows(before.rows, treated);
      var started := StartOrchestrators(OrderedById(workflowRootIds));
      result := result + started;
      RootsTreated(before.rows, treated, rows, qs, onCommit, started);
      TreatedByPass(before.rows, before.inProgress, rows, qs, onCommit, started);
      // the transaction commits: every hook publishes its task, which records it as pending
      inProgress := inProgress + onCommit + started;
      assert Starts(before, callbacks, roots);
      PassKeepsExclusive(before, Now());
    }

    /** The answer of the query. */
    method SelectPending() returns (qs: seq<nat>)
      requires WellFormed(rows)
      ensures IsAnswer(rows, inProgress, qs)
    {
      qs := OrderedById(set id | id in rows && Selected(rows, inProgress, id));
    }
  }

  // ----- runs of passes -----

  datatype State = State(rows: Rows, inProgress: seq<nat>)

  /** Two tasks for the same work request, or for callbacks of the same parent. */
  ghost predicate Clash(rows: Rows, a: nat, b: nat) {
    a == b || (a in rows && b in rows && rows[a].kind.Callback? && rows[b].kind.Callback? &&
      rows[a].parent == rows[b].parent)
  }

  ghost predicate ClashFree(rows: Rows, ids: seq<nat>) {
    forall i, j :: 0 <= i < j < |ids| ==> !Clash(rows, ids[i], ids[j])
  }

  lemma ClashFreeConcat(rows: Rows, a: seq<nat>, b: seq<nat>)
    requires ClashFree(rows, a) && ClashFree(rows, b)
    requires forall x, y :: x in a && y in b ==> !Clash(rows, x, y)
    ensures ClashFree(rows, a + b)
  {
  }

  /** At most one orchestrator task per root, and at most one callback task per parent. */
  ghost predicate Exclusive(s: State) {
    && (forall id :: id in s.inProgress ==> id in s.rows)
    && ClashFree(s.rows, s.inProgress)
  }

  /** What a pass starts, by id. */
  ghost predicate Starts(s: State, callbacks: seq<nat>, roots: seq<nat>) {
    && Increasing(callbacks) && Increasing(roots)
    && (forall id :: id in callbacks <==> StartsCallback(s.rows, s.inProgress, id))
    && (WellFormed(s.rows) ==> forall root :: root in roots <==> StartsOrchestrator(s.rows, s.inProgress, root))
  }

  /** A pass only changes statuses, and adds what it starts to what is in progress. */
  ghost predicate Pass(s: State, s': State) {
    && SameShape(s.rows, s'.rows)
    && exists callbacks, roots :: Starts(s, callbacks, roots) && s'.inProgress == s.inProgress + callbacks + roots
  }

  /** Between passes work requests are added, statuses change, and tasks end. */
  ghost predicate Between(s: State, s': State) {
    && WellFormed(s'.rows)
    && (forall id :: id in s.rows ==>
         id in s'.rows && s'.rows[id].kind == s.rows[id].kind && s'.rows[id].parent == s.rows[id].parent)
    && exists i :: 0 <= i <= |s.inProgress| && s'.inProgress == Without(s.inProgress, i)
  }

  /** Without the task at position `i`, if there is one. */
  function Without(s: seq<nat>, i: nat): seq<nat>
    requires i <= |s|
  {
    if i < |s| then s[..i] + s[i + 1..] else s
  }

  /** Any sequence of passes and of things that happen between them. */
  ghost predicate Run(states: seq<State>) {
    forall k :: 0 < k < |states| ==> Pass(states[k - 1], states[k]) || Between(states[k - 1], states[k])
  }

  /** A pass starts nothing that clashes with a task in progress, or with something else it starts. */
  lemma {:induction false} PassKeepsExclusive(s: State, s': State)
    requires WellFormed(s.rows) && Exclusive(s) && Pass(s, s')
    ensures WellFormed(s'.rows) && Exclusive(s')
  {
    var callbacks, roots :| Starts(s, callbacks, roots) && s'.inProgress == s.inProgress + callbacks + roots;
    CallbacksClashFree(s, callbacks);
    ClashFreeConcat(s.rows, s.inProgress, callbacks);
    RootsClashFree(s, callbacks, roots);
    ClashFreeConcat(s.rows, s.inProgress + callbacks, roots);
    assert forall a, b :: Clash(s.rows, a, b) == Clash(s'.rows, a, b);
    SameShapeWellFormed(s.rows, s'.rows);
  }

  lemma {:induction false} RootsClashFree(s: State, callbacks: seq<nat>, roots: seq<nat>)
    requires WellFormed(s.rows) && Exclusive(s) && Increasing(roots)
    requires forall id :: id in callbacks <==> StartsCallback(s.rows, s.inProgress, id)
    requires forall root :: root in roots <==> StartsOrchestrator(s.rows, s.inProgress, root)
    ensures ClashFree(s.rows, roots)
    ensures forall x, root :: x in s.inProgress + callbacks && root in roots ==> !Clash(s.rows, x, root)
    ensures forall root :: root in roots ==> root in s.rows
  {
    forall root | root in roots
      ensures root in s.rows && s.rows[root].parent.None? && !s.rows[root].kind.Callback? && root !in s.inProgress
    {
      assert StartsOrchestrator(s.rows, s.inProgress, root);
      assert RowOk(s.rows, root);
    }
    assert forall id :: id in callbacks ==> RowOk(s.rows, id);
    forall i, j | 0 <= i < j < |roots|
      ensures !Clash(s.rows, roots[i], roots[j])
    {
      assert roots[i] in roots;
    }
  }

  lemma {:induction false} CallbacksClashFree(s: State, callbacks: seq<nat>)
    requires WellFormed(s.rows) && Exclusive(s) && Increasing(callbacks)
    requires forall id :: id in callbacks <==> StartsCallback(s.rows, s.inProgress, id)
    ensures ClashFree(s.rows, callbacks)
    ensures forall x, y :: x in s.inProgress && y in callbacks ==> !Clash(s.rows, x, y)
  {
    forall i, j | 0 <= i < j < |callbacks|
      ensures !Clash(s.rows, callbacks[i], callbacks[j])
    {
      assert callbacks[i] in callbacks && callbacks[j] in callbacks;
    }
    forall x, y | x in s.inProgress && y in callbacks
      ensures !Clash(s.rows, x, y)
    {
      var k :| 0 <= k < |s.inProgress| && s.inProgress[k] == x;
    }
  }

  lemma BetweenKeepsExclusive(s: State, s': State)
    requires WellFormed(s.rows) && Exclusive(s) && Between(s, s')
    ensures WellFormed(s'.rows) && Exclusive(s')
  {
  }

  /** Exclusivity over whole runs of passes that do not overlap: at any time there is at most one
      callback in progress per parent and at most one orchestrator in progress per root. */
  lemma {:induction false} AlwaysExclusive(states: seq<State>)
    requires states != [] && Run(states) && WellFormed(states[0].rows) && Exclusive(states[0])
    ensures forall k :: 0 <= k < |states| ==> WellFormed(states[k].rows) && Exclusive(states[k])
    decreases |states|
  {
    if |states| > 1 {
      var n := |states| - 1;
      AlwaysExclusive(states[..n]);
      assert states[..n][n - 1] == states[n - 1];
      if Pass(states[n - 1], states[n]) {
        PassKeepsExclusive(states[n - 1], states[n]);
      } else {
        BetweenKeepsExclusive(states[n - 1], states[n]);
      }
    }
  }
}
