/** One scheduling transaction as it is coded, while other transactions and other changes go on around it. Whatever
    it does is a run of the steps of WorkerScheduling, so that what holds for all runs holds for it. */
module WorkerScheduler {
  import opened Outcomes
  import opened WorkerScheduling

  /** The step belongs to transaction `t`. */
  predicate Own(step: Step, t: nat) {
    match step
    case Create(_, _) => false
    case Progress(_, _) => false
    case DeAssign(_) => false
    case _ => step.t == t
  }

  /** What others cannot do to transaction `t`. */
  ghost predicate Untouched(s: State, s': State, t: nat) {
    && t in s.txns && t in s'.txns && s'.txns[t] == s.txns[t]
    && RowsGrow(s, s')
    && (forall id :: id in s.locks && s.locks[id] == t ==> id in s'.locks && s'.locks[id] == t)
    && (forall id :: id in s.locks && s.locks[id] == t && id in s.rows ==> s'.rows[id] == s.rows[id])
  }

  lemma {:induction false} FirstIsRead(s: State, t: nat)
    requires Inv(s) && InPhase(s, t, Scanning) && s.txns[t].candidates != []
    ensures AtCandidate(s, t, Scanning)
  {
    assert TxnInv(s, t, s.txns[t]);
    assert ReadInv(s, s.txns[t], s.txns[t].candidates[0]);
  }

  lemma {:induction false} LockedIsRead(s: State, t: nat)
    requires Inv(s) && InPhase(s, t, Locked)
    ensures AtCandidate(s, t, Locked) && !LockedByOther(s, t, s.txns[t].candidates[0])
  {
    assert TxnInv(s, t, s.txns[t]);
    assert ReadInv(s, s.txns[t], s.txns[t].candidates[0]);
  }

  lemma {:induction false} CommitLeavesAlone(s: State, u: nat, t: nat)
    requires Inv(s) && Enabled(s, Commit(u)) && u != t && t in s.txns
    ensures Untouched(s, Apply(s, Commit(u)), t)
  {
    StepGrows(s, Commit(u));
    CommitWrites(s, u);
    hide Inv, RowsGrow;
  }

  predicate Saves(step: Step) {
    step.Assign? || step.SkipOnAssignment? || step.DynamicDataFailed? || step.ConfigureFailed?
  }

  /** Another transaction saves only what it has locked or what is free. */
  lemma {:induction false} SaveLeavesAlone(s: State, step: Step, t: nat)
    requires Inv(s) && Enabled(s, step) && Saves(step) && !Own(step, t) && t in s.txns
    ensures Untouched(s, Apply(s, step), t)
  {
    StepGrows(s, step);
    if !step.ConfigureFailed? {
      LockedIsRead(s, step.t);
    }
    hide Inv, RowsGrow, Failed;
  }

  lemma {:induction false} TxnLeavesAlone(s: State, step: Step, t: nat)
    requires Inv(s) && Enabled(s, step) && !Own(step, t) && t in s.txns && !Saves(step)
    requires !step.Commit? && !step.Create? && !step.Progress? && !step.DeAssign?
    ensures Untouched(s, Apply(s, step), t)
  {
    StepGrows(s, step);
    hide Inv, RowsGrow, Distinct;
  }

  lemma {:induction false} OthersLeaveAlone(s: State, step: Step, t: nat)
    requires Inv(s) && Enabled(s, step) && !Own(step, t) && t in s.txns
    ensures Untouched(s, Apply(s, step), t)
  {
    if step.Commit? {
      CommitLeavesAlone(s, step.t, t);
    } else if step.Create? || step.Progress? || step.DeAssign? {
      StepGrows(s, step);
      hide Inv, RowsGrow;
    } else if Saves(step) {
      SaveLeavesAlone(s, step, t);
    } else {
      TxnLeavesAlone(s, step, t);
    }
  }

  predicate Foreign(steps: seq<Step>, t: nat) {
    forall step :: step in steps ==> !Own(step, t)
  }

  lemma {:induction false} ForeignRunLeavesAlone(s: State, steps: seq<Step>, t: nat)
    requires Inv(s) && Run(s, steps) && Foreign(steps, t) && t in s.txns
    ensures Inv(Exec(s, steps)) && Untouched(s, Exec(s, steps), t)
    decreases |steps|
  {
    if steps != [] {
      OthersLeaveAlone(s, steps[0], t);
      StepKeeps(s, steps[0]);
      ForeignRunLeavesAlone(Apply(s, steps[0]), steps[1..], t);
    }
  }

  lemma {:induction false} StaysLocked(s: State, t: nat, steps: seq<Step>)
    requires Inv(s) && Enabled(s, Lock(t)) && Run(Apply(s, Lock(t)), steps) && Foreign(steps, t)
    ensures var end, id := Exec(Apply(s, Lock(t)), steps), s.txns[t].candidates[0];
      AtCandidate(end, t, Locked) && end.txns[t] == s.txns[t].(phase := Locked) && end.rows[id] == s.rows[id]
  {
    StepKeeps(s, Lock(t));
    ForeignRunLeavesAlone(Apply(s, Lock(t)), steps, t);
    hide Inv, Run, Exec;
  }

  /** What is assigned is the row as it was when it was locked, whatever others do in between; so it is a pending one
      exactly if it was pending then. What is skipped is completed. */
  lemma {:induction false} AssignsWhatWasLocked(s: State, t: nat, steps: seq<Step>)
    requires Inv(s) && Enabled(s, Lock(t)) && Run(Apply(s, Lock(t)), steps) && Foreign(steps, t)
    ensures var end, id, worker := Exec(Apply(s, Lock(t)), steps), s.txns[t].candidates[0], Some(s.txns[t].worker);
      && Enabled(end, Assign(t)) && Enabled(end, SkipOnAssignment(t))
      && Apply(end, Assign(t)).txns[t].writes == s.txns[t].writes[id := s.rows[id].(worker := worker)]
      && Apply(end, SkipOnAssignment(t)).txns[t].writes ==
           s.txns[t].writes[id := s.rows[id].(worker := worker, status := Completed)]
  {
    StaysLocked(s, t, steps);
    hide Inv, Run, Exec;
  }

  // ----- what a transaction looks at, and what it does -----

  /** What assigning the worker does, as far as it depends on the work request: it can be skipped by an action of the
      work request, or fail over its dynamic data. */
  datatype Action = Proceed | Skip | Fail

  /** A work request with regard to one worker: whether the query takes its task type and name, its effective priority
      and age, whether its task can run on the worker, and what assigning does. */
  datatype Facts = Facts(selected: bool, priority: int, createdAt: int, canRun: bool, action: Action)

  /** `a` is not behind `b`: higher priorities come first, then older work requests. */
  predicate NotBehind(a: Facts, b: Facts) {
    a.priority > b.priority || (a.priority == b.priority && a.createdAt <= b.createdAt)
  }

  predicate Wanted(rows: map<nat, Row>, facts: nat -> Facts, id: nat) {
    id in rows && rows[id].status == Pending && rows[id].worker == None && facts(id).selected
  }

  predicate Ranked(facts: nat -> Facts, ids: seq<nat>) {
    forall i, j :: 0 <= i < j < |ids| ==>
      var a, b := facts(ids[i]), facts(ids[j]);
      a.priority > b.priority || (a.priority == b.priority && a.createdAt <= b.createdAt)
  }

  /** What the query returns: the wanted rows, each once, in order. */
  ghost predicate IsAnswer(rows: map<nat, Row>, facts: nat -> Facts, ids: seq<nat>) {
    Distinct(ids) && Ranked(facts, ids) && forall id :: id in ids <==> Wanted(rows, facts, id)
  }

  /** `id` is put behind all that are not behind it. */
  function Ranking(facts: nat -> Facts, ids: seq<nat>, id: nat): seq<nat> {
    if ids == [] || NotBehind(facts(ids[|ids| - 1]), facts(id)) then ids + [id]
    else Ranking(facts, ids[..|ids| - 1], id) + [ids[|ids| - 1]]
  }

  lemma {:induction false} RankingMembers(facts: nat -> Facts, ids: seq<nat>, id: nat)
    ensures forall x :: x in Ranking(facts, ids, id) <==> x in ids || x == id
  {
    if ids != [] && !NotBehind(facts(ids[|ids| - 1]), facts(id)) {
      RankingMembers(facts, ids[..|ids| - 1], id);
      assert ids == ids[..|ids| - 1] + [ids[|ids| - 1]];
    }
  }

  lemma {:induction false} RankingKeepsDistinct(facts: nat -> Facts, ids: seq<nat>, id: nat)
    requires Distinct(ids) && id !in ids
    ensures Distinct(Ranking(facts, ids, id))
  {
    if ids != [] && !NotBehind(facts(ids[|ids| - 1]), facts(id)) {
      var front, last := ids[..|ids| - 1], ids[|ids| - 1];
      RankingKeepsDistinct(facts, front, id);
      RankingMembers(facts, front, id);
      var r := Ranking(facts, front, id);
      forall k | 0 <= k < |r|
        ensures r[k] != last
      {
        assert r[k] in r;
      }
    }
  }

  lemma {:induction false} RankingKeepsOrder(facts: nat -> Facts, ids: seq<nat>, id: nat)
    requires Ranked(facts, ids)
    ensures Ranked(facts, Ranking(facts, ids, id))
  {
    if ids != [] && !NotBehind(facts(ids[|ids| - 1]), facts(id)) {
      var front, last := ids[..|ids| - 1], ids[|ids| - 1];
      RankingKeepsOrder(facts, front, id);
      RankingMembers(facts, front, id);
      var r := Ranking(facts, front, id);
      forall k | 0 <= k < |r|
        ensures NotBehind(facts(r[k]), facts(last))
      {
        assert r[k] in r;
      }
    }
  }

  /** Why a candidate is passed over: it makes no task; its task cannot run on this worker; it has got a worker; its
      assignment was skipped; or its assignment failed. */
  datatype Fate = Broken | Unfit | Taken | Skipped | Failing

  function StepsFor(t: nat, fate: Fate): seq<Step> {
    match fate
    case Broken => [ConfigureFailed(t)]
    case Unfit => [CannotRun(t)]
    case Taken => [AlreadyAssigned(t)]
    case Skipped => [Lock(t), SkipOnAssignment(t)]
    case Failing => [Lock(t), DynamicDataFailed(t)]
  }

  function StepsForAll(t: nat, fates: seq<Fate>): seq<Step> {
    if fates == [] then [] else StepsForAll(t, fates[..|fates| - 1]) + StepsFor(t, fates[|fates| - 1])
  }

  predicate MakesTask(s: State, id: nat) {
    id in s.rows && s.rows[id].configurable
  }

  /** Nothing about this work request itself keeps it from being assigned. */
  predicate Suits(s: State, facts: nat -> Facts, id: nat) {
    MakesTask(s, id) && facts(id).canRun && facts(id).action == Proceed
  }

  ghost predicate Explains(s: State, facts: nat -> Facts, id: nat, fate: Fate) {
    && id in s.rows
    && match fate
       case Broken => !MakesTask(s, id)
       case Unfit => MakesTask(s, id) && !facts(id).canRun
       case Taken => MakesTask(s, id) && facts(id).canRun
       case Skipped => MakesTask(s, id) && facts(id).canRun && facts(id).action == Skip
       case Failing => MakesTask(s, id) && facts(id).canRun && facts(id).action == Fail
  }

  ghost predicate ExplainAll(s: State, facts: nat -> Facts, ids: seq<nat>, fates: seq<Fate>) {
    |fates| <= |ids| && forall i :: 0 <= i < |fates| ==> Explains(s, facts, ids[i], fates[i])
  }

  /** The steps of transaction `t` alone. */
  function OwnSteps(steps: seq<Step>, t: nat): seq<Step> {
    if steps == [] then []
    else OwnSteps(steps[..|steps| - 1], t) + if Own(steps[|steps| - 1], t) then [steps[|steps| - 1]] else []
  }

  lemma {:induction false} ForeignAddsNone(steps: seq<Step>, foreign: seq<Step>, t: nat)
    requires Foreign(foreign, t)
    ensures OwnSteps(steps + foreign, t) == OwnSteps(steps, t)
  {
    if foreign == [] {
      assert steps + foreign == steps;
    } else {
      assert (steps + foreign)[..|steps + foreign| - 1] == steps + foreign[..|foreign| - 1];
      ForeignAddsNone(steps, foreign[..|foreign| - 1], t);
    }
  }

  datatype Error = DatabaseError

  /** In an aborted transaction the other candidates cannot be locked, which passes them over, and a failure to make a
      task cannot be saved, which is an error. */
  ghost function AfterAbort(s: State, rest: seq<nat>): (r: Result<Option<nat>, Error>)
    ensures r.Ok? ==> r.value.None?
  {
    if forall k :: 1 <= k < |rest| ==> MakesTask(s, rest[k]) then Ok(None) else Err(DatabaseError)
  }

  /** Another transaction had locked the row just before the last step. */
  ghost predicate Blocked(start: State, trace: seq<Step>, t: nat, id: nat) {
    trace != [] && Run(start, trace[..|trace| - 1]) && LockedByOther(Exec(start, trace[..|trace| - 1]), t, id)
  }

  /** How the transaction ends, after the candidates before were passed over: the next one is assigned; none is left;
      the next one is locked by another transaction, so that nothing is kept; or it makes no task and its failure
      cannot be saved. */
  ghost predicate Ending(t: nat, s: State, facts: nat -> Facts, rest: seq<nat>, r: Result<Option<nat>, Error>,
                         last: seq<Step>) {
    || (rest != [] && r == Ok(Some(rest[0])) && Suits(s, facts, rest[0]) && last == [Lock(t), Assign(t), Commit(t)])
    || (rest == [] && r == Ok(None) && last == [Commit(t)])
    || (rest != [] && r == AfterAbort(s, rest) && MakesTask(s, rest[0]) && facts(rest[0]).canRun
        && last == [LockFailed(t), Rollback(t)])
    || (rest != [] && r.Err? && !MakesTask(s, rest[0]) && last == [Rollback(t)])
  }

  /** What a transaction did: it asked after `asked`, passed over some candidates, and ended with `last`. */
  ghost predicate Scheduled(start: State, before: seq<Step>, asked: seq<Step>, trace: seq<Step>, t: nat, worker: nat,
                            facts: nat -> Facts, candidates: seq<nat>, fates: seq<Fate>, last: seq<Step>)
    requires Run(start, asked)
  {
    && before <= asked && asked + [Query(t, candidates)] <= trace
    && IsAnswer(Exec(start, asked).rows, facts, candidates)
    && OwnSteps(trace, t) ==
         OwnSteps(before, t) + [Begin(t, worker), Query(t, candidates)] + StepsForAll(t, fates) + last
  }

  /** What became of the attempt to assign one work request. */
  datatype Attempt = Assigned(id: nat) | NotAssigned | NotLocked | NotConfigured | NoDynamicData

  class Scheduler {
    var db: State
    /** Where the run started, and all of its steps, whoever made them. */
    ghost var start: State
    ghost var trace: seq<Step>

    constructor (db: State)
      requires Inv(db)
      ensures Valid() && this.db == db && start == db && trace == []
    {
      this.db, this.start, this.trace := db, db, [];
    }

    ghost predicate Valid()
      reads this
    {
      Inv(start) && Run(start, trace) && Exec(start, trace) == db && Inv(db)
    }

    method Take(t: nat, step: Step)
      requires Valid() && Enabled(db, step) && Own(step, t)
      modifies this`db, this`trace
      ensures Valid() && db == Apply(old(db), step) && trace == old(trace) + [step] && RowsGrow(old(db), db)
      ensures OwnSteps(trace, t) == OwnSteps(old(trace), t) + [step]
    {
      StepKeeps(db, step);
      StepGrows(db, step);
      OneStepMore(start, trace, step);
      assert (trace + [step])[..|trace|] == trace;
      db := Apply(db, step);
      trace := trace + [step];
    }

    /** Anything that others do in the meantime. */
    method Others(t: nat)
      requires Valid()
      modifies this`db, this`trace
      ensures Valid() && old(trace) <= trace && RowsGrow(old(db), db) && OwnSteps(trace, t) == OwnSteps(old(trace), t)
      ensures t in old(db).txns ==> Untouched(old(db), db, t)
    {
      var steps: seq<Step> := *;
      if Run(db, steps) && Foreign(steps, t) && t in db.txns {
        ForeignRunLeavesAlone(db, steps, t);
        RunConcat(start, trace, steps);
        ForeignAddsNone(trace, steps, t);
        db := Exec(db, steps);
        trace := trace + steps;
      }
    }

    /** The transaction goes through its candidates. */
    ghost predicate Going(t: nat, worker: nat)
      reads this
    {
      Valid() && t in db.txns && db.txns[t].worker == worker && db.txns[t].phase == Scanning
    }

    /** Tries to assign the first candidate: what was read of it must make a task, this one must be able to run, the
        row must be free of other locks and, as read again under the lock, without a worker. */
    method AssignWorkRequestToWorker(t: nat, worker: nat, facts: nat -> Facts)
      returns (r: Attempt, ghost fate: Fate)
      requires Going(t, worker) && db.txns[t].candidates != []
      modifies this`db, this`trace
      ensures Valid() && old(trace) <= trace && RowsGrow(old(db), db) && t in db.txns && db.txns[t].worker == worker
      ensures var id := old(db).txns[t].candidates[0];
        match r
        case Assigned(x) =>
          && x == id && Suits(db, facts, id) && GoneWith(t, worker, id)
          && OwnSteps(trace, t) == OwnSteps(old(trace), t) + [Lock(t), Assign(t)]
        case NotAssigned =>
          && Going(t, worker) && db.txns[t].candidates == old(db).txns[t].candidates[1..]
          && Explains(db, facts, id, fate) && fate in {Unfit, Taken, Skipped}
          && OwnSteps(trace, t) == OwnSteps(old(trace), t) + StepsFor(t, fate)
        case NotLocked =>
          && InPhase(db, t, Aborted) && db.txns[t].candidates == old(db).txns[t].candidates
          && MakesTask(db, id) && facts(id).canRun
          && OwnSteps(trace, t) == OwnSteps(old(trace), t) + [LockFailed(t)]
        case NotConfigured =>
          && AtCandidate(db, t, Scanning) && !Configures(db, t) && !MakesTask(db, id)
          && db.txns[t].candidates == old(db).txns[t].candidates && OwnSteps(trace, t) == OwnSteps(old(trace), t)
        case NoDynamicData =>
          && AtCandidate(db, t, Locked) && db.txns[t].candidates == old(db).txns[t].candidates
          && MakesTask(db, id) && facts(id).canRun && facts(id).action == Fail
          && OwnSteps(trace, t) == OwnSteps(old(trace), t) + [Lock(t)]
    {
      hide Inv, Run, Exec, OwnSteps, Distinct;
      fate := Broken;
      var id := db.txns[t].candidates[0];
      FirstIsRead(db, t);
      ReadAgrees(db, t);
      if !db.txns[t].read[id].configurable {
        return NotConfigured, fate;
      }
      Others(t);
      FirstIsRead(db, t);
      if !facts(id).canRun {
        Take(t, CannotRun(t));
        return NotAssigned, Unfit;
      }
      r, fate := AssignIfFree(t, worker, facts(id).action);
    }

    /** The row is locked without waiting, and looked at again. */
    method AssignIfFree(t: nat, worker: nat, action: Action) returns (r: Attempt, ghost fate: Fate)
      requires Going(t, worker) && Configures(db, t)
      modifies this`db, this`trace
      ensures Valid() && old(trace) <= trace && RowsGrow(old(db), db) && t in db.txns && db.txns[t].worker == worker
      ensures
        match r
        case Assigned(id) =>
          && id == old(db).txns[t].candidates[0] && GoneWith(t, worker, id) && action == Proceed
          && OwnSteps(trace, t) == OwnSteps(old(trace), t) + [Lock(t), Assign(t)]
        case NotAssigned =>
          && Going(t, worker) && db.txns[t].candidates == old(db).txns[t].candidates[1..]
          && (fate == Taken || (fate == Skipped && action == Skip))
          && OwnSteps(trace, t) == OwnSteps(old(trace), t) + StepsFor(t, fate)
        case NotLocked =>
          && InPhase(db, t, Aborted) && db.txns[t].candidates == old(db).txns[t].candidates
          && OwnSteps(trace, t) == OwnSteps(old(trace), t) + [LockFailed(t)]
        case NotConfigured => false
        case NoDynamicData =>
          && AtCandidate(db, t, Locked) && db.txns[t].candidates == old(db).txns[t].candidates && action == Fail
          && OwnSteps(trace, t) == OwnSteps(old(trace), t) + [Lock(t)]
    {
      hide Inv, Run, Exec, OwnSteps, Distinct, LockedByOther;
      fate := Taken;
      var id := db.txns[t].candidates[0];
      LookedAt(db, t);
      hide Enabled, Apply;
      if LockedByOther(db, t, id) {
        Take(t, LockFailed(t));
        return NotLocked, fate;
      }
      if db.rows[id].worker.Some? {
        Take(t, AlreadyAssigned(t));
        return NotAssigned, fate;
      }
      Take(t, Lock(t));
      r := AssignLocked(t, worker, action);
      fate := Skipped;
    }

    /** The work request was given to the worker, and the transaction is about to return it. */
    ghost predicate GoneWith(t: nat, worker: nat, id: nat)
      reads this
    {
      Valid() && InPhase(db, t, Returning) && id in db.txns[t].writes && db.txns[t].writes[id].worker == Some(worker)
    }

    /** The first candidate is locked by this transaction and has no worker. */
    method AssignLocked(t: nat, worker: nat, action: Action) returns (r: Attempt)
      requires Valid() && t in db.txns && db.txns[t].worker == worker && db.txns[t].phase == Locked
      modifies this`db, this`trace
      ensures Valid() && old(trace) <= trace && RowsGrow(old(db), db) && t in db.txns && db.txns[t].worker == worker
      ensures old(db).txns[t].candidates != []
      ensures match action
        case Proceed =>
          && r == Assigned(old(db).txns[t].candidates[0]) && GoneWith(t, worker, r.id)
          && OwnSteps(trace, t) == OwnSteps(old(trace), t) + [Assign(t)]
        case Skip =>
          && r == NotAssigned && Going(t, worker) && db.txns[t].candidates == old(db).txns[t].candidates[1..]
          && OwnSteps(trace, t) == OwnSteps(old(trace), t) + [SkipOnAssignment(t)]
        case Fail =>
          && r == NoDynamicData && AtCandidate(db, t, Locked) && db.txns[t] == old(db).txns[t]
          && OwnSteps(trace, t) == OwnSteps(old(trace), t)
    {
      hide Inv, Run, Exec, OwnSteps, Distinct;
      LockedIsRead(db, t);
      var id := db.txns[t].candidates[0];
      Others(t);
      LockedIsRead(db, t);
      match action
      case Skip =>
        Take(t, SkipOnAssignment(t));
        r := NotAssigned;
      case Fail =>
        r := NoDynamicData;
      case Proceed =>
        Take(t, Assign(t));
        r := Assigned(id);
    }

    /** Goes through the pending work requests, by priority and age, until one is assigned. Every execution is a run of
        the steps of the protocol, so that no work request is given away while a worker holds it, by this or by any
        other transaction. All candidates before the end were passed over for a reason, and if a work request is
        returned, it is committed with this worker. */
    method ScheduleForWorker(t: nat, worker: nat, atCapacity: bool, facts: nat -> Facts)
      returns (r: Result<Option<nat>, Error>, ghost asked: seq<Step>, ghost candidates: seq<nat>,
               ghost fates: seq<Fate>, ghost last: seq<Step>)
      requires Valid() && t !in db.txns
      modifies this`db, this`trace
      ensures Valid() && old(trace) <= trace && t !in db.txns && Run(start, asked)
      ensures atCapacity || worker in old(db).workerLocks ==> r == Ok(None) && trace == old(trace)
      ensures !atCapacity && worker !in old(db).workerLocks ==>
        && Scheduled(start, old(trace), asked, trace, t, worker, facts, candidates, fates, last)
        && ExplainAll(db, facts, candidates, fates) && Ending(t, db, facts, candidates[|fates|..], r, last)
      ensures r.Ok? && r.value.Some? ==> r.value.value in db.rows && db.rows[r.value.value].worker == Some(worker)
      ensures last == [Rollback(t)] ==> |fates| < |candidates| && Blocked(start, trace, t, candidates[|fates|])
      ensures NoDoubleAssignment(start, trace)
    {
      if !atCapacity && worker !in db.workerLocks {
        r, asked, candidates, fates, last := ScheduleLocked(t, worker, facts);
      } else {
        r, asked, candidates, fates, last := Ok(None), trace, [], [], [];
      }
      AssignedOnce(start, trace);
    }

    method ScheduleLocked(t: nat, worker: nat, facts: nat -> Facts)
      returns (r: Result<Option<nat>, Error>, ghost asked: seq<Step>, ghost candidates: seq<nat>,
               ghost fates: seq<Fate>, ghost last: seq<Step>)
      requires Valid() && t !in db.txns && worker !in db.workerLocks
      modifies this`db, this`trace
      ensures Valid() && old(trace) <= trace && t !in db.txns && Run(start, asked)
      ensures Scheduled(start, old(trace), asked, trace, t, worker, facts, candidates, fates, last)
      ensures ExplainAll(db, facts, candidates, fates) && Ending(t, db, facts, candidates[|fates|..], r, last)
      ensures r.Ok? && r.value.Some? ==> r.value.value in db.rows && db.rows[r.value.value].worker == Some(worker)
      ensures last == [Rollback(t)] ==> |fates| < |candidates| && Blocked(start, trace, t, candidates[|fates|])
    {
      hide Inv, Run, Exec, OwnSteps, IsAnswer, Explains, Suits, MakesTask, Ending, Distinct, Enabled, Apply;
      asked, candidates := ReadCandidates(t, worker, facts);
      fates, last := [], [];
      NothingScheduled(start, old(trace), asked, trace, t, worker, facts, candidates);
      hide Scheduled, Blocked;
      while db.txns[t].candidates != []
        invariant Going(t, worker) && Run(start, asked) && |fates| <= |candidates|
        invariant db.txns[t].candidates == candidates[|fates|..] && ExplainAll(db, facts, candidates, fates)
        invariant Scheduled(start, old(trace), asked, trace, t, worker, facts, candidates, fates, [])
        decreases |db.txns[t].candidates|
      {
        ghost var before, seen := db, trace;
        var done; ghost var fate;
        done, r, fate, last := TryCandidate(t, worker, facts);
        StillExplained(before, db, facts, candidates, fates);
        if done {
          ScheduledAll(start, old(trace), asked, seen, trace, t, worker, facts, candidates, fates, last);
          return;
        }
        ScheduledMore(start, old(trace), asked, seen, trace, t, worker, facts, candidates, fates, fate);
        OneFateMore(db, facts, candidates, fates, fate);
        fates := fates + [fate];
      }
      ghost var before, seen := db, trace;
      CommitNothing(t);
      StillExplained(before, db, facts, candidates, fates);
      r, last := Ok(None), [Commit(t)];
      ScheduledAll(start, old(trace), asked, seen, trace, t, worker, facts, candidates, fates, last);
      NoneLeft(t, db, facts);
    }

    /** The end of a transaction that has assigned nothing. */
    method CommitNothing(t: nat)
      requires Valid() && InPhase(db, t, Scanning) && db.txns[t].candidates == []
      modifies this`db, this`trace
      ensures Valid() && old(trace) <= trace && t !in db.txns && RowsGrow(old(db), db)
      ensures OwnSteps(trace, t) == OwnSteps(old(trace), t) + [Commit(t)]
    {
      hide Inv, Run, Exec, OwnSteps, Distinct;
      Others(t);
      Take(t, Commit(t));
    }

    /** The first candidate is assigned, or passed over, or ends the transaction. */
    method TryCandidate(t: nat, worker: nat, facts: nat -> Facts)
      returns (done: bool, r: Result<Option<nat>, Error>, ghost fate: Fate, ghost last: seq<Step>)
      requires Going(t, worker) && db.txns[t].candidates != []
      modifies this`db, this`trace
      ensures Valid() && old(trace) <= trace && RowsGrow(old(db), db)
      ensures var rest := old(db).txns[t].candidates;
        if done then
          && t !in db.txns && Ending(t, db, facts, rest, r, last)
          && OwnSteps(trace, t) == OwnSteps(old(trace), t) + last
          && (r.Ok? && r.value.Some? ==> r.value.value in db.rows && db.rows[r.value.value].worker == Some(worker))
          && (last == [Rollback(t)] ==> Blocked(start, trace, t, rest[0]))
        else
          && Going(t, worker) && db.txns[t].candidates == rest[1..] && Explains(db, facts, rest[0], fate)
          && OwnSteps(trace, t) == OwnSteps(old(trace), t) + StepsFor(t, fate)
    {
      hide Inv, Run, Exec, OwnSteps, Distinct, Enabled, Apply, Blocked, AfterAbort;
      var id := db.txns[t].candidates[0];
      done, r, last := false, Ok(None), [];
      var attempt;
      attempt, fate := AssignWorkRequestToWorker(t, worker, facts);
      ghost var before := db;
      if attempt.Assigned? {
        FinishAssigned(t, worker, id);
        done, r, last := true, Ok(Some(id)), [Lock(t), Assign(t), Commit(t)];
        StillSuits(before, db, facts, id);
      } else if attempt.NotLocked? {
        r := GiveUp(t);
        done, last := true, [LockFailed(t), Rollback(t)];
        StillSuits(before, db, facts, id);
      } else if !attempt.NotAssigned? {
        var recorded := RecordFailure(t, worker, attempt);
        StillSuits(before, db, facts, id);
        fate := if attempt.NotConfigured? then Broken else Failing;
        if !recorded {
          done, r, last := true, Err(DatabaseError), [Rollback(t)];
        }
      }
    }

    /** After a lock that was not available the database refuses whatever else this transaction asks for: the other
        candidates are not locked either, and nothing can be saved. What was saved before is lost. */
    method GiveUp(t: nat) returns (r: Result<Option<nat>, Error>)
      requires Valid() && InPhase(db, t, Aborted) && db.txns[t].candidates != []
      modifies this`db, this`trace
      ensures Valid() && old(trace) < trace && trace[|trace| - 1] == Rollback(t) && t !in db.txns
      ensures RowsGrow(old(db), db) && OwnSteps(trace, t) == OwnSteps(old(trace), t) + [Rollback(t)]
      ensures r == AfterAbort(db, old(db).txns[t].candidates)
    {
      ghost var before := db;
      hide Inv, Run, Exec, OwnSteps, Distinct, Configures;
      var txn := db.txns[t];
      r := Ok(None);
      for i := 1 to |txn.candidates|
        invariant r == Ok(None) && forall k :: 1 <= k < i ==> ReadConfigures(txn, k)
        invariant Valid() && t in db.txns && db.txns[t] == txn && old(trace) <= trace
        invariant RowsGrow(old(db), db) && OwnSteps(trace, t) == OwnSteps(old(trace), t)
      {
        Others(t);
        if !ReadConfigures(txn, i) {
          r := Err(DatabaseError);
          break;
        }
      }
      Take(t, Rollback(t));
      AbortedAs(before, db, t, r);
    }

    /** Locks the worker and queries the work requests. */
    method ReadCandidates(t: nat, worker: nat, facts: nat -> Facts)
      returns (ghost asked: seq<Step>, ghost candidates: seq<nat>)
      requires Valid() && t !in db.txns && worker !in db.workerLocks
      modifies this`db, this`trace
      ensures Going(t, worker) && old(trace) <= asked && Run(start, asked) && db.txns[t].candidates == candidates
      ensures IsAnswer(Exec(start, asked).rows, facts, candidates) && trace == asked + [Query(t, candidates)]
      ensures OwnSteps(trace, t) == OwnSteps(old(trace), t) + [Begin(t, worker), Query(t, candidates)]
    {
      hide Inv, Run, Exec, OwnSteps;
      Take(t, Begin(t, worker));
      Others(t);
      asked := trace;
      var ids := SelectPending(facts);
      candidates := ids;
      Take(t, Query(t, ids));
    }

    /** The answer of the query at this moment. */
    method SelectPending(facts: nat -> Facts) returns (ids: seq<nat>)
      ensures IsAnswer(db.rows, facts, ids)
    {
      var todo := set id | id in db.rows && Wanted(db.rows, facts, id);
      ghost var all := todo;
      ids := [];
      while todo != {}
        invariant todo <= all && Distinct(ids) && Ranked(facts, ids) && forall id :: id in ids <==> id in all - todo
        decreases |todo|
      {
        var id :| id in todo;
        RankingMembers(facts, ids, id);
        RankingKeepsDistinct(facts, ids, id);
        RankingKeepsOrder(facts, ids, id);
        ids := Ranking(facts, ids, id);
        todo := todo - {id};
      }
    }

    method FinishAssigned(t: nat, worker: nat, id: nat)
      requires GoneWith(t, worker, id)
      modifies this`db, this`trace
      ensures Valid() && old(trace) <= trace && t !in db.txns && RowsGrow(old(db), db)
      ensures OwnSteps(trace, t) == OwnSteps(old(trace), t) + [Commit(t)]
      ensures id in db.rows && db.rows[id].worker == Some(worker)
    {
      hide Inv, Run, Exec, OwnSteps, Distinct;
      Others(t);
      Take(t, Commit(t));
    }

    /** Marks the first candidate as completed with an error. When it is not locked yet, the save has to wait for the
        locks of others; if that takes too long the transaction is rolled back. */
    method RecordFailure(t: nat, worker: nat, attempt: Attempt) returns (recorded: bool)
      requires Valid() && t in db.txns && db.txns[t].worker == worker && db.txns[t].candidates != []
      requires
        || (attempt == NoDynamicData && AtCandidate(db, t, Locked))
        || (attempt == NotConfigured && AtCandidate(db, t, Scanning) && !Configures(db, t))
      modifies this`db, this`trace
      ensures Valid() && old(trace) <= trace && RowsGrow(old(db), db)
      ensures recorded ==> Going(t, worker) && db.txns[t].candidates == old(db).txns[t].candidates[1..]
      ensures recorded ==>
        db.txns[t].writes == old(db).txns[t].writes[old(db).txns[t].candidates[0] := Failed(old(db), t)]
      ensures OwnSteps(trace, t) == OwnSteps(old(trace), t) +
        if attempt.NoDynamicData? then [DynamicDataFailed(t)]
        else if recorded then [ConfigureFailed(t)]
        else [Rollback(t)]
      ensures !recorded ==>
        t !in db.txns && attempt == NotConfigured && Blocked(start, trace, t, old(db).txns[t].candidates[0])
    {
      hide Inv, Run, Exec, OwnSteps, Distinct;
      if attempt == NoDynamicData {
        Take(t, DynamicDataFailed(t));
        return true;
      }
      FirstIsRead(db, t);
      var id := db.txns[t].candidates[0];
      Others(t);
      FirstIsRead(db, t);
      recorded := !LockedByOther(db, t, id);
      assert (trace + [Rollback(t)])[..|trace|] == trace;
      Take(t, if recorded then ConfigureFailed(t) else Rollback(t));
    }
  }

  /** The three ways on from a candidate whose row is asked for. */
  lemma LookedAt(s: State, t: nat)
    requires Configures(s, t)
    ensures var id, txn := s.txns[t].candidates[0], s.txns[t];
      if LockedByOther(s, t, id) then
        Enabled(s, LockFailed(t)) && Apply(s, LockFailed(t)).txns == s.txns[t := txn.(phase := Aborted)]
      else if s.rows[id].worker.Some? then
        && Enabled(s, AlreadyAssigned(t))
        && Apply(s, AlreadyAssigned(t)).txns == s.txns[t := txn.(phase := Scanning, candidates := txn.candidates[1..])]
      else
        Enabled(s, Lock(t)) && Apply(s, Lock(t)).txns == s.txns[t := txn.(phase := Locked)]
  {
  }

  lemma {:induction false} ReadAgrees(s: State, t: nat)
    requires Inv(s) && AtCandidate(s, t, Scanning)
    ensures MakesTask(s, s.txns[t].candidates[0]) <==> Configures(s, t)
  {
    assert TxnInv(s, t, s.txns[t]);
    assert ReadInv(s, s.txns[t], s.txns[t].candidates[0]);
  }

  lemma {:induction false} ReadAgreesAll(s: State, t: nat)
    requires Inv(s) && t in s.txns
    ensures var txn := s.txns[t];
      forall k :: 0 <= k < |txn.candidates| ==>
        txn.candidates[k] in s.rows && MakesTask(s, txn.candidates[k]) == ReadConfigures(txn, k)
  {
    assert TxnInv(s, t, s.txns[t]);
    forall k | 0 <= k < |s.txns[t].candidates|
      ensures ReadInv(s, s.txns[t], s.txns[t].candidates[k])
    {
      assert s.txns[t].candidates[k] in s.txns[t].candidates;
    }
  }

  lemma {:induction false} AbortedAs(s: State, s': State, t: nat, r: Result<Option<nat>, Error>)
    requires Inv(s) && t in s.txns && RowsGrow(s, s') && (r == Ok(None) || r == Err(DatabaseError))
    requires r.Ok? <==> forall k :: 1 <= k < |s.txns[t].candidates| ==> ReadConfigures(s.txns[t], k)
    ensures r == AfterAbort(s', s.txns[t].candidates)
  {
    var txn := s.txns[t];
    ReadAgreesAll(s, t);
    assert forall k :: 0 <= k < |txn.candidates| ==> MakesTask(s', txn.candidates[k]) == ReadConfigures(txn, k);
  }

  /** Whether a row makes a task stays as it is. */
  lemma StillSuits(s: State, s': State, facts: nat -> Facts, id: nat)
    requires RowsGrow(s, s') && id in s.rows
    ensures id in s'.rows && MakesTask(s', id) == MakesTask(s, id) && Suits(s', facts, id) == Suits(s, facts, id)
  {
  }

  lemma StillExplained(s: State, s': State, facts: nat -> Facts, ids: seq<nat>, fates: seq<Fate>)
    requires RowsGrow(s, s') && ExplainAll(s, facts, ids, fates)
    ensures ExplainAll(s', facts, ids, fates)
  {
  }

  lemma NoneLeft(t: nat, s: State, facts: nat -> Facts)
    ensures Ending(t, s, facts, [], Ok(None), [Commit(t)])
  {
  }

  lemma {:induction false} OneFateMore(s: State, facts: nat -> Facts, ids: seq<nat>, fates: seq<Fate>, fate: Fate)
    requires ExplainAll(s, facts, ids, fates) && |fates| < |ids| && Explains(s, facts, ids[|fates|], fate)
    ensures ExplainAll(s, facts, ids, fates + [fate])
  {
    hide Explains;
  }

  lemma {:induction false} NothingScheduled(start: State, before: seq<Step>, asked: seq<Step>, trace: seq<Step>, t: nat,
                                            worker: nat, facts: nat -> Facts, ids: seq<nat>)
    requires Run(start, asked) && before <= asked && trace == asked + [Query(t, ids)]
    requires IsAnswer(Exec(start, asked).rows, facts, ids)
    requires OwnSteps(trace, t) == OwnSteps(before, t) + [Begin(t, worker), Query(t, ids)]
    ensures Scheduled(start, before, asked, trace, t, worker, facts, ids, [], [])
  {
    hide IsAnswer, Exec, Run, OwnSteps;
    var own := OwnSteps(before, t) + [Begin(t, worker), Query(t, ids)];
    assert own + [] + [] == own;
  }

  lemma {:induction false} ScheduledMore(start: State, before: seq<Step>, asked: seq<Step>, seen: seq<Step>,
                                         trace: seq<Step>, t: nat, worker: nat, facts: nat -> Facts, ids: seq<nat>,
                                         fates: seq<Fate>, fate: Fate)
    requires Run(start, asked) && Scheduled(start, before, asked, seen, t, worker, facts, ids, fates, [])
    requires seen <= trace && OwnSteps(trace, t) == OwnSteps(seen, t) + StepsFor(t, fate)
    ensures Scheduled(start, before, asked, trace, t, worker, facts, ids, fates + [fate], [])
  {
    hide IsAnswer, Exec, Run, OwnSteps, StepsFor;
    assert (fates + [fate])[..|fates|] == fates;
    assert StepsForAll(t, fates + [fate]) == StepsForAll(t, fates) + StepsFor(t, fate);
  }

  lemma {:induction false} ScheduledAll(start: State, before: seq<Step>, asked: seq<Step>, seen: seq<Step>,
                                        trace: seq<Step>, t: nat, worker: nat, facts: nat -> Facts, ids: seq<nat>,
                                        fates: seq<Fate>, last: seq<Step>)
    requires Run(start, asked) && Scheduled(start, before, asked, seen, t, worker, facts, ids, fates, [])
    requires seen <= trace && OwnSteps(trace, t) == OwnSteps(seen, t) + last
    ensures Scheduled(start, before, asked, trace, t, worker, facts, ids, fates, last)
  {
    hide IsAnswer, Exec, Run, OwnSteps, StepsForAll;
  }

  // ----- a transaction that nobody disturbs -----

  /** `t` has gone through `k` candidates since `s`, and nothing but its own locks is new. */
  ghost predicate Undisturbed(s: State, s': State, t: nat, candidates: seq<nat>, k: nat) {
    && k <= |candidates| && InPhase(s', t, Scanning) && s'.txns[t].candidates == candidates[k..] && s'.rows == s.rows
    && (forall id :: id in s'.locks ==> s'.locks[id] == t)
    && (forall id :: id in candidates ==> id in s.rows && s.rows[id].worker.None?)
  }

  lemma {:induction false} RunSplit(s: State, first: seq<Step>, second: seq<Step>)
    requires Run(s, first + second)
    ensures Run(s, first) && Run(Exec(s, first), second)
    decreases |first|
  {
    if first == [] {
      assert first + second == second;
    } else {
      assert (first + second)[1..] == first[1..] + second;
      RunSplit(Apply(s, first[0]), first[1..], second);
    }
  }

  lemma {:induction false} UndisturbedStep(s: State, s': State, t: nat, candidates: seq<nat>, k: nat, fate: Fate)
    requires Undisturbed(s, s', t, candidates, k) && Run(s', StepsFor(t, fate))
    ensures fate != Taken && Undisturbed(s, Exec(s', StepsFor(t, fate)), t, candidates, k + 1)
  {
    var steps := StepsFor(t, fate);
    var s1 := Apply(s', steps[0]);
    assert candidates[k..] != [] ==> candidates[k..][1..] == candidates[k + 1..] && candidates[k..][0] in candidates;
    if |steps| == 2 {
      assert steps == [steps[0], steps[1]] && steps[1..] == [steps[1]];
      RunTwo(s', steps[0], steps[1]);
    } else {
      assert steps[1..] == [];
      assert Exec(s', steps) == s1;
    }
  }

  lemma {:induction false} UndisturbedSteps(s: State, s': State, t: nat, candidates: seq<nat>, fates: seq<Fate>)
    requires Undisturbed(s, s', t, candidates, 0) && Run(s', StepsForAll(t, fates))
    ensures Taken !in fates && Undisturbed(s, Exec(s', StepsForAll(t, fates)), t, candidates, |fates|)
  {
    hide Undisturbed, Enabled, Apply;
    if fates != [] {
      var front, fate := fates[..|fates| - 1], fates[|fates| - 1];
      RunSplit(s', StepsForAll(t, front), StepsFor(t, fate));
      UndisturbedSteps(s, s', t, candidates, front);
      var s1 := Exec(s', StepsForAll(t, front));
      UndisturbedStep(s, s1, t, candidates, |front|, fate);
      RunConcat(s', StepsForAll(t, front), StepsFor(t, fate));
      assert fates == front + [fate];
    }
  }

  lemma {:induction false} NoForeignLock(s: State, s': State, t: nat, candidates: seq<nat>, k: nat)
    requires Undisturbed(s, s', t, candidates, k)
    ensures !Run(s', [LockFailed(t), Rollback(t)]) && forall id :: !LockedByOther(s', t, id)
  {
  }

  lemma {:induction false} Asked(s: State, t: nat, worker: nat, candidates: seq<nat>)
    requires s.locks == map[] && Run(s, [Begin(t, worker), Query(t, candidates)])
    ensures Undisturbed(s, Exec(s, [Begin(t, worker), Query(t, candidates)]), t, candidates, 0)
  {
    var steps := [Begin(t, worker), Query(t, candidates)];
    assert steps[1..] == [steps[1]];
    RunTwo(s, steps[0], steps[1]);
    assert candidates[0..] == candidates;
  }

  lemma {:induction false} AloneIsNotStopped(s: State, t: nat, worker: nat, candidates: seq<nat>, fates: seq<Fate>,
                                             last: seq<Step>)
    requires s.locks == map[]
    requires Run(s, [Begin(t, worker), Query(t, candidates)] + StepsForAll(t, fates) + last)
    ensures Taken !in fates && last != [LockFailed(t), Rollback(t)]
    ensures last == [Rollback(t)] ==> forall id ::
      !Blocked(s, [Begin(t, worker), Query(t, candidates)] + StepsForAll(t, fates) + last, t, id)
  {
    hide Undisturbed, Enabled, Apply, LockedByOther;
    var asked := [Begin(t, worker), Query(t, candidates)];
    var before := asked + StepsForAll(t, fates);
    RunSplit(s, before, last);
    RunSplit(s, asked, StepsForAll(t, fates));
    RunConcat(s, asked, StepsForAll(t, fates));
    Asked(s, t, worker, candidates);
    UndisturbedSteps(s, Exec(s, asked), t, candidates, fates);
    NoForeignLock(s, Exec(s, before), t, candidates, |fates|);
    assert (before + last)[..|before|] == before;
    hide Run, Exec;
  }

  /** When nobody else takes a step and no row is locked at the start, the first candidate that suits is assigned; none
      is only if no candidate suits, and there is no error. */
  lemma {:induction false} AloneTakesFirst(s: State, t: nat, worker: nat, facts: nat -> Facts, candidates: seq<nat>,
                                           fates: seq<Fate>, last: seq<Step>, r: Result<Option<nat>, Error>)
    requires s.locks == map[]
    requires Run(s, [Begin(t, worker), Query(t, candidates)] + StepsForAll(t, fates) + last)
    requires ExplainAll(s, facts, candidates, fates) && Ending(t, s, facts, candidates[|fates|..], r, last)
    requires last == [Rollback(t)] ==> |fates| < |candidates| && Blocked(s,
      [Begin(t, worker), Query(t, candidates)] + StepsForAll(t, fates) + last, t, candidates[|fates|])
    ensures r.Ok? && forall i :: 0 <= i < |fates| ==> !Suits(s, facts, candidates[i])
    ensures r == Ok(None) ==> forall id :: id in candidates ==> !Suits(s, facts, id)
    ensures r.Ok? && r.value.Some? ==>
      |fates| < |candidates| && r.value.value == candidates[|fates|] && Suits(s, facts, r.value.value)
  {
    hide Run, Exec, Blocked, StepsForAll;
    AloneIsNotStopped(s, t, worker, candidates, fates, last);
    forall i | 0 <= i < |fates|
      ensures !Suits(s, facts, candidates[i])
    {
      assert Explains(s, facts, candidates[i], fates[i]) && fates[i] in fates;
    }
  }

  predicate ReadConfigures(txn: Txn, k: nat)
    requires k < |txn.candidates|
  {
    txn.candidates[k] in txn.read && txn.read[txn.candidates[k]].configurable
  }

  lemma {:induction false} OneStepMore(s: State, trace: seq<Step>, step: Step)
    requires Run(s, trace) && Enabled(Exec(s, trace), step)
    ensures Run(s, trace + [step]) && Exec(s, trace + [step]) == Apply(Exec(s, trace), step)
  {
    var last := Exec(s, trace);
    assert [step][1..] == [];
    assert Run(Apply(last, step), []);
    assert Run(last, [step]);
    RunConcat(s, trace, [step]);
  }
}
