/** Overlapping scheduling transactions that hand work requests to workers. Every transaction reads a
    list of candidates, locks one row at a time without waiting, reads the row again under the lock,
    and keeps its locks until it commits or rolls back. Failures are saved from what was read first. */
module WorkerScheduling {
  import opened Outcomes

  datatype Status = Pending | Running | Completed

  /** The columns of a work request that scheduling looks at, and whether its task data makes a valid task. */
  datatype Row = Row(worker: Option<nat>, status: Status, configurable: bool)

  /** Where a transaction is: before its candidate query, going through the candidates, holding the
      lock of the first one after reading it again, about to return, or aborted by the database. */
  datatype Phase = Started | Scanning | Locked | Returning | Aborted

  /** `read` holds the candidates as they were at the query. */
  datatype Txn = Txn(worker: nat, phase: Phase, candidates: seq<nat>, read: map<nat, Row>, writes: map<nat, Row>)

  datatype State = State(
    rows: map<nat, Row>,         // committed work requests
    locks: map<nat, nat>,        // locked work requests, and the transaction that holds the lock
    workerLocks: map<nat, nat>,  // locked workers
    txns: map<nat, Txn>,         // open transactions
    held: map<nat, nat>)         // work requests given to a worker and not taken back since

  datatype Step =
    // one step of transaction t
    | Begin(t: nat, worker: nat)
    | Query(t: nat, candidates: seq<nat>)
    | CannotRun(t: nat)
    | ConfigureFailed(t: nat)
    | LockFailed(t: nat)
    | AlreadyAssigned(t: nat)
    | Lock(t: nat)
    | Assign(t: nat)
    | SkipOnAssignment(t: nat)
    | DynamicDataFailed(t: nat)
    | Commit(t: nat)
    | Rollback(t: nat)
    // anything else that happens to a row
    | Create(id: nat, configurable: bool)
    | Progress(id: nat, status: Status)
    | DeAssign(id: nat)

  predicate InPhase(s: State, t: nat, phase: Phase) {
    t in s.txns && s.txns[t].phase == phase
  }

  predicate AtCandidate(s: State, t: nat, phase: Phase) {
    && InPhase(s, t, phase) && s.txns[t].candidates != []
    && s.txns[t].candidates[0] in s.rows && s.txns[t].candidates[0] in s.txns[t].read
  }

  /** The first candidate as `t` read it makes a task. */
  predicate Configures(s: State, t: nat) {
    AtCandidate(s, t, Scanning) && s.txns[t].read[s.txns[t].candidates[0]].configurable
  }

  predicate LockedByOther(s: State, t: nat, id: nat) {
    id in s.locks && s.locks[id] != t
  }

  predicate Distinct(ids: seq<nat>) {
    forall i, j :: 0 <= i < j < |ids| ==> ids[i] != ids[j]
  }

  predicate Enabled(s: State, step: Step) {
    match step
    case Begin(t, w) => t !in s.txns && w !in s.workerLocks
    case Query(t, candidates) =>
      && InPhase(s, t, Started)
      && Distinct(candidates)
      && forall id :: id in candidates ==> id in s.rows && s.rows[id].worker == None && s.rows[id].status == Pending
    case CannotRun(t) => Configures(s, t)
    case ConfigureFailed(t) =>
      AtCandidate(s, t, Scanning) && !Configures(s, t) && !LockedByOther(s, t, s.txns[t].candidates[0])
    case LockFailed(t) => Configures(s, t) && LockedByOther(s, t, s.txns[t].candidates[0])
    case AlreadyAssigned(t) =>
      && Configures(s, t) && !LockedByOther(s, t, s.txns[t].candidates[0])
      && s.rows[s.txns[t].candidates[0]].worker.Some?
    case Lock(t) =>
      && Configures(s, t) && !LockedByOther(s, t, s.txns[t].candidates[0])
      && s.rows[s.txns[t].candidates[0]].worker.None?
    case Assign(t) => AtCandidate(s, t, Locked)
    case SkipOnAssignment(t) => AtCandidate(s, t, Locked)
    case DynamicDataFailed(t) => AtCandidate(s, t, Locked)
    case Commit(t) =>
      t in s.txns && (InPhase(s, t, Returning) || (InPhase(s, t, Scanning) && s.txns[t].candidates == []))
    case Rollback(t) => t in s.txns
    case Create(id, _) => id !in s.rows
    case Progress(id, status) => id in s.rows && id !in s.locks
    case DeAssign(id) => id in s.rows && id !in s.locks && s.rows[id].status != Completed
  }

  /** `t` goes on to its next candidate. */
  function NextCandidate(s: State, t: nat): State
    requires t in s.txns && s.txns[t].candidates != []
  {
    s.(txns := s.txns[t := s.txns[t].(phase := Scanning, candidates := s.txns[t].candidates[1..])])
  }

  function TakeLock(s: State, t: nat): State
    requires t in s.txns && s.txns[t].candidates != []
  {
    s.(locks := s.locks[s.txns[t].candidates[0] := t])
  }

  /** `t` saves its first candidate, which takes the row lock, and goes on. */
  function Save(s: State, t: nat, row: Row, phase: Phase): State
    requires t in s.txns && s.txns[t].candidates != []
  {
    var txn, id := s.txns[t], s.txns[t].candidates[0];
    s.(locks := s.locks[id := t],
       txns := s.txns[t := txn.(phase := phase, candidates := txn.candidates[1..], writes := txn.writes[id := row])])
  }

  /** All locks of `t` are released. */
  function Close(s: State, t: nat): State {
    s.(locks := map id | id in s.locks && s.locks[id] != t :: s.locks[id],
       workerLocks := map w | w in s.workerLocks && s.workerLocks[w] != t :: s.workerLocks[w],
       txns := s.txns - {t})
  }

  function Given(writes: map<nat, Row>): map<nat, nat> {
    map id | id in writes && writes[id].worker.Some? :: writes[id].worker.value
  }

  /** The first candidate of `t` as it was read at the query, marked as completed. */
  function Failed(s: State, t: nat): Row
    requires t in s.txns && AtCandidate(s, t, s.txns[t].phase)
  {
    s.txns[t].read[s.txns[t].candidates[0]].(status := Completed)
  }

  function Apply(s: State, step: Step): State
    requires Enabled(s, step)
  {
    match step
    case Begin(t, w) =>
      s.(workerLocks := s.workerLocks[w := t], txns := s.txns[t := Txn(w, Started, [], map[], map[])])
    case Query(t, candidates) =>
      var read := map id | id in candidates :: s.rows[id];
      s.(txns := s.txns[t := s.txns[t].(phase := Scanning, candidates := candidates, read := read)])
    case CannotRun(t) => NextCandidate(s, t)
    // the instance that is saved is the one from the candidate query
    case ConfigureFailed(t) => Save(s, t, Failed(s, t), Scanning)
    case LockFailed(t) => s.(txns := s.txns[t := s.txns[t].(phase := Aborted)])
    case AlreadyAssigned(t) => NextCandidate(TakeLock(s, t), t)
    case Lock(t) => TakeLock(s, t).(txns := s.txns[t := s.txns[t].(phase := Locked)])
    case Assign(t) =>
      Save(s, t, s.rows[s.txns[t].candidates[0]].(worker := Some(s.txns[t].worker)), Returning)
    case SkipOnAssignment(t) =>
      Save(s, t, s.rows[s.txns[t].candidates[0]].(worker := Some(s.txns[t].worker), status := Completed), Scanning)
    case DynamicDataFailed(t) => Save(s, t, Failed(s, t), Scanning)
    case Commit(t) =>
      Close(s, t).(rows := s.rows + s.txns[t].writes, held := s.held + Given(s.txns[t].writes))
    case Rollback(t) => Close(s, t)
    case Create(id, configurable) => s.(rows := s.rows[id := Row(None, Pending, configurable)])
    case Progress(id, status) => s.(rows := s.rows[id := s.rows[id].(status := status)])
    case DeAssign(id) => s.(rows := s.rows[id := s.rows[id].(worker := None, status := Pending)], held := s.held - {id})
  }

  // ----- what every step keeps -----

  /** Whoever wrote a row holds its lock and will not look at that row again; only rows without a worker are
      written, and an uncommitted assignment is for the own worker. */
  ghost predicate WriteInv(s: State, t: nat, txn: Txn, id: nat)
    requires id in txn.writes
  {
    && id in s.rows && id in s.locks && s.locks[id] == t && id !in txn.candidates
    && s.rows[id].worker.None? && txn.writes[id].configurable == s.rows[id].configurable
    && (txn.writes[id].worker.Some? ==> txn.writes[id].worker.value == txn.worker && s.rows[id].configurable)
  }

  /** What was read may be old, but whether it makes a task has not changed since. */
  ghost predicate ReadInv(s: State, txn: Txn, id: nat) {
    && id in s.rows && id in txn.read
    && txn.read[id].worker.None? && txn.read[id].configurable == s.rows[id].configurable
  }

  ghost predicate LockInv(s: State, t: nat, txn: Txn) {
    && txn.candidates != [] && txn.candidates[0] in s.locks && s.locks[txn.candidates[0]] == t
    && txn.candidates[0] in s.rows && s.rows[txn.candidates[0]].worker.None? && s.rows[txn.candidates[0]].configurable
  }

  ghost predicate TxnInv(s: State, t: nat, txn: Txn) {
    && (forall id :: id in txn.writes ==> WriteInv(s, t, txn, id))
    && Distinct(txn.candidates)
    && (forall id :: id in txn.candidates ==> ReadInv(s, txn, id))
    && (txn.phase.Started? ==> txn.writes == map[])
    && (txn.phase.Locked? ==> LockInv(s, t, txn))
  }

  /** Only what makes a task is given to a worker. */
  ghost predicate RowsInv(s: State) {
    forall id :: id in s.rows && s.rows[id].worker.Some? ==> s.rows[id].configurable
  }

  /** The rows agree with what was given to workers. */
  ghost predicate HeldAgrees(s: State) {
    forall id :: id in s.held ==> id in s.rows && s.rows[id].worker == Some(s.held[id])
  }

  ghost predicate LocksInv(s: State) {
    forall id :: id in s.locks ==> s.locks[id] in s.txns
  }

  ghost predicate TxnsInv(s: State) {
    forall t :: t in s.txns ==> TxnInv(s, t, s.txns[t])
  }

  ghost predicate Inv(s: State) {
    TxnsInv(s) && LocksInv(s) && RowsInv(s) && HeldAgrees(s)
  }

  /** The step gives a work request to a worker although another worker holds it. */
  ghost predicate DoubleAssignment(s: State, step: Step)
    requires Enabled(s, step)
  {
    step.Commit? && exists id :: id in Given(s.txns[step.t].writes) && id in s.held
  }

  // ----- steps keep what others rely on -----

  /** Nothing is deleted, and no row starts or stops making a task. */
  ghost predicate RowsGrow(s: State, s': State) {
    s.rows.Keys <= s'.rows.Keys && forall id :: id in s.rows ==> s'.rows[id].configurable == s.rows[id].configurable
  }

  /** What `t` locked is the same and still locked. */
  ghost predicate SameLocked(s: State, s': State, t: nat) {
    forall id :: id in s.locks && s.locks[id] == t ==>
      id in s'.locks && s'.locks[id] == t && (id in s.rows ==> id in s'.rows && s'.rows[id] == s.rows[id])
  }

  lemma {:induction false} TxnInvKept(s: State, s': State, t: nat, txn: Txn)
    requires TxnInv(s, t, txn) && RowsGrow(s, s') && SameLocked(s, s', t)
    ensures TxnInv(s', t, txn)
  {
    forall id | id in txn.writes
      ensures WriteInv(s', t, txn, id)
    {
      assert WriteInv(s, t, txn, id);
    }
    forall id | id in txn.candidates
      ensures ReadInv(s', txn, id)
    {
      assert ReadInv(s, txn, id);
    }
  }

  /** A step of `t` is checked for `t` alone, if it leaves alone what others locked. */
  lemma {:induction false} OwnStepKeeps(s: State, s': State, t: nat)
    requires TxnsInv(s) && s'.txns - {t} == s.txns - {t} && RowsGrow(s, s')
    requires forall u :: u in s.txns && u != t ==> SameLocked(s, s', u)
    requires t in s'.txns ==> TxnInv(s', t, s'.txns[t])
    ensures TxnsInv(s')
  {
    forall u | u in s'.txns && u != t
      ensures TxnInv(s', u, s'.txns[u])
    {
      assert u in s'.txns - {t} && u in s.txns - {t};
      assert s'.txns[u] == (s'.txns - {t})[u] == s.txns[u];
      TxnInvKept(s, s', u, s.txns[u]);
    }
  }

  /** As long as rows and what is held stay as they are, only the transaction and its locks matter. */
  lemma {:induction false} SameRowsKeep(s: State, s': State, t: nat, id: nat)
    requires Inv(s) && s'.rows == s.rows && s'.held == s.held && s'.txns - {t} == s.txns - {t} && t in s'.txns
    requires s'.locks == s.locks || (!LockedByOther(s, t, id) && s'.locks == s.locks[id := t])
    requires TxnInv(s', t, s'.txns[t])
    ensures Inv(s')
  {
    OwnStepKeeps(s, s', t);
    forall k | k in s'.locks
      ensures s'.locks[k] in s'.txns
    {
      if s'.locks[k] != t {
        assert s'.locks[k] in s.txns - {t};
      }
    }
  }

  lemma {:induction false} BeginKeeps(s: State, t: nat, worker: nat)
    requires Inv(s) && Enabled(s, Begin(t, worker))
    ensures Inv(Apply(s, Begin(t, worker)))
  {
    SameRowsKeep(s, Apply(s, Begin(t, worker)), t, 0);
  }

  lemma {:induction false} QueryKeeps(s: State, t: nat, candidates: seq<nat>)
    requires Inv(s) && Enabled(s, Query(t, candidates))
    ensures Inv(Apply(s, Query(t, candidates)))
  {
    assert TxnInv(s, t, s.txns[t]);
    SameRowsKeep(s, Apply(s, Query(t, candidates)), t, 0);
  }

  /** `t` goes on to its next candidate, with a lock on the first one or not. */
  lemma {:induction false} CandidatesKept(s: State, s': State, t: nat, txn: Txn, txn': Txn)
    requires TxnInv(s, t, txn) && txn.candidates != [] && s'.rows == s.rows && SameLocked(s, s', t)
    requires txn'.candidates == txn.candidates[1..] && txn'.writes == txn.writes
    requires txn'.read == txn.read && txn'.worker == txn.worker && (txn'.phase.Scanning? || txn'.phase.Returning?)
    ensures TxnInv(s', t, txn')
  {
    assert txn.candidates == [txn.candidates[0]] + txn'.candidates;
    forall id | id in txn'.writes
      ensures WriteInv(s', t, txn', id)
    {
      assert WriteInv(s, t, txn, id);
    }
    forall id | id in txn'.candidates
      ensures ReadInv(s', txn', id)
    {
      assert ReadInv(s, txn, id);
    }
  }

  lemma {:induction false} NextKeeps(s: State, t: nat)
    requires Inv(s) && AtCandidate(s, t, Scanning)
    ensures Inv(NextCandidate(s, t))
  {
    var s' := NextCandidate(s, t);
    assert TxnInv(s, t, s.txns[t]);
    CandidatesKept(s, s', t, s.txns[t], s'.txns[t]);
    SameRowsKeep(s, s', t, 0);
  }

  lemma {:induction false} PhaseKeeps(s: State, s': State, t: nat)
    requires Inv(s) && t in s.txns && t in s'.txns &&
      s' == s.(txns := s.txns[t := s.txns[t].(phase := s'.txns[t].phase)])
    requires s'.txns[t].phase.Aborted? || (s'.txns[t].phase.Locked? && LockInv(s', t, s'.txns[t]))
    ensures Inv(s')
  {
    var txn, txn' := s.txns[t], s'.txns[t];
    assert TxnInv(s, t, txn);
    forall id | id in txn'.writes
      ensures WriteInv(s', t, txn', id)
    {
      assert WriteInv(s, t, txn, id);
    }
    forall id | id in txn'.candidates
      ensures ReadInv(s', txn', id)
    {
      assert ReadInv(s, txn, id);
    }
    SameRowsKeep(s, s', t, 0);
  }

  lemma {:induction false} TakeLockKeeps(s: State, t: nat)
    requires Inv(s) && AtCandidate(s, t, Scanning) && !LockedByOther(s, t, s.txns[t].candidates[0])
    ensures Inv(TakeLock(s, t))
  {
    assert TxnInv(s, t, s.txns[t]);
    TxnInvKept(s, TakeLock(s, t), t, s.txns[t]);
    SameRowsKeep(s, TakeLock(s, t), t, s.txns[t].candidates[0]);
  }

  lemma {:induction false} LockKeeps(s: State, t: nat)
    requires Inv(s) && Enabled(s, Lock(t))
    ensures Inv(Apply(s, Lock(t)))
  {
    assert TxnInv(s, t, s.txns[t]);
    assert ReadInv(s, s.txns[t], s.txns[t].candidates[0]);
    TakeLockKeeps(s, t);
    PhaseKeeps(TakeLock(s, t), Apply(s, Lock(t)), t);
  }

  /** What a transaction may save over its first candidate. */
  ghost predicate Saves(s: State, t: nat, row: Row)
    requires t in s.txns && AtCandidate(s, t, s.txns[t].phase)
  {
    var id := s.txns[t].candidates[0];
    && !LockedByOther(s, t, id) && s.rows[id].worker.None? && row.configurable == s.rows[id].configurable
    && (row.worker.Some? ==> row.worker.value == s.txns[t].worker && row.configurable)
  }

  lemma {:induction false} SaveKeeps(s: State, t: nat, row: Row, phase: Phase)
    requires Inv(s) && t in s.txns && AtCandidate(s, t, s.txns[t].phase) && Saves(s, t, row)
    requires phase.Scanning? || phase.Returning?
    ensures Inv(Save(s, t, row, phase))
  {
    var s', id := Save(s, t, row, phase), s.txns[t].candidates[0];
    var txn, txn' := s.txns[t], s'.txns[t];
    assert TxnInv(s, t, txn);
    var unsaved := txn'.(writes := txn.writes);
    CandidatesKept(s, s', t, txn, unsaved);
    assert txn.candidates == [id] + txn'.candidates;
    forall k | k in txn'.writes
      ensures WriteInv(s', t, txn', k)
    {
      if k != id {
        assert WriteInv(s', t, unsaved, k);
      }
    }
    assert forall k :: k in txn'.candidates && ReadInv(s', unsaved, k) ==> ReadInv(s', txn', k);
    SameRowsKeep(s, s', t, id);
  }

  /** A failed configuration is never saved over a row that was given away since the query: what does not make a
      task is not given away. */
  lemma {:induction false} FailuresAreNotStale(s: State, t: nat)
    requires Inv(s) && (Enabled(s, ConfigureFailed(t)) || Enabled(s, DynamicDataFailed(t)))
    ensures s.rows[s.txns[t].candidates[0]].worker.None?
    ensures s.rows[s.txns[t].candidates[0]].configurable == Failed(s, t).configurable && Failed(s, t).worker.None?
  {
    assert TxnInv(s, t, s.txns[t]);
    assert ReadInv(s, s.txns[t], s.txns[t].candidates[0]);
  }

  lemma {:induction false} GivingKeeps(s: State, t: nat, status: Status, phase: Phase)
    requires Inv(s) && AtCandidate(s, t, Locked) && (phase.Scanning? || phase.Returning?)
    ensures
      var row := s.rows[s.txns[t].candidates[0]].(worker := Some(s.txns[t].worker), status := status);
      Inv(Save(s, t, row, phase))
  {
    assert TxnInv(s, t, s.txns[t]);
    SaveKeeps(s, t, s.rows[s.txns[t].candidates[0]].(worker := Some(s.txns[t].worker), status := status), phase);
  }

  lemma {:induction false} FailureKeeps(s: State, t: nat)
    requires Inv(s) && (Enabled(s, ConfigureFailed(t)) || Enabled(s, DynamicDataFailed(t)))
    ensures Inv(Save(s, t, Failed(s, t), Scanning))
  {
    FailuresAreNotStale(s, t);
    SaveKeeps(s, t, Failed(s, t), Scanning);
  }

  lemma {:induction false} CloseKeeps(s: State, t: nat, rows: map<nat, Row>, held: map<nat, nat>)
    requires Inv(s) && t in s.txns && RowsGrow(s, s.(rows := rows))
    requires forall id :: id in s.rows && rows[id] != s.rows[id] ==> id in s.locks && s.locks[id] == t
    requires RowsInv(s.(rows := rows)) && HeldAgrees(s.(rows := rows, held := held))
    ensures Inv(Close(s, t).(rows := rows, held := held))
  {
    OwnStepKeeps(s, Close(s, t).(rows := rows, held := held), t);
  }

  /** Commits change rows that were locked and had no worker; so they hide no worker and give nothing away twice. */
  lemma {:induction false} CommitWrites(s: State, t: nat)
    requires Inv(s) && t in s.txns
    ensures forall id :: id in s.txns[t].writes ==>
      && id in s.rows && s.rows[id].worker.None? && id in s.locks && s.locks[id] == t && id !in s.held
      && s.txns[t].writes[id].configurable == s.rows[id].configurable
      && (s.txns[t].writes[id].worker.Some? ==> s.rows[id].configurable)
  {
    assert TxnInv(s, t, s.txns[t]);
    assert forall id :: id in s.txns[t].writes ==> WriteInv(s, t, s.txns[t], id);
  }

  lemma {:induction false} CommitKeeps(s: State, t: nat)
    requires Inv(s) && Enabled(s, Commit(t))
    ensures Inv(Apply(s, Commit(t))) && !DoubleAssignment(s, Commit(t))
  {
    CommitWrites(s, t);
    CloseKeeps(s, t, s.rows + s.txns[t].writes, s.held + Given(s.txns[t].writes));
  }

  lemma {:induction false} RollbackKeeps(s: State, t: nat)
    requires Inv(s) && Enabled(s, Rollback(t))
    ensures Inv(Apply(s, Rollback(t)))
  {
    CloseKeeps(s, t, s.rows, s.held);
    assert Close(s, t) == Close(s, t).(rows := s.rows, held := s.held);
  }

  lemma {:induction false} RowStepKeeps(s: State, step: Step)
    requires Inv(s) && Enabled(s, step)
    requires step.Create? || step.Progress? || step.DeAssign?
    ensures Inv(Apply(s, step))
  {
    var s' := Apply(s, step);
    forall t | t in s'.txns
      ensures TxnInv(s', t, s'.txns[t])
    {
      TxnInvKept(s, s', t, s.txns[t]);
    }
  }

  lemma {:induction false} StepKeeps(s: State, step: Step)
    requires Inv(s) && Enabled(s, step)
    ensures Inv(Apply(s, step)) && !DoubleAssignment(s, step)
  {
    hide Inv, Save, NextCandidate, Close, Given, Failed, LockedByOther;
    match step
    case ConfigureFailed(t) => FailureKeeps(s, t);
    case SkipOnAssignment(t) => GivingKeeps(s, t, Completed, Scanning);
    case DynamicDataFailed(t) => FailureKeeps(s, t);
    case Assign(t) => GivingKeeps(s, t, s.rows[s.txns[t].candidates[0]].status, Returning);
    case Commit(t) => CommitKeeps(s, t);
    case Rollback(t) => RollbackKeeps(s, t);
    case Begin(t, w) => BeginKeeps(s, t, w);
    case Query(t, ids) => QueryKeeps(s, t, ids);
    case CannotRun(t) => NextKeeps(s, t);
    case LockFailed(t) => PhaseKeeps(s, Apply(s, step), t);
    case AlreadyAssigned(t) =>
      TakeLockKeeps(s, t);
      NextKeeps(TakeLock(s, t), t);
    case Lock(t) => LockKeeps(s, t);
    case Create(_, _) => RowStepKeeps(s, step);
    case Progress(_, _) => RowStepKeeps(s, step);
    case DeAssign(_) => RowStepKeeps(s, step);
  }

  lemma {:induction false} StepGrows(s: State, step: Step)
    requires Inv(s) && Enabled(s, step)
    ensures RowsGrow(s, Apply(s, step))
  {
    hide Inv;
    if step.Commit? {
      CommitWrites(s, step.t);
    }
  }

  // ----- whole runs -----

  predicate Run(s: State, steps: seq<Step>)
    decreases |steps|
  {
    steps != [] ==> Enabled(s, steps[0]) && Run(Apply(s, steps[0]), steps[1..])
  }

  function Exec(s: State, steps: seq<Step>): State
    requires Run(s, steps)
    decreases |steps|
  {
    if steps == [] then s else Exec(Apply(s, steps[0]), steps[1..])
  }

  ghost predicate NoDoubleAssignment(s: State, steps: seq<Step>)
    requires Run(s, steps)
    decreases |steps|
  {
    steps != [] ==> !DoubleAssignment(s, steps[0]) && NoDoubleAssignment(Apply(s, steps[0]), steps[1..])
  }

  /** No commit of the run writes, for whatever reason, a row that has a worker at that moment. */
  ghost predicate WritesOnlyFreeRows(s: State, steps: seq<Step>)
    requires Run(s, steps)
    decreases |steps|
  {
    steps != [] ==>
      && (steps[0].Commit? ==> forall id :: id in s.txns[steps[0].t].writes ==> id in s.rows && s.rows[id].worker.None?)
      && WritesOnlyFreeRows(Apply(s, steps[0]), steps[1..])
  }

  /** In every run, overlapping as it may be: a row whose worker is set is not written by a scheduling transaction,
      and two open transactions never write the same row. */
  lemma {:induction false} SetWorkerIsNotReplaced(s: State, steps: seq<Step>)
    requires Inv(s) && Run(s, steps)
    ensures WritesOnlyFreeRows(s, steps)
    ensures var end := Exec(s, steps);
      forall t, u :: t in end.txns && u in end.txns && t != u ==> end.txns[t].writes.Keys !! end.txns[u].writes.Keys
    decreases |steps|
  {
    if steps != [] {
      if steps[0].Commit? {
        CommitWrites(s, steps[0].t);
      }
      StepKeeps(s, steps[0]);
      SetWorkerIsNotReplaced(Apply(s, steps[0]), steps[1..]);
      assert Exec(s, steps) == Exec(Apply(s, steps[0]), steps[1..]);
    } else {
      WritesAreExclusive(s);
    }
  }

  lemma {:induction false} WritesAreExclusive(s: State)
    requires Inv(s)
    ensures forall t, u :: t in s.txns && u in s.txns && t != u ==> s.txns[t].writes.Keys !! s.txns[u].writes.Keys
  {
    forall t, u | t in s.txns && u in s.txns && t != u
      ensures s.txns[t].writes.Keys !! s.txns[u].writes.Keys
    {
      CommitWrites(s, t);
      CommitWrites(s, u);
    }
  }

  /** No double assignment: in no run is a work request given to a worker while another one holds it, and what
      workers hold is what the rows say. */
  lemma {:induction false} AssignedOnce(s: State, steps: seq<Step>)
    requires Inv(s) && Run(s, steps)
    ensures NoDoubleAssignment(s, steps) && Inv(Exec(s, steps))
    decreases |steps|
  {
    if steps != [] {
      StepKeeps(s, steps[0]);
      AssignedOnce(Apply(s, steps[0]), steps[1..]);
    }
  }

  lemma {:induction false} RunConcat(s: State, first: seq<Step>, second: seq<Step>)
    requires Run(s, first) && Run(Exec(s, first), second)
    ensures Run(s, first + second) && Exec(s, first + second) == Exec(Exec(s, first), second)
    decreases |first|
  {
    if first == [] {
      assert first + second == second;
    } else {
      assert (first + second)[1..] == first[1..] + second;
      RunConcat(Apply(s, first[0]), first[1..], second);
    }
  }

  // ----- a work request that is completed in the meantime -----

  /** `t` is about to look at `id`, its only candidate, which it read as `row`, and nobody locks that row. */
  ghost predicate Looking(s: State, t: nat, worker: nat, id: nat, row: Row) {
    && t in s.txns && s.txns[t] == Txn(worker, Scanning, [id], map[id := row], map[])
    && id in s.rows && s.rows[id].worker.None? && row.configurable && id !in s.locks
  }

  lemma {:induction false} RunTwo(s: State, a: Step, b: Step)
    requires Enabled(s, a) && Enabled(Apply(s, a), b)
    ensures Run(s, [a, b]) && Exec(s, [a, b]) == Apply(Apply(s, a), b)
  {
    assert [a, b][1..] == [b] && [b][1..] == [];
    assert Run(Apply(Apply(s, a), b), []);
    assert Run(Apply(s, a), [b]) && Exec(Apply(s, a), [b]) == Apply(Apply(s, a), b);
  }

  lemma {:induction false} RunThree(s: State, a: Step, b: Step, c: Step)
    requires Enabled(s, a) && Enabled(Apply(s, a), b) && Enabled(Apply(Apply(s, a), b), c)
    ensures Run(s, [a, b, c]) && Exec(s, [a, b, c]) == Apply(Apply(Apply(s, a), b), c)
  {
    assert [a, b, c][1..] == [b, c];
    RunTwo(Apply(s, a), b, c);
  }

  lemma {:induction false} OneLooks(s: State, t: nat, worker: nat, id: nat)
    requires t !in s.txns && worker !in s.workerLocks
    requires id in s.rows && s.rows[id] == Row(None, Pending, true) && id !in s.locks
    ensures Run(s, [Begin(t, worker), Query(t, [id])])
    ensures var s' := Exec(s, [Begin(t, worker), Query(t, [id])]);
      && Looking(s', t, worker, id, s.rows[id]) && s'.rows == s.rows && s'.locks == s.locks
      && s'.workerLocks.Keys == s.workerLocks.Keys + {worker} && s'.txns.Keys == s.txns.Keys + {t}
      && forall u :: u in s.txns ==> s'.txns[u] == s.txns[u]
  {
    var s1 := Apply(s, Begin(t, worker));
    assert Enabled(s1, Query(t, [id]));
    RunTwo(s, Begin(t, worker), Query(t, [id]));
  }

  /** A run of one transaction that locks its candidate, saves it in one way or another, and commits. */
  lemma {:induction false} OneSaves(s: State, t: nat, worker: nat, id: nat, row: Row, save: Step, phase: Phase,
                                    saved: Row)
    requires Looking(s, t, worker, id, row) && phase != Started && phase != Locked && phase != Aborted
    requires save in {Assign(t), DynamicDataFailed(t)}
    requires Enabled(Apply(s, Lock(t)), save) &&
      Apply(Apply(s, Lock(t)), save) == Save(Apply(s, Lock(t)), t, saved, phase)
    ensures Run(s, [Lock(t), save, Commit(t)])
    ensures var s' := Exec(s, [Lock(t), save, Commit(t)]);
      s'.rows == s.rows[id := saved] && id !in s'.locks && s'.txns == s.txns - {t}
  {
    var s1 := Apply(s, Lock(t));
    assert s1.txns[t] == s.txns[t].(phase := Locked);
    var s2 := Apply(s1, save);
    assert s2.txns[t].writes == map[id := saved] && s2.txns[t].candidates == [];
    assert s2.txns - {t} == s.txns - {t} && s2.rows == s.rows;
    assert s.rows + map[id := saved] == s.rows[id := saved];
    RunThree(s, Lock(t), save, Commit(t));
  }

  lemma {:induction false} OneFails(s: State, t: nat, worker: nat, id: nat, row: Row)
    requires Looking(s, t, worker, id, row)
    ensures Run(s, [Lock(t), DynamicDataFailed(t), Commit(t)])
    ensures var s' := Exec(s, [Lock(t), DynamicDataFailed(t), Commit(t)]);
      s'.rows == s.rows[id := row.(status := Completed)] && id !in s'.locks && s'.txns == s.txns - {t}
  {
    OneSaves(s, t, worker, id, row, DynamicDataFailed(t), Scanning, row.(status := Completed));
  }

  lemma {:induction false} OneAssigns(s: State, t: nat, worker: nat, id: nat, row: Row)
    requires Looking(s, t, worker, id, row)
    ensures Run(s, [Lock(t), Assign(t), Commit(t)])
    ensures var s' := Exec(s, [Lock(t), Assign(t), Commit(t)]);
      s'.rows == s.rows[id := s.rows[id].(worker := Some(worker))] && id !in s'.locks && s'.txns == s.txns - {t}
  {
    OneSaves(s, t, worker, id, row, Assign(t), Returning, s.rows[id].(worker := Some(worker)));
  }

  /** Both transactions look at the row; the first one completes it with an error, the second one assigns it. */
  lemma {:induction false} SecondAssigns(s: State, id: nat, t1: nat, w1: nat, t2: nat, w2: nat, row: Row)
    requires Looking(s, t1, w1, id, row) && Looking(s, t2, w2, id, row) && t1 != t2 && row.worker.None?
    ensures Run(s, [Lock(t1), DynamicDataFailed(t1), Commit(t1)] + [Lock(t2), Assign(t2), Commit(t2)])
    ensures
      Exec(s, [Lock(t1), DynamicDataFailed(t1), Commit(t1)] + [Lock(t2), Assign(t2), Commit(t2)]).rows ==
      s.rows[id := row.(worker := Some(w2), status := Completed)]
  {
    hide Enabled, Apply;
    var done := row.(status := Completed);
    OneFails(s, t1, w1, id, row);
    var s' := Exec(s, [Lock(t1), DynamicDataFailed(t1), Commit(t1)]);
    assert t2 in s.txns - {t1} && (s.txns - {t1})[t2] == s.txns[t2];
    OneAssigns(s', t2, w2, id, row);
    RunConcat(s, [Lock(t1), DynamicDataFailed(t1), Commit(t1)], [Lock(t2), Assign(t2), Commit(t2)]);
    assert s.rows[id := done][id := done.(worker := Some(w2))] == s.rows[id := done.(worker := Some(w2))];
  }

  /** Reading the row again under the lock looks for a worker, not at the status: any pending work request can be
      given to a worker although another transaction has completed it with an error. */
  lemma {:induction false} CompletedIsAssigned(s: State, id: nat, t1: nat, w1: nat, t2: nat, w2: nat)
    requires t1 !in s.txns && t2 !in s.txns && t1 != t2
    requires w1 !in s.workerLocks && w2 !in s.workerLocks && w1 != w2
    requires id in s.rows && s.rows[id] == Row(None, Pending, true) && id !in s.locks
    ensures var run :=
      [Begin(t1, w1), Query(t1, [id])] + ([Begin(t2, w2), Query(t2, [id])] +
      ([Lock(t1), DynamicDataFailed(t1), Commit(t1)] + [Lock(t2), Assign(t2), Commit(t2)]));
      Run(s, run) && Exec(s, run).rows == s.rows[id := Row(Some(w2), Completed, true)]
  {
    hide Enabled, Apply;
    var first, second := [Begin(t1, w1), Query(t1, [id])], [Begin(t2, w2), Query(t2, [id])];
    var rest := [Lock(t1), DynamicDataFailed(t1), Commit(t1)] + [Lock(t2), Assign(t2), Commit(t2)];
    OneLooks(s, t1, w1, id);
    OneLooks(Exec(s, first), t2, w2, id);
    SecondAssigns(Exec(Exec(s, first), second), id, t1, w1, t2, w2, s.rows[id]);
    RunConcat(Exec(s, first), second, rest);
    RunConcat(s, first, second + rest);
  }
}
