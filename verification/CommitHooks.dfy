/** A transaction with nested atomic blocks. Saving a work request asks for a run of the scheduler after
    the commit, but only once per set of open savepoints; rolling back to a savepoint drops the hooks
    that were registered inside it. The database undoes the saves that came after the savepoint. */
module CommitHooks {
  import opened Outcomes

  datatype Task = Schedule | Other(id: nat)

  /** The open savepoints at registration; a block without a savepoint of its own counts as `None`. */
  type SavepointSet = set<Option<nat>>

  datatype Hook = Hook(sids: SavepointSet, task: Task)

  /** A row change that would make the scheduler run, with the savepoints that were open. */
  datatype Save = Save(workRequest: nat, sids: SavepointSet)

  datatype State = State(
    savepointIds: seq<Option<nat>>,  // one per nested block, innermost last
    needsRollback: bool,
    nextSid: nat,
    hooks: seq<Hook>,
    saves: seq<Save>,                // what the database holds, in order
    marks: seq<nat>)                 // how much it held when each nested block was entered

  const BEGUN := State([], false, 0, [], [], [])

  datatype Step =
    | Enter(savepoint: bool)
    | Exit(failed: bool)
    | SaveWorkRequest(id: nat)
    | RegisterOther(id: nat)

  function SetOf(s: seq<Option<nat>>): SavepointSet {
    set sid | sid in s
  }

  /** The hooks that are kept when the savepoint `sid` is rolled back. */
  function KeepHooks(hooks: seq<Hook>, sid: nat): seq<Hook> {
    if hooks == [] then []
    else KeepHooks(hooks[..|hooks| - 1], sid) +
         if Some(sid) in hooks[|hooks| - 1].sids then [] else [hooks[|hooks| - 1]]
  }

  predicate Enabled(s: State, step: Step) {
    match step
    case Enter(_) => true
    case Exit(_) => CanLeave(s)
    case SaveWorkRequest(_) => !s.needsRollback  // otherwise the query is refused
    case RegisterOther(_) => !s.needsRollback
  }

  predicate CanLeave(s: State) {
    s.savepointIds != [] && |s.marks| == |s.savepointIds| && s.marks[|s.marks| - 1] <= |s.saves|
  }

  function Apply(s: State, step: Step): State
    requires Enabled(s, step)
  {
    match step
    case Enter(savepoint) =>
      if savepoint && !s.needsRollback
      then s.(savepointIds := s.savepointIds + [Some(s.nextSid)], nextSid := s.nextSid + 1,
              marks := s.marks + [|s.saves|])
      else s.(savepointIds := s.savepointIds + [None], marks := s.marks + [|s.saves|])
    case Exit(failed) => Leave(s, failed)
    case SaveWorkRequest(id) =>
      var hook := Hook(SetOf(s.savepointIds), Schedule);
      s.(saves := s.saves + [Save(id, SetOf(s.savepointIds))],
         hooks := if hook in s.hooks then s.hooks else s.hooks + [hook])
    case RegisterOther(id) => s.(hooks := s.hooks + [Hook(SetOf(s.savepointIds), Other(id))])
  }

  /** Leaving a nested block: release its savepoint, or roll back to it; a block without a savepoint
      leaves the rollback to the enclosing one. */
  function Leave(s: State, failed: bool): State
    requires CanLeave(s)
  {
    var n := |s.savepointIds| - 1;
    var sid := s.savepointIds[n];
    var s' := s.(savepointIds := s.savepointIds[..n], marks := s.marks[..n]);
    if !failed && !s.needsRollback then s'
    else if sid.None? then s'.(needsRollback := true)
    else s'.(needsRollback := false,
             hooks := KeepHooks(s.hooks, sid.value),
             saves := s.saves[..s.marks[n]])
  }

  // ----- the connection object -----

  class Connection {
    var savepointIds: seq<Option<nat>>
    var needsRollback: bool
    var nextSid: nat
    var runOnCommit: seq<Hook>
    ghost var saves: seq<Save>
    ghost var marks: seq<nat>

    ghost function Now(): State
      reads this
    {
      State(savepointIds, needsRollback, nextSid, runOnCommit, saves, marks)
    }

    ghost predicate Valid()
      reads this
    {
      Inv(Now())
    }

    constructor ()
      ensures Valid() && Now() == BEGUN
    {
      savepointIds, needsRollback, nextSid, runOnCommit := [], false, 0, [];
      saves, marks := [], [];
    }

    method Enter(savepoint: bool)
      requires Valid()
      modifies this
      ensures Valid() && Now() == Apply(old(Now()), Step.Enter(savepoint))
    {
      EnterKeeps(Now(), savepoint);
      marks := marks + [|saves|];
      if savepoint && !needsRollback {
        savepointIds := savepointIds + [Some(nextSid)];
        nextSid := nextSid + 1;
      } else {
        savepointIds := savepointIds + [None];
      }
    }

    /** Leaves the innermost nested block. */
    method Exit(failed: bool)
      requires Valid() && savepointIds != []
      modifies this
      ensures Enabled(old(Now()), Step.Exit(failed)) && Valid() && Now() == Apply(old(Now()), Step.Exit(failed))
    {
      ExitKeepsBlocks(Now(), failed);
      ExitKeepsHooks(Now(), failed);
      var n := |savepointIds| - 1;
      var sid := savepointIds[n];
      ghost var mark := marks[n];
      savepointIds := savepointIds[..n];
      marks := marks[..n];
      if !failed && !needsRollback {
        return;
      }
      needsRollback := false;
      if sid.None? {
        needsRollback := true;
      } else {
        SavepointRollback(sid.value);
        saves := saves[..mark];
      }
    }

    method SavepointRollback(sid: nat)
      modifies this`runOnCommit
      ensures runOnCommit == KeepHooks(old(runOnCommit), sid)
    {
      var kept: seq<Hook> := [];
      for i := 0 to |runOnCommit|
        invariant runOnCommit == old(runOnCommit)
        invariant kept == KeepHooks(runOnCommit[..i], sid)
      {
        assert runOnCommit[..i + 1][..i] == runOnCommit[..i];
        if Some(sid) !in runOnCommit[i].sids {
          kept := kept + [runOnCommit[i]];
        }
      }
      assert runOnCommit[..|runOnCommit|] == runOnCommit;
      runOnCommit := kept;
    }

    /** The receiver that runs after a work request was saved. */
    method WorkRequestChanged(id: nat)
      requires Valid() && !needsRollback
      modifies this
      ensures Valid() && Now() == Apply(old(Now()), SaveWorkRequest(id))
    {
      SaveKeepsBlocks(Now(), id);
      SaveKeepsHooks(Now(), id);
      saves := saves + [Save(id, SetOf(savepointIds))];
      if Hook(SetOf(savepointIds), Schedule) !in runOnCommit {
        runOnCommit := runOnCommit + [Hook(SetOf(savepointIds), Schedule)];
      }
    }

    /** Leaves the outer block: the hooks run if it is committed. Then the scheduler runs exactly once for each
        savepoint set with a save that stands. */
    method ExitOuter(failed: bool) returns (runs: seq<SavepointSet>)
      requires Valid() && savepointIds == []
      modifies this
      ensures Valid() && runOnCommit == []
      ensures runs == SchedulerRuns(old(Now()), failed) && RunsMatch(runs, Surviving(old(Now()), failed))
    {
      RunsMatchSaves(Now(), failed);
      runs := [];
      if !failed && !needsRollback {
        var hooks := runOnCommit;
        for i := 0 to |hooks|
          invariant runs + ScheduleSets(hooks[i..]) == ScheduleSets(hooks)
        {
          assert hooks[i..][1..] == hooks[i + 1..];
          if hooks[i].task.Schedule? {
            runs := runs + [hooks[i].sids];
          }
        }
      }
      needsRollback, runOnCommit, saves, marks := false, [], [], [];
    }
  }

  // ----- what every step keeps -----

  /** Exactly the saves after the mark of an open savepoint happened inside it. */
  ghost predicate Nested(s: State, i: nat)
    requires i < |s.savepointIds| && i < |s.marks|
  {
    s.savepointIds[i].Some? ==>
      && s.savepointIds[i].value < s.nextSid
      && forall k :: 0 <= k < |s.saves| ==> (s.savepointIds[i] in s.saves[k].sids <==> s.marks[i] <= k)
  }

  ghost predicate BlocksInv(s: State) {
    && |s.marks| == |s.savepointIds|
    && (forall i :: 0 <= i < |s.marks| ==> s.marks[i] <= |s.saves|)
    && (forall i, j :: 0 <= i < j < |s.marks| ==> s.marks[i] <= s.marks[j])
    && (forall i :: 0 <= i < |s.savepointIds| ==> Nested(s, i))
    && (forall save, sid :: save in s.saves && Some(sid) in save.sids ==> sid < s.nextSid)
  }

  ghost predicate StandsFor(saves: seq<Save>, sids: SavepointSet) {
    exists save :: save in saves && save.sids == sids
  }

  ghost predicate ScheduledOnce(hooks: seq<Hook>) {
    forall i, j :: 0 <= i < j < |hooks| && hooks[i].task.Schedule? ==> hooks[i] != hooks[j]
  }

  /** A run of the scheduler is due for each savepoint set with a save that still stands, and once. */
  ghost predicate HooksMatchSaves(s: State) {
    && (forall sids :: Hook(sids, Schedule) in s.hooks <==> StandsFor(s.saves, sids))
    && ScheduledOnce(s.hooks)
  }

  ghost predicate Inv(s: State) {
    BlocksInv(s) && HooksMatchSaves(s)
  }

  lemma {:induction false} KeepHooksMembers(hooks: seq<Hook>, sid: nat)
    ensures forall h :: h in KeepHooks(hooks, sid) <==> h in hooks && Some(sid) !in h.sids
  {
    if hooks != [] {
      KeepHooksMembers(hooks[..|hooks| - 1], sid);
      assert hooks == hooks[..|hooks| - 1] + [hooks[|hooks| - 1]];
    }
  }

  lemma {:induction false} KeepHooksOnce(hooks: seq<Hook>, sid: nat)
    requires ScheduledOnce(hooks)
    ensures ScheduledOnce(KeepHooks(hooks, sid))
  {
    if hooks != [] {
      var front, last := hooks[..|hooks| - 1], hooks[|hooks| - 1];
      var kept := KeepHooks(front, sid);
      KeepHooksOnce(front, sid);
      KeepHooksMembers(front, sid);
      forall i | 0 <= i < |kept| && kept[i].task.Schedule?
        ensures kept[i] != last
      {
        assert kept[i] in kept;
        var j :| 0 <= j < |front| && hooks[j] == kept[i];
      }
    }
  }

  lemma {:induction false} EnterKeeps(s: State, savepoint: bool)
    requires Inv(s)
    ensures Inv(Apply(s, Enter(savepoint)))
  {
    var s' := Apply(s, Enter(savepoint));
    assert forall i :: 0 <= i < |s.savepointIds| && Nested(s, i) ==> Nested(s', i);
    assert Nested(s', |s.savepointIds|) by {
      assert forall k :: 0 <= k < |s.saves| ==> s.saves[k] in s.saves;
    }
  }

  lemma {:induction false} SaveKeepsBlocks(s: State, id: nat)
    requires BlocksInv(s) && Enabled(s, SaveWorkRequest(id))
    ensures BlocksInv(Apply(s, SaveWorkRequest(id)))
  {
    var s' := Apply(s, SaveWorkRequest(id));
    assert forall i :: 0 <= i < |s.savepointIds| && Nested(s, i) ==> Nested(s', i);
    forall save, sid | save in s'.saves && Some(sid) in save.sids
      ensures sid < s'.nextSid
    {
      if save !in s.saves {
        var i :| 0 <= i < |s.savepointIds| && s.savepointIds[i] == Some(sid);
        assert Nested(s, i);
      }
    }
  }

  lemma {:induction false} SaveKeepsHooks(s: State, id: nat)
    requires HooksMatchSaves(s) && Enabled(s, SaveWorkRequest(id))
    ensures HooksMatchSaves(Apply(s, SaveWorkRequest(id)))
  {
    var s' := Apply(s, SaveWorkRequest(id));
    var save := Save(id, SetOf(s.savepointIds));
    forall sids
      ensures StandsFor(s'.saves, sids) <==> StandsFor(s.saves, sids) || sids == save.sids
    {
      assert save in s'.saves;
      if StandsFor(s.saves, sids) {
        var before :| before in s.saves && before.sids == sids;
        assert before in s'.saves;
      }
    }
  }

  lemma {:induction false} OtherKeeps(s: State, id: nat)
    requires Inv(s) && Enabled(s, RegisterOther(id))
    ensures Inv(Apply(s, RegisterOther(id)))
  {
    var s' := Apply(s, RegisterOther(id));
    assert forall i :: 0 <= i < |s.savepointIds| && Nested(s, i) ==> Nested(s', i);
  }

  lemma {:induction false} ExitKeepsBlocks(s: State, failed: bool)
    requires BlocksInv(s) && Enabled(s, Exit(failed))
    ensures BlocksInv(Apply(s, Exit(failed)))
  {
    var s' := Apply(s, Exit(failed));
    assert forall i :: 0 <= i < |s'.savepointIds| && Nested(s, i) ==> Nested(s', i);
  }

  /** Undoing the saves after the mark and dropping the hooks inside the savepoint amount to the same. */
  lemma {:induction false} ExitKeepsHooks(s: State, failed: bool)
    requires Inv(s) && Enabled(s, Exit(failed))
    ensures HooksMatchSaves(Apply(s, Exit(failed)))
  {
    var n := |s.savepointIds| - 1;
    if (failed || s.needsRollback) && s.savepointIds[n].Some? {
      var sid, mark := s.savepointIds[n].value, s.marks[n];
      KeepHooksMembers(s.hooks, sid);
      KeepHooksOnce(s.hooks, sid);
      assert Nested(s, n);
      forall sids
        ensures StandsFor(s.saves[..mark], sids) <==> StandsFor(s.saves, sids) && Some(sid) !in sids
      {
        SavesBefore(s, n, sids);
      }
    }
  }

  lemma {:induction false} SavesBefore(s: State, n: nat, sids: SavepointSet)
    requires n < |s.savepointIds| && n < |s.marks| && s.marks[n] <= |s.saves| && s.savepointIds[n].Some? && Nested(s, n)
    ensures StandsFor(s.saves[..s.marks[n]], sids) <==> StandsFor(s.saves, sids) && s.savepointIds[n] !in sids
  {
    var before := s.saves[..s.marks[n]];
    if StandsFor(before, sids) {
      var save :| save in before && save.sids == sids;
      var k :| 0 <= k < |before| && before[k] == save;
      assert s.saves[k] == save;
    }
    if StandsFor(s.saves, sids) && s.savepointIds[n] !in sids {
      var save :| save in s.saves && save.sids == sids;
      var k :| 0 <= k < |s.saves| && s.saves[k] == save;
      assert before[k] == save;
    }
  }

  // ----- whole transactions -----

  predicate Run(s: State, steps: seq<Step>)
    decreases |steps|
  {
    steps != [] ==> Enabled(s, steps[0]) && Run(Apply(s, steps[0]), steps[1..])
  }

  function Exec(s: State, steps: seq<Step>): State
    requires Run(s, steps)
    decreases |steps|
  {
    if steps == [] then s else Exec(Apply(s, steps[0]), steps[1..])
  }

  /** The savepoint sets for which the scheduler runs after the outer block ends: all hooks run after a
      commit, none after a rollback. */
  function SchedulerRuns(s: State, failed: bool): seq<SavepointSet> {
    if failed || s.needsRollback then [] else ScheduleSets(s.hooks)
  }

  function ScheduleSets(hooks: seq<Hook>): seq<SavepointSet> {
    if hooks == [] then []
    else (if hooks[0].task.Schedule? then [hooks[0].sids] else []) + ScheduleSets(hooks[1..])
  }

  /** What the database holds after the outer block ended. */
  function Surviving(s: State, failed: bool): seq<Save> {
    if failed || s.needsRollback then [] else s.saves
  }

  lemma {:induction false} ScheduleSetsMembers(hooks: seq<Hook>)
    ensures forall sids :: sids in ScheduleSets(hooks) <==> Hook(sids, Schedule) in hooks
  {
    if hooks != [] {
      ScheduleSetsMembers(hooks[1..]);
      assert hooks == [hooks[0]] + hooks[1..];
    }
  }

  lemma {:induction false} ScheduleSetsOnce(hooks: seq<Hook>)
    requires ScheduledOnce(hooks)
    ensures forall i, j :: 0 <= i < j < |ScheduleSets(hooks)| ==> ScheduleSets(hooks)[i] != ScheduleSets(hooks)[j]
  {
    if hooks != [] {
      var rest := ScheduleSets(hooks[1..]);
      ScheduleSetsOnce(hooks[1..]);
      ScheduleSetsMembers(hooks[1..]);
      if hooks[0].task.Schedule? {
        assert hooks[0] !in hooks[1..] && hooks[0].sids !in rest;
      }
    }
  }

  lemma {:induction false} RunKeeps(s: State, steps: seq<Step>)
    requires Inv(s) && Run(s, steps)
    ensures Inv(Exec(s, steps))
    decreases |steps|
  {
    if steps != [] {
      match steps[0] {
        case Enter(savepoint) => EnterKeeps(s, savepoint);
        case Exit(failed) =>
          ExitKeepsBlocks(s, failed);
          ExitKeepsHooks(s, failed);
        case SaveWorkRequest(id) =>
          SaveKeepsBlocks(s, id);
          SaveKeepsHooks(s, id);
        case RegisterOther(id) => OtherKeeps(s, id);
      }
      RunKeeps(Apply(s, steps[0]), steps[1..]);
    }
  }

  /** A run for each savepoint set in which a save that stands happened, and no other. */
  ghost predicate RunsMatch(runs: seq<SavepointSet>, saves: seq<Save>) {
    && (runs != [] <==> saves != [])
    && (forall sids :: sids in runs <==> StandsFor(saves, sids))
    && (forall i, j :: 0 <= i < j < |runs| ==> runs[i] != runs[j])
  }

  lemma {:induction false} RunsMatchSaves(s: State, failed: bool)
    requires Inv(s)
    ensures RunsMatch(SchedulerRuns(s, failed), Surviving(s, failed))
  {
    var runs, saves := SchedulerRuns(s, failed), Surviving(s, failed);
    ScheduleSetsMembers(s.hooks);
    ScheduleSetsOnce(s.hooks);
    if runs != [] {
      assert runs[0] in runs;
    }
    if saves != [] {
      assert StandsFor(saves, saves[0].sids);
    }
  }

  /** Whatever blocks were nested, committed and rolled back: the scheduler runs after the outer block if
      and only if a save survived, namely once for each savepoint set in which a surviving save happened. */
  lemma {:induction false} SchedulerRunsForSurvivingSaves(steps: seq<Step>, failed: bool)
    requires Run(BEGUN, steps)
    ensures var end := Exec(BEGUN, steps);
      RunsMatch(SchedulerRuns(end, failed), Surviving(end, failed))
  {
    RunKeeps(BEGUN, steps);
    RunsMatchSaves(Exec(BEGUN, steps), failed);
  }

  // ----- what nested blocks leave behind -----

  /** What a transaction does, with its blocks as they are nested. A block fails when an exception leaves it, which the
      enclosing code may catch. */
  datatype Node = Saved(id: nat) | Registered(id: nat) | Block(savepoint: bool, body: seq<Node>, failed: bool)

  function StepsOf(node: Node): seq<Step>
    decreases node
  {
    match node
    case Saved(id) => [SaveWorkRequest(id)]
    case Registered(id) => [RegisterOther(id)]
    case Block(savepoint, body, failed) => [Enter(savepoint)] + AllSteps(body) + [Exit(failed)]
  }

  function AllSteps(nodes: seq<Node>): seq<Step>
    decreases nodes
  {
    if nodes == [] then [] else StepsOf(nodes[0]) + AllSteps(nodes[1..])
  }

  /** A block without a savepoint that fails, or in which something broke, breaks what is around it. */
  predicate Breaks(node: Node)
    decreases node
  {
    node.Block? && !node.savepoint && (node.failed || AnyBreaks(node.body))
  }

  predicate AnyBreaks(nodes: seq<Node>)
    decreases nodes
  {
    nodes != [] && (Breaks(nodes[0]) || AnyBreaks(nodes[1..]))
  }

  /** The saves that stand: those in a block with a savepoint are lost if it fails or something in it broke. */
  function Standing(node: Node): seq<nat>
    decreases node
  {
    match node
    case Saved(id) => [id]
    case Registered(_) => []
    case Block(savepoint, body, failed) =>
      if savepoint && (failed || AnyBreaks(body)) then [] else AllStanding(body)
  }

  function AllStanding(nodes: seq<Node>): seq<nat>
    decreases nodes
  {
    if nodes == [] then [] else Standing(nodes[0]) + AllStanding(nodes[1..])
  }

  function Ids(saves: seq<Save>): seq<nat> {
    seq(|saves|, i requires 0 <= i < |saves| => saves[i].workRequest)
  }

  lemma {:induction false} RunSplit(s: State, first: seq<Step>, second: seq<Step>)
    requires Run(s, first + second)
    ensures Run(s, first) && Run(Exec(s, first), second) && Exec(s, first + second) == Exec(Exec(s, first), second)
    decreases |first|
  {
    if first == [] {
      assert first + second == second;
    } else {
      assert (first + second)[1..] == first[1..] + second;
      RunSplit(Apply(s, first[0]), first[1..], second);
    }
  }

  lemma {:induction false} RunOne(s: State, step: Step)
    requires Run(s, [step])
    ensures Enabled(s, step) && Exec(s, [step]) == Apply(s, step)
  {
    assert [step][1..] == [];
  }

  /** The state after some nodes: the open blocks are the same, `more` was saved, and the connection is broken if it was
      before or the nodes broke it; a broken connection takes no more saves. */
  ghost predicate Leaves(s: State, s': State, more: seq<nat>, breaks: bool) {
    && s'.savepointIds == s.savepointIds && s'.marks == s.marks && s.saves <= s'.saves
    && Ids(s'.saves) == Ids(s.saves) + more
    && s'.needsRollback == (s.needsRollback || breaks) && (s.needsRollback ==> more == [])
  }

  lemma {:induction false} LeavesBoth(s: State, s1: State, s2: State, a: seq<nat>, b: seq<nat>, x: bool, y: bool)
    requires Leaves(s, s1, a, x) && Leaves(s1, s2, b, y)
    ensures Leaves(s, s2, a + b, x || y)
  {
    assert Ids(s.saves) + a + b == Ids(s.saves) + (a + b);
  }

  lemma {:induction false} BlockLeaves(s: State, s1: State, s2: State, node: Node)
    requires node.Block? && s1 == Apply(s, Enter(node.savepoint))
    requires Leaves(s1, s2, AllStanding(node.body), AnyBreaks(node.body)) && Enabled(s2, Exit(node.failed))
    ensures Leaves(s, Apply(s2, Exit(node.failed)), Standing(node), Breaks(node))
  {
    var s' := Apply(s2, Exit(node.failed));
    var n := |s.savepointIds|;
    assert s2.savepointIds[..n] == s.savepointIds && |s2.savepointIds| == n + 1;
    assert s2.marks[..|s.marks|] == s.marks && s2.marks[|s.marks|] == |s.saves|;
    assert s2.saves[..|s.saves|] == s.saves;
    assert Ids(s.saves) + [] == Ids(s.saves);
  }

  lemma {:induction false} NodeLeaves(s: State, node: Node)
    requires Run(s, StepsOf(node))
    ensures Leaves(s, Exec(s, StepsOf(node)), Standing(node), Breaks(node))
    decreases node
  {
    hide Leaves;
    match node
    case Saved(id) =>
      RunOne(s, SaveWorkRequest(id));
      SavedLeaves(s, id);
    case Registered(id) =>
      RunOne(s, RegisterOther(id));
      RegisteredLeaves(s, id);
    case Block(savepoint, body, failed) =>
      RunSplit(s, [Enter(savepoint)] + AllSteps(body), [Exit(failed)]);
      RunSplit(s, [Enter(savepoint)], AllSteps(body));
      RunOne(s, Enter(savepoint));
      var s1 := Apply(s, Enter(savepoint));
      NodesLeave(s1, body);
      var s2 := Exec(s1, AllSteps(body));
      RunOne(s2, Exit(failed));
      BlockLeaves(s, s1, s2, node);
  }

  lemma {:induction false} SavedLeaves(s: State, id: nat)
    requires Enabled(s, SaveWorkRequest(id))
    ensures Leaves(s, Apply(s, SaveWorkRequest(id)), [id], false)
  {
    var s' := Apply(s, SaveWorkRequest(id));
    assert Ids(s'.saves) == Ids(s.saves) + [id];
  }

  lemma {:induction false} RegisteredLeaves(s: State, id: nat)
    requires Enabled(s, RegisterOther(id))
    ensures Leaves(s, Apply(s, RegisterOther(id)), [], false)
  {
    assert Ids(s.saves) + [] == Ids(s.saves);
  }

  lemma {:induction false} NodesLeave(s: State, nodes: seq<Node>)
    requires Run(s, AllSteps(nodes))
    ensures Leaves(s, Exec(s, AllSteps(nodes)), AllStanding(nodes), AnyBreaks(nodes))
    decreases nodes
  {
    if nodes == [] {
      assert Ids(s.saves) + [] == Ids(s.saves);
    } else {
      RunSplit(s, StepsOf(nodes[0]), AllSteps(nodes[1..]));
      var s1 := Exec(s, StepsOf(nodes[0]));
      NodeLeaves(s, nodes[0]);
      NodesLeave(s1, nodes[1..]);
      LeavesBoth(s, s1, Exec(s1, AllSteps(nodes[1..])), Standing(nodes[0]), AllStanding(nodes[1..]),
                 Breaks(nodes[0]), AnyBreaks(nodes[1..]));
    }
  }

  /** Of a transaction that is left with an exception, or with something broken outside all savepoints, nothing stands;
      otherwise what its blocks leave standing does. The scheduler runs after it exactly if that is something. */
  lemma {:induction false} TransactionLeaves(nodes: seq<Node>, failed: bool)
    requires Run(BEGUN, AllSteps(nodes))
    ensures var end := Exec(BEGUN, AllSteps(nodes));
      && Ids(Surviving(end, failed)) == (if failed || AnyBreaks(nodes) then [] else AllStanding(nodes))
      && (SchedulerRuns(end, failed) != [] <==> !failed && !AnyBreaks(nodes) && AllStanding(nodes) != [])
  {
    NodesLeave(BEGUN, nodes);
    SchedulerRunsForSurvivingSaves(AllSteps(nodes), failed);
    assert Ids(BEGUN.saves) + AllStanding(nodes) == AllStanding(nodes);
  }
}
