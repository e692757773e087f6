/** How cloud workers are allocated to scopes with pending tasks, under quotas of pools and scopes. */
module Provisioning {
  import opened Outcomes

  const TASK_DURATION_SECONDS := 600
  const TARGET_LATENCY_SECONDS := 3600

  type PoolId = nat

  /** Limits of a pool; None is no limit. `used` is the time its instances have run this month. */
  datatype PoolInfo = PoolInfo(maxActive: Option<int>, monthly: Option<int>, used: real)

  /** The worker rows of a pool. The stopped ones have no instance. */
  datatype PoolWorkers = PoolWorkers(total: nat, stopped: nat)

  /** How long the instances of a pool may run in a month, for all scopes or for one of them, and have run. */
  datatype Quota = Quota(monthly: Option<int>, used: real)

  /** A scope with its pools by decreasing priority. */
  datatype ScopeInfo = ScopeInfo(pending: nat, pools: seq<PoolId>, quotas: map<PoolId, Quota>)

  function Min(a: int, b: int): int {
    if a <= b then a else b
  }

  function Max(a: int, b: int): int {
    if a >= b then a else b
  }

  // ----- caps -----

  function AtMost(amount: nat, cap: Option<nat>): nat {
    if cap.Some? then Min(amount, cap.value) else amount
  }

  function Tighter(a: Option<nat>, b: Option<nat>): Option<nat> {
    if a.None? then b else if b.None? then a else Some(Min(a.value, b.value))
  }

  function CapByInstances(limit: Option<int>, total: nat): Option<nat> {
    if limit.None? then None else Some(Max(0, limit.value - total))
  }

  function CapBySeconds(limit: Option<int>, used: real): Option<nat>
  {
    if limit.None? then None
    else if used >= limit.value as real then Some(0)
    else Some(TasksIn(limit.value as real - used))
  }

  function TasksIn(seconds: real): (n: nat)
    requires seconds >= 0.0
    ensures n as real * 600.0 <= seconds < (n + 1) as real * 600.0
  {
    (seconds / TASK_DURATION_SECONDS as real).Floor
  }

  /** The cap by seconds is the most tasks whose estimated time still fits. */
  lemma {:induction false} SecondsCapIsExact(limit: int, used: real, k: nat)
    ensures k <= CapBySeconds(Some(limit), used).value <==> k == 0 || used + 600.0 * k as real <= limit as real
  {
    if used < limit as real {
      var n := TasksIn(limit as real - used);
      if k <= n {
        assert 600.0 * k as real <= 600.0 * n as real;
      } else {
        assert k >= n + 1;
        assert 600.0 * k as real >= 600.0 * (n + 1) as real;
      }
    }
  }

  function QuotaCap(quota: Quota): Option<nat> {
    CapBySeconds(quota.monthly, quota.used)
  }

  /** The quota of a pool for all scopes together. */
  function MonthOf(info: PoolInfo): Quota {
    Quota(info.monthly, info.used)
  }

  /** The quota of a scope in a pool. */
  function QuotaOf(scope: ScopeInfo, p: PoolId): Quota {
    if p in scope.quotas then scope.quotas[p] else Quota(None, 0.0)
  }

  /** The three limits together. */
  function Cap(info: PoolInfo, workers: PoolWorkers, quota: Quota): Option<nat> {
    Tighter(Tighter(CapByInstances(info.maxActive, workers.total), QuotaCap(MonthOf(info))), QuotaCap(quota))
  }

  /** The cap by instances is the most workers with which the rows of the pool stay within the limit. */
  lemma InstancesCapIsExact(limit: int, total: nat, k: nat)
    ensures k <= CapByInstances(Some(limit), total).value <==> k == 0 || total + k <= limit
  {
  }

  /** `k` more workers keep the limit on rows, the monthly quota of the pool and that of the scope in it. */
  ghost predicate WithinAll(info: PoolInfo, workers: PoolWorkers, quota: Quota, k: nat) {
    k == 0 || (
      && (info.maxActive.Some? ==> workers.total + k <= info.maxActive.value)
      && (info.monthly.Some? ==> info.used + 600.0 * k as real <= info.monthly.value as real)
      && (quota.monthly.Some? ==> quota.used + 600.0 * k as real <= quota.monthly.value as real))
  }

  /** The three limits together let through the most that keeps all of them. */
  lemma {:induction false} CapIsExact(info: PoolInfo, workers: PoolWorkers, quota: Quota, amount: nat)
    ensures var most := AtMost(amount, Cap(info, workers, quota));
      && most <= amount && WithinAll(info, workers, quota, most)
      && forall k :: most < k <= amount ==> !WithinAll(info, workers, quota, k)
  {
    hide CapBySeconds, CapByInstances;
    forall k: nat
      ensures WithinAll(info, workers, quota, k) <==>
        (Cap(info, workers, quota).Some? ==> k <= Cap(info, workers, quota).value)
    {
      WithinAllExactly(info, workers, quota, k);
    }
  }

  lemma {:induction false} WithinAllExactly(info: PoolInfo, workers: PoolWorkers, quota: Quota, k: nat)
    ensures WithinAll(info, workers, quota, k) <==>
      (Cap(info, workers, quota).Some? ==> k <= Cap(info, workers, quota).value)
  {
    if info.maxActive.Some? {
      InstancesCapIsExact(info.maxActive.value, workers.total, k);
    }
    if info.monthly.Some? {
      SecondsCapIsExact(info.monthly.value, info.used, k);
    }
    if quota.monthly.Some? {
      SecondsCapIsExact(quota.monthly.value, quota.used, k);
    }
    CapsWithoutLimit(info, workers, quota);
    hide CapBySeconds, CapByInstances;
  }

  lemma CapsWithoutLimit(info: PoolInfo, workers: PoolWorkers, quota: Quota)
    ensures CapByInstances(info.maxActive, workers.total).None? <==> info.maxActive.None?
    ensures QuotaCap(MonthOf(info)).None? <==> info.monthly.None?
    ensures QuotaCap(quota).None? <==> quota.monthly.None?
  {
  }

  // ----- launching -----

  /** Stopped workers are launched first; new rows are only made for the rest. */
  function Launch(w: PoolWorkers, count: nat): PoolWorkers {
    if w.stopped < count then PoolWorkers(w.total + (count - w.stopped), 0) else PoolWorkers(w.total, w.stopped - count)
  }

  function Running(w: PoolWorkers): int {
    w.total - w.stopped
  }

  lemma NoneLaunched(rows: map<PoolId, PoolWorkers>, p: PoolId)
    requires p in rows
    ensures rows[p := Launch(rows[p], 0)] == rows
  {
  }

  lemma LaunchRuns(w: PoolWorkers, count: nat)
    ensures Running(Launch(w, count)) == Running(w) + count
    ensures w.total <= Launch(w, count).total <= w.total + count
    ensures Launch(w, count).total > w.total ==> Launch(w, count).stopped == 0
  {
  }

  /** A launch within the cap does not take a pool past its limit. */
  lemma {:induction false} LaunchWithinLimit(info: PoolInfo, w: PoolWorkers, quota: Quota, amount: nat)
    ensures info.maxActive.Some? ==>
      Launch(w, AtMost(amount, Cap(info, w, quota))).total <= Max(info.maxActive.value, w.total)
  {
    LaunchRuns(w, AtMost(amount, Cap(info, w, quota)));
  }

  // ----- greedy allocation -----

  /** What each pool gets, in order. */
  function Greedy(need: nat, caps: seq<Option<nat>>): (shares: seq<nat>)
    ensures |shares| == |caps|
  {
    if caps == [] then []
    else
      var share := AtMost(need, caps[0]);
      [share] + Greedy(need - share, caps[1..])
  }

  function Sum(s: seq<nat>): nat {
    if s == [] then 0 else s[0] + Sum(s[1..])
  }

  /** All that the pools can take; None if one of them has no cap. */
  function TotalCap(caps: seq<Option<nat>>): Option<nat> {
    if caps == [] then Some(0)
    else
      var rest := TotalCap(caps[1..]);
      if caps[0].None? || rest.None? then None else Some(caps[0].value + rest.value)
  }

  /** Together the pools get what is needed, or all that they can take. */
  lemma {:induction false} GreedyIsExact(need: nat, caps: seq<Option<nat>>)
    ensures Sum(Greedy(need, caps)) == AtMost(need, TotalCap(caps))
  {
    if caps != [] {
      var share := AtMost(need, caps[0]);
      GreedyIsExact(need - share, caps[1..]);
      assert Greedy(need, caps)[1..] == Greedy(need - share, caps[1..]);
    }
  }

  lemma {:induction false} GreedyOfNothing(caps: seq<Option<nat>>)
    ensures forall i :: 0 <= i < |caps| ==> Greedy(0, caps)[i] == 0
  {
    if caps != [] {
      GreedyOfNothing(caps[1..]);
    }
  }

  /** No pool gets more than its cap, and a pool gets something only after the pools before it are used up. */
  lemma {:induction false} GreedyInOrder(need: nat, caps: seq<Option<nat>>, i: nat)
    requires i < |caps|
    ensures Greedy(need, caps)[i] == AtMost(Greedy(need, caps)[i], caps[i])
    ensures Greedy(need, caps)[i] > 0 ==> forall j :: 0 <= j < i ==> caps[j] == Some(Greedy(need, caps)[j])
  {
    if i > 0 {
      var share := AtMost(need, caps[0]);
      GreedyInOrder(need - share, caps[1..], i - 1);
      if share == need {
        GreedyOfNothing(caps[1..]);
      }
      forall j | 0 <= j < i && Greedy(need, caps)[i] > 0
        ensures caps[j] == Some(Greedy(need, caps)[j])
      {
        if j > 0 {
          assert caps[1..][j - 1] == caps[j];
        }
      }
    }
  }

  // ----- how many workers are required -----

  function Ceil(x: real): int {
    -((-x).Floor)
  }

  /** `w` workers can start all pending tasks but the last within the target latency. */
  predicate Enough(w: int, pending: nat) {
    3600 * w >= 600 * (pending - 1)
  }

  function Required(pending: nat): nat {
    if pending == 0 then 0
    else Max(1, (TASK_DURATION_SECONDS * (pending - 1) + TARGET_LATENCY_SECONDS - 1) / TARGET_LATENCY_SECONDS)
  }

  /** The least number of workers, at least one, that is enough. It is never above the number of tasks. */
  method WorkersRequired(pending: nat) returns (w: nat)
    ensures pending == 0 <==> w == 0
    ensures pending > 0 ==> Enough(w, pending) && forall v :: 0 < v < w ==> !Enough(v, pending)
    ensures w <= pending && w == Required(pending)
  {
    if pending == 0 {
      return 0;
    }
    var pendingSeconds := TASK_DURATION_SECONDS * Max(pending - 1, 0);
    var fraction := pendingSeconds as real / TARGET_LATENCY_SECONDS as real;
    var workers := Ceil(fraction);
    assert workers as real - 1.0 < fraction <= workers as real;
    w := Max(1, Min(workers, pending));
  }

  // ----- one scope after the other -----

  type Rows = map<PoolId, PoolWorkers>
  type Infos = map<PoolId, PoolInfo>

  /** Visits the pools in order: what each of them gives, and the rows afterwards. */
  ghost function Visit(rows: Rows, infos: Infos, scope: ScopeInfo, ids: seq<PoolId>, need: nat): (r: (seq<nat>, Rows))
    requires rows.Keys == infos.Keys && forall p :: p in ids ==> p in rows
    ensures |r.0| == |ids| && r.1.Keys == rows.Keys
  {
    if ids == [] then ([], rows)
    else
      var p := ids[0];
      var share := AtMost(need, Cap(infos[p], rows[p], QuotaOf(scope, p)));
      var rest := Visit(rows[p := Launch(rows[p], share)], infos, scope, ids[1..], need - share);
      ([share] + rest.0, rest.1)
  }

  function Caps(rows: Rows, infos: Infos, scope: ScopeInfo, ids: seq<PoolId>): (caps: seq<Option<nat>>)
    requires rows.Keys == infos.Keys && forall p :: p in ids ==> p in rows
    ensures |caps| == |ids|
    ensures forall i :: 0 <= i < |ids| ==> caps[i] == Cap(infos[ids[i]], rows[ids[i]], QuotaOf(scope, ids[i]))
  {
    if ids == [] then []
    else [Cap(infos[ids[0]], rows[ids[0]], QuotaOf(scope, ids[0]))] + Caps(rows, infos, scope, ids[1..])
  }

  predicate Distinct(ids: seq<PoolId>) {
    forall i, j :: 0 <= i < j < |ids| ==> ids[i] != ids[j]
  }

  /** When no pool is listed twice, the visit is the greedy allocation under the caps at the start, and the rows
      change by just these launches. */
  lemma {:induction false} VisitIsGreedy(rows: Rows, infos: Infos, scope: ScopeInfo, ids: seq<PoolId>, need: nat)
    requires rows.Keys == infos.Keys && (forall p :: p in ids ==> p in rows) && Distinct(ids)
    ensures Visit(rows, infos, scope, ids, need).0 == Greedy(need, Caps(rows, infos, scope, ids))
    ensures forall i :: 0 <= i < |ids| ==>
      Visit(rows, infos, scope, ids, need).1[ids[i]] == Launch(rows[ids[i]], Visit(rows, infos, scope, ids, need).0[i])
    ensures forall p :: p in rows && p !in ids ==> Visit(rows, infos, scope, ids, need).1[p] == rows[p]
  {
    if ids != [] {
      var p := ids[0];
      var share := AtMost(need, Cap(infos[p], rows[p], QuotaOf(scope, p)));
      var rows' := rows[p := Launch(rows[p], share)];
      assert p !in ids[1..];
      VisitIsGreedy(rows', infos, scope, ids[1..], need - share);
      CapsStay(rows, rows', infos, scope, ids[1..]);
      assert Caps(rows, infos, scope, ids)[1..] == Caps(rows, infos, scope, ids[1..]);
    }
  }

  /** Allocation is exact: when no pool is listed twice, the scope gets what it needs, or else all that the caps
      of its pools allow, and each pool is used up before the next one is touched. */
  lemma {:induction false} ScopeGetsAllItCan(rows: Rows, infos: Infos, scope: ScopeInfo, ids: seq<PoolId>, need: nat)
    requires rows.Keys == infos.Keys && (forall p :: p in ids ==> p in rows) && Distinct(ids)
    ensures
      var shares, caps := Visit(rows, infos, scope, ids, need).0, Caps(rows, infos, scope, ids);
      && Sum(shares) == AtMost(need, TotalCap(caps))
      && forall i, j :: 0 <= j < i < |ids| && shares[i] > 0 ==> caps[j] == Some(shares[j])
  {
    var caps := Caps(rows, infos, scope, ids);
    VisitIsGreedy(rows, infos, scope, ids, need);
    GreedyIsExact(need, caps);
    forall i, j | 0 <= j < i < |ids| && Greedy(need, caps)[i] > 0
      ensures caps[j] == Some(Greedy(need, caps)[j])
    {
      GreedyInOrder(need, caps, i);
    }
  }

  lemma CapsStay(rows: Rows, rows': Rows, infos: Infos, scope: ScopeInfo, ids: seq<PoolId>)
    requires rows.Keys == rows'.Keys == infos.Keys && forall p :: p in ids ==> p in rows && rows[p] == rows'[p]
    ensures Caps(rows, infos, scope, ids) == Caps(rows', infos, scope, ids)
  {
  }

  /** No pool grows past its limit, and a pool whose rows have reached the limit is not used at all, even if all
      of its workers are stopped. */
  ghost predicate WithinLimits(infos: Infos, before: Rows, after: Rows)
    requires before.Keys == after.Keys == infos.Keys
  {
    forall p :: p in infos && infos[p].maxActive.Some? ==>
      after[p].total <= Max(infos[p].maxActive.value, before[p].total)
      && (before[p].total >= infos[p].maxActive.value ==> after[p] == before[p])
  }

  lemma {:induction false} VisitWithinLimits(rows: Rows, infos: Infos, scope: ScopeInfo, ids: seq<PoolId>, need: nat)
    requires rows.Keys == infos.Keys && forall p :: p in ids ==> p in rows
    ensures WithinLimits(infos, rows, Visit(rows, infos, scope, ids, need).1)
  {
    if ids != [] {
      var p := ids[0];
      var share := AtMost(need, Cap(infos[p], rows[p], QuotaOf(scope, p)));
      LaunchWithinLimit(infos[p], rows[p], QuotaOf(scope, p), need);
      VisitWithinLimits(rows[p := Launch(rows[p], share)], infos, scope, ids[1..], need - share);
    }
  }

  lemma WithinLimitsTransitive(infos: Infos, a: Rows, b: Rows, c: Rows)
    requires a.Keys == b.Keys == c.Keys == infos.Keys && WithinLimits(infos, a, b) && WithinLimits(infos, b, c)
    ensures WithinLimits(infos, a, c)
  {
  }

  function TotalRows(rows: Rows, ids: seq<PoolId>): nat
    requires forall p :: p in ids ==> p in rows
  {
    if ids == [] then 0 else rows[ids[0]].total + TotalRows(rows, ids[1..])
  }

  // ----- all visits of all scopes -----

  /** One visit of a pool. The demand is how many workers are wanted of it that the limit of instances and the quota of
      the scope let through, and the scope's demand how many the limit of instances and the quota of the pool let
      through. The share is what the pool gives. */
  datatype VisitOf = VisitOf(pool: PoolId, demand: nat, scopeDemand: nat, share: nat)

  function Demand(info: PoolInfo, workers: PoolWorkers, quota: Quota, need: nat): nat {
    AtMost(AtMost(need, CapByInstances(info.maxActive, workers.total)), QuotaCap(quota))
  }

  function VisitNow(rows: Rows, infos: Infos, scope: ScopeInfo, p: PoolId, need: nat): VisitOf
    requires p in rows && p in infos
  {
    var info, quota := infos[p], QuotaOf(scope, p);
    VisitOf(p, Demand(info, rows[p], quota, need), Demand(info, rows[p], MonthOf(info), need),
            AtMost(need, Cap(info, rows[p], quota)))
  }

  /** The pools are visited in order until nothing is needed any more. */
  function VisitsOf(rows: Rows, infos: Infos, scope: ScopeInfo, ids: seq<PoolId>, need: nat): seq<VisitOf>
    requires rows.Keys == infos.Keys && forall p :: p in ids ==> p in rows
  {
    if ids == [] || need == 0 then []
    else
      var visit := VisitNow(rows, infos, scope, ids[0], need);
      [visit] + VisitsOf(rows[ids[0] := Launch(rows[ids[0]], visit.share)], infos, scope, ids[1..], need - visit.share)
  }

  /** What is fixed while the scopes are processed. */
  datatype Setting = Setting(infos: Infos, instanceWide: seq<PoolId>, staticWorkers: nat)

  ghost predicate Fits(setting: Setting, rows: Rows, scopes: seq<ScopeInfo>) {
    && rows.Keys == setting.infos.Keys && (forall p :: p in setting.instanceWide ==> p in rows)
    && forall s, p :: s in scopes && p in s.pools ==> p in rows
  }

  function Need(setting: Setting, rows: Rows, scope: ScopeInfo): nat
    requires Fits(setting, rows, [scope])
  {
    assert scope in [scope];
    var available := setting.staticWorkers + TotalRows(rows, setting.instanceWide) + TotalRows(rows, scope.pools);
    Max(0, Required(scope.pending) - available)
  }

  ghost function AllVisits(setting: Setting, rows: Rows, scopes: seq<ScopeInfo>): seq<VisitOf>
    requires Fits(setting, rows, scopes)
  {
    if scopes == [] then []
    else
      var ids, need := scopes[0].pools + setting.instanceWide, Need(setting, rows, scopes[0]);
      VisitsOf(rows, setting.infos, scopes[0], ids, need)
      + AllVisits(setting, Visit(rows, setting.infos, scopes[0], ids, need).1, scopes[1..])
  }

  function Launched(visits: seq<VisitOf>, p: PoolId): nat {
    if visits == [] then 0
    else Launched(visits[..|visits| - 1], p) + if visits[|visits| - 1].pool == p then visits[|visits| - 1].share else 0
  }

  lemma {:induction false} LaunchedTogether(a: seq<VisitOf>, b: seq<VisitOf>, p: PoolId)
    ensures Launched(a + b, p) == Launched(a, p) + Launched(b, p)
  {
    if b == [] {
      assert a + b == a;
    } else {
      assert (a + b)[..|a + b| - 1] == a + b[..|b| - 1];
      LaunchedTogether(a, b[..|b| - 1], p);
    }
  }

  /** A visit gives what is wanted, up to what the monthly quota of the pool allowed at the start. */
  ghost predicate GivesByQuota(infos: Infos, visits: seq<VisitOf>) {
    forall v :: v in visits ==> v.pool in infos && v.share == AtMost(v.demand, QuotaCap(MonthOf(infos[v.pool])))
  }

  /** It also gives what is wanted up to what the quota of the scope allowed. */
  ghost predicate GivesByScopeQuota(scope: ScopeInfo, visits: seq<VisitOf>) {
    forall v :: v in visits ==> v.share == AtMost(v.scopeDemand, QuotaCap(QuotaOf(scope, v.pool)))
  }

  lemma ShareByQuota(rows: Rows, infos: Infos, scope: ScopeInfo, p: PoolId, need: nat)
    requires p in rows && p in infos
    ensures var v := VisitNow(rows, infos, scope, p, need);
      && v.share == AtMost(v.demand, QuotaCap(MonthOf(infos[p])))
      && v.share == AtMost(v.scopeDemand, QuotaCap(QuotaOf(scope, p)))
  {
    hide CapBySeconds, CapByInstances, QuotaOf;
  }

  lemma {:induction false} VisitsGiveByQuota(rows: Rows, infos: Infos, scope: ScopeInfo, ids: seq<PoolId>, need: nat)
    requires rows.Keys == infos.Keys && forall p :: p in ids ==> p in rows
    ensures var visits := VisitsOf(rows, infos, scope, ids, need);
      GivesByQuota(infos, visits) && GivesByScopeQuota(scope, visits)
  {
    hide Cap, QuotaCap, Launch, QuotaOf, MonthOf;
    if ids != [] && need > 0 {
      var visit := VisitNow(rows, infos, scope, ids[0], need);
      ShareByQuota(rows, infos, scope, ids[0], need);
      var rows' := rows[ids[0] := Launch(rows[ids[0]], visit.share)];
      VisitsGiveByQuota(rows', infos, scope, ids[1..], need - visit.share);
    }
  }

  /** All workers that run more than before were launched by one of the visits. */
  ghost predicate RunsMore(before: Rows, after: Rows, visits: seq<VisitOf>) {
    before.Keys == after.Keys &&
      forall p :: p in before ==> Running(after[p]) == Running(before[p]) + Launched(visits, p)
  }

  lemma {:induction false} VisitsAreLaunches(rows: Rows, infos: Infos, scope: ScopeInfo, ids: seq<PoolId>, need: nat)
    requires rows.Keys == infos.Keys && forall p :: p in ids ==> p in rows
    ensures RunsMore(rows, Visit(rows, infos, scope, ids, need).1, VisitsOf(rows, infos, scope, ids, need))
  {
    if ids == [] {
    } else if need == 0 {
      NoNeedNoChange(rows, infos, scope, ids);
    } else {
      var visit := VisitNow(rows, infos, scope, ids[0], need);
      var rows', rest := rows[ids[0] := Launch(rows[ids[0]], visit.share)], need - visit.share;
      VisitsAreLaunches(rows', infos, scope, ids[1..], rest);
      LaunchRuns(rows[ids[0]], visit.share);
      assert [visit][..0] == [];
      forall p | p in rows
        ensures Launched([visit] + VisitsOf(rows', infos, scope, ids[1..], rest), p) ==
          (if p == ids[0] then visit.share else 0) + Launched(VisitsOf(rows', infos, scope, ids[1..], rest), p)
      {
        LaunchedTogether([visit], VisitsOf(rows', infos, scope, ids[1..], rest), p);
      }
    }
  }

  lemma {:induction false} AllGiveByQuota(setting: Setting, rows: Rows, scopes: seq<ScopeInfo>)
    requires Fits(setting, rows, scopes)
    ensures GivesByQuota(setting.infos, AllVisits(setting, rows, scopes))
    decreases |scopes|
  {
    if scopes != [] {
      var ids, need := scopes[0].pools + setting.instanceWide, Need(setting, rows, scopes[0]);
      VisitsGiveByQuota(rows, setting.infos, scopes[0], ids, need);
      AllGiveByQuota(setting, Visit(rows, setting.infos, scopes[0], ids, need).1, scopes[1..]);
    }
  }

  ghost predicate WithinMonth(quota: Quota, launched: nat) {
    || quota.monthly.None? || launched == 0
    || quota.used + 600.0 * launched as real <= quota.monthly.value as real
  }

  /** The visit finds its pool untouched, or wants no more of it than is left. */
  ghost predicate FindsRoom(quota: Quota, wanted: nat, visits: seq<VisitOf>, i: nat)
    requires i < |visits|
  {
    var cap, before := QuotaCap(quota), Launched(visits[..i], visits[i].pool);
    cap.None? || before == 0 || before + wanted <= cap.value
  }

  lemma {:induction false} MoreIsLaunched(visits: seq<VisitOf>, i: nat, p: PoolId)
    requires i <= |visits|
    ensures Launched(visits[..i], p) <= Launched(visits, p)
    ensures i < |visits| && visits[i].pool == p ==> Launched(visits[..i], p) + visits[i].share <= Launched(visits, p)
  {
    var n := |visits| - 1;
    if i == n + 1 {
      assert visits[..i] == visits;
    } else if i < n {
      MoreIsLaunched(visits[..n], i, p);
      assert visits[..n][..i] == visits[..i];
    }
  }

  /** All visits of the pool find room, if that many are wanted in turn. */
  ghost predicate AllFindRoom(quota: Quota, wanted: seq<nat>, visits: seq<VisitOf>, p: PoolId)
    requires |wanted| == |visits|
  {
    forall i :: 0 <= i < |visits| && visits[i].pool == p ==> FindsRoom(quota, wanted[i], visits, i)
  }

  lemma {:induction false} RoomBefore(quota: Quota, wanted: seq<nat>, visits: seq<VisitOf>, p: PoolId, n: nat)
    requires |wanted| == |visits| == n + 1
    ensures AllFindRoom(quota, wanted, visits, p) <==>
      && AllFindRoom(quota, wanted[..n], visits[..n], p)
      && (visits[n].pool == p ==> FindsRoom(quota, wanted[n], visits, n))
  {
    forall i | 0 <= i < n
      ensures FindsRoom(quota, wanted[i], visits[..n], i) <==> FindsRoom(quota, wanted[i], visits, i)
    {
      assert visits[..n][..i] == visits[..i];
    }
  }

  lemma {:induction false} WithinCapExactly(quota: Quota, wanted: seq<nat>, visits: seq<VisitOf>, p: PoolId, cap: nat)
    requires |wanted| == |visits| && QuotaCap(quota) == Some(cap)
    requires forall i :: 0 <= i < |visits| && visits[i].pool == p ==> visits[i].share == AtMost(wanted[i], Some(cap))
    ensures Launched(visits, p) <= cap <==> AllFindRoom(quota, wanted, visits, p)
    decreases |visits|
  {
    if visits != [] {
      var n := |visits| - 1;
      WithinCapExactly(quota, wanted[..n], visits[..n], p, cap);
      RoomBefore(quota, wanted, visits, p, n);
      MoreIsLaunched(visits, n, p);
    }
  }

  /** What is launched by a quota stays within it exactly as long as every visit finds room. */
  lemma {:induction false} WithinMonthExactly(quota: Quota, wanted: seq<nat>, visits: seq<VisitOf>, p: PoolId)
    requires |wanted| == |visits|
    requires forall i :: 0 <= i < |visits| && visits[i].pool == p ==>
      visits[i].share == AtMost(wanted[i], QuotaCap(quota))
    ensures WithinMonth(quota, Launched(visits, p)) <==> AllFindRoom(quota, wanted, visits, p)
  {
    if quota.monthly.Some? {
      SecondsCapIsExact(quota.monthly.value, quota.used, Launched(visits, p));
      WithinCapExactly(quota, wanted, visits, p, QuotaCap(quota).value);
    }
  }

  function Demands(visits: seq<VisitOf>): seq<nat> {
    seq(|visits|, i requires 0 <= i < |visits| => visits[i].demand)
  }

  function ScopeDemands(visits: seq<VisitOf>): seq<nat> {
    seq(|visits|, i requires 0 <= i < |visits| => visits[i].scopeDemand)
  }

  /** The monthly quota of a pool is kept, over all scopes, exactly if no visit finds that earlier ones left less than
      it wants: the quota is compared with the time used before, not with what was launched since. */
  lemma {:induction false} QuotaKeptExactly(setting: Setting, rows: Rows, scopes: seq<ScopeInfo>, p: PoolId)
    requires Fits(setting, rows, scopes) && p in setting.infos
    ensures var visits, quota := AllVisits(setting, rows, scopes), MonthOf(setting.infos[p]);
      WithinMonth(quota, Launched(visits, p)) <==> AllFindRoom(quota, Demands(visits), visits, p)
  {
    var visits := AllVisits(setting, rows, scopes);
    AllGiveByQuota(setting, rows, scopes);
    assert forall i :: 0 <= i < |visits| ==> visits[i] in visits;
    WithinMonthExactly(MonthOf(setting.infos[p]), Demands(visits), visits, p);
  }

  /** The same for the quota of a scope in a pool, over the visits for this scope. */
  lemma {:induction false} ScopeQuotaKeptExactly(rows: Rows, infos: Infos, scope: ScopeInfo, ids: seq<PoolId>,
                                                 need: nat, p: PoolId)
    requires rows.Keys == infos.Keys && forall p :: p in ids ==> p in rows
    ensures var visits, quota := VisitsOf(rows, infos, scope, ids, need), QuotaOf(scope, p);
      WithinMonth(quota, Launched(visits, p)) <==> AllFindRoom(quota, ScopeDemands(visits), visits, p)
  {
    var visits := VisitsOf(rows, infos, scope, ids, need);
    VisitsGiveByQuota(rows, infos, scope, ids, need);
    assert forall i :: 0 <= i < |visits| ==> visits[i] in visits;
    WithinMonthExactly(QuotaOf(scope, p), ScopeDemands(visits), visits, p);
  }

  lemma {:induction false} LaunchedFirst(visit: VisitOf, rest: seq<VisitOf>, p: PoolId)
    ensures Launched([visit] + rest, p) == (if visit.pool == p then visit.share else 0) + Launched(rest, p)
  {
    LaunchedTogether([visit], rest, p);
    assert [visit][..0] == [];
  }

  lemma {:induction false} NotVisited(rows: Rows, infos: Infos, scope: ScopeInfo, ids: seq<PoolId>, need: nat,
                                      p: PoolId)
    requires rows.Keys == infos.Keys && (forall q :: q in ids ==> q in rows) && p !in ids
    ensures Launched(VisitsOf(rows, infos, scope, ids, need), p) == 0
  {
    hide Cap, Launch, Demand, Launched;
    if ids != [] && need > 0 {
      var visit := VisitNow(rows, infos, scope, ids[0], need);
      var rows', rest := rows[ids[0] := Launch(rows[ids[0]], visit.share)], need - visit.share;
      NotVisited(rows', infos, scope, ids[1..], rest, p);
      LaunchedFirst(visit, VisitsOf(rows', infos, scope, ids[1..], rest), p);
    } else {
      NothingLaunched(p);
    }
  }

  lemma NothingLaunched(p: PoolId)
    ensures Launched([], p) == 0
  {
  }

  lemma {:induction false} LaunchedWithinScopeCap(rows: Rows, infos: Infos, scope: ScopeInfo, ids: seq<PoolId>,
                                                  need: nat, p: PoolId)
    requires rows.Keys == infos.Keys && (forall q :: q in ids ==> q in rows) && Distinct(ids)
    ensures var launched := Launched(VisitsOf(rows, infos, scope, ids, need), p);
      launched == AtMost(launched, QuotaCap(QuotaOf(scope, p)))
  {
    hide Cap, Launch, Demand, Launched, QuotaCap, QuotaOf;
    if ids != [] && need > 0 {
      var visit := VisitNow(rows, infos, scope, ids[0], need);
      var rows', rest := rows[ids[0] := Launch(rows[ids[0]], visit.share)], need - visit.share;
      assert ids[0] !in ids[1..];
      LaunchedWithinScopeCap(rows', infos, scope, ids[1..], rest, p);
      LaunchedFirst(visit, VisitsOf(rows', infos, scope, ids[1..], rest), p);
      if ids[0] == p {
        NotVisited(rows', infos, scope, ids[1..], rest, p);
        ShareByQuota(rows, infos, scope, p, need);
      }
    } else {
      NothingLaunched(p);
    }
  }

  /** When no pool is listed twice, the quota of a scope is always kept. */
  lemma {:induction false} ScopeQuotaKept(rows: Rows, infos: Infos, scope: ScopeInfo, ids: seq<PoolId>, need: nat,
                                          p: PoolId)
    requires rows.Keys == infos.Keys && (forall q :: q in ids ==> q in rows) && Distinct(ids)
    ensures WithinMonth(QuotaOf(scope, p), Launched(VisitsOf(rows, infos, scope, ids, need), p))
  {
    var quota, launched := QuotaOf(scope, p), Launched(VisitsOf(rows, infos, scope, ids, need), p);
    LaunchedWithinScopeCap(rows, infos, scope, ids, need, p);
    if quota.monthly.Some? {
      SecondsCapIsExact(quota.monthly.value, quota.used, launched);
    }
  }

  function TotalOf(visits: seq<VisitOf>): nat {
    if visits == [] then 0 else visits[0].share + TotalOf(visits[1..])
  }

  lemma {:induction false} NoNeedNoShares(rows: Rows, infos: Infos, scope: ScopeInfo, ids: seq<PoolId>)
    requires rows.Keys == infos.Keys && forall p :: p in ids ==> p in rows
    ensures Sum(Visit(rows, infos, scope, ids, 0).0) == 0
  {
    hide Cap, Launch;
    if ids != [] {
      NoNeedNoShares(rows[ids[0] := Launch(rows[ids[0]], 0)], infos, scope, ids[1..]);
      var shares := Visit(rows, infos, scope, ids, 0).0;
      assert shares[1..] == Visit(rows[ids[0] := Launch(rows[ids[0]], 0)], infos, scope, ids[1..], 0).0;
    }
  }

  lemma {:induction false} SharesOfVisits(rows: Rows, infos: Infos, scope: ScopeInfo, ids: seq<PoolId>, need: nat)
    requires rows.Keys == infos.Keys && forall p :: p in ids ==> p in rows
    ensures TotalOf(VisitsOf(rows, infos, scope, ids, need)) == Sum(Visit(rows, infos, scope, ids, need).0)
  {
    hide Cap, Launch, Demand;
    if need == 0 {
      NoNeedNoShares(rows, infos, scope, ids);
    } else if ids != [] {
      var visit := VisitNow(rows, infos, scope, ids[0], need);
      var rows', rest := rows[ids[0] := Launch(rows[ids[0]], visit.share)], need - visit.share;
      SharesOfVisits(rows', infos, scope, ids[1..], rest);
      var visits, shares := VisitsOf(rows, infos, scope, ids, need), Visit(rows, infos, scope, ids, need).0;
      assert visits[1..] == VisitsOf(rows', infos, scope, ids[1..], rest);
      assert shares[1..] == Visit(rows', infos, scope, ids[1..], rest).0;
    }
  }

  /** However often a pool is listed, no more is allocated than needed. */
  lemma {:induction false} VisitWithinNeed(rows: Rows, infos: Infos, scope: ScopeInfo, ids: seq<PoolId>, need: nat)
    requires rows.Keys == infos.Keys && forall p :: p in ids ==> p in rows
    ensures TotalOf(VisitsOf(rows, infos, scope, ids, need)) <= need
  {
    hide Cap, Launch, Demand;
    if ids != [] && need > 0 {
      var visit := VisitNow(rows, infos, scope, ids[0], need);
      var rows', rest := rows[ids[0] := Launch(rows[ids[0]], visit.share)], need - visit.share;
      VisitWithinNeed(rows', infos, scope, ids[1..], rest);
      var visits := VisitsOf(rows, infos, scope, ids, need);
      assert visits[1..] == VisitsOf(rows', infos, scope, ids[1..], rest);
    }
  }

  /** What the visits for one scope bring: no more than is needed, and the quota of the scope in a pool is kept exactly
      if they find room. If no pool is listed twice, they bring all that the caps allow, and keep the quotas. */
  ghost predicate ScopeServed(rows: Rows, infos: Infos, scope: ScopeInfo, ids: seq<PoolId>, need: nat,
                              made: seq<VisitOf>)
    requires rows.Keys == infos.Keys && forall p :: p in ids ==> p in rows
  {
    && TotalOf(made) <= need
    && (forall p :: p in infos ==> (
          WithinMonth(QuotaOf(scope, p), Launched(made, p)) <==>
          AllFindRoom(QuotaOf(scope, p), ScopeDemands(made), made, p)))
    && (Distinct(ids) ==> TotalOf(made) == AtMost(need, TotalCap(Caps(rows, infos, scope, ids))))
    && (Distinct(ids) ==> forall p :: p in infos ==> WithinMonth(QuotaOf(scope, p), Launched(made, p)))
  }

  lemma {:induction false} ScopeIsServed(rows: Rows, infos: Infos, scope: ScopeInfo, ids: seq<PoolId>, need: nat)
    requires rows.Keys == infos.Keys && forall p :: p in ids ==> p in rows
    ensures ScopeServed(rows, infos, scope, ids, need, VisitsOf(rows, infos, scope, ids, need))
  {
    var made := VisitsOf(rows, infos, scope, ids, need);
    VisitWithinNeed(rows, infos, scope, ids, need);
    hide VisitsOf, Visit, WithinMonth, AllFindRoom, QuotaOf, Launched, Caps;
    forall p | p in infos
      ensures WithinMonth(QuotaOf(scope, p), Launched(made, p)) <==>
        AllFindRoom(QuotaOf(scope, p), ScopeDemands(made), made, p)
      ensures Distinct(ids) ==> WithinMonth(QuotaOf(scope, p), Launched(made, p))
    {
      ScopeQuotaKeptExactly(rows, infos, scope, ids, need, p);
      if Distinct(ids) {
        ScopeQuotaKept(rows, infos, scope, ids, need, p);
      }
    }
    if Distinct(ids) {
      ScopeGetsAllItCan(rows, infos, scope, ids, need);
      SharesOfVisits(rows, infos, scope, ids, need);
    }
  }

  const ONE_TASK := PoolInfo(None, Some(600), 0.0)

  ghost function OnePool(info: PoolInfo): Infos {
    map[0 := info]
  }

  ghost function OneRow(total: nat): Rows {
    map[0 := PoolWorkers(total, 0)]
  }

  lemma {:induction false} OneTaskFits()
    ensures CapBySeconds(Some(600), 0.0) == Some(1)
  {
    assert TasksIn(600.0) == 1;
  }

  /** What makes every visit of pool 0 give just one worker: the quota of the pool or that of the scope. */
  ghost predicate OneEach(info: PoolInfo, scope: ScopeInfo) {
    && info.maxActive.None?
    && QuotaCap(MonthOf(info)) in {None, Some(1)} && QuotaCap(QuotaOf(scope, 0)) in {None, Some(1)}
    && (QuotaCap(MonthOf(info)) == Some(1) || QuotaCap(QuotaOf(scope, 0)) == Some(1))
  }

  /** A visit of the only pool, of which something is wanted. */
  function Single(info: PoolInfo, scope: ScopeInfo, need: nat): VisitOf {
    VisitOf(0, AtMost(need, QuotaCap(QuotaOf(scope, 0))), AtMost(need, QuotaCap(MonthOf(info))), 1)
  }

  lemma {:induction false} OneNow(info: PoolInfo, total: nat, scope: ScopeInfo, need: nat)
    requires OneEach(info, scope) && 0 < need
    ensures VisitNow(OneRow(total), OnePool(info), scope, 0, need) == Single(info, scope, need)
    ensures AtMost(need, Cap(info, OneRow(total)[0], QuotaOf(scope, 0))) == 1
    ensures OneRow(total)[0 := Launch(OneRow(total)[0], 1)] == OneRow(total + 1)
  {
    hide CapBySeconds, QuotaOf;
  }

  lemma {:induction false} OneGiven(info: PoolInfo, total: nat, scope: ScopeInfo, ids: seq<PoolId>, need: nat)
    requires OneEach(info, scope) && 0 < need && ids != [] && ids[0] == 0 && forall p :: p in ids ==> p == 0
    ensures VisitsOf(OneRow(total), OnePool(info), scope, ids, need) ==
      [Single(info, scope, need)] + VisitsOf(OneRow(total + 1), OnePool(info), scope, ids[1..], need - 1)
    ensures Visit(OneRow(total), OnePool(info), scope, ids, need).1 ==
      Visit(OneRow(total + 1), OnePool(info), scope, ids[1..], need - 1).1
  {
    OneNow(info, total, scope, need);
    hide VisitNow, Cap, AtMost, Launch, QuotaOf, OneEach;
  }

  lemma {:induction false} OneVisited(total: nat, scope: ScopeInfo, ids: seq<PoolId>, need: nat)
    requires scope.quotas == map[] && 0 < need && ids == [0]
    ensures VisitsOf(OneRow(total), OnePool(ONE_TASK), scope, ids, need) == [VisitOf(0, need, 1, 1)]
    ensures Visit(OneRow(total), OnePool(ONE_TASK), scope, ids, need).1 == OneRow(total + 1)
  {
    OneTaskFits();
    OneGiven(ONE_TASK, total, scope, ids, need);
    hide VisitNow, Launch;
    assert ids[1..] == [];
  }

  lemma {:induction false} StillNeeded(total: nat, scope: ScopeInfo)
    requires scope.pending == 13 && scope.pools == [] && total < 2
    requires Fits(Setting(OnePool(ONE_TASK), [0], 0), OneRow(total), [scope])
    ensures Need(Setting(OnePool(ONE_TASK), [0], 0), OneRow(total), scope) == 2 - total
  {
    assert [0][1..] == [];
  }

  lemma FirstScope(setting: Setting, rows: Rows, scopes: seq<ScopeInfo>)
    requires Fits(setting, rows, scopes) && scopes != [] && Fits(setting, rows, [scopes[0]])
    ensures
      var ids, need := scopes[0].pools + setting.instanceWide, Need(setting, rows, scopes[0]);
      AllVisits(setting, rows, scopes) ==
        VisitsOf(rows, setting.infos, scopes[0], ids, need)
        + AllVisits(setting, Visit(rows, setting.infos, scopes[0], ids, need).1, scopes[1..])
  {
  }

  lemma {:induction false} LastScope(setting: Setting, rows: Rows, scope: ScopeInfo)
    requires Fits(setting, rows, [scope])
    ensures AllVisits(setting, rows, [scope]) ==
      VisitsOf(rows, setting.infos, scope, scope.pools + setting.instanceWide, Need(setting, rows, scope))
  {
    assert [scope][1..] == [];
  }

  lemma {:induction false} TwiceGiven(info: PoolInfo, scope: ScopeInfo, ids: seq<PoolId>)
    requires OneEach(info, scope) && ids == [0, 0]
    ensures VisitsOf(OneRow(0), OnePool(info), scope, ids, 2) == [Single(info, scope, 2), Single(info, scope, 1)]
  {
    OneGiven(info, 0, scope, ids, 2);
    assert ids[1..] == [0] && [0][1..] == [];
    OneGiven(info, 1, scope, [0], 1);
  }

  lemma {:induction false} TwoNeeded(setting: Setting, scope: ScopeInfo)
    requires setting.instanceWide == [0] && setting.staticWorkers == 0 && scope.pools == [0] && scope.pending == 13
    requires Fits(setting, OneRow(0), [scope])
    ensures Need(setting, OneRow(0), scope) == 2
  {
    assert [0][1..] == [];
  }

  lemma {:induction false} TwoLaunched(a: VisitOf, b: VisitOf)
    requires a.pool == b.pool == 0 && a.share == b.share == 1
    ensures Launched([a, b], 0) == 2
  {
    var both, one := [a, b], [a];
    assert both[..|both| - 1] == one && one[..|one| - 1] == [];
    assert Launched(one, 0) == 1;
  }

  /** A pool that is listed twice, as a pool of the scope and as an instance-wide pool, gets more than its monthly quota
      allows: there is time for one task, and two workers are launched. */
  lemma {:induction false} ListedTwiceExceedsQuota()
    ensures
      var setting, scopes := Setting(OnePool(ONE_TASK), [0], 0), [ScopeInfo(13, [0], map[])];
      && Fits(setting, OneRow(0), scopes)
      && AllVisits(setting, OneRow(0), scopes) == [VisitOf(0, 2, 1, 1), VisitOf(0, 1, 1, 1)]
      && !WithinMonth(MonthOf(ONE_TASK), Launched(AllVisits(setting, OneRow(0), scopes), 0))
  {
    OneTaskFits();
    hide Visit, VisitsOf, Need;
    var setting, scope := Setting(OnePool(ONE_TASK), [0], 0), ScopeInfo(13, [0], map[]);
    LastScope(setting, OneRow(0), scope);
    TwoNeeded(setting, scope);
    TwiceGiven(ONE_TASK, scope, scope.pools + setting.instanceWide);
    TwoLaunched(VisitOf(0, 2, 1, 1), VisitOf(0, 1, 1, 1));
  }

  /** It also gets more than the quota of the scope in it allows, even if the pool itself has no limits. */
  lemma {:induction false} ListedTwiceExceedsScopeQuota()
    ensures
      var quota, free := Quota(Some(600), 0.0), PoolInfo(None, None, 0.0);
      var setting, scopes := Setting(OnePool(free), [0], 0), [ScopeInfo(13, [0], map[0 := quota])];
      && Fits(setting, OneRow(0), scopes) && QuotaOf(scopes[0], 0) == quota
      && AllVisits(setting, OneRow(0), scopes) == [VisitOf(0, 1, 2, 1), VisitOf(0, 1, 1, 1)]
      && !WithinMonth(quota, Launched(AllVisits(setting, OneRow(0), scopes), 0))
  {
    OneTaskFits();
    hide Visit, VisitsOf, Need;
    var free, scope := PoolInfo(None, None, 0.0), ScopeInfo(13, [0], map[0 := Quota(Some(600), 0.0)]);
    var setting := Setting(OnePool(free), [0], 0);
    LastScope(setting, OneRow(0), scope);
    TwoNeeded(setting, scope);
    TwiceGiven(free, scope, scope.pools + setting.instanceWide);
    TwoLaunched(VisitOf(0, 1, 2, 1), VisitOf(0, 1, 1, 1));
  }

  lemma {:induction false} SharedFits(setting: Setting, scope: ScopeInfo, scopes: seq<ScopeInfo>)
    requires setting == Setting(OnePool(ONE_TASK), [0], 0)
    requires scope == ScopeInfo(13, [], map[]) && scopes == [scope, scope]
    ensures Fits(setting, OneRow(0), scopes) && Fits(setting, OneRow(0), [scope]) && Fits(setting, OneRow(1), [scope])
    ensures |scopes| == 2 && scopes[0] == scope && scopes[1..] == [scope] && scope.pools + setting.instanceWide == [0]
    ensures !WithinMonth(MonthOf(ONE_TASK), 2)
  {
    OneTaskFits();
    assert scopes[1..] == [scope];
  }

  lemma {:induction false} SharedVisits(setting: Setting, scope: ScopeInfo, scopes: seq<ScopeInfo>)
    requires setting == Setting(OnePool(ONE_TASK), [0], 0)
    requires scope == ScopeInfo(13, [], map[]) && scopes == [scope, scope] && Fits(setting, OneRow(0), scopes)
    ensures AllVisits(setting, OneRow(0), scopes) == [VisitOf(0, 2, 1, 1)] + [VisitOf(0, 1, 1, 1)]
  {
    SharedFits(setting, scope, scopes);
    StillNeeded(0, scope);
    StillNeeded(1, scope);
    hide Fits, Need, VisitsOf, Visit, OneRow, AllVisits;
    OneVisited(0, scope, [0], 2);
    OneVisited(1, scope, [0], 1);
    FirstScope(setting, OneRow(0), scopes);
    LastScope(setting, OneRow(1), scope);
  }

  /** So does a pool that is listed once, if two scopes use it. */
  lemma {:induction false} SharedPoolExceedsQuota(scope: ScopeInfo, scopes: seq<ScopeInfo>)
    requires scope == ScopeInfo(13, [], map[]) && scopes == [scope, scope]
    ensures
      var setting := Setting(OnePool(ONE_TASK), [0], 0);
      && Fits(setting, OneRow(0), scopes)
      && AllVisits(setting, OneRow(0), scopes) == [VisitOf(0, 2, 1, 1), VisitOf(0, 1, 1, 1)]
      && !WithinMonth(MonthOf(ONE_TASK), Launched(AllVisits(setting, OneRow(0), scopes), 0))
  {
    var setting := Setting(OnePool(ONE_TASK), [0], 0);
    SharedFits(setting, scope, scopes);
    hide Fits, AllVisits, Launched, WithinMonth;
    SharedVisits(setting, scope, scopes);
    TwoLaunched(VisitOf(0, 2, 1, 1), VisitOf(0, 1, 1, 1));
  }

  class WorkerAllocator {
    const infos: Infos
    const instanceWide: seq<PoolId>
    const staticWorkers: nat
    var rows: Rows
    ghost var visits: seq<VisitOf>

    constructor (infos: Infos, instanceWide: seq<PoolId>, staticWorkers: nat, rows: Rows)
      requires rows.Keys == infos.Keys && forall p :: p in instanceWide ==> p in rows
      ensures this.infos == infos && this.instanceWide == instanceWide && this.staticWorkers == staticWorkers
      ensures this.rows == rows && visits == [] && Valid()
    {
      this.infos, this.instanceWide, this.staticWorkers, this.rows := infos, instanceWide, staticWorkers, rows;
      this.visits := [];
    }

    ghost function TheSetting(): Setting {
      Setting(infos, instanceWide, staticWorkers)
    }

    ghost predicate Valid()
      reads this
    {
      Fits(TheSetting(), rows, [])
    }

    ghost predicate Knows(scope: ScopeInfo)
      reads this
    {
      Fits(TheSetting(), rows, [scope])
    }

    method LimitByMaxActiveInstances(p: PoolId, amount: nat) returns (r: nat)
      requires Valid() && p in rows
      ensures r == AtMost(amount, CapByInstances(infos[p].maxActive, rows[p].total))
      ensures r <= amount && (infos[p].maxActive.None? ==> r == amount)
      ensures infos[p].maxActive.Some? ==>
        && (r > 0 ==> rows[p].total + r <= infos[p].maxActive.value)
        && (r < amount ==> rows[p].total + r + 1 > infos[p].maxActive.value)
    {
      if infos[p].maxActive.None? {
        return amount;
      }
      var available := infos[p].maxActive.value - rows[p].total;
      if available <= 0 {
        return 0;
      }
      r := Min(amount, available);
    }

    method LimitBySeconds(limit: Option<int>, used: real, amount: nat) returns (r: nat)
      ensures r == AtMost(amount, CapBySeconds(limit, used))
    {
      if limit.None? {
        return amount;
      }
      if used >= limit.value as real {
        return 0;
      }
      r := Min(amount, ((limit.value as real - used) / TASK_DURATION_SECONDS as real).Floor);
    }

    /** Launches the most workers of the pool, up to `amount`, that keep the three limits. */
    method AllocateWorkers(scope: ScopeInfo, p: PoolId, amount: nat) returns (r: nat)
      requires Valid() && p in rows
      modifies this`rows, this`visits
      ensures Valid() && r == AtMost(amount, Cap(infos[p], old(rows)[p], QuotaOf(scope, p)))
      ensures r <= amount && WithinAll(infos[p], old(rows)[p], QuotaOf(scope, p), r)
      ensures forall k :: r < k <= amount ==> !WithinAll(infos[p], old(rows)[p], QuotaOf(scope, p), k)
      ensures rows == old(rows)[p := Launch(old(rows)[p], r)]
      ensures visits == old(visits) + [VisitNow(old(rows), infos, scope, p, amount)]
    {
      CapIsExact(infos[p], rows[p], QuotaOf(scope, p), amount);
      hide CapBySeconds, CapByInstances, QuotaOf, Demand, WithinAll;
      visits := visits + [VisitNow(rows, infos, scope, p, amount)];
      NoneLaunched(rows, p);
      r := LimitByMaxActiveInstances(p, amount);
      r := LimitBySeconds(infos[p].monthly, infos[p].used, r);
      r := LimitBySeconds(QuotaOf(scope, p).monthly, QuotaOf(scope, p).used, r);
      if r > 0 {
        rows := rows[p := Launch(rows[p], r)];
      }
    }

    method WorkersAvailable(scope: ScopeInfo) returns (count: nat)
      requires Knows(scope)
      ensures count == staticWorkers + TotalRows(rows, instanceWide) + TotalRows(rows, scope.pools)
    {
      assert scope in [scope];
      count := staticWorkers + TotalRows(rows, instanceWide) + TotalRows(rows, scope.pools);
    }

    /** Takes the workers that are still needed from the pools of the scope and then from the instance-wide ones. */
    method ProcessScope(scope: ScopeInfo)
      requires Knows(scope)
      modifies this`rows, this`visits
      ensures Valid() && rows.Keys == old(rows).Keys
      ensures
        var ids, need := scope.pools + instanceWide, Need(TheSetting(), old(rows), scope);
        var made := VisitsOf(old(rows), infos, scope, ids, need);
        && need == Max(0, Required(scope.pending) -
                          (staticWorkers + TotalRows(old(rows), instanceWide) + TotalRows(old(rows), scope.pools)))
        && rows == Visit(old(rows), infos, scope, ids, need).1 && visits == old(visits) + made
        && ScopeServed(old(rows), infos, scope, ids, need, made)
    {
      assert scope in [scope];
      ScopeIsServed(rows, infos, scope, scope.pools + instanceWide, Need(TheSetting(), rows, scope));
      hide Visit, VisitsOf, Enough, ScopeServed;
      var required := WorkersRequired(scope.pending);
      var available := WorkersAvailable(scope);
      if required <= available {
        NoNeedNoChange(rows, infos, scope, scope.pools + instanceWide);
        return;
      }
      TakeFromPools(scope, scope.pools + instanceWide, required - available);
    }

    method TakeFromPools(scope: ScopeInfo, pools: seq<PoolId>, amount: nat)
      requires Valid() && forall p :: p in pools ==> p in rows
      modifies this`rows, this`visits
      ensures Valid() && rows.Keys == old(rows).Keys && rows == Visit(old(rows), infos, scope, pools, amount).1
      ensures visits == old(visits) + VisitsOf(old(rows), infos, scope, pools, amount)
    {
      hide Cap, Launch, Demand;
      ghost var before := rows;
      var need := amount;
      assert pools[0..] == pools;
      for i := 0 to |pools|
        invariant Valid() && rows.Keys == before.Keys && need >= 0
        invariant Visit(before, infos, scope, pools, amount).1 == Visit(rows, infos, scope, pools[i..], need).1
        invariant old(visits) + VisitsOf(before, infos, scope, pools, amount) ==
          visits + VisitsOf(rows, infos, scope, pools[i..], need)
      {
        if need <= 0 {
          NoNeedNoChange(rows, infos, scope, pools[i..]);
          break;
        }
        var p := pools[i];
        assert pools[i..][0] == p && pools[i..][1..] == pools[i + 1..];
        var share := AllocateWorkers(scope, p, need);
        need := need - share;
      }
    }

    /** Processing all scopes in turn never takes a pool past its limit of instances. All that runs more than before was
        launched by the visits, and the monthly quota of a pool is kept exactly if all of them find room. */
    method CreateNewWorkers(scopes: seq<ScopeInfo>)
      requires Fits(TheSetting(), rows, scopes)
      modifies this`rows, this`visits
      ensures Valid() && WithinLimits(infos, old(rows), rows)
      ensures visits == old(visits) + AllVisits(TheSetting(), old(rows), scopes)
      ensures RunsMore(old(rows), rows, AllVisits(TheSetting(), old(rows), scopes))
      ensures forall p :: p in infos ==>
        var made, quota := AllVisits(TheSetting(), old(rows), scopes), MonthOf(infos[p]);
        WithinMonth(quota, Launched(made, p)) <==> AllFindRoom(quota, Demands(made), made, p)
    {
      hide WithinLimits, Visit, VisitsOf, RunsMore, AllFindRoom, ScopeServed, WithinMonth, Launched, Need, Running,
        Max, Required, TotalRows;
      ghost var before, all := rows, AllVisits(TheSetting(), rows, scopes);
      assert scopes[0..] == scopes;
      NothingChanged(infos, before);
      for i := 0 to |scopes|
        invariant Fits(TheSetting(), rows, scopes[i..]) && rows.Keys == before.Keys && WithinLimits(infos, before, rows)
        invariant old(visits) + all == visits + AllVisits(TheSetting(), rows, scopes[i..])
        invariant AfterScopes(TheSetting(), rows, scopes[i..]) == AfterScopes(TheSetting(), before, scopes)
      {
        ghost var previous := rows;
        assert scopes[i..][0] == scopes[i] && scopes[i..][1..] == scopes[i + 1..];
        FirstFits(TheSetting(), rows, scopes[i..]);
        VisitWithinLimits(rows, infos, scopes[i], scopes[i].pools + instanceWide, Need(TheSetting(), rows, scopes[i]));
        ProcessScope(scopes[i]);
        WithinLimitsTransitive(infos, before, previous, rows);
      }
      AllAreLaunches(TheSetting(), before, scopes);
      QuotasKeptExactly(TheSetting(), before, scopes);
    }
  }

  lemma {:induction false} QuotasKeptExactly(setting: Setting, rows: Rows, scopes: seq<ScopeInfo>)
    requires Fits(setting, rows, scopes)
    ensures forall p :: p in setting.infos ==>
      var made, quota := AllVisits(setting, rows, scopes), MonthOf(setting.infos[p]);
      WithinMonth(quota, Launched(made, p)) <==> AllFindRoom(quota, Demands(made), made, p)
  {
    hide AllVisits, WithinMonth, AllFindRoom, Launched;
    forall p | p in setting.infos
      ensures
        var made, quota := AllVisits(setting, rows, scopes), MonthOf(setting.infos[p]);
        WithinMonth(quota, Launched(made, p)) <==> AllFindRoom(quota, Demands(made), made, p)
    {
      QuotaKeptExactly(setting, rows, scopes, p);
    }
  }

  lemma NothingChanged(infos: Infos, rows: Rows)
    requires rows.Keys == infos.Keys
    ensures WithinLimits(infos, rows, rows)
  {
  }

  lemma FirstFits(setting: Setting, rows: Rows, scopes: seq<ScopeInfo>)
    requires Fits(setting, rows, scopes) && scopes != []
    ensures Fits(setting, rows, [scopes[0]])
  {
  }

  ghost function AfterScopes(setting: Setting, rows: Rows, scopes: seq<ScopeInfo>): Rows
    requires Fits(setting, rows, scopes)
  {
    if scopes == [] then rows
    else
      var ids, need := scopes[0].pools + setting.instanceWide, Need(setting, rows, scopes[0]);
      AfterScopes(setting, Visit(rows, setting.infos, scopes[0], ids, need).1, scopes[1..])
  }

  lemma {:induction false} AllAreLaunches(setting: Setting, rows: Rows, scopes: seq<ScopeInfo>)
    requires Fits(setting, rows, scopes)
    ensures RunsMore(rows, AfterScopes(setting, rows, scopes), AllVisits(setting, rows, scopes))
    decreases |scopes|
  {
    if scopes != [] {
      var ids, need := scopes[0].pools + setting.instanceWide, Need(setting, rows, scopes[0]);
      var visits, rows' :=
        VisitsOf(rows, setting.infos, scopes[0], ids, need), Visit(rows, setting.infos, scopes[0], ids, need).1;
      VisitsAreLaunches(rows, setting.infos, scopes[0], ids, need);
      AllAreLaunches(setting, rows', scopes[1..]);
      forall p | p in rows
        ensures Launched(visits + AllVisits(setting, rows', scopes[1..]), p) ==
          Launched(visits, p) + Launched(AllVisits(setting, rows', scopes[1..]), p)
      {
        LaunchedTogether(visits, AllVisits(setting, rows', scopes[1..]), p);
      }
    }
  }

  lemma {:induction false} NoNeedNoChange(rows: Rows, infos: Infos, scope: ScopeInfo, ids: seq<PoolId>)
    requires rows.Keys == infos.Keys && forall p :: p in ids ==> p in rows
    ensures Visit(rows, infos, scope, ids, 0).1 == rows && VisitsOf(rows, infos, scope, ids, 0) == []
  {
    if ids != [] {
      assert rows[ids[0] := Launch(rows[ids[0]], 0)] == rows;
      NoNeedNoChange(rows, infos, scope, ids[1..]);
    }
  }
}
