/**
 The counter values in the reports of a running process, over every run of the agent: they
 never exceed what happened, they fall short by a sum that is known exactly, and they never
 fall while the mapping stays applied.
 */
module AgentReports {
  import opened Values
  import opened AgentModel
  import opened AgentRuns
  import opened AgentCounters
  import C = Counters

  // ---- A life of the process ----

  /** The process that booted at event b is still running before event k. */
  ghost predicate Life(t: seq<Sys>, evs: seq<Event>, b: nat, k: nat) {
    b < k < |t| && b < |evs| && evs[b].Booting? && forall i :: b < i <= k ==> t[i].mem.Some?
  }

  /** One event as the counter object sees it. */
  ghost function StepTotals(m: Totals, s: Sys, ev: Event, x: Meter, setup: Setup): Totals
    requires Enabled(s, ev)
  {
    match ev
    case Booting(env, _) => BootTotals(m, s.world, env, setup, x.second)
    case Cycling(env, _) => CycleTotals(m, s.mem.value, s.world.flows, env, setup.lim, x.first, x.second)
    case Killed => m
    case Resting => m
  }

  ghost function StepOps(s: Sys, ev: Event, x: Meter, setup: Setup): seq<C.Operation>
    requires Enabled(s, ev)
  {
    match ev
    case Booting(env, _) => BootOps(s.world, env, setup, x)
    case Cycling(env, _) => CycleOps(s.mem.value, s.world.flows, env, setup.lim, x)
    case Killed => Kernels(x.before)
    case Resting => Kernels(x.before)
  }

  /** The totals before event k of a process that booted with new counters at event b. */
  ghost function TotalsAt(t: seq<Sys>, evs: seq<Event>, xs: seq<Meter>, setup: Setup, b: nat, k: nat): Totals
    requires Run(t, evs, setup) && |xs| == |evs| && b <= k <= |evs|
    decreases k
  {
    if k == b then map[] else StepTotals(TotalsAt(t, evs, xs, setup, b, k - 1), t[k - 1], evs[k - 1], xs[k - 1], setup)
  }

  /** Everything that happened to its counters, in the object and in the kernel, up to then. */
  ghost function OpsAt(t: seq<Sys>, evs: seq<Event>, xs: seq<Meter>, setup: Setup, b: nat, k: nat): seq<C.Operation>
    requires Run(t, evs, setup) && |xs| == |evs| && b <= k <= |evs|
    decreases k
  {
    if k == b then [] else OpsAt(t, evs, xs, setup, b, k - 1) + StepOps(t[k - 1], evs[k - 1], xs[k - 1], setup)
  }

  lemma StepIsOperations(m: Totals, ops: seq<C.Operation>, s: Sys, ev: Event, x: Meter, setup: Setup)
    requires Enabled(s, ev) && InOrder(ops)
    ensures StepTotals(m, s, ev, x, setup) == C.OperateAll(m, StepOps(s, ev, x, setup))
    ensures InOrder(ops + StepOps(s, ev, x, setup))
  {
    hide C.OperateAll, BootTotals, CycleTotals, BootOps, CycleOps, InOrder, Kernels;
    match ev
    case Booting(env, _) =>
      BootIsOperations(m, s.world, env, setup, x);
      BootInOrder(ops, s.world, env, setup, x);
    case Cycling(env, _) =>
      CycleIsOperations(m, s.mem.value, s.world.flows, env, setup.lim, x);
      CycleInOrder(ops, s.mem.value, s.world.flows, env, setup.lim, x);
    case Killed =>
      KernelsChangeNothing(m, x.before);
      KernelsInOrder(ops, x.before);
    case Resting =>
      KernelsChangeNothing(m, x.before);
      KernelsInOrder(ops, x.before);
  }

  lemma KernelsInOrder(ops: seq<C.Operation>, os: seq<C.Outside>)
    requires InOrder(ops)
    ensures InOrder(ops + Kernels(os))
  {
    var all := ops + Kernels(os);
    hide Since;
    forall i | 0 <= i < |all| && (all[i].Reset? || all[i].Prune?) ensures Since(all[..i]) {
      assert i < |ops|;
      assert all[..i] == ops[..i];
    }
  }

  lemma EventEnabled(t: seq<Sys>, evs: seq<Event>, setup: Setup, k: nat)
    requires Run(t, evs, setup) && k < |evs|
    ensures |t| == |evs| + 1 && Enabled(t[k], evs[k])
  {
    hide Steps, Initial;
  }

  /** The totals of the running process are exactly its operations, which are in order. */
  lemma {:induction false} LifeIsOperations(t: seq<Sys>, evs: seq<Event>, xs: seq<Meter>, setup: Setup, b: nat, k: nat)
    requires Run(t, evs, setup) && |xs| == |evs| && b <= k <= |evs|
    ensures TotalsAt(t, evs, xs, setup, b, k) == C.OperateAll(map[], OpsAt(t, evs, xs, setup, b, k))
    ensures InOrder(OpsAt(t, evs, xs, setup, b, k))
    decreases k
  {
    hide Run, Enabled, C.OperateAll, InOrder, StepTotals, StepOps;
    if k == b {
      NothingYet();
    } else {
      LifeIsOperations(t, evs, xs, setup, b, k - 1);
      EventEnabled(t, evs, setup, k - 1);
      var ops := OpsAt(t, evs, xs, setup, b, k - 1);
      StepIsOperations(C.OperateAll(map[], ops), ops, t[k - 1], evs[k - 1], xs[k - 1], setup);
      C.OperateConcat(map[], ops, StepOps(t[k - 1], evs[k - 1], xs[k - 1], setup));
    }
  }

  lemma NothingYet()
    ensures InOrder([]) && C.OperateAll(map[], []) == map[]
  {
  }

  // ---- The values in a report ----

  /** What the cycle at event k reports: the totals right after its first read. */
  ghost function Shown(t: seq<Sys>, evs: seq<Event>, xs: seq<Meter>, setup: Setup, b: nat, k: nat): Totals
    requires Run(t, evs, setup) && |xs| == |evs| && b <= k < |evs|
  {
    FoldRead(TotalsAt(t, evs, xs, setup, b, k), xs[k].first)
  }

  /** Everything that happened up to that report. */
  ghost function OpsShown(t: seq<Sys>, evs: seq<Event>, xs: seq<Meter>, setup: Setup, b: nat, k: nat): seq<C.Operation>
    requires Run(t, evs, setup) && |xs| == |evs| && b <= k < |evs|
  {
    OpsAt(t, evs, xs, setup, b, k) + (Kernels(xs[k].before) + FoldOps(xs[k].first))
  }

  lemma ReadInOrder(ops: seq<C.Operation>, x: Meter)
    requires InOrder(ops)
    ensures InOrder(ops + (Kernels(x.before) + FoldOps(x.first)))
  {
    var all := ops + (Kernels(x.before) + FoldOps(x.first));
    hide Since;
    forall i | 0 <= i < |all| && (all[i].Reset? || all[i].Prune?) ensures Since(all[..i]) {
      assert i < |ops|;
      assert all[..i] == ops[..i];
    }
  }

  lemma ShownIsOperations(t: seq<Sys>, evs: seq<Event>, xs: seq<Meter>, setup: Setup, b: nat, k: nat)
    requires Run(t, evs, setup) && |xs| == |evs| && b <= k < |evs|
    ensures Shown(t, evs, xs, setup, b, k) == C.OperateAll(map[], OpsShown(t, evs, xs, setup, b, k))
    ensures InOrder(OpsShown(t, evs, xs, setup, b, k))
  {
    hide Run, C.OperateAll, InOrder, FoldOps, FoldRead, Kernels, TotalsAt, OpsAt;
    LifeIsOperations(t, evs, xs, setup, b, k);
    var ops, x := OpsAt(t, evs, xs, setup, b, k), xs[k];
    var m := C.OperateAll(map[], ops);
    ReadInOrder(ops, x);
    C.OperateConcat(map[], ops, Kernels(x.before) + FoldOps(x.first));
    C.OperateConcat(m, Kernels(x.before), FoldOps(x.first));
    KernelsChangeNothing(m, x.before);
    FoldOpsFold(m, x.first);
  }

  /** In every run, for every report of the running process, every row in it and every counter: if the readouts show what the kernel counted,
      the reported value never exceeds what happened since the process started and what it found in the kernel, and it falls short of it
      by exactly what the kernel still holds unread and the losses of the single events. */
  lemma ReportsAreHonest(t: seq<Sys>, evs: seq<Event>, xs: seq<Meter>, setup: Setup, b: nat, k: nat, cursor: int, rows: seq<C.Row>, r: nat,
                         f: C.Field, left: nat)
    requires Run(t, evs, setup) && |xs| == |evs| && Life(t, evs, b, k) && k < |evs| && evs[k].Cycling?
    requires C.IsReport(Shown(t, evs, xs, setup, b, k), cursor, rows) && r < |rows|
    requires C.ReadsKernel(left, OpsShown(t, evs, xs, setup, b, k), rows[r].mappingId, f)
    ensures var ops, id := OpsShown(t, evs, xs, setup, b, k), rows[r].mappingId;
      var events := C.Project(ops, id, f);
      var x := C.AfterAll(C.Opened(left), events);
      && C.Get(rows[r].values, f) <= left + C.Happened(ops, id, f)
      && x.counted <= x.kernel
      && C.Get(rows[r].values, f) + (x.kernel - x.counted) + C.AllLosses(left, events) == left + C.Happened(ops, id, f)
  {
    hide Run, Shown, OpsShown, C.OperateAll, InOrder, C.Project, C.AfterAll, C.AllLosses, C.Happened, C.ReadsKernel, C.Orderly, C.Lost;
    var ops, id := OpsShown(t, evs, xs, setup, b, k), rows[r].mappingId;
    ShownIsOperations(t, evs, xs, setup, b, k);
    C.ObjectFollowsAccounts(left, ops, id, f);
    InOrderIsOrderly(ops, id, f);
    C.AccountsBalance(left, C.Project(ops, id, f));
    C.SaneCounted(C.AfterAll(C.Opened(left), C.Project(ops, id, f)));
  }

  // ---- Values never fall ----

  /** The event drops the totals of this mapping: a convergence succeeds whose snapshot does not list it. */
  ghost predicate Prunes(s: Sys, ev: Event, id: int, setup: Setup)
    requires Enabled(s, ev)
  {
    && ev.Cycling? && ev.cycle.sync.Body? && id !in IdsOf(ev.cycle.sync.snap)
    && Succeeded(Cycle(s.mem.value, s.world.flows, ev.cycle, setup.lim))
  }

  /** No total of the mapping is lower in the second than in the first. */
  ghost predicate NoLower(m: Totals, n: Totals, id: int) {
    forall f :: C.Get(C.At(m, id).cum, f) <= C.Get(C.At(n, id).cum, f)
  }

  lemma FoldNoLower(m: Totals, read: Readout, id: int)
    ensures NoLower(m, FoldRead(m, read), id)
  {
  }

  lemma ResetNoLower(m: Totals, keep: set<int>, id: int)
    ensures NoLower(m, C.Rebaselined(m), id) && (id in keep ==> NoLower(m, C.Pruned(C.Rebaselined(m), keep), id))
  {
  }

  lemma NoLowerTransitive(m: Totals, n: Totals, p: Totals, id: int)
    requires NoLower(m, n, id) && NoLower(n, p, id)
    ensures NoLower(m, p, id)
  {
    hide C.Get, C.At;
    forall f ensures C.Get(C.At(m, id).cum, f) <= C.Get(C.At(p, id).cum, f) {
      assert C.Get(C.At(m, id).cum, f) <= C.Get(C.At(n, id).cum, f);
    }
  }

  /** Fold if a read is made, then forget the baselines if the apply returned success. */
  lemma FoldResetNoLower(m: Totals, folds: bool, read: Readout, n: Totals, id: int)
    requires var m1 := FoldIf(folds, m, read);
      n == m1 || n == C.Rebaselined(m1) || exists keep: set<int> :: id in keep && n == C.Pruned(C.Rebaselined(m1), keep)
    ensures NoLower(m, n, id)
  {
    hide FoldRead, C.Rebaselined, C.Pruned, C.Get, C.At;
    var m1 := FoldIf(folds, m, read);
    FoldNoLower(m, read, id);
    ResetNoLower(m1, {}, id);
    if keep: set<int> :| id in keep && n == C.Pruned(C.Rebaselined(m1), keep) {
      ResetNoLower(m1, keep, id);
    }
    if m1 != n {
      NoLowerTransitive(m, m1, n, id);
    }
  }

  /** From the report of a cycle to its end. */
  lemma CycleNoLower(m: Totals, s: Sys, env: CycleEnv, setup: Setup, x: Meter, id: int)
    requires s.mem.Some? && Healthy(s.mem.value) && !Prunes(s, Cycling(env, None), id, setup)
    ensures NoLower(FoldRead(m, x.first), CycleTotals(m, s.mem.value, s.world.flows, env, setup.lim, x.first, x.second), id)
  {
    var mem, flows := s.mem.value, s.world.flows;
    var m1 := FoldRead(m, x.first);
    var n := CycleTotals(m, mem, flows, env, setup.lim, x.first, x.second);
    hide FoldRead, C.Rebaselined, C.Pruned, NoLower, Converge, Due, ZeroAll, ApplySnapshot, IdsOf;
    if !mem.ledgerLost && env.sync.Unchanged? {
      var o := EnsureAsserted(mem.(hasError := false), env);
      FoldResetNoLower(m1, o.attempt.Attempt? && !mem.applied, x.second, n, id);
    } else if !mem.ledgerLost && env.sync.Body? {
      ReceivedIsDue(mem, env.sync.snap, flows, env, setup.lim);
      FoldResetNoLower(m1, Due(mem, env.sync.snap, flows, env, setup.lim), x.second, n, id);
    } else {
      FoldResetNoLower(m1, false, x.second, n, id);
    }
  }

  lemma StepNoLower(m: Totals, s: Sys, ev: Event, setup: Setup, x: Meter, id: int)
    requires Enabled(s, ev) && !Prunes(s, ev, id, setup)
    ensures NoLower(m, StepTotals(m, s, ev, x, setup), id)
    ensures ev.Cycling? ==> NoLower(FoldRead(m, x.first), StepTotals(m, s, ev, x, setup), id)
  {
    hide FoldRead, C.Rebaselined, CycleTotals, LoadLedger, LoadPersisted, Boot, C.Get, C.At, Cycle, IdsOf;
    match ev
    case Booting(env, _) =>
      var n := StepTotals(m, s, ev, x, setup);
      FoldResetNoLower(m, !LoadLedger(s.world, Usage(LoadPersisted(s.world.snapFile, env, setup)), env, setup).Lost?, x.second, n, id);
    case Cycling(env, _) =>
      FoldNoLower(m, x.first, id);
      CycleNoLower(m, s, env, setup, x, id);
      NoLowerTransitive(m, FoldRead(m, x.first), StepTotals(m, s, ev, x, setup), id);
    case Killed =>
    case Resting =>
  }

  lemma {:induction false} TotalsNoLower(t: seq<Sys>, evs: seq<Event>, xs: seq<Meter>, setup: Setup, b: nat, i: nat, j: nat, id: int)
    requires Run(t, evs, setup) && |xs| == |evs| && b <= i <= j <= |evs|
    requires forall k :: i <= k < j ==> Enabled(t[k], evs[k]) && !Prunes(t[k], evs[k], id, setup)
    ensures NoLower(TotalsAt(t, evs, xs, setup, b, i), TotalsAt(t, evs, xs, setup, b, j), id)
    decreases j
  {
    hide Run, Enabled, Prunes, StepTotals, C.Get, C.At;
    if i < j {
      EventEnabled(t, evs, setup, j - 1);
      TotalsNoLower(t, evs, xs, setup, b, i, j - 1, id);
      var m := TotalsAt(t, evs, xs, setup, b, j - 1);
      StepNoLower(m, t[j - 1], evs[j - 1], setup, xs[j - 1], id);
      NoLowerTransitive(TotalsAt(t, evs, xs, setup, b, i), m, TotalsAt(t, evs, xs, setup, b, j), id);
    }
  }

  /** In every run, from one report of a process to any later one: no counter of a mapping is lower in the later report unless a convergence in
      between dropped the mapping, whatever the readouts show. */
  lemma ReportsNeverFall(t: seq<Sys>, evs: seq<Event>, xs: seq<Meter>, setup: Setup, b: nat, i: nat, j: nat, id: int, f: C.Field)
    requires Run(t, evs, setup) && |xs| == |evs| && Life(t, evs, b, j) && b < i < j < |evs| && evs[i].Cycling? && evs[j].Cycling?
    requires forall k :: i <= k < j ==> Enabled(t[k], evs[k]) && !Prunes(t[k], evs[k], id, setup)
    ensures C.Get(C.At(Shown(t, evs, xs, setup, b, i), id).cum, f) <= C.Get(C.At(Shown(t, evs, xs, setup, b, j), id).cum, f)
  {
    var m, n := TotalsAt(t, evs, xs, setup, b, i), TotalsAt(t, evs, xs, setup, b, j);
    var mid := TotalsAt(t, evs, xs, setup, b, i + 1);
    hide Run, Enabled, Prunes, StepTotals, C.Get, C.At, FoldRead;
    EventEnabled(t, evs, setup, i);
    StepNoLower(m, t[i], evs[i], setup, xs[i], id);
    TotalsNoLower(t, evs, xs, setup, b, i + 1, j, id);
    FoldNoLower(n, xs[j].first, id);
    NoLowerTransitive(Shown(t, evs, xs, setup, b, i), mid, n, id);
    NoLowerTransitive(Shown(t, evs, xs, setup, b, i), n, Shown(t, evs, xs, setup, b, j), id);
  }
}
