/**
 The counters in the agent's steps (internal/agent/agent.go): when readings are folded, when
 baselines are reset and when mappings are pruned; every boot and every cycle as a list of
 operations on the counters, and why their order keeps the accounts.
 */
module AgentCounters {
  import opened Values
  import opened Snapshots
  import opened Ledgers
  import opened LedgerProofs
  import opened Conntrack
  import opened AgentModel
  import opened AgentSteps
  import C = Counters
  import N = Naming

  type Totals = map<int, C.MappingCounter>

  /** One read of the kernel counters; none when it failed. */
  type Readout = Option<map<int, N.Counters>>

  function FoldRead(m: Totals, read: Readout): Totals {
    if read.Some? then C.Folded(m, read.value) else m
  }

  function IdsOf(s: Snapshot): set<int> {
    set m | m in s.mappings :: m.id
  }

  predicate Succeeded(o: Outcome) {
    o.attempt.Attempt? && o.attempt.ok
  }

  /** A re-assert resets after success; only the boot retry folds before it. */
  function ReassertTotals(m: Totals, mem: Mem, env: CycleEnv, read: Readout): Totals
    requires mem.ledger.Some?
  {
    var o := EnsureAsserted(mem, env);
    var m1 := if o.attempt.Attempt? && !mem.applied then FoldRead(m, read) else m;
    if Succeeded(o) then C.Rebaselined(m1) else m1
  }

  /** A convergence folds right before the replace, resets after it and prunes to the applied set. */
  function ConvergeTotals(m: Totals, mem: Mem, n: Ledger, s: Snapshot, env: CycleEnv, read: Readout): Totals
    requires mem.ledger.Some?
  {
    var m1 := FoldRead(m, read);
    if Succeeded(Converge(mem, n, s, env)) then C.Pruned(C.Rebaselined(m1), IdsOf(s)) else m1
  }

  /** The snapshot is accepted and not already in place. */
  predicate Due(mem: Mem, s: Snapshot, flows: set<Flow>, env: CycleEnv, lim: Limits)
    requires mem.ledger.Some?
  {
    && Valid(s, lim) && Prepare(mem.ledger.value, s).Ok?
    && ZeroAll(mem.ledger.value.entries, Prepare(mem.ledger.value, s).value, flows, env.zeros)
    && !(mem.applied && s.generation == mem.appliedGeneration && !LedgerChanged(Prepare(mem.ledger.value, s).value, mem.ledger.value)
         && env.present.Present?)
  }

  function ReceivedTotals(m: Totals, mem: Mem, s: Snapshot, flows: set<Flow>, env: CycleEnv, lim: Limits, read: Readout): Totals
    requires mem.ledger.Some?
  {
    if Due(mem, s, flows, env, lim) then ConvergeTotals(m, mem, Prepare(mem.ledger.value, s).value, s, env, read) else m
  }

  /** Every cycle folds first, so that even an unchanged heartbeat reports fresh values. */
  function CycleTotals(m: Totals, mem: Mem, flows: set<Flow>, env: CycleEnv, lim: Limits, first: Readout, second: Readout): Totals
    requires Healthy(mem)
  {
    var m1 := FoldRead(m, first);
    if mem.ledgerLost then m1
    else match env.sync
      case SyncFailed => m1
      case Garbage => m1
      case Unchanged => ReassertTotals(m1, mem.(hasError := false), env, second)
      case Body(s) => ReceivedTotals(m1, mem, s, flows, env, lim, second)
  }

  /** The totals after a poll, and those that each of its reports shows: one cycle, and one more if it advanced. */
  function PollTotals(m: Totals, mem: Mem, w: World, env: CycleEnv, env': CycleEnv, lim: Limits, readouts: nat -> Readout): (Totals, seq<Totals>)
    requires Healthy(mem)
  {
    var o, m1 := Cycle(mem, w.flows, env, lim), CycleTotals(m, mem, w.flows, env, lim, readouts(0), readouts(1));
    if !o.advanced || !Healthy(o.mem) then (m1, [FoldRead(m, readouts(0))])
    else
      (CycleTotals(m1, o.mem, DoAll(w, o.effects).flows, env', lim, readouts(2), readouts(3)), [FoldRead(m, readouts(0)), FoldRead(m1, readouts(2))])
  }

  function BootTotals(m: Totals, w: World, env: BootEnv, setup: Setup, read: Readout): Totals {
    if LoadLedger(w, Usage(LoadPersisted(w.snapFile, env, setup)), env, setup).Lost? then m
    else
      var m1 := FoldRead(m, read);
      if Succeeded(Boot(w, env, setup)) then C.Rebaselined(m1) else m1
  }

  // ---- Resets follow replaces ----

  lemma SuccessInstalls(l: Ledger, s: Option<Snapshot>, env: ApplyEnv)
    requires ApplySnapshot(l, s, env).ok
    ensures ApplySnapshot(l, s, env).effects != [] && ApplySnapshot(l, s, env).effects[0].Install?
  {
    hide PlanOf, Retirements, Cleared, ValidLedger, ClearAll, Verified;
  }

  /** A cycle that resets the baselines has replaced the table. */
  lemma CycleReplaces(mem: Mem, flows: set<Flow>, env: CycleEnv, lim: Limits)
    requires Healthy(mem) && Succeeded(Cycle(mem, flows, env, lim))
    ensures exists e :: e in Cycle(mem, flows, env, lim).effects && e.Install?
  {
    var o := Cycle(mem, flows, env, lim);
    var l := mem.ledger.value;
    if env.sync.Unchanged? {
      hide ApplySnapshot;
      SuccessInstalls(l, o.attempt.target, env.apply);
      assert o.effects == ApplySnapshot(l, o.attempt.target, env.apply).effects;
      assert o.effects[0] in o.effects;
    } else {
      hide Received, Converge, ZeroAll, Leads, ApplySnapshot;
      var s := env.sync.snap;
      var n := ReceivedCases(mem, s, flows, env, lim);
      ConvergeReplaces(mem, n.value, s, env);
    }
  }

  lemma ConvergeReplaces(mem: Mem, n: Ledger, s: Snapshot, env: CycleEnv)
    requires mem.ledger.Some? && Succeeded(Converge(mem, n, s, env))
    ensures exists e :: e in Converge(mem, n, s, env).effects && e.Install?
  {
    hide ApplySnapshot, SaveLedger;
    var ran := ApplySnapshot(n, Some(s), env.apply);
    SuccessInstalls(n, Some(s), env.apply);
    assert ran.effects[0] in ran.effects;
    assert ran.effects[0] in Converge(mem, n, s, env).effects;
  }

  lemma BootReplaces(w: World, env: BootEnv, setup: Setup)
    requires Succeeded(Boot(w, env, setup))
    ensures exists e :: e in Boot(w, env, setup).effects && e.Install?
  {
    hide LoadLedger, LoadPersisted, ApplySnapshot;
    var load := LoadPersisted(w.snapFile, env, setup);
    var held := LoadLedger(w, Usage(load), env, setup);
    var ran := ApplySnapshot(held.ledger, Usage(load), env.apply);
    SuccessInstalls(held.ledger, Usage(load), env.apply);
    assert ran.effects[0] in ran.effects;
    assert ran.effects[0] in Boot(w, env, setup).effects;
  }

  // ---- Steps as operations on the counters ----

  /** What one step meets in the kernel: what counted or was wiped before it, its reads and what happened between them, before the table was
      replaced, and after. */
  datatype Meter = Meter(
    before: seq<C.Outside>, first: Readout, between: seq<C.Outside>, second: Readout, early: seq<C.Outside>, late: seq<C.Outside>)

  function Kernels(os: seq<C.Outside>): (ops: seq<C.Operation>)
    ensures |ops| == |os| && forall i :: 0 <= i < |ops| ==> ops[i] == C.Kernel(os[i])
  {
    seq(|os|, i requires 0 <= i < |os| => C.Kernel(os[i]))
  }

  function FoldOps(read: Readout): seq<C.Operation> {
    if read.Some? then [C.Fold(read.value)] else []
  }

  /** The step up to its last operation on the counters: the reads it makes, and whether the table was replaced. */
  function Upto(x: Meter, first: bool, second: bool, replaced: bool): seq<C.Operation> {
    Kernels(x.before) + (if first then FoldOps(x.first) else []) + Kernels(x.between) + (if second then FoldOps(x.second) else [])
    + Kernels(x.early) + (if replaced then [C.Kernel(C.Restarted)] else []) + Kernels(x.late)
  }

  /** The table was written, so the kernel counters start at zero. */
  predicate Replaces(es: seq<Effect>) {
    exists e :: e in es && (e.Install? || e.InstallQuarantine?)
  }

  /** The cycle reads the counters a second time: before the replace of a convergence or of a boot retry. */
  predicate ReadsAgain(mem: Mem, flows: set<Flow>, env: CycleEnv, lim: Limits)
    requires Healthy(mem)
  {
    && !mem.ledgerLost
    && match env.sync
       case SyncFailed => false
       case Garbage => false
       case Unchanged => EnsureAsserted(mem.(hasError := false), env).attempt.Attempt? && !mem.applied
       case Body(s) => Due(mem, s, flows, env, lim)
  }

  /** What a successful apply does to the totals: it resets the baselines, and a convergence prunes to the applied set. */
  function AfterSuccess(o: Outcome, sync: SyncAnswer): seq<C.Operation> {
    if !Succeeded(o) then [] else if sync.Body? then [C.Reset] + [C.Prune(IdsOf(sync.snap))] else [C.Reset]
  }

  function CycleOps(mem: Mem, flows: set<Flow>, env: CycleEnv, lim: Limits, x: Meter): seq<C.Operation>
    requires Healthy(mem)
  {
    var o := Cycle(mem, flows, env, lim);
    Upto(x, true, ReadsAgain(mem, flows, env, lim), Replaces(o.effects)) + AfterSuccess(o, env.sync)
  }

  function BootOps(w: World, env: BootEnv, setup: Setup, x: Meter): seq<C.Operation> {
    var o := Boot(w, env, setup);
    Upto(x, false, !o.mem.ledgerLost, Replaces(o.effects)) + AfterSuccess(o, Unchanged)
  }

  lemma {:induction false} KernelsChangeNothing(m: Totals, os: seq<C.Outside>)
    ensures C.OperateAll(m, Kernels(os)) == m
    decreases |os|
  {
    if os != [] {
      var init := os[..|os| - 1];
      KernelsChangeNothing(m, init);
      assert Kernels(os)[..|os| - 1] == Kernels(init);
    }
  }

  lemma OneOperation(m: Totals, op: C.Operation)
    ensures C.OperateAll(m, [op]) == C.Operate(m, op) && C.OperateAll(m, []) == m
  {
    assert [op][..0] == [];
  }

  lemma FoldOpsFold(m: Totals, read: Readout)
    ensures C.OperateAll(m, FoldOps(read)) == FoldRead(m, read)
  {
    if read.Some? {
      OneOperation(m, C.Fold(read.value));
    }
  }

  function FoldIf(b: bool, m: Totals, read: Readout): Totals {
    if b then FoldRead(m, read) else m
  }

  lemma UptoTotals(m: Totals, x: Meter, first: bool, second: bool, replaced: bool)
    ensures C.OperateAll(m, Upto(x, first, second, replaced)) == FoldIf(second, FoldIf(first, m, x.first), x.second)
  {
    hide C.OperateAll, FoldOps, FoldRead, C.Operate, Kernels;
    var a := Kernels(x.before);
    var b := if first then FoldOps(x.first) else [];
    var c := Kernels(x.between);
    var d := if second then FoldOps(x.second) else [];
    var e := Kernels(x.early);
    var r := if replaced then [C.Kernel(C.Restarted)] else [];
    var l := Kernels(x.late);
    var m1 := FoldIf(first, m, x.first);
    var m2 := FoldIf(second, m1, x.second);
    KernelsChangeNothing(m, x.before);
    FoldOpsFold(m, x.first);
    OneOperation(m, C.Reset);
    C.OperateConcat(m, a, b);
    KernelsChangeNothing(m1, x.between);
    C.OperateConcat(m, a + b, c);
    FoldOpsFold(m1, x.second);
    OneOperation(m1, C.Reset);
    C.OperateConcat(m, a + b + c, d);
    KernelsChangeNothing(m2, x.early);
    C.OperateConcat(m, a + b + c + d, e);
    RestartChangesNothing(m2);
    C.OperateConcat(m, a + b + c + d + e, r);
    KernelsChangeNothing(m2, x.late);
    C.OperateConcat(m, a + b + c + d + e + r, l);
  }

  lemma RestartChangesNothing(m: Totals)
    ensures C.OperateAll(m, [C.Kernel(C.Restarted)]) == m && C.OperateAll(m, []) == m
  {
    OneOperation(m, C.Kernel(C.Restarted));
  }

  lemma AfterSuccessTotals(m: Totals, o: Outcome, sync: SyncAnswer)
    ensures C.OperateAll(m, AfterSuccess(o, sync)) ==
      if !Succeeded(o) then m else if sync.Body? then C.Pruned(C.Rebaselined(m), IdsOf(sync.snap)) else C.Rebaselined(m)
  {
    OneOperation(m, C.Reset);
    if sync.Body? {
      hide C.OperateAll;
      C.OperateConcat(m, [C.Reset], [C.Prune(IdsOf(sync.snap))]);
      OneOperation(C.Rebaselined(m), C.Prune(IdsOf(sync.snap)));
    }
  }

  /** What a cycle does to the totals is exactly its list of operations. */
  lemma CycleIsOperations(m: Totals, mem: Mem, flows: set<Flow>, env: CycleEnv, lim: Limits, x: Meter)
    requires Healthy(mem)
    ensures CycleTotals(m, mem, flows, env, lim, x.first, x.second) == C.OperateAll(m, CycleOps(mem, flows, env, lim, x))
  {
    hide C.OperateAll, C.Rebaselined, C.Pruned, FoldRead, Converge, Due, ZeroAll, AfterSuccess, Upto, ApplySnapshot, Replaces;
    var o := Cycle(mem, flows, env, lim);
    var again := ReadsAgain(mem, flows, env, lim);
    var m1 := FoldRead(m, x.first);
    UptoTotals(m, x, true, again, Replaces(o.effects));
    C.OperateConcat(m, Upto(x, true, again, Replaces(o.effects)), AfterSuccess(o, env.sync));
    AfterSuccessTotals(FoldIf(again, m1, x.second), o, env.sync);
    if !mem.ledgerLost && env.sync.Body? {
      ReceivedIsDue(mem, env.sync.snap, flows, env, lim);
    }
  }

  lemma ReceivedIsDue(mem: Mem, s: Snapshot, flows: set<Flow>, env: CycleEnv, lim: Limits)
    requires mem.ledger.Some?
    ensures var o := Received(mem, s, flows, env, lim);
      if Due(mem, s, flows, env, lim) then o == Converge(mem, Prepare(mem.ledger.value, s).value, s, env) else !Succeeded(o)
  {
    hide Converge, ZeroAll, LedgerChanged, Valid, Ledgers.Verdict, Prepared;
  }

  lemma BootIsOperations(m: Totals, w: World, env: BootEnv, setup: Setup, x: Meter)
    ensures BootTotals(m, w, env, setup, x.second) == C.OperateAll(m, BootOps(w, env, setup, x))
  {
    hide C.OperateAll, C.Rebaselined, FoldRead, AfterSuccess, Upto, ApplySnapshot, Replaces, LoadLedger, LoadPersisted;
    var o := Boot(w, env, setup);
    UptoTotals(m, x, false, !o.mem.ledgerLost, Replaces(o.effects));
    C.OperateConcat(m, Upto(x, false, !o.mem.ledgerLost, Replaces(o.effects)), AfterSuccess(o, Unchanged));
    AfterSuccessTotals(FoldIf(!o.mem.ledgerLost, m, x.second), o, Unchanged);
  }

  // ---- Their order ----

  /** The counters were restarted and not read since. */
  predicate Since(ops: seq<C.Operation>) {
    ops != [] && (ops[|ops| - 1] == C.Kernel(C.Restarted) || (!ops[|ops| - 1].Fold? && Since(ops[..|ops| - 1])))
  }

  /** Baselines and totals are forgotten only then. */
  predicate InOrder(ops: seq<C.Operation>) {
    forall i :: 0 <= i < |ops| && (ops[i].Reset? || ops[i].Prune?) ==> Since(ops[..i])
  }

  /** So every counter of every mapping has an orderly history. */
  lemma {:induction false} InOrderIsOrderly(ops: seq<C.Operation>, id: int, f: C.Field)
    requires InOrder(ops)
    ensures C.Orderly(C.Project(ops, id, f)) && (Since(ops) ==> C.SinceReplace(C.Project(ops, id, f)))
    decreases |ops|
  {
    if ops != [] {
      var init, op := ops[..|ops| - 1], ops[|ops| - 1];
      forall i | 0 <= i < |init| && (init[i].Reset? || init[i].Prune?) ensures Since(init[..i]) {
        assert init[..i] == ops[..i];
      }
      InOrderIsOrderly(init, id, f);
      assert op.Reset? || op.Prune? ==> Since(init);
      hide C.Orderly, C.SinceReplace, Since, InOrder;
      assert Since(ops) ==> op == C.Kernel(C.Restarted) || (!op.Fold? && Since(init)) by { SinceLast(ops); }
      OneMoreOrderly(C.Project(init, id, f), C.Concerns(op, id, f));
    } else {
      NoEventsOrderly();
    }
  }

  lemma SinceLast(ops: seq<C.Operation>)
    requires ops != []
    ensures Since(ops) <==> ops[|ops| - 1] == C.Kernel(C.Restarted) || (!ops[|ops| - 1].Fold? && Since(ops[..|ops| - 1]))
  {
  }

  lemma NoEventsOrderly()
    ensures C.Orderly([])
  {
  }

  lemma OneMoreOrderly(es: seq<C.Event>, last: seq<C.Event>)
    requires C.Orderly(es) && |last| <= 1
    requires last != [] && (last[0].Rebased? || last[0].Dropped?) ==> C.SinceReplace(es)
    ensures C.Orderly(es + last)
    ensures last != [] && last[0].Replaced? ==> C.SinceReplace(es + last)
    ensures C.SinceReplace(es) && (last == [] || !last[0].Read?) ==> C.SinceReplace(es + last)
  {
    var all := es + last;
    if last == [] {
      assert all == es;
    } else {
      assert all[..|all| - 1] == es;
      hide C.SinceReplace;
      forall i | 0 <= i < |all| && (all[i].Rebased? || all[i].Dropped?) ensures C.SinceReplace(all[..i]) {
        if i < |es| {
          assert all[..i] == es[..i];
        }
      }
    }
  }

  lemma {:induction false} SinceKernels(ops: seq<C.Operation>, os: seq<C.Outside>)
    requires Since(ops)
    ensures Since(ops + Kernels(os))
    decreases |os|
  {
    if os == [] {
      assert ops + Kernels(os) == ops;
    } else {
      var init := os[..|os| - 1];
      SinceKernels(ops, init);
      var all := ops + Kernels(os);
      assert all[..|all| - 1] == ops + Kernels(init);
    }
  }

  lemma OnlyReads(x: Meter, first: bool, second: bool, replaced: bool)
    ensures forall i :: 0 <= i < |Upto(x, first, second, replaced)| ==>
      Upto(x, first, second, replaced)[i].Fold? || Upto(x, first, second, replaced)[i].Kernel?
  {
  }

  /** A step that replaced the table may reset and prune at its end, and any step may do nothing more. */
  lemma StepInOrder(ops: seq<C.Operation>, x: Meter, first: bool, second: bool, replaced: bool, o: Outcome, sync: SyncAnswer)
    requires InOrder(ops) && (Succeeded(o) ==> replaced)
    ensures InOrder(ops + (Upto(x, first, second, replaced) + AfterSuccess(o, sync)))
  {
    var head, end := Upto(x, first, second, replaced), AfterSuccess(o, sync);
    var all := ops + (head + end);
    OnlyReads(x, first, second, replaced);
    if replaced {
      ReplacedSince(ops, x, first, second);
    }
    hide Since, Upto;
    assert all == ops + head + end;
    assert forall i :: |ops| <= i < |ops + head| ==> all[i] == head[i - |ops|];
    forall i | 0 <= i < |all| && (all[i].Reset? || all[i].Prune?) ensures Since(all[..i]) {
      if i < |ops| {
        assert all[..i] == ops[..i];
      } else {
        assert i >= |ops + head|;
        var j := i - |ops + head|;
        assert all[..i] == ops + head + end[..j];
        if j == 0 {
          assert ops + head + end[..j] == ops + head;
        } else {
          assert end[..j] == [C.Reset];
          SinceReset(ops + head);
        }
      }
    }
  }

  lemma SinceReset(ops: seq<C.Operation>)
    requires Since(ops)
    ensures Since(ops + [C.Reset])
  {
    assert (ops + [C.Reset])[..|ops|] == ops;
  }

  lemma ReplacedSince(ops: seq<C.Operation>, x: Meter, first: bool, second: bool)
    ensures Since(ops + Upto(x, first, second, true))
  {
    var head := Kernels(x.before) + (if first then FoldOps(x.first) else []) + Kernels(x.between) + (if second then FoldOps(x.second) else []) + Kernels(x.early);
    var r := [C.Kernel(C.Restarted)];
    hide FoldOps;
    assert (ops + head + r)[|ops + head + r| - 1] == C.Kernel(C.Restarted);
    SinceKernels(ops + head + r, x.late);
    assert ops + Upto(x, first, second, true) == ops + head + r + Kernels(x.late);
  }

  /** Whatever went before in order, the operations of a cycle go on in order: it resets and prunes only after it replaced the table. */
  lemma CycleInOrder(ops: seq<C.Operation>, mem: Mem, flows: set<Flow>, env: CycleEnv, lim: Limits, x: Meter)
    requires Healthy(mem) && InOrder(ops)
    ensures InOrder(ops + CycleOps(mem, flows, env, lim, x))
  {
    hide InOrder, Upto, AfterSuccess, ReadsAgain, Cycle;
    var o := Cycle(mem, flows, env, lim);
    if Succeeded(o) {
      CycleReplaces(mem, flows, env, lim);
    }
    StepInOrder(ops, x, true, ReadsAgain(mem, flows, env, lim), Replaces(o.effects), o, env.sync);
  }

  lemma BootInOrder(ops: seq<C.Operation>, w: World, env: BootEnv, setup: Setup, x: Meter)
    requires InOrder(ops)
    ensures InOrder(ops + BootOps(w, env, setup, x))
  {
    hide InOrder, Upto, AfterSuccess, Boot;
    var o := Boot(w, env, setup);
    if Succeeded(o) {
      BootReplaces(w, env, setup);
    }
    StepInOrder(ops, x, false, !o.mem.ledgerLost, Replaces(o.effects), o, Unchanged);
  }

  // ---- What a step may not lose ----

  /** Whatever the kernel showed right before a replace is in the totals afterwards: when a received snapshot leads to a replace, or a failed boot
      is retried, the second readout has been folded on top of the first, for every mapping that is not pruned. */
  lemma NothingReadIsLost(m: Totals, mem: Mem, flows: set<Flow>, env: CycleEnv, lim: Limits, first: Readout, second: Readout, id: int)
    requires Healthy(mem) && !mem.ledgerLost && (exists e :: e in Cycle(mem, flows, env, lim).effects && e.Install?)
    requires env.sync.Body? || !mem.applied
    requires second.Some? && id in second.value && (env.sync.Body? && Succeeded(Cycle(mem, flows, env, lim)) ==> id in IdsOf(env.sync.snap))
    ensures C.At(CycleTotals(m, mem, flows, env, lim, first, second), id).cum == C.FoldOne(C.At(FoldRead(m, first), id), second.value[id]).cum
  {
    hide Converge, ZeroAll, ApplySnapshot, IdsOf, C.FoldOne, Due, FoldRead;
    var o := Cycle(mem, flows, env, lim);
    var m1 := FoldRead(m, first);
    FoldedAt(m1, second, id);
    if env.sync.Body? {
      ReceivedIsDue(mem, env.sync.snap, flows, env, lim);
      InstallIsDue(mem, env.sync.snap, flows, env, lim);
      ResetKeeps(FoldRead(m1, second), IdsOf(env.sync.snap), id);
    } else {
      assert env.sync.Unchanged?;
      ResetKeeps(FoldRead(m1, second), {}, id);
    }
  }

  lemma FoldedAt(m: Totals, read: Readout, id: int)
    requires read.Some? && id in read.value
    ensures id in FoldRead(m, read) && FoldRead(m, read)[id] == C.FoldOne(C.At(m, id), read.value[id])
  {
    hide C.FoldOne;
  }

  lemma ResetKeeps(m: Totals, keep: set<int>, id: int)
    requires id in m
    ensures C.At(C.Rebaselined(m), id).cum == m[id].cum
    ensures id in keep ==> C.At(C.Pruned(C.Rebaselined(m), keep), id).cum == m[id].cum
  {
  }

  lemma InstallIsDue(mem: Mem, s: Snapshot, flows: set<Flow>, env: CycleEnv, lim: Limits)
    requires mem.ledger.Some? && exists e :: e in Received(mem, s, flows, env, lim).effects && e.Install?
    ensures Due(mem, s, flows, env, lim)
  {
    hide Converge, ZeroAll, LedgerChanged, Valid, Ledgers.Verdict, Prepared;
  }

  /** After an apply that returned success every baseline is zero, and after a convergence nothing is left of mappings that are not applied. */
  lemma BaselinesRestart(m: Totals, mem: Mem, flows: set<Flow>, env: CycleEnv, lim: Limits, first: Readout, second: Readout, id: int)
    requires Healthy(mem) && Succeeded(Cycle(mem, flows, env, lim))
    ensures C.At(CycleTotals(m, mem, flows, env, lim, first, second), id).last == N.NoCounters
    ensures env.sync.Body? ==> CycleTotals(m, mem, flows, env, lim, first, second).Keys <= IdsOf(env.sync.snap)
  {
    hide Converge, ZeroAll, ApplySnapshot, IdsOf, C.FoldOne, FoldRead, Due;
    if !mem.ledgerLost && env.sync.Body? {
      ReceivedIsDue(mem, env.sync.snap, flows, env, lim);
    }
  }

  /** Boot folds what an earlier process left in the kernel before it replaces the table. */
  lemma LeftoversAreFolded(m: Totals, w: World, env: BootEnv, setup: Setup, read: Readout, id: int)
    requires (exists e :: e in Boot(w, env, setup).effects && e.Install?) && read.Some? && id in read.value
    ensures C.At(BootTotals(m, w, env, setup, read), id).cum == C.FoldOne(C.At(m, id), read.value[id]).cum
  {
    hide LoadLedgerFile, LoadPersisted, ApplySnapshot, C.FoldOne, FoldRead, Prepare;
    LoadInstallsNothing(w, env, setup);
    FoldedAt(m, read, id);
    ResetKeeps(FoldRead(m, read), {}, id);
  }

  lemma LoadInstallsNothing(w: World, env: BootEnv, setup: Setup)
    ensures forall e :: e in LoadLedgerFile(w, env, setup).effects ==> e.WriteLedger?
  {
    hide ProvablyLegacy;
  }
}
