/**
 What a run of the agent shows to the platform: the frozen generation, the absorbing
 quarantine, the exact kernel of hosts that were never armed, and what must have
 happened before an entry is cleared or compacted.
 */
module AgentHistory {
  import opened Values
  import opened Snapshots
  import opened Ledgers
  import opened LedgerProofs
  import opened Conntrack
  import opened AgentModel
  import opened AgentSafety
  import opened AgentSteps
  import opened AgentTraffic
  import opened AgentRuns
  import opened AgentFiles
  import opened AgentBoot

  /** The process lives through these states. */
  ghost predicate Alive(t: seq<Sys>, i: nat, j: nat)
    requires i <= j < |t|
  {
    forall k :: i <= k <= j ==> t[k].mem.Some?
  }

  // ---- Quarantine ----

  lemma LostStep(s: Sys, ev: Event, n: Sys, setup: Setup)
    requires Steps(s, ev, n, setup) && s.mem.Some? && s.mem.value.ledgerLost && n.mem.Some?
    ensures n.mem == s.mem && n.world.ledgerFile == s.world.ledgerFile && n.world.snapFile == s.world.snapFile
    ensures n.world.kernel == s.world.kernel || n.world.kernel.NoTable? || n.world.kernel.Quarantined?
    ensures ev.Cycling? && !ev.cycle.quarantine.Refused? ==> n.world.kernel.Quarantined? || n.world.kernel.NoTable?
  {
    hide EnsureAsserted, Received, SealAll, Interleaved, Stampable;
    if ev.Cycling? {
      NothingDone(s.world);
      DoOne(s.world, InstallQuarantine);
      hide DoAll;
      PerformsAlike(s, Cycle(s.mem.value, s.world.flows, ev.cycle, setup.lim), ev.cut, n);
    }
  }

  /** Once the ledger is lost, for the whole life of the process: no rules are applied, every cycle asserts the
      quarantine, the capability is never advertised and the reported generation never moves. */
  lemma {:induction false} QuarantineIsAbsorbing(t: seq<Sys>, evs: seq<Event>, setup: Setup, i: nat, j: nat)
    requires Run(t, evs, setup) && i <= j < |t| && Alive(t, i, j) && t[i].mem.value.ledgerLost
    ensures t[j].mem == t[i].mem
    ensures !ReportOf(t[j].mem.value).retirementCapability
    ensures ReportOf(t[j].mem.value).appliedGeneration == ReportOf(t[i].mem.value).appliedGeneration
    ensures t[j].world.ledgerFile == t[i].world.ledgerFile && t[j].world.snapFile == t[i].world.snapFile
    ensures t[j].world.kernel == t[i].world.kernel || t[j].world.kernel.NoTable? || t[j].world.kernel.Quarantined?
    ensures i < j && evs[j - 1].Cycling? && !evs[j - 1].cycle.quarantine.Refused? ==>
      t[j].world.kernel.Quarantined? || t[j].world.kernel.NoTable?
    decreases j
  {
    hide Run, Steps;
    RunLength(t, evs, setup);
    if i < j {
      QuarantineIsAbsorbing(t, evs, setup, i, j - 1);
      StepOfRun(t, evs, setup, j - 1);
      LostStep(t[j - 1], evs[j - 1], t[j], setup);
    }
  }

  // ---- The frozen generation ----

  function GenerationOf(s: Option<Snapshot>): int {
    if s.Some? then s.value.generation else 0
  }

  /** The apply an event made. */
  ghost function AttemptOf(s: Sys, ev: Event, setup: Setup): Attempt
    requires Enabled(s, ev)
  {
    match ev
    case Booting(env, _) => Boot(s.world, env, setup).attempt
    case Cycling(env, _) => Cycle(s.mem.value, s.world.flows, env, setup.lim).attempt
    case Killed => NoApply
    case Resting => NoApply
  }

  /** The generation of the latest apply between two states that returned success, 0 without one. */
  ghost function LatestApplied(t: seq<Sys>, evs: seq<Event>, setup: Setup, b: nat, j: nat): int
    requires Run(t, evs, setup) && b <= j < |t|
    decreases j
  {
    if j == b then 0
    else
      var a := AttemptOf(t[j - 1], evs[j - 1], setup);
      if a.Attempt? && a.ok then GenerationOf(a.target) else LatestApplied(t, evs, setup, b, j - 1)
  }

  ghost predicate Frozen(m: Mem) {
    m.appliedGeneration == GenerationOf(m.lastApplied)
  }

  /** The generation after an outcome: that of the apply, if it returned success. */
  ghost predicate Moves(was: int, o: Outcome) {
    && Frozen(o.mem)
    && o.mem.appliedGeneration == if o.attempt.Attempt? && o.attempt.ok then GenerationOf(o.attempt.target) else was
  }

  lemma BootFreezes(w: World, env: BootEnv, setup: Setup)
    ensures Moves(0, Boot(w, env, setup))
  {
    hide ApplySnapshot, LoadLedger, LoadPersisted;
  }

  lemma ReassertFreezes(mem: Mem, env: CycleEnv)
    requires mem.ledger.Some? && Frozen(mem)
    ensures var o := EnsureAsserted(mem, env);
      Moves(mem.appliedGeneration, o) && (o.attempt.Attempt? && !o.attempt.ok ==> o.mem.ledger == mem.ledger)
  {
    hide ApplySnapshot;
    ApplyEffects(mem.ledger.value, mem.lastApplied, env.apply);
    ApplyEffects(mem.ledger.value, None, env.apply);
  }

  lemma ConvergeFreezes(mem: Mem, n: Ledger, s: Snapshot, env: CycleEnv)
    requires mem.ledger.Some? && Frozen(mem)
    ensures var o := Converge(mem, n, s, env);
      Moves(mem.appliedGeneration, o) && (o.attempt.Attempt? && !o.attempt.ok ==> o.mem.ledger == Some(n))
  {
    hide ApplySnapshot, SaveLedger;
    ApplyEffects(n, Some(s), env.apply);
  }

  /** The generation moves only with a successful apply, and then to the generation that was applied;
      a failed apply leaves the ledger it was given: the old one, or the one prepared for the new snapshot. */
  lemma CycleFreezes(mem: Mem, flows: set<Flow>, env: CycleEnv, lim: Limits)
    requires Healthy(mem) && Frozen(mem)
    ensures var o := Cycle(mem, flows, env, lim);
      && Moves(mem.appliedGeneration, o)
      && (o.attempt.Attempt? && !o.attempt.ok ==>
            o.mem.ledger == mem.ledger
            || (env.sync.Body? && Readable(env.sync.snap) && mem.ledger.Some? && o.mem.ledger.Some?
                && Prepare(mem.ledger.value, env.sync.snap) == Ok(o.mem.ledger.value)))
  {
    hide EnsureAsserted, Converge, Prepared, Ledgers.Verdict, ZeroAll, LedgerChanged;
    if mem.ledger.Some? {
      ReassertFreezes(mem.(hasError := false), env);
      if env.sync.Body? && Valid(env.sync.snap, lim) {
        ValidIsReadable(env.sync.snap, lim);
        hide Valid;
        var next := Prepare(mem.ledger.value, env.sync.snap);
        if next.Ok? {
          ConvergeFreezes(mem, next.value, env.sync.snap, env);
        }
      }
    }
  }

  lemma StepFreezes(s: Sys, ev: Event, n: Sys, setup: Setup)
    requires Steps(s, ev, n, setup) && n.mem.Some? && (s.mem.Some? ==> Frozen(s.mem.value))
    ensures var a := AttemptOf(s, ev, setup);
      && Frozen(n.mem.value)
      && n.mem.value.appliedGeneration ==
           if a.Attempt? && a.ok then GenerationOf(a.target) else if ev.Booting? then 0 else s.mem.value.appliedGeneration
  {
    hide Boot, Cycle, SealAll, Interleaved, Drifts, Frozen;
    if ev.Booting? {
      BootFreezes(s.world, ev.boot, setup);
    } else if ev.Cycling? {
      CycleFreezes(s.mem.value, s.world.flows, ev.cycle, setup.lim);
    }
  }

  /** Every report of a process carries the generation of its latest apply that returned success. */
  lemma {:induction false} GenerationIsFrozen(t: seq<Sys>, evs: seq<Event>, setup: Setup, b: nat, j: nat)
    requires Run(t, evs, setup) && b < j < |t| && evs[b].Booting? && Alive(t, b + 1, j)
    ensures ReportOf(t[j].mem.value).appliedGeneration == LatestApplied(t, evs, setup, b, j)
    ensures Frozen(t[j].mem.value)
    decreases j
  {
    hide Run, Steps, Enabled, Frozen, AttemptOf;
    RunLength(t, evs, setup);
    StepOfRun(t, evs, setup, j - 1);
    NotBooting(t[j - 1], evs[j - 1], t[j], setup);
    if j == b + 1 {
      StepFreezes(t[b], evs[b], t[j], setup);
    } else {
      GenerationIsFrozen(t, evs, setup, b, j - 1);
      StepFreezes(t[j - 1], evs[j - 1], t[j], setup);
    }
  }

  lemma NotBooting(s: Sys, ev: Event, n: Sys, setup: Setup)
    requires Steps(s, ev, n, setup)
    ensures Enabled(s, ev) && (ev.Booting? ==> s.mem.None?)
  {
    hide Performs, Drifts;
  }

  // ---- The kernel of a host that was never armed ----

  /** Once applied, the table is exactly the plan of the last applied snapshot, or wiped from outside. */
  ghost predicate Exact(m: Mem, k: KernelTable) {
    m.applied && m.ledger.Some? && !m.ledger.value.armed ==> k.NoTable? || k == Installed(PlanOf(m.lastApplied), [])
  }

  /** The kernel overtakes the memory: a valid legacy snapshot with another plan is due, and its batch will commit but report failure. */
  predicate Overtaken(mem: Mem, env: CycleEnv, lim: Limits) {
    && mem.applied && mem.ledger.Some? && !mem.ledger.value.armed
    && env.sync.Body? && Valid(env.sync.snap, lim) && env.sync.snap.retirements.None?
    && !(env.sync.snap.generation == mem.appliedGeneration && env.present.Present?)
    && env.apply.install.Unsure? && PlanOf(Some(env.sync.snap)) != PlanOf(mem.lastApplied)
  }

  ghost predicate Unarmed(l: Ledger) {
    !l.armed ==> l.entries == []
  }

  lemma UnarmedApply(w: World, l: Ledger, s: Option<Snapshot>, env: ApplyEnv)
    requires !l.armed && l.entries == []
    ensures var ran := ApplySnapshot(l, s, env);
      && ran.ledger == l && ran.ok == env.install.Done?
      && DoAll(w, ran.effects).kernel == if env.install.Refused? then w.kernel else Installed(PlanOf(s), [])
  {
    hide Verified, PlanOf;
    assert Retirements(l) == [];
    NothingDone(w);
    DoOne(w, Install(PlanOf(s), []));
  }

  lemma ArmedApply(l: Ledger, s: Option<Snapshot>, env: ApplyEnv)
    ensures ApplySnapshot(l, s, env).ledger.armed == l.armed
  {
    ApplyEffects(l, s, env);
  }

  lemma {:induction false} FileEffectsKeepKernel(w: World, es: seq<Effect>)
    requires forall e :: e in es ==> e.WriteLedger? || e.WriteSnap? || e.RemoveSnap?
    ensures DoAll(w, es).kernel == w.kernel
    decreases |es|
  {
    if es != [] {
      assert es[0] in es;
      FileEffectsKeepKernel(Do(w, es[0]), es[1..]);
    }
  }

  lemma BootExact(w: World, env: BootEnv, setup: Setup)
    requires var load := LoadLedger(w, Usage(LoadPersisted(w.snapFile, env, setup)), env, setup); load.Held? ==> Unarmed(load.ledger)
    ensures var o := Boot(w, env, setup); Exact(o.mem, DoAll(w, o.effects).kernel)
  {
    hide LoadPersisted, LoadLedgerFile, Prepared, Ledgers.Verdict, PlanOf, ApplySnapshot;
    var load := LoadPersisted(w.snapFile, env, setup);
    var held := LoadLedger(w, Usage(load), env, setup);
    if held.Held? {
      var removal := if load.Rejected? && env.removed then [RemoveSnap] else [];
      var ran := ApplySnapshot(held.ledger, Usage(load), env.apply);
      ArmedApply(held.ledger, Usage(load), env.apply);
      DoConcat(w, held.effects + removal, ran.effects);
      if !held.ledger.armed {
        UnarmedApply(DoAll(w, held.effects + removal), held.ledger, Usage(load), env.apply);
      }
    }
  }

  lemma ReassertExactKernel(mem: Mem, w: World, env: CycleEnv)
    requires mem.ledger.Some? && Unarmed(mem.ledger.value) && Exact(mem, w.kernel)
    ensures var o := EnsureAsserted(mem, env); Exact(o.mem, DoAll(w, o.effects).kernel)
  {
    hide PlanOf, ApplySnapshot;
    var l := mem.ledger.value;
    ArmedApply(l, mem.lastApplied, env.apply);
    ArmedApply(l, None, env.apply);
    if !l.armed {
      UnarmedApply(w, l, mem.lastApplied, env.apply);
      UnarmedApply(w, l, None, env.apply);
    }
  }

  lemma ArmedConvergeExact(mem: Mem, w: World, n: Ledger, s: Snapshot, env: CycleEnv)
    requires mem.ledger.Some? && n.armed && Exact(mem, w.kernel)
    ensures var o := Converge(mem, n, s, env); Exact(o.mem, DoAll(w, o.effects).kernel)
  {
    hide PlanOf, ApplySnapshot, ValidLedger;
    var o := Converge(mem, n, s, env);
    ArmedApply(n, Some(s), env.apply);
    if o.attempt.NoApply? {
      FileEffectsKeepKernel(w, o.effects);
    }
  }

  lemma LegacyConvergeExact(mem: Mem, w: World, s: Snapshot, env: CycleEnv)
    requires mem.ledger.Some? && !mem.ledger.value.armed && mem.ledger.value.entries == [] && Exact(mem, w.kernel)
    ensures var o := Converge(mem, mem.ledger.value, s, env);
      Exact(o.mem, DoAll(w, o.effects).kernel) <==>
        !(mem.applied && env.apply.install.Unsure? && PlanOf(Some(s)) != PlanOf(mem.lastApplied))
  {
    hide PlanOf, ApplySnapshot;
    var l := mem.ledger.value;
    var ran := ApplySnapshot(l, Some(s), env.apply);
    assert [] + [] + ran.effects == ran.effects;
    UnarmedApply(w, l, Some(s), env.apply);
    var snapWrite := Try(env.saveSnap, WriteSnap(AgentModel.Stamped(s, env.now)));
    DoConcat(w, ran.effects, snapWrite);
    FileEffectsKeepKernel(DoAll(w, ran.effects), snapWrite);
  }

  lemma StandingExact(mem: Mem, w: World, o: Outcome)
    requires Exact(mem, w.kernel) && o.effects == [] && o.mem == mem.(hasError := o.mem.hasError)
    ensures Exact(o.mem, DoAll(w, o.effects).kernel)
  {
  }

  /** A ledger that was never armed accepts every valid legacy snapshot, unchanged. */
  lemma LegacyReceived(mem: Mem, s: Snapshot, flows: set<Flow>, env: CycleEnv, lim: Limits)
    requires mem.ledger.Some? && !mem.ledger.value.armed && mem.ledger.value.entries == [] && Valid(s, lim) && s.retirements.None?
    ensures Received(mem, s, flows, env, lim) ==
      if mem.applied && s.generation == mem.appliedGeneration && env.present.Present? then Idle(mem.(hasError := false))
      else Converge(mem, mem.ledger.value, s, env)
  {
    hide Converge, Valid;
  }

  lemma ReceivedExact(mem: Mem, w: World, s: Snapshot, env: CycleEnv, lim: Limits)
    requires mem.ledger.Some? && LedgerInv(mem.ledger.value) && Exact(mem, w.kernel) && env.sync == Body(s)
    ensures var o := Received(mem, s, w.flows, env, lim); Exact(o.mem, DoAll(w, o.effects).kernel) <==> !Overtaken(mem, env, lim)
  {
    InvUnarmed(mem.ledger.value);
    var l, o := mem.ledger.value, Received(mem, s, w.flows, env, lim);
    hide Exact, DoAll, Converge, Received, ZeroAll, LedgerInv, Leads, Valid, PlanOf;
    if !l.armed && Valid(s, lim) && s.retirements.None? {
      LegacyReceived(mem, s, w.flows, env, lim);
      if mem.applied && s.generation == mem.appliedGeneration && env.present.Present? {
        StandingExact(mem, w, o);
      } else {
        LegacyConvergeExact(mem, w, s, env);
      }
    } else {
      var n := ReceivedCases(mem, s, w.flows, env, lim);
      if n.None? {
        StandingExact(mem, w, o);
      } else {
        ArmedNext(l, s, lim, n.value);
        ArmedConvergeExact(mem, w, n.value, s, env);
      }
    }
  }

  lemma ArmedNext(l: Ledger, s: Snapshot, lim: Limits, n: Ledger)
    requires Leads(l, s, lim, n) && (l.armed || !Valid(s, lim) || s.retirements.Some?)
    ensures n.armed
  {
  }

  /** One cycle from an exact table keeps it exact, unless the kernel overtakes the memory; and exactly then it does not. */
  lemma CycleExactIff(mem: Mem, w: World, env: CycleEnv, lim: Limits)
    requires Healthy(mem) && !mem.ledgerLost && LedgerInv(mem.ledger.value) && Exact(mem, w.kernel)
    ensures var o := Cycle(mem, w.flows, env, lim); Exact(o.mem, DoAll(w, o.effects).kernel) <==> !Overtaken(mem, env, lim)
  {
    InvUnarmed(mem.ledger.value);
    hide Exact, DoAll, EnsureAsserted, Received, LedgerInv, Valid, PlanOf;
    var o := Cycle(mem, w.flows, env, lim);
    match env.sync
    case SyncFailed => StandingExact(mem, w, o);
    case Garbage => StandingExact(mem, w, o);
    case Unchanged =>
      StandingExact(mem, w, Idle(mem.(hasError := false)));
      NothingDone(w);
      ReassertExactKernel(mem.(hasError := false), w, env);
    case Body(s) => ReceivedExact(mem, w, s, env, lim);
  }

  /** In every run, whatever the platform answers: the table of an agent whose ledger was never armed is exactly the plan of the
      snapshot it last applied, unless it was wiped from outside, as long as no cycle lets the kernel overtake the memory. */
  lemma {:induction false} UnarmedKernelIsExact(t: seq<Sys>, evs: seq<Event>, setup: Setup, j: nat)
    requires Run(t, evs, setup) && j < |t| && NeverOvertaken(t, evs, setup)
    ensures t[j].mem.Some? && !t[j].mem.value.ledgerLost ==> Exact(t[j].mem.value, t[j].world.kernel)
    decreases j
  {
    if j == 0 {
      hide Steps, Valid;
    } else {
      hide Run, Exact, Steps, GoodFiles, NeverOvertaken;
      RunLength(t, evs, setup);
      UnarmedKernelIsExact(t, evs, setup, j - 1);
      EveryStateHasGoodFiles(t, evs, setup, j - 1);
      StepOfRun(t, evs, setup, j - 1);
      NotOvertaken(t, evs, setup, j - 1);
      StepExact(t[j - 1], evs[j - 1], t[j], setup);
    }
  }

  ghost predicate NeverOvertaken(t: seq<Sys>, evs: seq<Event>, setup: Setup) {
    |t| == |evs| + 1 &&
    forall i :: 0 <= i < |evs| && evs[i].Cycling? && t[i].mem.Some? ==> !Overtaken(t[i].mem.value, evs[i].cycle, setup.lim)
  }

  lemma NotOvertaken(t: seq<Sys>, evs: seq<Event>, setup: Setup, i: nat)
    requires NeverOvertaken(t, evs, setup) && i < |evs|
    ensures evs[i].Cycling? && t[i].mem.Some? ==> !Overtaken(t[i].mem.value, evs[i].cycle, setup.lim)
  {
    hide Overtaken;
  }

  lemma WipedIsExact(m: Mem, k: KernelTable, l: KernelTable)
    requires Exact(m, k) && (l == k || l.NoTable?)
    ensures Exact(m, l)
  {
    hide PlanOf;
  }

  lemma StepExact(s: Sys, ev: Event, n: Sys, setup: Setup)
    requires Steps(s, ev, n, setup) && GoodFiles(s, setup.lim)
    requires ev.Cycling? && s.mem.Some? ==> !Overtaken(s.mem.value, ev.cycle, setup.lim)
    requires s.mem.Some? && !s.mem.value.ledgerLost ==> Exact(s.mem.value, s.world.kernel)
    ensures n.mem.Some? && !n.mem.value.ledgerLost ==> Exact(n.mem.value, n.world.kernel)
  {
    hide Boot, Cycle, DoAll, SealAll, Interleaved, Stampable, Exact, FilesInv, LedgerInv, Fits, Overtaken;
    if n.mem.Some? && !n.mem.value.ledgerLost {
      if ev.Booting? {
        var o := Boot(s.world, ev.boot, setup);
        HeldUnarmed(s.world, ev.boot, setup);
        BootExact(s.world, ev.boot, setup);
        PerformsAlike(s, o, ev.cut, n);
        WipedIsExact(o.mem, DoAll(s.world, o.effects).kernel, n.world.kernel);
      } else if ev.Cycling? {
        LostStays(s.mem.value, s.world.flows, ev.cycle, setup.lim);
        var o := Cycle(s.mem.value, s.world.flows, ev.cycle, setup.lim);
        CycleExactIff(s.mem.value, s.world, ev.cycle, setup.lim);
        PerformsAlike(s, o, ev.cut, n);
        WipedIsExact(o.mem, DoAll(s.world, o.effects).kernel, n.world.kernel);
      } else {
        WipedIsExact(s.mem.value, s.world.kernel, n.world.kernel);
      }
    }
  }

  lemma LostStays(mem: Mem, flows: set<Flow>, env: CycleEnv, lim: Limits)
    requires Healthy(mem)
    ensures mem.ledgerLost ==> Cycle(mem, flows, env, lim).mem == mem
  {
  }

  lemma HeldUnarmed(w: World, env: BootEnv, setup: Setup)
    requires FilesInv(w, setup.lim)
    ensures var load := LoadLedger(w, Usage(LoadPersisted(w.snapFile, env, setup)), env, setup); load.Held? ==> Unarmed(load.ledger)
  {
    hide LoadLedger, LoadPersisted, FilesInv, Belongs, LedgerInv;
    LoadDecides(w, env, setup);
    LoadedLedger(w, env, setup);
    var held := LoadLedger(w, Usage(LoadPersisted(w.snapFile, env, setup)), env, setup);
    if held.Held? {
      InvUnarmed(BootLedgerOf(w, env));
    }
  }

  lemma InvUnarmed(l: Ledger)
    requires LedgerInv(l)
    ensures Unarmed(l)
  {
  }
}
