/**
 From runs of the agent to packets: the table in the kernel after an apply that returned
 success, and what it does to the connections of every mapping the agent ever had.
 */
module AgentPackets {
  import opened Values
  import opened Snapshots
  import opened Ledgers
  import opened LedgerProofs
  import opened Nft
  import opened Machine
  import opened ForwardChain
  import opened AgentModel
  import opened AgentSafety
  import opened AgentSteps
  import opened AgentTraffic
  import opened AgentRuns
  import opened AgentFiles
  import opened AgentHistory
  import opened AgentLifecycle
  import opened AgentDurability
  import opened AgentMemory
  import E2E = EndToEnd
  import Conntrack

  // ---- The table after a successful apply ----

  lemma SameFences(l: Ledger, ids: set<string>)
    ensures Retirements(Cleared(l, ids)) == Retirements(l)
  {
    assert forall i :: 0 <= i < |l.entries| ==> Retirements(Cleared(l, ids))[i] == Retirements(l)[i];
  }

  lemma ApplyInstalls(w: World, l: Ledger, s: Option<Snapshot>, env: ApplyEnv)
    requires ApplySnapshot(l, s, env).ok && (!l.armed ==> l.entries == [])
    ensures var ran := ApplySnapshot(l, s, env);
      DoAll(w, ran.effects).kernel == Installed(PlanOf(s), Retirements(ran.ledger))
  {
    hide PlanOf, ApplySnapshot, Cleared;
    var ran := ApplySnapshot(l, s, env);
    ApplyEffects(l, s, env);
    var ids :| ran.ledger == Cleared(l, ids);
    SameFences(l, ids);
    if l.armed {
      SomeRetirement(w, l, s, env);
    } else {
      UnarmedApply(w, l, s, env);
      assert Retirements(l) == [];
    }
  }

  lemma SomeRetirement(w: World, l: Ledger, s: Option<Snapshot>, env: ApplyEnv)
    requires l.armed && ApplySnapshot(l, s, env).ok
    ensures DoAll(w, ApplySnapshot(l, s, env).effects).kernel == Installed(PlanOf(s), Retirements(l))
  {
    hide PlanOf, ApplySnapshot;
    var r: Retirement :| true;
    ApplyClearsAll(w, l, s, env, r);
  }

  /** When an apply returned success, the kernel holds its plan behind every fence of the ledger in memory. */
  ghost predicate InstalledBy(w: World, o: AgentModel.Outcome) {
    o.attempt.Attempt? && o.attempt.ok ==>
      o.mem.ledger.Some? && DoAll(w, o.effects).kernel == Installed(PlanOf(o.attempt.target), Retirements(o.mem.ledger.value))
  }

  lemma ReassertInstalls(mem: Mem, w: World, env: CycleEnv)
    requires mem.ledger.Some? && Unarmed(mem.ledger.value)
    ensures InstalledBy(w, EnsureAsserted(mem, env))
  {
    hide PlanOf, ApplySnapshot, DoAll;
    var o := EnsureAsserted(mem, env);
    if o.attempt.Attempt? && o.attempt.ok {
      ApplyInstalls(w, mem.ledger.value, o.attempt.target, env.apply);
    }
  }

  lemma ConvergeInstalls(mem: Mem, w: World, n: Ledger, s: Snapshot, env: CycleEnv)
    requires mem.ledger.Some? && Unarmed(n)
    ensures InstalledBy(w, Converge(mem, n, s, env))
  {
    var o, ran := Converge(mem, n, s, env), ApplySnapshot(n, Some(s), env.apply);
    hide PlanOf, ApplySnapshot, DoAll, SaveLedger;
    if o.attempt.Attempt? && o.attempt.ok {
      var before, after := FilesBefore(n, s, env), SnapAfter(n, s, env);
      assert o.effects == before + ran.effects + after;
      hide Converge;
      DoConcat(w, before + ran.effects, after);
      DoConcat(w, before, ran.effects);
      ApplyInstalls(DoAll(w, before), n, Some(s), env.apply);
      FileEffectsKeepKernel(DoAll(w, before + ran.effects), after);
    }
  }

  lemma CycleInstalls(mem: Mem, w: World, env: CycleEnv, lim: Limits)
    requires Healthy(mem) && !mem.ledgerLost && LedgerInv(mem.ledger.value)
    ensures InstalledBy(w, Cycle(mem, w.flows, env, lim))
  {
    var l := mem.ledger.value;
    InvUnarmed(l);
    hide EnsureAsserted, Received, Converge, ZeroAll, LedgerInv, Leads, PlanOf, DoAll;
    ReassertInstalls(mem.(hasError := false), w, env);
    if env.sync.Body? {
      var n := ReceivedCases(mem, env.sync.snap, w.flows, env, lim);
      if n.Some? {
        NextFollows(l, env.sync.snap, lim, n.value);
        InvUnarmed(n.value);
        ConvergeInstalls(mem, w, n.value, env.sync.snap, env);
      }
    }
  }

  lemma BootInstalls(w: World, env: BootEnv, setup: Setup)
    requires FilesInv(w, setup.lim)
    ensures InstalledBy(w, Boot(w, env, setup))
  {
    hide FilesInv, LoadLedger, LoadPersisted, ApplySnapshot, PlanOf, DoAll;
    HeldUnarmed(w, env, setup);
    var load := LoadPersisted(w.snapFile, env, setup);
    var held, o := LoadLedger(w, Usage(load), env, setup), Boot(w, env, setup);
    if held.Held? && o.attempt.ok {
      var removal := if load.Rejected? && env.removed then [RemoveSnap] else [];
      var ran := ApplySnapshot(held.ledger, Usage(load), env.apply);
      DoConcat(w, held.effects + removal, ran.effects);
      ApplyInstalls(DoAll(w, held.effects + removal), held.ledger, Usage(load), env.apply);
    }
  }

  /** In every run: right after an event whose apply returned success, the kernel holds the plan behind every fence of the ledger in
      memory, unless it was wiped from outside meanwhile. */
  lemma TableAfterApply(t: seq<Sys>, evs: seq<Event>, setup: Setup, j: nat)
    requires Run(t, evs, setup) && 0 < j < |t| && t[j].mem.Some?
    requires var a := AttemptOf(t[j - 1], evs[j - 1], setup); a.Attempt? && a.ok
    ensures t[j].mem.value.ledger.Some?
    ensures t[j].world.kernel.NoTable? ||
      t[j].world.kernel == Installed(PlanOf(AttemptOf(t[j - 1], evs[j - 1], setup).target), Retirements(t[j].mem.value.ledger.value))
  {
    hide Run, GoodFiles, Steps, Enabled, AttemptOf;
    RunLength(t, evs, setup);
    EveryStateHasGoodFiles(t, evs, setup, j - 1);
    StepOfRun(t, evs, setup, j - 1);
    StepInstalls(t[j - 1], evs[j - 1], t[j], setup);
  }

  lemma StepInstalls(s: Sys, ev: Event, n: Sys, setup: Setup)
    requires GoodFiles(s, setup.lim) && Steps(s, ev, n, setup) && n.mem.Some?
    ensures Enabled(s, ev)
    ensures var a := AttemptOf(s, ev, setup);
      a.Attempt? && a.ok ==>
        && n.mem.value.ledger.Some?
        && (n.world.kernel.NoTable? || n.world.kernel == Installed(PlanOf(a.target), Retirements(n.mem.value.ledger.value)))
  {
    hide Boot, Cycle, DoAll, SealAll, Interleaved, Drifts, FilesInv, LedgerInv, Fits, PlanOf;
    if ev.Booting? {
      BootInstalls(s.world, ev.boot, setup);
      PerformsAlike(s, Boot(s.world, ev.boot, setup), ev.cut, n);
    } else if ev.Cycling? {
      LostAttempts(s.mem.value, s.world.flows, ev.cycle, setup.lim);
      if !s.mem.value.ledgerLost {
        CycleInstalls(s.mem.value, s.world, ev.cycle, setup.lim);
        PerformsAlike(s, Cycle(s.mem.value, s.world.flows, ev.cycle, setup.lim), ev.cut, n);
      }
    }
  }

  lemma LostAttempts(mem: Mem, flows: set<Conntrack.Flow>, env: CycleEnv, lim: Limits)
    requires Healthy(mem)
    ensures mem.ledgerLost ==> Cycle(mem, flows, env, lim).attempt.NoApply?
  {
  }

  // ---- Packets ----

  /** The forward chain of the table in the kernel. */
  function ForwardOf(iface: Bytes, k: KernelTable): seq<seq<Expr>>
    requires k.Installed?
  {
    RenderForward(iface, k.rules) + RenderFences(iface, k.fences)
  }

  /** Over every run of the agent, through crashes and reboots: a connection that a mapping created while the snapshot was the ledger's own is
      dropped by the table of any later successful apply, in this or in a later life of the process, in both directions across the public
      interface, exactly when its mapping is then an outstanding retirement of the ledger in memory. */
  lemma ReachableTableFences(t: seq<Sys>, evs: seq<Event>, setup: Setup, i: nat, j: nat, s: Snapshot, iface: Bytes, g: Guards,
                             p: Packet, ph: Physics, st: State, q: Packet, ph': Physics, stq: State)
    returns (m: Mapping)
    requires Run(t, evs, setup) && i <= j < |t| && 0 < j && Knows(t[i]) && t[j].mem.Some?
    requires Valid(s, setup.lim) && Settled(LedgerOf(t[i]), s)
    requires var a := AttemptOf(t[j - 1], evs[j - 1], setup); a.Attempt? && a.ok
    requires t[j].world.kernel.Installed?
    requires Plannable(s) && RulesOk(Plan(s)) && PacketOk(iface, p) && PacketOk(iface, q) && stq.mark == Le4(q.ctMark)
    requires EvalChain(Render(iface, Plan(s), g), p, ph, st).1.Translated?
    requires E2E.SameConnection(p, EvalChain(Render(iface, Plan(s), g), p, ph, st).0, q)
    ensures t[j].mem.value.ledger.Some? && m in s.mappings
    ensures EvalChain(ForwardOf(iface, t[j].world.kernel), q, ph', stq).1 ==
      if (q.iif == iface || q.oif == iface) && RetiredId(t[j].mem.value.ledger.value.entries, m.id) then Dropped else Accepted
  {
    hide Run, EvalChain, Render, RenderForward, RenderFences, LedgerInv, Evolves, Valid, RulesOk, Le4, Fenced, E2E.SameConnection, E2E.Creator, AttemptOf, Settled, PlanOf, Enabled;
    TableAfterApply(t, evs, setup, j);
    MemoryFollows(t, evs, setup, i, j);
    SettledIsManaged(LedgerOf(t[i]), s);
    m := E2E.FindCreator(iface, s, setup.lim, g, p, ph, st);
    var (st', o) := EvalChain(Render(iface, Plan(s), g), p, ph, st);
    var l, n := LedgerOf(t[i]), LedgerOf(t[j]);
    E2E.FencedIffRetired(l, n, s, setup.lim, iface, m, p, st', o, q);
    ForwardMeaning(iface, t[j].world.kernel.rules, t[j].world.kernel.fences, q, ph', stq);
  }

  lemma SettledIsManaged(l: Ledger, s: Snapshot)
    requires Settled(l, s)
    ensures s.retirements.Some?
  {
    hide DesiredHash, EpochOf;
  }
}
