/**
 Whole runs of the agent on its host: boots, poll cycles, crashes at any point of either
 and kills, in any order, with any answers of the outside calls, and with traffic and
 table wipes between any two effects.
 */
module AgentRuns {
  import opened Values
  import opened Snapshots
  import opened Ledgers
  import opened LedgerProofs
  import opened Conntrack
  import opened AgentModel
  import opened AgentSafety
  import opened AgentSteps
  import opened AgentTraffic

  /** The process (if it runs), its host, and every retirement that was ever durably reported as cleared. */
  datatype Sys = Sys(mem: Option<Mem>, world: World, sealed: set<Retirement>)

  /** A boot or a cycle runs to its end, or dies after the given number of its effects; the process is killed; or the agent rests. */
  datatype Event =
    | Booting(boot: BootEnv, cut: Option<nat>)
    | Cycling(cycle: CycleEnv, cut: Option<nat>)
    | Killed
    | Resting

  ghost predicate Enabled(s: Sys, ev: Event) {
    (ev.Booting? ==> s.mem.None?) && (ev.Cycling? ==> s.mem.Some? && Healthy(s.mem.value))
  }

  /** The effects that were carried out. */
  function Reached(o: Outcome, cut: Option<nat>): seq<Effect> {
    if cut.Some? && cut.value <= |o.effects| then o.effects[..cut.value] else o.effects
  }

  ghost predicate Performs(s: Sys, o: Outcome, cut: Option<nat>, n: Sys) {
    && n.mem == (if cut.Some? then None else Some(o.mem))
    && n.sealed == SealAll(s.sealed, Reached(o, cut))
    && Interleaved(s.world, Reached(o, cut), n.world)
  }

  /** One event, among any traffic and wipes before, between and after its effects. */
  ghost predicate Steps(s: Sys, ev: Event, n: Sys, setup: Setup) {
    && Enabled(s, ev)
    && match ev
       case Booting(env, cut) => Performs(s, Boot(s.world, env, setup), cut, n)
       case Cycling(env, cut) => Performs(s, Cycle(s.mem.value, s.world.flows, env, setup.lim), cut, n)
       case Killed => n.mem == None && n.sealed == s.sealed && Drifts(s.world, n.world)
       case Resting => n.mem == s.mem && n.sealed == s.sealed && Drifts(s.world, n.world)
  }

  /** A host on which the agent never ran: no ledger, and no snapshot or a legacy one. */
  ghost predicate Initial(s: Sys, lim: Limits) {
    && s.mem.None? && s.sealed == {} && s.world.ledgerFile.NoLedger?
    && (s.world.snapFile.NoSnap? ||
        (s.world.snapFile.StoredSnap? && Valid(s.world.snapFile.snap, lim) && s.world.snapFile.snap.retirements.None?))
  }

  ghost predicate Run(t: seq<Sys>, evs: seq<Event>, setup: Setup) {
    && |t| == |evs| + 1 && Initial(t[0], setup.lim)
    && forall i :: 0 <= i < |evs| ==> Enabled(t[i], evs[i]) && Steps(t[i], evs[i], t[i + 1], setup)
  }

  /** Every re-assert of the run meets the exact condition: no rule that it installs carries the mark of an outstanding retirement. */
  ghost predicate Sealed(t: seq<Sys>, evs: seq<Event>)
    requires |t| == |evs| + 1
  {
    forall i :: 0 <= i < |evs| && evs[i].Cycling? && t[i].mem.Some? ==> Sealing(t[i].mem.value, evs[i].cycle)
  }

  /** The platform never answers "unchanged" while the applied generation is behind the ledger. */
  ghost predicate Trusted(t: seq<Sys>, evs: seq<Event>)
    requires |t| == |evs| + 1
  {
    forall i :: 0 <= i < |evs| && evs[i].Cycling? && t[i].mem.Some? ==> Faithful(t[i].mem.value, evs[i].cycle.sync)
  }

  // ---- Safety over every run ----

  ghost predicate SysInv(s: Sys, lim: Limits) {
    WorldInv(s.world, s.sealed, lim) && (s.mem.Some? ==> MemInv(s.mem.value, s.world, s.sealed, lim))
  }

  lemma {:induction false} SealGrows(sealed: set<Retirement>, es: seq<Effect>)
    ensures sealed <= SealAll(sealed, es)
    decreases |es|
  {
    if es != [] {
      SealGrows(Seal(sealed, es[0]), es[1..]);
    }
  }

  /** Where the effects of an event lead, up to traffic and wipes. */
  lemma PerformsAlike(s: Sys, o: Outcome, cut: Option<nat>, n: Sys)
    requires Performs(s, o, cut, n)
    ensures Alike(DoAll(s.world, Reached(o, cut)), n.world)
  {
    hide DoAll, Interleaved, SealAll;
    InterleavedAlike(s.world, s.world, Reached(o, cut), n.world);
  }

  lemma PerformKeeps(s: Sys, o: Outcome, cut: Option<nat>, n: Sys, lim: Limits)
    requires StepSafe(s.world, s.sealed, o, lim) && Robust(s.sealed, o.effects) && Performs(s, o, cut, n)
    ensures SysInv(n, lim) && s.sealed <= n.sealed
  {
    hide WorldInv, MemInv, SafeFrom, DoAll, SealAll, Interleaved, Robust;
    var es := Reached(o, cut);
    assert es == o.effects[..|es|];
    SafeAmongTraffic(s.world, s.sealed, o.effects, |es|, n.world, lim);
    SealGrows(s.sealed, es);
    if cut.None? {
      MemIgnoresRest(o.mem, DoAll(s.world, es), n.world, n.sealed, lim);
    }
  }

  lemma DriftKeeps(w: World, v: World, sealed: set<Retirement>, lim: Limits)
    requires WorldInv(w, sealed, lim) && Drifts(w, v)
    ensures WorldInv(v, sealed, lim)
  {
    hide WorldInv, Drifts, Unstamped, Unmatched, FilesOk, Calm;
    var marks := if w.kernel.Installed? then Marks(w.kernel.rules) else {};
    InitiallyCalm(w, sealed, lim);
    DriftCalm(w, v, marks, {}, sealed);
    CalmMeans(v, marks, {}, sealed);
    FilesOfGood(w, sealed, lim);
    DriftKeepsFiles(w, v);
    FilesOkAlike(w, v, sealed, lim);
    Together(v, sealed, lim);
  }

  lemma DriftKeepsFiles(w: World, v: World)
    requires Drifts(w, v)
    ensures Alike(w, v)
  {
  }

  lemma MemIgnoresRest(mem: Mem, w: World, v: World, sealed: set<Retirement>, lim: Limits)
    requires MemInv(mem, w, sealed, lim) && v.ledgerFile == w.ledgerFile && v.snapFile == w.snapFile
    ensures MemInv(mem, v, sealed, lim)
  {
    hide Sound, Fits, Valid;
  }

  lemma StepKeeps(s: Sys, ev: Event, n: Sys, setup: Setup)
    requires SysInv(s, setup.lim) && Steps(s, ev, n, setup)
    requires ev.Cycling? ==> Sealing(s.mem.value, ev.cycle)
    ensures SysInv(n, setup.lim) && s.sealed <= n.sealed
  {
    hide WorldInv, MemInv, StepSafe, Boot, Cycle, Performs, Sealing, Robust, Drifts;
    match ev
    case Booting(env, cut) =>
      BootSafe(s.world, s.sealed, env, setup);
      BootRobust(s.world, s.sealed, env, setup);
      PerformKeeps(s, Boot(s.world, env, setup), cut, n, setup.lim);
    case Cycling(env, cut) =>
      CycleSafe(s.mem.value, s.world, s.sealed, env, setup.lim);
      CycleRobust(s.mem.value, s.world, s.sealed, env, setup.lim);
      PerformKeeps(s, Cycle(s.mem.value, s.world.flows, env, setup.lim), cut, n, setup.lim);
    case Killed =>
      DriftKeeps(s.world, n.world, s.sealed, setup.lim);
    case Resting =>
      DriftKeeps(s.world, n.world, s.sealed, setup.lim);
      DriftKeepsFiles(s.world, n.world);
      if s.mem.Some? {
        MemIgnoresRest(s.mem.value, s.world, n.world, s.sealed, setup.lim);
      }
  }

  lemma StepOfRun(t: seq<Sys>, evs: seq<Event>, setup: Setup, k: nat)
    requires Run(t, evs, setup) && k < |evs|
    ensures |t| == |evs| + 1 && Steps(t[k], evs[k], t[k + 1], setup)
    ensures Sealed(t, evs) && evs[k].Cycling? ==> t[k].mem.Some? && Sealing(t[k].mem.value, evs[k].cycle)
    ensures Trusted(t, evs) && evs[k].Cycling? ==> t[k].mem.Some? && Faithful(t[k].mem.value, evs[k].cycle.sync)
  {
    hide Initial, Performs, Drifts, Sealing, Faithful;
  }

  lemma RunLength(t: seq<Sys>, evs: seq<Event>, setup: Setup)
    requires Run(t, evs, setup)
    ensures |t| == |evs| + 1
  {
  }

  lemma InitiallySafe(t: seq<Sys>, evs: seq<Event>, setup: Setup)
    requires Run(t, evs, setup)
    ensures SysInv(t[0], setup.lim)
  {
    hide Valid, Steps;
  }

  /** Every reachable state is good: files consistent, sealed retirements without rule or connection. */
  lemma {:induction false} EveryStateIsSafe(t: seq<Sys>, evs: seq<Event>, setup: Setup, i: nat)
    requires Run(t, evs, setup) && Sealed(t, evs) && i < |t|
    ensures SysInv(t[i], setup.lim)
    decreases i
  {
    hide *;
    if i == 0 {
      InitiallySafe(t, evs, setup);
    } else {
      RunLength(t, evs, setup);
      EveryStateIsSafe(t, evs, setup, i - 1);
      StepOfRun(t, evs, setup, i - 1);
      StepKeeps(t[i - 1], evs[i - 1], t[i], setup);
    }
  }

  lemma SealedStep(t: seq<Sys>, evs: seq<Event>, setup: Setup, k: nat)
    requires Run(t, evs, setup) && Sealed(t, evs) && k < |evs|
    ensures t[k].sealed <= t[k + 1].sealed
  {
    hide *;
    RunLength(t, evs, setup);
    EveryStateIsSafe(t, evs, setup, k);
    StepOfRun(t, evs, setup, k);
    StepKeeps(t[k], evs[k], t[k + 1], setup);
  }

  lemma {:induction false} SealedStays(t: seq<Sys>, evs: seq<Event>, setup: Setup, i: nat, j: nat)
    requires Run(t, evs, setup) && Sealed(t, evs) && i <= j < |t|
    ensures t[i].sealed <= t[j].sealed
    decreases j
  {
    hide *;
    RunLength(t, evs, setup);
    if i < j {
      SealedStays(t, evs, setup, i, j - 1);
      SealedStep(t, evs, setup, j - 1);
    }
  }

  lemma ReceiptsAreCleared(es: seq<Entry>, r: Retirement)
    ensures r in Receipts(es) <==> exists e :: e in es && e.cleared && e.retirement == r
  {
    hide ClearedList;
    if r in Receipts(es) {
      var i :| 0 <= i < |Receipts(es)| && Receipts(es)[i] == r;
      ClearedListIsExact(es, ClearedList(es)[i]);
    }
    if e :| e in es && e.cleared && e.retirement == r {
      ClearedListIsExact(es, e);
      var i :| 0 <= i < |ClearedList(es)| && ClearedList(es)[i] == e;
      assert Receipts(es)[i] == r;
    }
  }

  /** In every run whose re-asserts all meet that condition, a receipt the agent once sent stays true for ever, through crashes,
      reboots, wipes and failed calls: no connection of the retirement exists and no rule in the kernel stamps its mark. */
  lemma ReceiptsAreFinal(t: seq<Sys>, evs: seq<Event>, setup: Setup, i: nat, j: nat, r: Retirement)
    requires Run(t, evs, setup) && Sealed(t, evs) && i <= j < |t|
    requires t[i].mem.Some? && r in ReportOf(t[i].mem.value).receipts
    ensures Matching(t[j].world.flows, r) == {}
    ensures t[j].world.kernel.Installed? ==> forall q :: q in t[j].world.kernel.rules ==> q.flowMark != r.flowMark
    ensures t[j].mem.Some? && t[j].mem.value.ledger.Some? ==>
      forall a :: a in t[j].mem.value.ledger.value.active ==> a.flowMark != r.flowMark
  {
    hide Run, Sealed, Valid, Pends, Fits, LedgerInv, Matches;
    EveryStateIsSafe(t, evs, setup, i);
    EveryStateIsSafe(t, evs, setup, j);
    SealedStays(t, evs, setup, i, j);
    var l := t[i].mem.value.ledger.value;
    ReceiptsAreCleared(l.entries, r);
    assert r in ClearedOnes(l);
    assert r in t[j].sealed;
    assert t[j].mem.Some? && t[j].mem.value.ledger.Some? ==> Barred(t[j].mem.value.ledger.value, r.flowMark);
  }

  lemma {:induction false} TrustedStep(t: seq<Sys>, evs: seq<Event>, setup: Setup, i: nat)
    requires Run(t, evs, setup) && Trusted(t, evs) && i < |t|
    ensures SysInv(t[i], setup.lim)
    ensures i < |evs| && evs[i].Cycling? ==> t[i].mem.Some? && Sealing(t[i].mem.value, evs[i].cycle)
    decreases i
  {
    hide *;
    RunLength(t, evs, setup);
    if i == 0 {
      InitiallySafe(t, evs, setup);
    } else {
      TrustedStep(t, evs, setup, i - 1);
      StepOfRun(t, evs, setup, i - 1);
      StepKeeps(t[i - 1], evs[i - 1], t[i], setup);
    }
    if i < |evs| && evs[i].Cycling? {
      StepOfRun(t, evs, setup, i);
      FaithfulStep(t[i], evs[i].cycle, setup.lim);
    }
  }

  lemma FaithfulStep(s: Sys, env: CycleEnv, lim: Limits)
    requires SysInv(s, lim) && s.mem.Some? && Faithful(s.mem.value, env.sync)
    ensures Sealing(s.mem.value, env)
  {
    hide WorldInv, MemInv, Avoids, Faithful;
    if !s.mem.value.ledgerLost {
      FaithfulSeals(s.mem.value, s.world, s.sealed, env, lim);
    }
  }

  /** The condition is met as long as the platform says "unchanged" only when the applied generation is not behind the ledger. */
  lemma TrustedIsSealed(t: seq<Sys>, evs: seq<Event>, setup: Setup)
    requires Run(t, evs, setup) && Trusted(t, evs)
    ensures Sealed(t, evs)
  {
    hide Run, Trusted, Sealing, SysInv;
    RunLength(t, evs, setup);
    forall i | 0 <= i < |evs| && evs[i].Cycling? && t[i].mem.Some? ensures Sealing(t[i].mem.value, evs[i].cycle) {
      TrustedStep(t, evs, setup, i);
    }
  }
}
