/**
 The ledger in memory over whole runs, through crashes, kills, reboots and saves that report
 wrongly: disk is never behind memory, so from one life of the process to the next the
 ledger in memory only moves forward, and no id and no mark is ever reused.
 */
module AgentMemory {
  import opened Values
  import opened Snapshots
  import opened Ledgers
  import opened LedgerProofs
  import opened AgentModel
  import opened AgentSafety
  import opened AgentSteps
  import opened AgentTraffic
  import opened AgentRuns
  import opened AgentFiles
  import opened AgentBoot
  import opened AgentDurability
  import LedgerRuns

  // ---- What disk can hold beside memory ----

  /** What memory can make of its ledger in one write: another order of the active epochs, clearings, or an accepted snapshot. */
  ghost predicate DiskFrom(l: Ledger, f: Ledger, lim: Limits) {
    Similar(l, f) || (exists ids :: f == Cleared(l, ids)) || exists s :: Leads(l, s, lim, f) && s.retirements.Some?
  }

  /** An armed ledger stands for a valid snapshot. */
  ghost predicate Stands(l: Ledger, lim: Limits) {
    l.armed ==> exists s :: Valid(s, lim) && Settled(l, s)
  }

  /** Both ledgers stand for snapshots, and disk is where memory is, or at most one write ahead of it. */
  ghost predicate Grounded(s: Sys, lim: Limits) {
    && (s.world.ledgerFile.StoredLedger? ==> Stands(s.world.ledgerFile.ledger, lim))
    && (s.mem.Some? && s.mem.value.ledger.Some? ==> GroundedIn(s.mem.value.ledger.value, s.world.ledgerFile, lim))
  }

  ghost predicate GroundedIn(l: Ledger, f: LedgerFile, lim: Limits) {
    Stands(l, lim) && f.StoredLedger? && DiskFrom(l, f.ledger, lim)
  }

  lemma SimilarSymmetric(l: Ledger, n: Ledger)
    requires Similar(l, n)
    ensures Similar(n, l)
  {
  }

  /** The order of the active epochs makes no difference. */
  lemma SimilarEvolves(l: Ledger, n: Ledger)
    requires LedgerInv(l) && Similar(l, n)
    ensures Evolves(l, n)
  {
    SameMultisetSameElements(l.active, n.active);
    EvolvesReflexive(l);
    hide LedgerInv;
    assert forall b :: Holds(n, b) ==> Holds(l, b);
  }

  /** Disk is never behind memory. */
  lemma DiskAhead(l: Ledger, f: Ledger, lim: Limits)
    requires LedgerInv(l) && DiskFrom(l, f, lim)
    ensures Evolves(l, f)
  {
    hide LedgerInv, Evolves, Similar, Leads, Cleared;
    if Similar(l, f) {
      SimilarEvolves(l, f);
    } else if ids :| f == Cleared(l, ids) {
      ClearKeeps(l, ids);
    } else {
      var s :| Leads(l, s, lim, f) && s.retirements.Some?;
      PrepareKeeps(l, s, lim, f);
    }
  }

  lemma ClearedStands(l: Ledger, ids: set<string>, lim: Limits)
    requires Stands(l, lim)
    ensures Stands(Cleared(l, ids), lim)
  {
    hide Valid, Settled, Cleared;
    ClearedKeepsActive(l, ids);
    if l.armed {
      var s :| Valid(s, lim) && Settled(l, s);
      ClearStaysSettled(l, s, ids);
    }
  }

  lemma SimilarStands(l: Ledger, n: Ledger, lim: Limits)
    requires Stands(l, lim) && Similar(l, n)
    ensures Stands(n, lim)
  {
    hide Valid, Settled;
    if l.armed {
      var s :| Valid(s, lim) && Settled(l, s);
      SettledBySimilar(l, n, s);
    }
  }

  lemma LeadsStands(l: Ledger, s: Snapshot, lim: Limits, n: Ledger)
    requires LedgerInv(l) && Stands(l, lim) && Leads(l, s, lim, n)
    ensures Stands(n, lim)
  {
    hide Valid, Settled, LedgerInv, Leads;
    if s.retirements.Some? {
      LedgerRuns.LeadsSettles(l, s, lim, n);
    } else {
      LedgerRuns.LegacyLeads(l, s, lim, n);
    }
  }

  lemma FromItself(l: Ledger, lim: Limits)
    ensures DiskFrom(l, l, lim)
  {
  }

  lemma FromLeads(l: Ledger, s: Snapshot, lim: Limits, n: Ledger)
    requires Leads(l, s, lim, n)
    ensures DiskFrom(l, n, lim)
  {
    hide Leads, Similar;
    if s.retirements.None? {
      LedgerRuns.LegacyLeads(l, s, lim, n);
      SimilarReflexive(l);
    }
  }

  // ---- Steps ----

  /** Every ledger a step stores stands for a snapshot, and it ends with memory and disk that belong together. */
  ghost predicate StepGrounds(w: World, o: Outcome, lim: Limits) {
    && WritesStand(o.effects, lim)
    && (o.mem.ledger.Some? ==> GroundedIn(o.mem.ledger.value, DoAll(w, o.effects).ledgerFile, lim))
  }

  ghost predicate WritesStand(es: seq<Effect>, lim: Limits) {
    forall e :: e in es && e.WriteLedger? ==> Stands(e.ledger, lim)
  }

  /** An apply leaves disk as it was, or stores what it made of its ledger, which it may not have taken over. */
  ghost predicate EndsApply(f: LedgerFile, l: Ledger, ran: Ran, g: LedgerFile) {
    (g == f && ran.ledger == l) || (g.StoredLedger? && exists ids :: g.ledger == Cleared(ran.ledger, ids))
  }

  lemma ApplyEnds(w: World, l: Ledger, s: Option<Snapshot>, env: ApplyEnv)
    ensures var ran := ApplySnapshot(l, s, env); EndsApply(w.ledgerFile, l, ran, DoAll(w, ran.effects).ledgerFile)
  {
    hide Cleared, ValidLedger, PlanOf, Retirements, Verified;
    ClearAllOnlyDeletes(l.entries, env.clears);
    var (cleared, deletions, ids) := ClearAll(l.entries, env.clears);
    var install := Try(env.install, Install(PlanOf(s), Retirements(l)));
    var before, ran, n := install + deletions, ApplySnapshot(l, s, env), Cleared(l, ids);
    assert forall e :: e in before ==> e in install || e in deletions;
    ClearedNothing(n);
    if ran.effects == before + [WriteLedger(n)] && (ran.ledger == l || ran.ledger == n) {
      hide DoAll, ApplySnapshot;
      DoConcat(w, before, [WriteLedger(n)]);
      DoOne(DoAll(w, before), WriteLedger(n));
    } else {
      assert before + [] == before;
      assert ran.effects == install || ran.effects == before;
      NoWrites(w, ran.effects);
    }
  }

  lemma ApplyGrounds(w: World, l: Ledger, s: Option<Snapshot>, env: ApplyEnv, lim: Limits)
    requires GroundedIn(l, w.ledgerFile, lim)
    ensures var ran := ApplySnapshot(l, s, env);
      WritesStand(ran.effects, lim) && GroundedIn(ran.ledger, DoAll(w, ran.effects).ledgerFile, lim)
  {
    hide ApplySnapshot, Stands, Cleared, DoAll, Similar, Leads;
    var ran := ApplySnapshot(l, s, env);
    ApplyEffects(l, s, env);
    forall e | e in ran.effects && e.WriteLedger? ensures Stands(e.ledger, lim) {
      var ids :| e.ledger == Cleared(l, ids);
      ClearedStands(l, ids, lim);
    }
    var ids :| ran.ledger == Cleared(l, ids);
    ClearedStands(l, ids, lim);
    ApplyEnds(w, l, s, env);
  }

  /** Effects that leave this ledger on disk, then an apply of it. */
  lemma ThenGrounds(w: World, before: seq<Effect>, n: Ledger, s: Option<Snapshot>, env: ApplyEnv, after: seq<Effect>, lim: Limits)
    requires WritesStand(before, lim) && GroundedIn(n, DoAll(w, before).ledgerFile, lim)
    requires forall e :: e in after ==> !e.WriteLedger?
    ensures var ran := ApplySnapshot(n, s, env);
      WritesStand(before + ran.effects + after, lim) && GroundedIn(ran.ledger, DoAll(w, before + ran.effects + after).ledgerFile, lim)
  {
    hide ApplySnapshot, Stands, DoAll, GroundedIn;
    var ran := ApplySnapshot(n, s, env);
    ApplyGrounds(DoAll(w, before), n, s, env, lim);
    DoConcat(w, before, ran.effects);
    DoConcat(w, before + ran.effects, after);
    NoWrites(DoAll(w, before + ran.effects), after);
  }

  lemma LegacyGrounds(mem: Mem, w: World, n: Ledger, s: Snapshot, env: CycleEnv, lim: Limits)
    requires mem.ledger == Some(n) && GroundedIn(n, w.ledgerFile, lim) && !n.armed
    ensures StepGrounds(w, Converge(mem, n, s, env), lim)
  {
    hide ApplySnapshot, DoAll, GroundedIn, WritesStand, Converge;
    var ran := ApplySnapshot(n, Some(s), env.apply);
    var after := if ran.ok then Try(env.saveSnap, WriteSnap(AgentModel.Stamped(s, env.now))) else [];
    LegacyConverge(mem, n, s, env);
    NothingDone(w);
    assert WritesStand([], lim) by { NothingStands(lim); }
    ThenGrounds(w, [], n, Some(s), env.apply, after, lim);
    assert [] + ran.effects + after == ran.effects + after;
  }

  lemma NothingStands(lim: Limits)
    ensures WritesStand([], lim)
  {
  }

  lemma UnsavedGrounds(mem: Mem, w: World, n: Ledger, s: Snapshot, env: CycleEnv, lim: Limits)
    requires mem.ledger.Some? && GroundedIn(mem.ledger.value, w.ledgerFile, lim) && n.armed && !SaveLedger(n, env.saveLedger).Done?
    requires Stands(n, lim) && DiskFrom(mem.ledger.value, n, lim)
    ensures StepGrounds(w, Converge(mem, n, s, env), lim)
  {
    hide ApplySnapshot, DoAll, Stands, DiskFrom, ValidLedger;
    NothingDone(w);
    DoOne(w, WriteLedger(n));
  }

  lemma SavedGrounds(mem: Mem, w: World, n: Ledger, s: Snapshot, env: CycleEnv, lim: Limits)
    requires mem.ledger.Some? && n.armed && SaveLedger(n, env.saveLedger).Done?
    requires Stands(n, lim) && DiskFrom(n, n, lim)
    ensures StepGrounds(w, Converge(mem, n, s, env), lim)
  {
    hide ApplySnapshot, DoAll, Stands, DiskFrom, SaveLedger, Converge;
    var snapWrite := Try(env.saveSnap, WriteSnap(AgentModel.Stamped(s, env.now)));
    var before, ran := [WriteLedger(n)] + snapWrite, ApplySnapshot(n, Some(s), env.apply);
    DoConcat(w, [WriteLedger(n)], snapWrite);
    DoOne(w, WriteLedger(n));
    NoWrites(DoAll(w, [WriteLedger(n)]), snapWrite);
    ConvergeAfterSave(mem, n, s, env);
    ThenGrounds(w, before, n, Some(s), env.apply, [], lim);
    assert before + ran.effects + [] == before + ran.effects;
  }

  lemma ConvergeGrounds(mem: Mem, w: World, n: Ledger, s: Snapshot, env: CycleEnv, lim: Limits)
    requires mem.ledger.Some? && LedgerInv(mem.ledger.value) && GroundedIn(mem.ledger.value, w.ledgerFile, lim)
    requires Leads(mem.ledger.value, s, lim, n)
    ensures StepGrounds(w, Converge(mem, n, s, env), lim)
  {
    hide LedgerInv, Leads, Stands, DiskFrom, SaveLedger, Converge, StepGrounds;
    var l := mem.ledger.value;
    LeadsStands(l, s, lim, n);
    if !n.armed {
      UnarmedNext(l, s, lim, n);
      LegacyGrounds(mem, w, n, s, env, lim);
    } else if !SaveLedger(n, env.saveLedger).Done? {
      FromLeads(l, s, lim, n);
      UnsavedGrounds(mem, w, n, s, env, lim);
    } else {
      FromItself(n, lim);
      SavedGrounds(mem, w, n, s, env, lim);
    }
  }

  lemma UnarmedNext(l: Ledger, s: Snapshot, lim: Limits, n: Ledger)
    requires LedgerInv(l) && Leads(l, s, lim, n) && !n.armed
    ensures n == l
  {
    NextFollows(l, s, lim, n);
  }

  lemma StandingGrounds(mem: Mem, w: World, o: Outcome, lim: Limits)
    requires mem.ledger.Some? ==> GroundedIn(mem.ledger.value, w.ledgerFile, lim)
    requires o.mem.ledger == mem.ledger && forall e :: e in o.effects ==> !e.WriteLedger?
    ensures StepGrounds(w, o, lim)
  {
    hide GroundedIn;
    NoWrites(w, o.effects);
  }

  lemma CycleGrounds(mem: Mem, w: World, env: CycleEnv, lim: Limits)
    requires Healthy(mem) && (mem.ledger.Some? ==> LedgerInv(mem.ledger.value) && GroundedIn(mem.ledger.value, w.ledgerFile, lim))
    ensures StepGrounds(w, Cycle(mem, w.flows, env, lim), lim)
  {
    hide ApplySnapshot, Received, Converge, ZeroAll, LedgerInv, Leads, StepGrounds, GroundedIn;
    var o := Cycle(mem, w.flows, env, lim);
    if mem.ledgerLost || env.sync.SyncFailed? || env.sync.Garbage? {
      StandingGrounds(mem, w, o, lim);
    } else if env.sync.Unchanged? {
      if o.attempt.NoApply? {
        StandingGrounds(mem, w, o, lim);
      } else {
        AppliedGrounds(mem, w, o.attempt.target, env.apply, o, lim);
      }
    } else {
      var n := ReceivedCases(mem, env.sync.snap, w.flows, env, lim);
      if n.None? {
        StandingGrounds(mem, w, o, lim);
      } else {
        ConvergeGrounds(mem, w, n.value, env.sync.snap, env, lim);
      }
    }
  }

  lemma AppliedGrounds(mem: Mem, w: World, s: Option<Snapshot>, env: ApplyEnv, o: Outcome, lim: Limits)
    requires mem.ledger.Some? && GroundedIn(mem.ledger.value, w.ledgerFile, lim)
    requires var ran := ApplySnapshot(mem.ledger.value, s, env); o.effects == ran.effects && o.mem.ledger == Some(ran.ledger)
    ensures StepGrounds(w, o, lim)
  {
    hide ApplySnapshot, GroundedIn, WritesStand;
    ApplyGrounds(w, mem.ledger.value, s, env, lim);
  }

  // ---- Boot ----

  lemma FreshStands(es: seq<Effect>, lim: Limits)
    requires forall e :: e in es ==> e.WriteLedger? && e.ledger == Fresh(e.ledger.ledgerId)
    ensures WritesStand(es, lim)
  {
  }

  lemma LoadGrounds(w: World, env: BootEnv, setup: Setup)
    requires FilesInv(w, setup.lim) && (w.ledgerFile.StoredLedger? ==> Stands(w.ledgerFile.ledger, setup.lim))
    ensures var load := LoadPersisted(w.snapFile, env, setup);
      var held := LoadLedger(w, Usage(load), env, setup);
      var l := if held.Held? then Some(held.ledger) else held.inHand;
      && WritesStand(held.effects, setup.lim)
      && (l.Some? ==> GroundedIn(l.value, DoAll(w, held.effects).ledgerFile, setup.lim))
  {
    hide FilesInv, Valid, LoadLedgerFile, LoadPersisted, Prepared, Ledgers.Verdict, Stands, DoAll, DiskFrom, Similar, ProvablyLegacy, IsUUID, LedgerInv, Fits;
    var load := LoadPersisted(w.snapFile, env, setup);
    var first, held := LoadLedgerFile(w, env, setup), LoadLedger(w, Usage(load), env, setup);
    LoadedLedger(w, env, setup);
    FirstFiles(w, env, setup);
    FreshStands(first.effects, setup.lim);
    if first.Held? {
      FirstStands(w, env, setup);
      FromItself(first.ledger, setup.lim);
      LoadDecides(w, env, setup);
      if held.Held? {
        SimilarSymmetric(first.ledger, held.ledger);
        SimilarStands(first.ledger, held.ledger, setup.lim);
        FromSimilar(held.ledger, first.ledger, setup.lim);
      }
    }
  }

  lemma FromSimilar(l: Ledger, f: Ledger, lim: Limits)
    requires Similar(l, f)
    ensures DiskFrom(l, f, lim)
  {
  }

  lemma FirstStands(w: World, env: BootEnv, setup: Setup)
    requires w.ledgerFile.StoredLedger? ==> Stands(w.ledgerFile.ledger, setup.lim)
    requires w.ledgerFile.StoredLedger? || env.newId.Some?
    ensures Stands(BootLedgerOf(w, env), setup.lim)
  {
  }

  lemma BootGrounds(w: World, env: BootEnv, setup: Setup)
    requires FilesInv(w, setup.lim) && (w.ledgerFile.StoredLedger? ==> Stands(w.ledgerFile.ledger, setup.lim))
    ensures StepGrounds(w, Boot(w, env, setup), setup.lim)
  {
    hide FilesInv, LoadPersisted, LoadLedger, ApplySnapshot, Stands, DoAll, GroundedIn;
    LoadGrounds(w, env, setup);
    var load := LoadPersisted(w.snapFile, env, setup);
    var held, o := LoadLedger(w, Usage(load), env, setup), Boot(w, env, setup);
    if held.Lost? {
      var q := Try(env.quarantine, InstallQuarantine);
      DoConcat(w, held.effects, q);
      NoWrites(DoAll(w, held.effects), q);
    } else {
      var removal := if load.Rejected? && env.removed then [RemoveSnap] else [];
      DoConcat(w, held.effects, removal);
      NoWrites(DoAll(w, held.effects), removal);
      ThenGrounds(w, held.effects + removal, held.ledger, Usage(load), env.apply, [], setup.lim);
      var ran := ApplySnapshot(held.ledger, Usage(load), env.apply);
      assert held.effects + removal + ran.effects + [] == held.effects + removal + ran.effects;
    }
  }

  // ---- Runs ----

  lemma {:induction false} FileStands(w: World, es: seq<Effect>, lim: Limits)
    requires WritesStand(es, lim) && (w.ledgerFile.StoredLedger? ==> Stands(w.ledgerFile.ledger, lim))
    ensures var g := DoAll(w, es).ledgerFile; g.StoredLedger? ==> Stands(g.ledger, lim)
    decreases |es|
  {
    hide Stands;
    if es != [] {
      assert es[0] in es && forall e :: e in es[1..] ==> e in es;
      FileStands(Do(w, es[0]), es[1..], lim);
    }
  }

  lemma PerformGrounds(s: Sys, o: Outcome, cut: Option<nat>, n: Sys, lim: Limits)
    requires Grounded(s, lim) && StepGrounds(s.world, o, lim) && Performs(s, o, cut, n)
    ensures Grounded(n, lim)
  {
    hide Stands, DoAll, SealAll, Interleaved, DiskFrom;
    var es := Reached(o, cut);
    assert forall e :: e in es ==> e in o.effects;
    FileStands(s.world, es, lim);
    PerformsAlike(s, o, cut, n);
  }

  lemma StepGrounded(s: Sys, ev: Event, n: Sys, setup: Setup)
    requires GoodFiles(s, setup.lim) && Grounded(s, setup.lim) && Steps(s, ev, n, setup)
    ensures Grounded(n, setup.lim)
  {
    hide FilesInv, Boot, Cycle, Performs, Stampable, LedgerInv, Fits, StepGrounds, Stands, DiskFrom;
    match ev
    case Booting(env, cut) =>
      BootGrounds(s.world, env, setup);
      PerformGrounds(s, Boot(s.world, env, setup), cut, n, setup.lim);
    case Cycling(env, cut) =>
      CycleGrounds(s.mem.value, s.world, env, setup.lim);
      PerformGrounds(s, Cycle(s.mem.value, s.world.flows, env, setup.lim), cut, n, setup.lim);
    case Killed =>
    case Resting =>
  }

  lemma InitiallyGrounded(t: seq<Sys>, evs: seq<Event>, setup: Setup)
    requires Run(t, evs, setup)
    ensures Grounded(t[0], setup.lim)
  {
    hide Valid, Steps;
  }

  /** In every run, whatever is answered and wherever it crashes: an armed ledger, in memory or on disk, stands for a valid snapshot, and
      disk holds what memory has or what memory could have made of it in one write. */
  lemma {:induction false} EveryStateIsGrounded(t: seq<Sys>, evs: seq<Event>, setup: Setup, i: nat)
    requires Run(t, evs, setup) && i < |t|
    ensures Grounded(t[i], setup.lim)
    decreases i
  {
    hide *;
    RunLength(t, evs, setup);
    if i == 0 {
      InitiallyGrounded(t, evs, setup);
    } else {
      EveryStateIsGrounded(t, evs, setup, i - 1);
      EveryStateHasGoodFiles(t, evs, setup, i - 1);
      StepOfRun(t, evs, setup, i - 1);
      StepGrounded(t[i - 1], evs[i - 1], t[i], setup);
    }
  }

  // ---- The ledger in memory, from life to life ----

  /** The process has a ledger in hand, kept or lost. */
  ghost predicate Knows(s: Sys) {
    s.mem.Some? && s.mem.value.ledger.Some?
  }

  function LedgerOf(s: Sys): Ledger
    requires Knows(s)
  {
    s.mem.value.ledger.value
  }

  /** Disk, and memory if it has a ledger, follow this one. */
  ghost predicate Beyond(l: Ledger, s: Sys) {
    && s.world.ledgerFile.StoredLedger? && LedgerInv(s.world.ledgerFile.ledger) && Evolves(l, s.world.ledgerFile.ledger)
    && (Knows(s) ==> LedgerInv(LedgerOf(s)) && Evolves(l, LedgerOf(s)))
  }

  lemma BootMemory(w: World, env: BootEnv, setup: Setup)
    requires FilesInv(w, setup.lim) && w.ledgerFile.StoredLedger?
    ensures var m := Boot(w, env, setup).mem; m.ledger.Some? ==> LedgerInv(m.ledger.value) && Evolves(w.ledgerFile.ledger, m.ledger.value)
  {
    LoadedLedger(w, env, setup);
    HeldFollows(w, env, setup);
    hide FilesInv, LoadLedgerFile, LoadPersisted, ApplySnapshot, LedgerInv, Evolves, Prepared, Ledgers.Verdict, ProvablyLegacy, Fits, Valid;
    var load := LoadPersisted(w.snapFile, env, setup);
    var held := LoadLedger(w, Usage(load), env, setup);
    if held.Held? {
      ApplyFollowsMemory(held.ledger, Usage(load), env.apply);
      Transitive(w.ledgerFile.ledger, held.ledger, ApplySnapshot(held.ledger, Usage(load), env.apply).ledger);
    } else if held.inHand.Some? {
      Itself(held.inHand.value);
    }
  }

  /** A step whose writes and final memory follow a ledger that itself follows the base. */
  lemma BeyondPerform(l: Ledger, s: Sys, via: Ledger, o: Outcome, cut: Option<nat>, n: Sys)
    requires LedgerInv(l) && LedgerInv(via) && Evolves(l, via) && Beyond(l, s) && Performs(s, o, cut, n)
    requires WritesFollow(via, o.effects)
    requires o.mem.ledger.Some? ==> LedgerInv(o.mem.ledger.value) && Evolves(via, o.mem.ledger.value)
    ensures Beyond(l, n)
  {
    hide LedgerInv, Evolves, SealAll, Interleaved, DoAll;
    var es := Reached(o, cut);
    assert forall e :: e in es ==> e in o.effects;
    OldOrFollowing(s.world, es, via);
    PerformsAlike(s, o, cut, n);
    var g := DoAll(s.world, es).ledgerFile;
    if g != s.world.ledgerFile {
      Transitive(l, via, g.ledger);
    }
    if Knows(n) {
      Transitive(l, via, o.mem.ledger.value);
    }
  }

  lemma BeyondStep(l: Ledger, s: Sys, ev: Event, n: Sys, setup: Setup)
    requires LedgerInv(l) && Beyond(l, s) && GoodFiles(s, setup.lim) && Steps(s, ev, n, setup)
    ensures Beyond(l, n)
  {
    hide FilesInv, Boot, Cycle, Performs, Stampable, LedgerInv, Fits, Evolves;
    match ev
    case Booting(env, cut) =>
      BootWrites(s.world, env, setup);
      BootMemory(s.world, env, setup);
      BeyondPerform(l, s, s.world.ledgerFile.ledger, Boot(s.world, env, setup), cut, n);
    case Cycling(env, cut) =>
      var mem, o := s.mem.value, Cycle(s.mem.value, s.world.flows, env, setup.lim);
      if mem.ledgerLost {
        LostWrites(mem, s.world.flows, env, setup.lim);
        LostStands(l, s, o, cut, n);
      } else {
        CycleFollowsMemory(mem, s.world.flows, env, setup.lim);
        BeyondPerform(l, s, mem.ledger.value, o, cut, n);
      }
    case Killed =>
    case Resting =>
  }

  lemma LostStands(l: Ledger, s: Sys, o: Outcome, cut: Option<nat>, n: Sys)
    requires Beyond(l, s) && Performs(s, o, cut, n) && (forall e :: e in o.effects ==> !e.WriteLedger?) && s.mem.Some? && o.mem == s.mem.value
    ensures Beyond(l, n)
  {
    hide LedgerInv, Evolves, SealAll, Interleaved, DoAll;
    var es := Reached(o, cut);
    assert forall e :: e in es ==> e in o.effects;
    NoWrites(s.world, es);
    PerformsAlike(s, o, cut, n);
  }

  lemma BeyondItself(s: Sys, lim: Limits)
    requires GoodFiles(s, lim) && Grounded(s, lim) && Knows(s)
    ensures LedgerInv(LedgerOf(s)) && Beyond(LedgerOf(s), s)
  {
    hide FilesInv, LedgerInv, Fits, Evolves, Stands, DiskFrom;
    FilesAreOk(s.world, lim);
    Itself(LedgerOf(s));
    DiskAhead(LedgerOf(s), s.world.ledgerFile.ledger, lim);
  }

  /** In every run, through crashes, kills and reboots and whatever saves report: both the stored ledger and the ledger in memory at any
      later time follow the ledger in memory now. */
  lemma {:induction false} MemoryEvolves(t: seq<Sys>, evs: seq<Event>, setup: Setup, i: nat, j: nat)
    requires Run(t, evs, setup) && i <= j < |t| && Knows(t[i])
    ensures LedgerInv(LedgerOf(t[i])) && Beyond(LedgerOf(t[i]), t[j])
    decreases j
  {
    hide *;
    RunLength(t, evs, setup);
    if i == j {
      EveryStateHasGoodFiles(t, evs, setup, i);
      EveryStateIsGrounded(t, evs, setup, i);
      BeyondItself(t[i], setup.lim);
    } else {
      MemoryEvolves(t, evs, setup, i, j - 1);
      EveryStateHasGoodFiles(t, evs, setup, j - 1);
      StepOfRun(t, evs, setup, j - 1);
      BeyondStep(LedgerOf(t[i]), t[j - 1], evs[j - 1], t[j], setup);
    }
  }

  lemma MemoryFollows(t: seq<Sys>, evs: seq<Event>, setup: Setup, i: nat, j: nat)
    requires Run(t, evs, setup) && i <= j < |t| && Knows(t[i]) && Knows(t[j])
    ensures var l, n := LedgerOf(t[i]), LedgerOf(t[j]); LedgerInv(l) && LedgerInv(n) && Evolves(l, n)
  {
    hide Run, Evolves, LedgerInv;
    MemoryEvolves(t, evs, setup, i, j);
  }

  /** Never reuse, over every run of the agent and from each life of the process to the next: the high-water marks that it reports
      never fall, and every id keeps its mark and tuple, every mark its id. */
  lemma MemoryNeverReuse(t: seq<Sys>, evs: seq<Event>, setup: Setup, i: nat, j: nat, b: Epoch, c: Epoch)
    requires Run(t, evs, setup) && i <= j < |t| && Knows(t[i]) && Knows(t[j])
    ensures var r, q := ReportOf(t[i].mem.value), ReportOf(t[j].mem.value);
      && r.ledgerId == q.ledgerId && r.mappingIdHighWater <= q.mappingIdHighWater && r.flowMarkHighWater <= q.flowMarkHighWater
      && r.retirementHighWater <= q.retirementHighWater && r.managedGenerationHighWater <= q.managedGenerationHighWater
    ensures Holds(LedgerOf(t[i]), b) && Holds(LedgerOf(t[j]), c) && EpochsClash(b, c) ==> b == c
  {
    hide Run, ValidLedger, Holds, Receipts;
    MemoryFollows(t, evs, setup, i, j);
    if Holds(LedgerOf(t[i]), b) && Holds(LedgerOf(t[j]), c) {
      BindingForever(LedgerOf(t[i]), LedgerOf(t[j]), b, c);
    }
  }

  /** An id that was active and then was not is never active again, in this or any later life of the process. */
  lemma MemoryNeverReturns(t: seq<Sys>, evs: seq<Event>, setup: Setup, i: nat, j: nat, k: nat, a: Epoch)
    requires Run(t, evs, setup) && i <= j <= k < |t| && Knows(t[i]) && Knows(t[j]) && Knows(t[k])
    requires a in LedgerOf(t[i]).active && !ActiveId(LedgerOf(t[j]), a.mappingId)
    ensures !ActiveId(LedgerOf(t[k]), a.mappingId)
  {
    hide Run, LedgerInv, Evolves;
    MemoryFollows(t, evs, setup, i, j);
    MemoryFollows(t, evs, setup, j, k);
    InvValid(LedgerOf(t[i]));
    LeftNeverReturns(LedgerOf(t[i]), LedgerOf(t[j]), LedgerOf(t[k]), a);
  }

  /** The phase of an id (unknown, active, retired, cleared, gone) never moves back, in this or any later life of the process. */
  lemma MemoryLifecycle(t: seq<Sys>, evs: seq<Event>, setup: Setup, i: nat, j: nat, id: int)
    requires Run(t, evs, setup) && i <= j < |t| && Knows(t[i]) && Knows(t[j])
    ensures Stage(LedgerOf(t[i]), id) <= Stage(LedgerOf(t[j]), id)
  {
    hide Run, LedgerInv, Evolves, Stage;
    MemoryFollows(t, evs, setup, i, j);
    InvValid(LedgerOf(t[i]));
    InvValid(LedgerOf(t[j]));
    StageMovesForward(LedgerOf(t[i]), LedgerOf(t[j]), id);
  }
}
