/**
 What boot makes of the files it finds, and of those a crash in the middle of a cycle leaves
 behind: restore, converge to the empty set behind every fence, or quarantine.
 */
module AgentBoot {
  import opened Values
  import opened Snapshots
  import opened Ledgers
  import opened LedgerProofs
  import opened AgentModel
  import opened AgentSafety
  import opened AgentSteps
  import opened AgentRuns
  import opened AgentFiles

  /** The snapshot is the ledger's own, or both are legacy. */
  ghost predicate Belongs(l: Ledger, s: Snapshot) {
    Settled(l, s) || (s.retirements.None? && !l.armed)
  }

  /** A stored ledger that can be read, or a provably legacy host on which a new one can be stored. */
  predicate LedgerAvailable(w: World, env: BootEnv, setup: Setup) {
    && env.ledgerReadable
    && (w.ledgerFile.StoredLedger?
        || (w.ledgerFile.NoLedger? && ProvablyLegacy(w, env, setup) && env.newId.Some? && IsUUID(env.newId.value) && env.saveNew.Done?))
  }

  function BootLedgerOf(w: World, env: BootEnv): Ledger
    requires w.ledgerFile.StoredLedger? || env.newId.Some?
  {
    if w.ledgerFile.StoredLedger? then w.ledgerFile.ledger else Fresh(env.newId.value)
  }

  /** The ledger is kept but for clearings and the order of its active epochs. */
  ghost predicate Keeps(l: Ledger, n: Ledger) {
    exists ids :: Similar(Cleared(l, ids), n)
  }

  ghost predicate Restores(l: Ledger, s: Snapshot, o: Outcome) {
    && Belongs(l, s) && l.managedGenerationHighWater <= s.generation
    && OnlyInstalls(o.effects, PlanOf(Some(s)), Retirements(l))
    && o.mem.ledger.Some? && Keeps(l, o.mem.ledger.value)
    && (o.mem.applied ==> o.mem.lastApplied == Some(s) && o.mem.appliedGeneration == s.generation)
  }

  ghost predicate Empties(l: Ledger, o: Outcome) {
    && OnlyInstalls(o.effects, [], Retirements(l))
    && o.mem.ledger.Some? && Keeps(l, o.mem.ledger.value)
    && o.mem.lastApplied.None? && o.mem.appliedGeneration == 0
  }

  ghost predicate Quarantines(o: Outcome) {
    && o.mem.ledgerLost && !o.mem.applied && o.mem.appliedGeneration == 0 && !ReportOf(o.mem).retirementCapability
    && forall e :: e in o.effects ==> e.InstallQuarantine? || (e.WriteLedger? && e.ledger == Fresh(e.ledger.ledgerId))
  }

  /** Boot accepts the persisted snapshot exactly when it belongs to the stored ledger. */
  lemma BelongsIffAccepted(l: Ledger, s: Snapshot, lim: Limits)
    requires LedgerInv(l) && Valid(s, lim) && Fits(l, s)
    ensures Belongs(l, s) <==> Accepts(l, s) && (s.retirements.Some? ==> s.acknowledged == Some(l.acknowledged))
    ensures Belongs(l, s) ==> Similar(l, Prepared(l, s)) && l.managedGenerationHighWater <= s.generation
  {
    if s.retirements.Some? && Settled(l, s) {
      SettledPrepare(l, s, lim);
    }
  }

  lemma KeepsThroughApply(l: Ledger, n: Ledger, r: Ledger, ids: set<string>)
    requires Similar(l, n) && r == Cleared(n, ids)
    ensures Keeps(l, r) && Retirements(n) == Retirements(l)
  {
    assert Similar(Cleared(l, ids), r);
  }

  lemma SimilarReflexive(l: Ledger)
    ensures Similar(l, l)
  {
  }

  lemma LoadedLedger(w: World, env: BootEnv, setup: Setup)
    requires FilesInv(w, setup.lim)
    ensures var load := LoadLedgerFile(w, env, setup);
      && (load.Held? <==> LedgerAvailable(w, env, setup))
      && (load.Held? ==> load.ledger == BootLedgerOf(w, env) && LedgerInv(load.ledger)
                         && (w.snapFile.StoredSnap? ==> Valid(w.snapFile.snap, setup.lim) && Fits(load.ledger, w.snapFile.snap)))
      && forall e :: e in load.effects ==> e.WriteLedger? && e.ledger == Fresh(e.ledger.ledgerId)
  {
    hide Valid;
  }

  /** The ledger is lost exactly when it is unavailable or the usable snapshot is not its own. */
  lemma LoadDecides(w: World, env: BootEnv, setup: Setup)
    requires FilesInv(w, setup.lim)
    ensures var load := LoadPersisted(w.snapFile, env, setup);
      var held := LoadLedger(w, Usage(load), env, setup);
      && (held.Lost? <==> !LedgerAvailable(w, env, setup) || (load.Usable? && !Belongs(BootLedgerOf(w, env), load.snap)))
      && (held.Held? ==> Similar(BootLedgerOf(w, env), held.ledger))
      && (held.Held? && load.Usable? ==> BootLedgerOf(w, env).managedGenerationHighWater <= load.snap.generation)
      && forall e :: e in held.effects ==> e.WriteLedger? && e.ledger == Fresh(e.ledger.ledgerId)
  {
    LoadedLedger(w, env, setup);
    hide FilesInv, LoadLedgerFile, Valid, Fits, Prepared, Ledgers.Verdict, Belongs, LedgerAvailable, BootLedgerOf, LoadPersisted, LedgerInv, Similar;
    var load := LoadPersisted(w.snapFile, env, setup);
    var first := LoadLedgerFile(w, env, setup);
    if first.Held? {
      SimilarReflexive(first.ledger);
      if load.Usable? {
        BelongsIffAccepted(first.ledger, load.snap, setup.lim);
      }
    }
  }

  /** One of three outcomes, decided by the files: quarantine exactly when the ledger is unavailable or the usable
      snapshot is not its own; otherwise that very snapshot, or the empty set, in both cases behind every fence. */
  lemma BootDecides(w: World, env: BootEnv, setup: Setup)
    requires FilesInv(w, setup.lim)
    ensures var o, load := Boot(w, env, setup), LoadPersisted(w.snapFile, env, setup);
      && (o.mem.ledgerLost <==>
            !LedgerAvailable(w, env, setup) || (load.Usable? && !Belongs(BootLedgerOf(w, env), load.snap)))
      && (o.mem.ledgerLost ==> Quarantines(o))
      && (!o.mem.ledgerLost && load.Usable? ==> Restores(BootLedgerOf(w, env), load.snap, o))
      && (!o.mem.ledgerLost && !load.Usable? ==> Empties(BootLedgerOf(w, env), o))
  {
    hide FilesInv, LoadLedger, Belongs, ApplySnapshot, PlanOf, ProvablyLegacy, BootLedgerOf, LoadPersisted, Keeps, Cleared, Similar, Retirements;
    LoadDecides(w, env, setup);
    var load := LoadPersisted(w.snapFile, env, setup);
    var held := LoadLedger(w, Usage(load), env, setup);
    if held.Held? {
      ApplyEffects(held.ledger, Usage(load), env.apply);
      var ran := ApplySnapshot(held.ledger, Usage(load), env.apply);
      var ids :| ran.ledger == Cleared(held.ledger, ids);
      KeepsThroughApply(BootLedgerOf(w, env), held.ledger, ran.ledger, ids);
      EmptyPlan();
    }
  }

  lemma EmptyPlan()
    ensures PlanOf(None) == []
  {
  }

  /** Crash safety over every run, whatever the platform answers: wherever the agent died, the next boot takes one of the
      three ways out, and a snapshot it restores is never older than the durable ledger. */
  lemma CrashSafety(t: seq<Sys>, evs: seq<Event>, setup: Setup, i: nat, env: BootEnv)
    requires Run(t, evs, setup) && i < |t| && t[i].mem.None?
    ensures var w := t[i].world;
      var o, load := Boot(w, env, setup), LoadPersisted(w.snapFile, env, setup);
      if o.mem.ledgerLost then Quarantines(o)
      else if !LedgerAvailable(w, env, setup) then false
      else if load.Usable? then Restores(BootLedgerOf(w, env), load.snap, o)
      else Empties(BootLedgerOf(w, env), o)
  {
    hide Run, Boot, LoadPersisted, LedgerAvailable, Quarantines, Restores, Empties, FilesInv, MemFiles;
    EveryStateHasGoodFiles(t, evs, setup, i);
    BootDecides(t[i].world, env, setup);
  }

  // ---- Where in a managed cycle the crash falls ----

  /** A cycle that converges to a newer managed generation, both of whose file writes go through. */
  ghost predicate NewGeneration(mem: Mem, w: World, n: Ledger, s: Snapshot, env: CycleEnv, lim: Limits) {
    && FilesInv(w, lim) && MemFiles(mem, w) && !mem.ledgerLost
    && Leads(mem.ledger.value, s, lim, n) && s.retirements.Some?
    && mem.ledger.value.managedGenerationHighWater < s.generation
    && SaveLedger(n, env.saveLedger).Done? && env.saveSnap.Done?
  }

  lemma ConvergeEffects(mem: Mem, n: Ledger, s: Snapshot, env: CycleEnv)
    requires mem.ledger.Some? && n.armed && SaveLedger(n, env.saveLedger).Done? && env.saveSnap.Done?
    ensures Converge(mem, n, s, env).effects ==
      [WriteLedger(n), WriteSnap(AgentModel.Stamped(s, env.now))] + ApplySnapshot(n, Some(s), env.apply).effects
  {
    hide ApplySnapshot, SaveLedger;
  }

  /** The files a crash leaves: after one effect the new ledger beside the old snapshot, later the new pair. */
  lemma CrashFiles(mem: Mem, w: World, n: Ledger, s: Snapshot, env: CycleEnv, k: nat)
    requires mem.ledger.Some? && n.armed && SaveLedger(n, env.saveLedger).Done? && env.saveSnap.Done?
    requires 0 < k <= |Converge(mem, n, s, env).effects|
    ensures var after := DoAll(w, Converge(mem, n, s, env).effects[..k]);
      && after.ledgerFile.StoredLedger?
      && (k == 1 ==> after.ledgerFile.ledger == n && after.snapFile == w.snapFile)
      && (k > 1 ==> after.snapFile == StoredSnap(AgentModel.Stamped(s, env.now)) && exists ids :: after.ledgerFile.ledger == Cleared(n, ids))
  {
    hide ApplySnapshot, Cleared, SaveLedger, Converge;
    ClearedNothing(n);
    ApplyEffects(n, Some(s), env.apply);
    ConvergeEffects(mem, n, s, env);
    var st := AgentModel.Stamped(s, env.now);
    var all, ran := Converge(mem, n, s, env).effects, ApplySnapshot(n, Some(s), env.apply);
    var w1 := w.(ledgerFile := StoredLedger(n));
    assert all[..1] == [WriteLedger(n)];
    if k == 1 {
      assert DoAll(w, [WriteLedger(n)]) == DoAll(w1, []);
    } else {
      var w2 := w1.(snapFile := StoredSnap(st));
      assert all[..k] == [WriteLedger(n), WriteSnap(st)] + ran.effects[..k - 2];
      assert all[..k][1..][1..] == ran.effects[..k - 2];
      OnlyClearsKeeps(w2, ran.effects[..k - 2], n);
    }
  }

  /** A crash in a cycle that moves to a newer generation costs the mappings only between its two file writes: after the
      first effect boot quarantines exactly when the old snapshot is still usable; after any later one it never does. */
  lemma CrashPointDecides(mem: Mem, w: World, n: Ledger, s: Snapshot, env: CycleEnv, k: nat, boot: BootEnv, setup: Setup)
    requires NewGeneration(mem, w, n, s, env, setup.lim) && boot.ledgerReadable
    requires 0 < k <= |Converge(mem, n, s, env).effects|
    ensures var after := DoAll(w, Converge(mem, n, s, env).effects[..k]);
      Boot(after, boot, setup).mem.ledgerLost <==> k == 1 && LoadPersisted(after.snapFile, boot, setup).Usable?
  {
    hide Boot, Converge, ValidLedger, FilesInv, LoadPersisted, SaveLedger, Restores, Empties, Quarantines, Cleared, ProvablyLegacy, FilesFrom, DesiredHash, Valid, EpochOf;
    var l := mem.ledger.value;
    var es := Converge(mem, n, s, env).effects;
    var after := DoAll(w, es[..k]);
    NextGood(l, s, setup.lim, n, w);
    StepRaises(l, s, setup.lim, n);
    hide Leads;
    ManagedKeepsFiles(mem, w, n, s, env, setup.lim);
    FilesCut(w, es, setup.lim, k);
    CrashFiles(mem, w, n, s, env, k);
    BootDecides(after, boot, setup);
    if k == 1 {
      if w.snapFile.StoredSnap? {
        NotItsOwn(l, n, w.snapFile.snap);
      }
    } else {
      var ids :| after.ledgerFile.ledger == Cleared(n, ids);
      StampStaysSettled(n, s, env.now, setup.lim);
      ClearStaysSettled(n, AgentModel.Stamped(s, env.now), ids);
    }
  }

  lemma StepRaises(l: Ledger, s: Snapshot, lim: Limits, n: Ledger)
    requires LedgerInv(l) && Leads(l, s, lim, n) && s.retirements.Some?
    ensures n.armed && n.managedGenerationHighWater == s.generation
  {
    assert ManagedStep(l, s, lim, n);
    StepFacts(l, s, lim, n);
    StepMarks(l, s, lim, n);
  }

  lemma NotItsOwn(l: Ledger, n: Ledger, t: Snapshot)
    requires Fits(l, t) && n.armed && l.managedGenerationHighWater < n.managedGenerationHighWater
    ensures !Belongs(n, t)
  {
    hide DesiredHash, EpochOf;
  }
}
