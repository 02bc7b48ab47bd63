/**
 The files over every run, whatever the platform answers: they stay readable and valid,
 and the snapshot on disk fits the ledger on disk and the one in memory.
 */
module AgentFiles {
  import opened Values
  import opened Snapshots
  import opened Ledgers
  import opened LedgerProofs
  import opened Nft
  import opened AgentModel
  import opened AgentSafety
  import opened AgentSteps
  import opened AgentTraffic
  import opened AgentRuns

  // ---- What an apply may do ----

  /** Whatever reaches the kernel is this table, and no snapshot is written. */
  predicate OnlyInstalls(es: seq<Effect>, rules: seq<Rule>, fences: seq<Retirement>) {
    forall e :: e in es ==> !e.InstallQuarantine? && !e.WriteSnap? && (e.Install? ==> e == Install(rules, fences))
  }

  lemma {:induction false} ClearAllOnlyDeletes(es: seq<Entry>, calls: seq<ClearCall>)
    ensures forall e :: e in ClearAll(es, calls).1 ==> e.DeleteFlows?
    decreases |es|
  {
    if es != [] {
      ClearAllOnlyDeletes(es[1..], calls);
      if calls != [] {
        ClearAllOnlyDeletes(es[1..], calls[1..]);
      }
    }
  }

  /** What an apply may do, whatever it is answered. */
  lemma ApplyEffects(l: Ledger, s: Option<Snapshot>, env: ApplyEnv)
    ensures var ran := ApplySnapshot(l, s, env);
      && OnlyInstalls(ran.effects, PlanOf(s), Retirements(l))
      && (forall e :: e in ran.effects ==> !e.RemoveSnap? && (e.WriteLedger? ==> exists ids :: e.ledger == Cleared(l, ids)))
      && (exists ids :: ran.ledger == Cleared(l, ids))
      && (!ran.ok ==> ran.ledger == l)
  {
    hide PlanOf, Cleared, ValidLedger, Verified;
    ClearedNothing(l);
    ClearAllOnlyDeletes(l.entries, env.clears);
  }

  /** Effects that touch no snapshot and store no ledger but this one with entries cleared. */
  ghost predicate OnlyClears(es: seq<Effect>, n: Ledger) {
    forall e :: e in es ==> !e.WriteSnap? && !e.RemoveSnap? && (e.WriteLedger? ==> exists ids :: e.ledger == Cleared(n, ids))
  }

  lemma {:induction false} OnlyClearsKeeps(w: World, es: seq<Effect>, n: Ledger)
    requires OnlyClears(es, n)
    requires w.ledgerFile.StoredLedger? && exists ids :: w.ledgerFile.ledger == Cleared(n, ids)
    ensures var after := DoAll(w, es);
      && after.snapFile == w.snapFile && after.ledgerFile.StoredLedger?
      && exists ids :: after.ledgerFile.ledger == Cleared(n, ids)
    decreases |es|
  {
    hide Cleared;
    if es != [] {
      var w1 := Do(w, es[0]);
      assert es[0] in es && forall e :: e in es[1..] ==> e in es;
      assert w1.ledgerFile.StoredLedger? && exists ids :: w1.ledgerFile.ledger == Cleared(n, ids);
      OnlyClearsKeeps(w1, es[1..], n);
    }
  }

  // ---- Files along effects ----

  /** The running agent agrees with the files. */
  ghost predicate MemFiles(mem: Mem, w: World) {
    && Healthy(mem)
    && (mem.ledger.Some? ==> LedgerInv(mem.ledger.value))
    && (!mem.ledgerLost ==>
          w.ledgerFile.StoredLedger? && (w.snapFile.StoredSnap? ==> Fits(mem.ledger.value, w.snapFile.snap)))
  }

  ghost predicate GoodFiles(s: Sys, lim: Limits) {
    FilesInv(s.world, lim) && (s.mem.Some? ==> MemFiles(s.mem.value, s.world))
  }

  /** The files are good now and after each of the effects. */
  ghost predicate FilesFrom(w: World, es: seq<Effect>, lim: Limits)
    decreases |es|
  {
    FilesInv(w, lim) && (es == [] || FilesFrom(Do(w, es[0]), es[1..], lim))
  }

  ghost predicate StepFiles(w: World, o: Outcome, lim: Limits) {
    FilesFrom(w, o.effects, lim) && MemFiles(o.mem, DoAll(w, o.effects))
  }

  lemma {:induction false} FilesCut(w: World, es: seq<Effect>, lim: Limits, k: nat)
    requires FilesFrom(w, es, lim) && k <= |es|
    ensures FilesInv(DoAll(w, es[..k]), lim)
    decreases |es|
  {
    hide FilesInv, Do;
    if k > 0 {
      assert es[..k][0] == es[0] && es[..k][1..] == es[1..][..k - 1];
      FilesCut(Do(w, es[0]), es[1..], lim, k - 1);
    }
  }

  lemma FilesEnd(w: World, es: seq<Effect>, lim: Limits)
    requires FilesFrom(w, es, lim)
    ensures FilesInv(w, lim) && FilesInv(DoAll(w, es), lim)
  {
    hide FilesInv, DoAll;
    FilesCut(w, es, lim, |es|);
    assert es[..|es|] == es;
  }

  lemma {:induction false} FilesConcat(w: World, a: seq<Effect>, b: seq<Effect>, lim: Limits)
    requires FilesFrom(w, a, lim) && FilesFrom(DoAll(w, a), b, lim)
    ensures FilesFrom(w, a + b, lim)
    decreases |a|
  {
    hide FilesInv, Do;
    if a == [] {
      assert a + b == b;
    } else {
      assert (a + b)[0] == a[0] && (a + b)[1..] == a[1..] + b;
      FilesConcat(Do(w, a[0]), a[1..], b, lim);
    }
  }

  lemma FilesOne(w: World, c: Call, e: Effect, lim: Limits)
    requires FilesInv(w, lim) && FilesInv(Do(w, e), lim)
    ensures FilesFrom(w, Try(c, e), lim) && DoAll(w, Try(c, e)) == if c.Refused? then w else Do(w, e)
  {
    hide FilesInv, Do;
    assert [e][1..] == [];
    assert FilesFrom(Do(w, e), [], lim);
  }

  lemma FilesNone(w: World, lim: Limits)
    requires FilesInv(w, lim)
    ensures FilesFrom(w, [], lim)
  {
  }

  lemma LedgerStored(w: World, n: Ledger, lim: Limits)
    requires FilesInv(w, lim) && LedgerInv(n) && (w.snapFile.StoredSnap? ==> Fits(n, w.snapFile.snap))
    ensures FilesInv(Do(w, WriteLedger(n)), lim)
  {
    hide LedgerInv, Fits, Valid;
  }

  lemma SnapStored(w: World, s: Snapshot, lim: Limits)
    requires FilesInv(w, lim) && Valid(s, lim) && w.ledgerFile.StoredLedger? && Fits(w.ledgerFile.ledger, s)
    ensures FilesInv(Do(w, WriteSnap(s)), lim)
  {
    hide LedgerInv, Fits, Valid;
  }

  lemma SameFiles(w: World, v: World, lim: Limits)
    requires FilesInv(w, lim) && v.ledgerFile == w.ledgerFile && (v.snapFile == w.snapFile || v.snapFile.NoSnap?)
    ensures FilesInv(v, lim)
  {
    hide LedgerInv, Fits, Valid;
  }

  /** Storing a ledger with entries cleared, and nothing else, keeps the files good. */
  lemma {:induction false} ClearsKeepFiles(w: World, es: seq<Effect>, l: Ledger, lim: Limits)
    requires FilesInv(w, lim) && LedgerInv(l) && OnlyClears(es, l) && w.ledgerFile.StoredLedger?
    requires w.snapFile.StoredSnap? ==> Fits(l, w.snapFile.snap)
    ensures FilesFrom(w, es, lim)
    ensures DoAll(w, es).snapFile == w.snapFile && DoAll(w, es).ledgerFile.StoredLedger?
    decreases |es|
  {
    hide FilesInv, LedgerInv, Fits, Cleared;
    if es != [] {
      var e, w1 := es[0], Do(w, es[0]);
      assert e in es && forall x :: x in es[1..] ==> x in es;
      if e.WriteLedger? {
        var ids :| e.ledger == Cleared(l, ids);
        ClearKeeps(l, ids);
        if w.snapFile.StoredSnap? {
          ClearedFits(l, ids, w.snapFile.snap);
        }
        LedgerStored(w, e.ledger, lim);
      } else {
        SameFiles(w, w1, lim);
      }
      ClearsKeepFiles(w1, es[1..], l, lim);
    }
  }

  /** An apply, of whatever snapshot, keeps the files good and the ledger in memory fitting. */
  lemma ApplyKeepsFiles(w: World, l: Ledger, s: Option<Snapshot>, env: ApplyEnv, m: Mem, lim: Limits)
    requires FilesInv(w, lim) && LedgerInv(l) && w.ledgerFile.StoredLedger?
    requires w.snapFile.StoredSnap? ==> Fits(l, w.snapFile.snap)
    requires m.ledger == Some(ApplySnapshot(l, s, env).ledger)
    ensures var ran := ApplySnapshot(l, s, env);
      && FilesFrom(w, ran.effects, lim) && MemFiles(m, DoAll(w, ran.effects))
      && DoAll(w, ran.effects).snapFile == w.snapFile && DoAll(w, ran.effects).ledgerFile.StoredLedger?
  {
    hide FilesInv, LedgerInv, Fits, Cleared, ApplySnapshot, FilesFrom, DoAll;
    ApplyEffects(l, s, env);
    var ran := ApplySnapshot(l, s, env);
    var ids :| ran.ledger == Cleared(l, ids);
    ClearKeeps(l, ids);
    if w.snapFile.StoredSnap? {
      ClearedFits(l, ids, w.snapFile.snap);
    }
    ClearsKeepFiles(w, ran.effects, l, lim);
  }

  // ---- Steps ----

  lemma NextGood(l: Ledger, s: Snapshot, lim: Limits, n: Ledger, w: World)
    requires LedgerInv(l) && Leads(l, s, lim, n) && FilesInv(w, lim) && (w.snapFile.StoredSnap? ==> Fits(l, w.snapFile.snap))
    ensures Valid(s, lim) && LedgerInv(n) && Fits(n, s) && (n.armed || s.retirements.None?)
    ensures s.retirements.None? || Settled(n, s)
    ensures w.snapFile.StoredSnap? ==> Fits(n, w.snapFile.snap)
  {
    PrepareKeeps(l, s, lim, n);
    if s.retirements.Some? {
      PrepareSettles(l, s, lim, n);
    }
    if w.snapFile.StoredSnap? {
      FitsNext(l, s, lim, n, w.snapFile.snap);
    }
  }

  lemma StampedFits(n: Ledger, s: Snapshot, now: nat, lim: Limits)
    requires Valid(s, lim) && (s.retirements.None? || Settled(n, s))
    ensures Valid(AgentModel.Stamped(s, now), lim) && Fits(n, AgentModel.Stamped(s, now))
    ensures s.retirements.None? ==> forall l :: Fits(l, AgentModel.Stamped(s, now))
  {
    StampKeeps(s, now, lim);
    if s.retirements.Some? {
      StampStaysSettled(n, s, now, lim);
    }
  }

  lemma SnapWriteKeepsFiles(w: World, n: Ledger, s: Snapshot, now: nat, c: Call, lim: Limits)
    requires FilesInv(w, lim) && Valid(s, lim) && (s.retirements.None? || Settled(n, s))
    requires w.ledgerFile.StoredLedger? && (w.ledgerFile.ledger == n || s.retirements.None?)
    requires w.snapFile.StoredSnap? ==> Fits(n, w.snapFile.snap)
    ensures var es := Try(c, WriteSnap(AgentModel.Stamped(s, now)));
      && FilesFrom(w, es, lim)
      && DoAll(w, es) == (if c.Refused? then w else w.(snapFile := StoredSnap(AgentModel.Stamped(s, now))))
      && (DoAll(w, es).snapFile.StoredSnap? ==> Fits(n, DoAll(w, es).snapFile.snap))
  {
    hide FilesInv, Fits, Settled, Valid, FilesFrom, DoAll;
    StampedFits(n, s, now, lim);
    SnapStored(w, AgentModel.Stamped(s, now), lim);
    FilesOne(w, c, WriteSnap(AgentModel.Stamped(s, now)), lim);
  }

  /** A convergence under an armed ledger: each file as it is stored, then the apply. */
  lemma ManagedKeepsFiles(mem: Mem, w: World, n: Ledger, s: Snapshot, env: CycleEnv, lim: Limits)
    requires FilesInv(w, lim) && MemFiles(mem, w) && !mem.ledgerLost && Leads(mem.ledger.value, s, lim, n) && n.armed
    ensures StepFiles(w, Converge(mem, n, s, env), lim)
  {
    hide FilesInv, LedgerInv, Fits, Valid, Settled, Leads, ApplySnapshot, ValidLedger, FilesFrom, DoAll, Try;
    NextGood(mem.ledger.value, s, lim, n, w);
    LedgerStored(w, n, lim);
    var saved := SaveLedger(n, env.saveLedger);
    var a, b := Try(saved, WriteLedger(n)), Try(env.saveSnap, WriteSnap(AgentModel.Stamped(s, env.now)));
    FilesOne(w, saved, WriteLedger(n), lim);
    if saved.Done? {
      var w1 := w.(ledgerFile := StoredLedger(n));
      SnapWriteKeepsFiles(w1, n, s, env.now, env.saveSnap, lim);
      var w2 := DoAll(w1, b);
      FilesConcat(w, a, b, lim);
      DoConcat(w, a, b);
      if env.saveSnap.Done? {
        FilesEnd(w1, b, lim);
        var ran := ApplySnapshot(n, Some(s), env.apply);
        ApplyKeepsFiles(w2, n, Some(s), env.apply, mem.(ledger := Some(ran.ledger)), lim);
        FilesConcat(w, a + b, ran.effects, lim);
        DoConcat(w, a + b, ran.effects);
        assert a + b + ran.effects + [] == a + b + ran.effects;
      }
    }
  }

  lemma LegacyKeepsFiles(mem: Mem, w: World, n: Ledger, s: Snapshot, env: CycleEnv, lim: Limits)
    requires FilesInv(w, lim) && MemFiles(mem, w) && !mem.ledgerLost && Leads(mem.ledger.value, s, lim, n) && !n.armed
    ensures StepFiles(w, Converge(mem, n, s, env), lim)
  {
    hide FilesInv, LedgerInv, Fits, Valid, Settled, Leads, ApplySnapshot, FilesFrom, DoAll, Try;
    NextGood(mem.ledger.value, s, lim, n, w);
    var ran := ApplySnapshot(n, Some(s), env.apply);
    var snapWrite := Try(env.saveSnap, WriteSnap(AgentModel.Stamped(s, env.now)));
    ApplyKeepsFiles(w, n, Some(s), env.apply, mem.(ledger := Some(ran.ledger)), lim);
    assert [] + [] + ran.effects == ran.effects;
    if ran.ok {
      var w1 := DoAll(w, ran.effects);
      FilesEnd(w, ran.effects, lim);
      SnapWriteKeepsFiles(w1, ran.ledger, s, env.now, env.saveSnap, lim);
      FilesConcat(w, ran.effects, snapWrite, lim);
      DoConcat(w, ran.effects, snapWrite);
    }
  }

  lemma StandingFiles(mem: Mem, w: World, o: Outcome, lim: Limits)
    requires FilesInv(w, lim) && MemFiles(mem, w) && o.mem == mem.(hasError := o.mem.hasError)
    requires o.effects == [] || o.effects == [InstallQuarantine]
    ensures StepFiles(w, o, lim)
  {
    hide FilesInv, LedgerInv, Fits;
    NothingDone(w);
    DoOne(w, InstallQuarantine);
    SameFiles(w, Do(w, InstallQuarantine), lim);
    FilesNone(w, lim);
    FilesOne(w, Done, InstallQuarantine, lim);
  }

  lemma AppliedFiles(mem: Mem, w: World, s: Option<Snapshot>, env: ApplyEnv, o: Outcome, lim: Limits)
    requires FilesInv(w, lim) && MemFiles(mem, w) && !mem.ledgerLost
    requires var ran := ApplySnapshot(mem.ledger.value, s, env); o.effects == ran.effects && o.mem.ledger == Some(ran.ledger)
    ensures StepFiles(w, o, lim)
  {
    hide FilesInv, LedgerInv, Fits, ApplySnapshot, FilesFrom, DoAll;
    ApplyKeepsFiles(w, mem.ledger.value, s, env, o.mem, lim);
  }

  lemma CycleKeepsFiles(mem: Mem, w: World, env: CycleEnv, lim: Limits)
    requires FilesInv(w, lim) && MemFiles(mem, w)
    ensures StepFiles(w, Cycle(mem, w.flows, env, lim), lim)
  {
    hide FilesInv, LedgerInv, Fits, Received, Converge, ZeroAll, Leads, ApplySnapshot, StepFiles;
    var o := Cycle(mem, w.flows, env, lim);
    if mem.ledgerLost || env.sync.SyncFailed? || env.sync.Garbage? {
      StandingFiles(mem, w, o, lim);
    } else if env.sync.Unchanged? {
      if o.attempt.NoApply? {
        StandingFiles(mem, w, o, lim);
      } else {
        AppliedFiles(mem.(hasError := false), w, o.attempt.target, env.apply, o, lim);
      }
    } else {
      var n := ReceivedCases(mem, env.sync.snap, w.flows, env, lim);
      if n.None? {
        StandingFiles(mem, w, o, lim);
      } else if n.value.armed {
        ManagedKeepsFiles(mem, w, n.value, env.sync.snap, env, lim);
      } else {
        LegacyKeepsFiles(mem, w, n.value, env.sync.snap, env, lim);
      }
    }
  }

  // ---- Boot ----

  lemma FirstFiles(w: World, env: BootEnv, setup: Setup)
    requires FilesInv(w, setup.lim)
    ensures var load := LoadLedgerFile(w, env, setup);
      && FilesFrom(w, load.effects, setup.lim)
      && DoAll(w, load.effects) == w.(ledgerFile := DoAll(w, load.effects).ledgerFile)
      && (load.Held? ==> DoAll(w, load.effects).ledgerFile == StoredLedger(load.ledger) && LedgerInv(load.ledger)
                         && (w.snapFile.StoredSnap? ==> Fits(load.ledger, w.snapFile.snap)))
      && (load.Lost? ==> load.inHand.None?)
  {
    var load := LoadLedgerFile(w, env, setup);
    NothingDone(w);
    if load.effects != [] {
      var first := Fresh(env.newId.value);
      assert LedgerInv(first);
      assert w.snapFile.StoredSnap? ==> Fits(first, w.snapFile.snap);
      hide FilesInv, LedgerInv, Fits;
      LedgerStored(w, first, setup.lim);
      DoOne(w, WriteLedger(first));
      FilesOne(w, Done, WriteLedger(first), setup.lim);
    } else {
      hide LedgerInv, Fits, Valid;
    }
  }

  lemma BootKeepsFiles(w: World, env: BootEnv, setup: Setup)
    requires FilesInv(w, setup.lim)
    ensures StepFiles(w, Boot(w, env, setup), setup.lim)
  {
    FirstFiles(w, env, setup);
    hide FilesInv, LedgerInv, Fits, LoadLedgerFile, LoadPersisted, ApplySnapshot, Prepared, Ledgers.Verdict, Valid, FilesFrom, DoAll;
    var load := LoadPersisted(w.snapFile, env, setup);
    var first, held := LoadLedgerFile(w, env, setup), LoadLedger(w, Usage(load), env, setup);
    var o, w1 := Boot(w, env, setup), DoAll(w, first.effects);
    FilesEnd(w, first.effects, setup.lim);
    if held.Lost? {
      SameFiles(w1, Do(w1, InstallQuarantine), setup.lim);
      FilesOne(w1, env.quarantine, InstallQuarantine, setup.lim);
      FilesConcat(w, first.effects, Try(env.quarantine, InstallQuarantine), setup.lim);
    } else {
      HeldGood(w1, first.ledger, held.ledger, load, setup.lim);
      var removal := if load.Rejected? && env.removed then [RemoveSnap] else [];
      RemovalFiles(w1, removal, setup.lim);
      FilesConcat(w, first.effects, removal, setup.lim);
      DoConcat(w, first.effects, removal);
      var w2, ran := DoAll(w1, removal), ApplySnapshot(held.ledger, Usage(load), env.apply);
      FilesEnd(w1, removal, setup.lim);
      ApplyKeepsFiles(w2, held.ledger, Usage(load), env.apply, o.mem, setup.lim);
      FilesConcat(w, first.effects + removal, ran.effects, setup.lim);
      DoConcat(w, first.effects + removal, ran.effects);
    }
  }

  lemma RemovalFiles(w: World, removal: seq<Effect>, lim: Limits)
    requires FilesInv(w, lim) && (removal == [] || removal == [RemoveSnap])
    ensures FilesFrom(w, removal, lim)
    ensures DoAll(w, removal) == if removal == [] then w else w.(snapFile := NoSnap)
  {
    hide FilesInv;
    NothingDone(w);
    DoOne(w, RemoveSnap);
    SameFiles(w, Do(w, RemoveSnap), lim);
    FilesNone(w, lim);
    FilesOne(w, Done, RemoveSnap, lim);
  }

  lemma HeldGood(w: World, l: Ledger, n: Ledger, load: Loaded, lim: Limits)
    requires FilesInv(w, lim) && LedgerInv(l) && (w.snapFile.StoredSnap? ==> Fits(l, w.snapFile.snap))
    requires if load.Usable? then Valid(load.snap, lim) && Accepts(l, load.snap) && n == Prepared(l, load.snap) else n == l
    ensures LedgerInv(n) && (w.snapFile.StoredSnap? ==> Fits(n, w.snapFile.snap))
  {
    hide FilesInv, LedgerInv, Fits, Valid, Prepared, Ledgers.Verdict;
    if load.Usable? {
      assert Leads(l, load.snap, lim, n);
      NextGood(l, load.snap, lim, n, w);
    }
  }

  // ---- Runs ----

  lemma PerformKeepsFiles(s: Sys, o: Outcome, cut: Option<nat>, n: Sys, lim: Limits)
    requires StepFiles(s.world, o, lim) && Performs(s, o, cut, n)
    ensures GoodFiles(n, lim)
  {
    hide FilesInv, FilesFrom, DoAll, Interleaved, SealAll, LedgerInv, Fits;
    var es := Reached(o, cut);
    assert es == o.effects[..|es|];
    FilesCut(s.world, o.effects, lim, |es|);
    PerformsAlike(s, o, cut, n);
    SameFiles(DoAll(s.world, es), n.world, lim);
  }

  lemma StepKeepsFiles(s: Sys, ev: Event, n: Sys, setup: Setup)
    requires GoodFiles(s, setup.lim) && Steps(s, ev, n, setup)
    ensures GoodFiles(n, setup.lim)
  {
    hide FilesInv, Boot, Cycle, StepFiles, Performs, Stampable, LedgerInv, Fits;
    match ev
    case Booting(env, cut) =>
      BootKeepsFiles(s.world, env, setup);
      PerformKeepsFiles(s, Boot(s.world, env, setup), cut, n, setup.lim);
    case Cycling(env, cut) =>
      CycleKeepsFiles(s.mem.value, s.world, env, setup.lim);
      PerformKeepsFiles(s, Cycle(s.mem.value, s.world.flows, env, setup.lim), cut, n, setup.lim);
    case Killed => SameFiles(s.world, n.world, setup.lim);
    case Resting => SameFiles(s.world, n.world, setup.lim);
  }

  lemma InitiallyGoodFiles(t: seq<Sys>, evs: seq<Event>, setup: Setup)
    requires Run(t, evs, setup)
    ensures GoodFiles(t[0], setup.lim)
  {
    hide Valid, Steps;
  }

  /** In every run, with no assumption on the platform, the files are consistent with each other and with memory. */
  lemma {:induction false} EveryStateHasGoodFiles(t: seq<Sys>, evs: seq<Event>, setup: Setup, i: nat)
    requires Run(t, evs, setup) && i < |t|
    ensures GoodFiles(t[i], setup.lim)
    decreases i
  {
    hide *;
    RunLength(t, evs, setup);
    if i == 0 {
      InitiallyGoodFiles(t, evs, setup);
    } else {
      EveryStateHasGoodFiles(t, evs, setup, i - 1);
      StepOfRun(t, evs, setup, i - 1);
      StepKeepsFiles(t[i - 1], evs[i - 1], t[i], setup);
    }
  }
}
