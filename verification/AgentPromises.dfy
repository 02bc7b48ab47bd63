/**
 What one step promises to the next: a wiped table is put back, a snapshot that was applied
 survives a restart, an error stands exactly while the desired state is not in force, and a
 new ledger is begun exactly on a host that shows no managed state.
 */
module AgentPromises {
  import opened Values
  import opened Snapshots
  import opened Ledgers
  import opened LedgerProofs
  import opened Nft
  import opened Conntrack
  import opened AgentModel
  import opened AgentSafety
  import opened AgentSteps
  import opened AgentFiles
  import opened AgentBoot
  import opened AgentLifecycle
  import opened AgentCounters

  // ---- Re-assert ----

  predicate Installs(es: seq<Effect>) {
    exists e :: e in es && e.Install?
  }

  lemma ApplyInstallsIff(l: Ledger, s: Option<Snapshot>, env: ApplyEnv)
    ensures Installs(ApplySnapshot(l, s, env).effects) <==> !env.install.Refused?
    ensures forall e :: e in ApplySnapshot(l, s, env).effects && e.Install? ==> e == Install(PlanOf(s), Retirements(l))
  {
    hide PlanOf, Cleared, ValidLedger, Verified;
    ApplyEffects(l, s, env);
    ClearAllOnlyDeletes(l.entries, env.clears);
    var install := Install(PlanOf(s), Retirements(l));
    var es := ApplySnapshot(l, s, env).effects;
    if !env.install.Refused? {
      assert es[0] == install && install in es;
    } else {
      assert es == [];
    }
  }

  /** On an "unchanged" answer a table is installed exactly when it is not known to be there (missing, or the look failed) and the kernel takes it;
      and it is the last applied one behind every fence. */
  lemma ReassertIff(mem: Mem, flows: set<Flow>, env: CycleEnv, lim: Limits)
    requires Healthy(mem) && !mem.ledgerLost && mem.applied && env.sync.Unchanged?
    ensures Installs(Cycle(mem, flows, env, lim).effects) <==> (env.present.Missing? || env.present.Unknown?) && (env.apply.install.Done? || env.apply.install.Unsure?)
    ensures forall e :: e in Cycle(mem, flows, env, lim).effects && e.Install? ==> e == Install(PlanOf(mem.lastApplied), Retirements(mem.ledger.value))
  {
    hide ApplySnapshot, PlanOf;
    ApplyInstallsIff(mem.ledger.value, mem.lastApplied, env.apply);
  }

  /** A boot whose apply failed is retried on an "unchanged" answer, with the empty set behind every fence; only its success ends the failure, and
      then generation 0 counts as applied. */
  lemma RetryIff(mem: Mem, flows: set<Flow>, env: CycleEnv, lim: Limits)
    requires Healthy(mem) && !mem.ledgerLost && !mem.applied && env.sync.Unchanged?
    ensures var o := Cycle(mem, flows, env, lim);
      && (Installs(o.effects) <==> mem.bootFailed && !env.apply.install.Refused?)
      && (forall e :: e in o.effects && e.Install? ==> e == Install([], Retirements(mem.ledger.value)))
      && (o.mem.applied <==> o.attempt == Attempt(None, true))
      && (o.mem.applied ==> !o.mem.bootFailed && o.mem.appliedGeneration == 0 && o.mem.lastApplied.None?)
      && (!o.mem.applied ==> o.mem.bootFailed == mem.bootFailed)
  {
    EmptyPlan();
    hide ApplySnapshot, PlanOf;
    ApplyInstallsIff(mem.ledger.value, None, env.apply);
  }

  /** Every call of an apply succeeds, and the table reads back as asked. */
  ghost predicate Cooperates(l: Ledger, s: Option<Snapshot>, env: ApplyEnv) {
    && env.install.Done? && Verified(env.readback, PlanOf(s), Retirements(l)) && env.persist.Done?
    && |env.clears| >= |l.entries| && forall i :: 0 <= i < |env.clears| ==> env.clears[i].ClearedAll?
  }

  lemma {:induction false} ClearAllSucceeds(es: seq<Entry>, calls: seq<ClearCall>)
    requires |calls| >= |es| && forall i :: 0 <= i < |calls| ==> calls[i].ClearedAll?
    ensures ClearAll(es, calls).0
  {
    if es != [] {
      ClearAllSucceeds(es[1..], if es[0].cleared then calls else calls[1..]);
    }
  }

  lemma CooperativeApply(w: World, l: Ledger, s: Option<Snapshot>, env: ApplyEnv)
    requires LedgerInv(l) && Cooperates(l, s, env)
    ensures var ran := ApplySnapshot(l, s, env); ran.ok && DoAll(w, ran.effects).kernel == Installed(PlanOf(s), Retirements(l))
  {
    ClearAllSucceeds(l.entries, env.clears);
    var ids := ClearAll(l.entries, env.clears).2;
    ClearKeeps(l, ids);
    InvValid(Cleared(l, ids));
    AppliesOk(l, s, env);
    hide ApplySnapshot, LedgerInv, Cooperates, PlanOf, Cleared, ClearAll;
    if l.armed {
      var r: Retirement :| true;
      ApplyClearsAll(w, l, s, env, r);
    } else {
      UnarmedInstalls(w, l, s, env);
    }
  }

  lemma AppliesOk(l: Ledger, s: Option<Snapshot>, env: ApplyEnv)
    requires Cooperates(l, s, env) && ClearAll(l.entries, env.clears).0 && ValidLedger(Cleared(l, ClearAll(l.entries, env.clears).2))
    ensures ApplySnapshot(l, s, env).ok
  {
    hide PlanOf, Cleared, ClearAll, ValidLedger, Retirements, Verified;
  }

  lemma UnarmedInstalls(w: World, l: Ledger, s: Option<Snapshot>, env: ApplyEnv)
    requires LedgerInv(l) && !l.armed && Cooperates(l, s, env)
    ensures DoAll(w, ApplySnapshot(l, s, env).effects).kernel == Installed(PlanOf(s), Retirements(l))
  {
    hide PlanOf, Verified;
    assert Retirements(l) == [];
    DoOne(w, Install(PlanOf(s), Retirements(l)));
  }

  /** A table that was wiped, or that could not be looked at, is put back by the next "unchanged" cycle in which the calls succeed, and no error
      stands then. */
  lemma WipedTableComesBack(mem: Mem, w: World, env: CycleEnv, lim: Limits)
    requires Healthy(mem) && !mem.ledgerLost && mem.applied && LedgerInv(mem.ledger.value)
    requires env.sync.Unchanged? && !env.present.Present? && Cooperates(mem.ledger.value, mem.lastApplied, env.apply)
    ensures var o := Cycle(mem, w.flows, env, lim);
      DoAll(w, o.effects).kernel == Installed(PlanOf(mem.lastApplied), Retirements(mem.ledger.value)) && !o.mem.hasError
      && o.mem.applied && o.mem.appliedGeneration == mem.appliedGeneration
  {
    hide ApplySnapshot, PlanOf, LedgerInv, Cooperates, DoAll;
    CooperativeApply(w, mem.ledger.value, mem.lastApplied, env.apply);
  }

  /** When the platform sends again what is in force, nothing is done exactly when the table is known to be there; otherwise it is installed again
      as far as the files can be stored. */
  lemma InForceIff(mem: Mem, w: World, s: Snapshot, env: CycleEnv, lim: Limits)
    requires Healthy(mem) && !mem.ledgerLost && mem.applied && LedgerInv(mem.ledger.value)
    requires env.sync == Body(s) && Valid(s, lim) && Settled(mem.ledger.value, s) && mem.appliedGeneration == s.generation
    ensures var o := Cycle(mem, w.flows, env, lim);
      if env.present.Present? then o == Idle(mem.(hasError := false))
      else Readable(s) && Accepts(mem.ledger.value, s) && o == Converge(mem, Prepared(mem.ledger.value, s), s, env)
  {
    hide Valid, Settled, LedgerInv, Converge, ZeroAll, Prepared, Ledgers.Verdict;
    var l := mem.ledger.value;
    SettledPrepare(l, s, lim);
    ValidIsReadable(s, lim);
    SettledMarks(l, s);
    SimilarUnchanged(l, Prepared(l, s));
    NothingDropped(l.entries, Prepared(l, s), w.flows, env.zeros);
  }

  lemma SettledMarks(l: Ledger, s: Snapshot)
    requires Settled(l, s)
    ensures s.retirements.Some? && Marked(s.mappings)
  {
    hide DesiredHash, EpochOf;
  }

  lemma SimilarUnchanged(l: Ledger, n: Ledger)
    requires Similar(l, n)
    ensures !LedgerChanged(n, l) && n.entries == l.entries
  {
    assert |multiset(n.active)| == |multiset(l.active)|;
  }

  lemma {:induction false} NothingDropped(es: seq<Entry>, n: Ledger, flows: set<Flow>, zeros: seq<bool>)
    requires forall e :: e in es ==> e in n.entries
    ensures ZeroAll(es, n, flows, zeros)
    decreases |es|
  {
    if es != [] {
      assert es[0] in es && Known(n.entries, es[0].retirement.retirementId);
      NothingDropped(es[1..], n, flows, zeros);
    }
  }

  // ---- Restart ----

  /** The boot can read both files, and the stamp is inside the window. */
  predicate InTime(stamp: nat, boot: BootEnv, setup: Setup) {
    boot.ledgerReadable && boot.snapReadable && 0 < stamp <= boot.now + CLOCK_SKEW_TOLERANCE && boot.now <= stamp + setup.maxAge
  }

  lemma StampedPlan(s: Snapshot, now: nat)
    ensures PlanOf(Some(AgentModel.Stamped(s, now))) == PlanOf(Some(s))
  {
    var t := AgentModel.Stamped(s, now);
    assert Plannable(s) <==> Plannable(t);
    if Plannable(s) {
      assert Plan(s) == Plan(t);
    }
  }

  /** The stored copy of a managed snapshot, beside the ledger that stands for it. */
  lemma StoredRestores(v: World, l: Ledger, s: Snapshot, now: nat, boot: BootEnv, setup: Setup)
    requires FilesInv(v, setup.lim) && v.ledgerFile == StoredLedger(l) && v.snapFile == StoredSnap(AgentModel.Stamped(s, now))
    requires Valid(s, setup.lim) && Settled(l, s) && InTime(now, boot, setup)
    ensures var o := Boot(v, boot, setup);
      && !o.mem.ledgerLost
      && OnlyInstalls(o.effects, PlanOf(Some(s)), Retirements(l))
      && (o.mem.applied ==> o.mem.appliedGeneration == s.generation)
      && (o.mem.applied <==> o.attempt.Attempt? && o.attempt.ok)
  {
    hide FilesInv, Valid, Settled, Boot, PlanOf, Retirements, LoadPersisted, ProvablyLegacy, Keeps, DesiredHash, EpochOf;
    var t := AgentModel.Stamped(s, now);
    StampKeeps(s, now, setup.lim);
    StampStaysSettled(l, s, now, setup.lim);
    StampedPlan(s, now);
    PersistedUsableIff(v.snapFile, boot, setup);
    BootDecides(v, boot, setup);
    BootAttempt(v, boot, setup);
  }

  lemma BootAttempt(v: World, boot: BootEnv, setup: Setup)
    ensures var o := Boot(v, boot, setup); o.mem.applied <==> o.attempt.Attempt? && o.attempt.ok
  {
    hide LoadLedger, LoadPersisted, ApplySnapshot;
  }

  /** What a successful managed cycle applied is what the next boot restores, wherever the process died afterwards and whatever became of the table,
      as long as the boot comes within the window. */
  lemma RestartRestores(mem: Mem, w: World, env: CycleEnv, s: Snapshot, v: World, boot: BootEnv, setup: Setup)
    requires FilesInv(w, setup.lim) && MemFiles(mem, w) && !mem.ledgerLost && env.sync == Body(s) && s.retirements.Some?
    requires var o := Cycle(mem, w.flows, env, setup.lim);
      && o.attempt == Attempt(Some(s), true)
      && v.ledgerFile == DoAll(w, o.effects).ledgerFile && v.snapFile == DoAll(w, o.effects).snapFile
    requires InTime(env.now, boot, setup)
    ensures v.ledgerFile.StoredLedger?
    ensures var o := Boot(v, boot, setup);
      && !o.mem.ledgerLost
      && OnlyInstalls(o.effects, PlanOf(Some(s)), Retirements(v.ledgerFile.ledger))
      && (o.mem.applied <==> o.attempt.Attempt? && o.attempt.ok)
      && (o.mem.applied ==> o.mem.appliedGeneration == s.generation)
  {
    hide FilesInv, Valid, LedgerInv, Fits, Boot, Received, Converge, ZeroAll, Leads, Settled, DoAll, PlanOf, InTime, StepFiles, Cleared, SaveLedger;
    var o := Cycle(mem, w.flows, env, setup.lim);
    var n := ReceivedCases(mem, s, w.flows, env, setup.lim);
    var next := n.value;
    NextGood(mem.ledger.value, s, setup.lim, next, w);
    CycleKeepsFiles(mem, w, env, setup.lim);
    FinalFiles(w, o, setup.lim);
    SavedBoth(mem, next, s, env);
    assert o.effects[..|o.effects|] == o.effects;
    NotEmpty(mem, next, s, env);
    CrashFiles(mem, w, next, s, env, |o.effects|);
    var ids :| DoAll(w, o.effects).ledgerFile.ledger == Cleared(next, ids);
    ClearStaysSettled(next, s, ids);
    SameFiles(DoAll(w, o.effects), v, setup.lim);
    StoredRestores(v, v.ledgerFile.ledger, s, env.now, boot, setup);
  }

  lemma FinalFiles(w: World, o: Outcome, lim: Limits)
    requires StepFiles(w, o, lim)
    ensures FilesInv(DoAll(w, o.effects), lim)
  {
    hide FilesInv, DoAll;
    FilesEnd(w, o.effects, lim);
  }

  lemma SavedBoth(mem: Mem, n: Ledger, s: Snapshot, env: CycleEnv)
    requires mem.ledger.Some? && n.armed && Converge(mem, n, s, env).attempt == Attempt(Some(s), true)
    ensures SaveLedger(n, env.saveLedger).Done? && env.saveSnap.Done?
  {
    hide ApplySnapshot, SaveLedger;
  }

  /** The ledger, the snapshot and the table: more than one effect. */
  lemma NotEmpty(mem: Mem, n: Ledger, s: Snapshot, env: CycleEnv)
    requires mem.ledger.Some? && n.armed && SaveLedger(n, env.saveLedger).Done? && env.saveSnap.Done?
    ensures |Converge(mem, n, s, env).effects| > 1
  {
    hide ApplySnapshot, SaveLedger;
    ConvergeEffects(mem, n, s, env);
  }

  // ---- Errors and the follow-up ----

  /** After a snapshot was sent, an error stands exactly when it is not in force: without one it is applied, with one everything that was applied
      before still counts as applied. */
  lemma ErrorIff(mem: Mem, flows: set<Flow>, s: Snapshot, env: CycleEnv, lim: Limits)
    requires Healthy(mem) && !mem.ledgerLost && env.sync == Body(s)
    ensures var o := Cycle(mem, flows, env, lim);
      && (!o.mem.hasError ==>
            o.mem.applied && o.mem.appliedGeneration == s.generation && (Succeeded(o) ==> !o.mem.bootFailed) && (o.attempt == Attempt(Some(s), true) || (o.attempt.NoApply? && env.present.Present?)))
      && (o.mem.hasError ==>
            o.mem.applied == mem.applied && o.mem.appliedGeneration == mem.appliedGeneration && o.mem.lastApplied == mem.lastApplied && !Succeeded(o))
  {
    hide ApplySnapshot, ZeroAll, LedgerChanged, SaveLedger, Valid, Prepared, Ledgers.Verdict;
  }

  /** An "unchanged" answer leaves an error exactly when the re-assert or boot retry that it led to failed; an exchange that failed leaves things
      as they were, and an answer that cannot be read is an error. */
  lemma QuietErrorIff(mem: Mem, flows: set<Flow>, env: CycleEnv, lim: Limits)
    requires Healthy(mem) && !mem.ledgerLost
    ensures var o := Cycle(mem, flows, env, lim);
      && (env.sync.Unchanged? ==> (o.mem.hasError <==> o.attempt.Attempt? && !o.attempt.ok))
      && (env.sync.SyncFailed? ==> o.mem == mem && o.effects == [])
      && (env.sync.Garbage? ==> o.mem == mem.(hasError := true) && o.effects == [])
  {
    hide ApplySnapshot;
  }

  /** The immediate follow-up comes exactly after an apply that changed the reported generation, or was the first. */
  lemma FollowUpIff(mem: Mem, flows: set<Flow>, env: CycleEnv, lim: Limits)
    requires Healthy(mem)
    ensures var o := Cycle(mem, flows, env, lim);
      o.advanced <==> env.sync.Body? && Succeeded(o) && (!mem.applied || o.mem.appliedGeneration != mem.appliedGeneration)
  {
    hide ApplySnapshot, ZeroAll, LedgerChanged, SaveLedger, Valid, Prepared, Ledgers.Verdict;
  }

  /** A poll tells the platform at once what its first cycle newly applied: the last report carries that generation and no error. */
  lemma PollReportsNews(mem: Mem, w: World, s: Snapshot, env: CycleEnv, env': CycleEnv, lim: Limits)
    requires Healthy(mem) && !mem.ledgerLost && env.sync == Body(s) && Cycle(mem, w.flows, env, lim).attempt == Attempt(Some(s), true)
    requires !mem.applied || s.generation != mem.appliedGeneration
    ensures var reports := Poll(mem, w, env, env', lim).2;
      |reports| == 2 && reports[0] == ReportOf(mem) && reports[1].appliedGeneration == s.generation && !reports[1].hasError
  {
    hide Cycle, DoAll, Receipts;
    FollowUpIff(mem, w.flows, env, lim);
    ErrorIff(mem, w.flows, s, env, lim);
    CycleIsHealthy(mem, w.flows, env, lim);
  }

  lemma CycleIsHealthy(mem: Mem, flows: set<Flow>, env: CycleEnv, lim: Limits)
    requires Healthy(mem)
    ensures Healthy(Cycle(mem, flows, env, lim).mem)
  {
    hide ApplySnapshot, ZeroAll, LedgerChanged, SaveLedger, Valid, Prepared, Ledgers.Verdict;
  }

  /** And it asks once otherwise. */
  lemma PollAsksOnce(mem: Mem, w: World, env: CycleEnv, env': CycleEnv, lim: Limits)
    requires Healthy(mem)
    requires !Succeeded(Cycle(mem, w.flows, env, lim)) || Cycle(mem, w.flows, env, lim).mem.appliedGeneration == mem.appliedGeneration
    requires mem.applied
    ensures var o := Cycle(mem, w.flows, env, lim); Poll(mem, w, env, env', lim) == (o.mem, DoAll(w, o.effects), [ReportOf(mem)])
  {
    hide Cycle, DoAll, Receipts;
    FollowUpIff(mem, w.flows, env, lim);
  }

  // ---- Boot and its files ----

  /** A boot reports an error, and is to be retried, exactly when it applied nothing. */
  lemma BootErrorIff(w: World, boot: BootEnv, setup: Setup)
    ensures var m := Boot(w, boot, setup).mem; m.hasError == m.bootFailed == !m.applied
  {
    hide LoadLedger, LoadPersisted, ApplySnapshot;
  }

  /** No table, or one without rules and fences: nothing in the kernel speaks of managed state. */
  predicate NothingManaged(k: KernelTable) {
    k.NoTable? || k == Installed([], [])
  }

  /** A new ledger is begun exactly on a host without ledger file whose snapshot, if any, is legacy, and whose kernel shows nothing managed, all of
      which must have been looked at with success. */
  lemma NewLedgerIff(w: World, boot: BootEnv, setup: Setup, id: string)
    ensures WriteLedger(Fresh(id)) in LoadLedgerFile(w, boot, setup).effects <==>
      && boot.ledgerReadable && w.ledgerFile.NoLedger? && boot.newId == Some(id) && IsUUID(id) && !boot.saveNew.Refused?
      && boot.snapStattable && boot.inspectable && NothingManaged(w.kernel)
      && (w.snapFile.NoSnap?
          || (w.snapFile.StoredSnap? && boot.snapReadable && Valid(w.snapFile.snap, setup.lim) && w.snapFile.snap.retirements.None?))
  {
    hide Valid, IsUUID;
    assert ValidLedger(Fresh(id)) <==> IsUUID(id);
    if boot.newId.Some? {
      assert Fresh(boot.newId.value) == Fresh(id) <==> boot.newId.value == id;
      assert ValidLedger(Fresh(boot.newId.value)) <==> IsUUID(boot.newId.value);
    }
  }

  /** A boot that holds its ledger drops a stored copy exactly when it cannot be used and can be removed; a usable one stays. */
  lemma BootKeepsUsable(w: World, boot: BootEnv, setup: Setup)
    requires !Boot(w, boot, setup).mem.ledgerLost
    ensures DoAll(w, Boot(w, boot, setup).effects).snapFile ==
      if !w.snapFile.NoSnap? && !LoadPersisted(w.snapFile, boot, setup).Usable? && boot.removed then NoSnap else w.snapFile
  {
    hide LoadLedgerFile, LoadPersisted, ApplySnapshot, Prepare, Valid;
    var load := LoadPersisted(w.snapFile, boot, setup);
    PersistedUsableIff(w.snapFile, boot, setup);
    var held := LoadLedger(w, Usage(load), boot, setup);
    FirstOnlyLedgers(w, boot, setup);
    ApplyEffects(held.ledger, Usage(load), boot.apply);
    var removal := if load.Rejected? && boot.removed then [RemoveSnap] else [];
    var ran := ApplySnapshot(held.ledger, Usage(load), boot.apply);
    DoConcat(w, held.effects + removal, ran.effects);
    DoConcat(w, held.effects, removal);
    SnapKept(w, held.effects);
    DoOne(DoAll(w, held.effects), RemoveSnap);
    NothingDone(DoAll(w, held.effects));
    SnapKept(DoAll(w, held.effects + removal), ran.effects);
  }

  lemma FirstOnlyLedgers(w: World, boot: BootEnv, setup: Setup)
    ensures forall e :: e in LoadLedgerFile(w, boot, setup).effects ==> e.WriteLedger?
  {
    hide ProvablyLegacy;
  }

  lemma {:induction false} SnapKept(w: World, es: seq<Effect>)
    requires forall e :: e in es ==> !e.WriteSnap? && !e.RemoveSnap?
    ensures DoAll(w, es).snapFile == w.snapFile
    decreases |es|
  {
    if es != [] {
      assert es[0] in es && forall e :: e in es[1..] ==> e in es;
      SnapKept(Do(w, es[0]), es[1..]);
    }
  }
}
