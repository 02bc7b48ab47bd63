/**
 Every step of the agent (boot, poll cycle, re-assert, boot retry) keeps the invariants of
 AgentSafety, whatever the outside calls answer and wherever a crash cuts its effects.
 */
module AgentSteps {
  import opened Values
  import opened Snapshots
  import opened Ledgers
  import opened LedgerProofs
  import opened Conntrack
  import opened AgentModel
  import opened AgentSafety
  import Nft

  /** Safe at every cut, and agreeing with the files at the end. */
  ghost predicate StepSafe(w: World, sealed: set<Retirement>, o: Outcome, lim: Limits) {
    && SafeFrom(w, sealed, o.effects, lim)
    && sealed <= SealAll(sealed, o.effects)
    && MemInv(o.mem, DoAll(w, o.effects), SealAll(sealed, o.effects), lim)
  }

  /** The platform says "unchanged" only when the applied generation is not behind the ledger. */
  ghost predicate Faithful(mem: Mem, sync: SyncAnswer) {
    sync.Unchanged? && mem.ledger.Some? && mem.lastApplied.Some? ==>
      mem.ledger.value.managedGenerationHighWater <= mem.appliedGeneration
  }

  /** The exact condition under which the receipts after a re-assert are true: no rule that it installs carries the mark of an
      outstanding retirement. */
  ghost predicate Sealing(mem: Mem, env: CycleEnv) {
    env.sync.Unchanged? && !mem.ledgerLost && mem.ledger.Some? && mem.applied && !env.present.Present? ==>
      Avoids(mem.ledger.value, {}, PlanOf(mem.lastApplied))
  }

  // ---- A ledger and its successor ----

  /** A snapshot that fits a ledger fits every ledger that may follow. */
  lemma FitsNext(l: Ledger, s: Snapshot, lim: Limits, n: Ledger, t: Snapshot)
    requires LedgerInv(l) && Leads(l, s, lim, n) && Valid(t, lim) && Fits(l, t)
    ensures Fits(n, t)
  {
    if s.retirements.Some? && t.retirements.Some? {
      assert ManagedStep(l, s, lim, n);
      StepFacts(l, s, lim, n);
      StepMarks(l, s, lim, n);
      if Settled(l, t) && s.generation == l.managedGenerationHighWater {
        SameGenerationSameContent(l, s, lim, n, t);
      }
    }
  }

  lemma SameGenerationSameContent(l: Ledger, s: Snapshot, lim: Limits, n: Ledger, t: Snapshot)
    requires ManagedStep(l, s, lim, n) && Valid(t, lim) && Settled(l, t) && s.generation == l.managedGenerationHighWater
    ensures Settled(n, t) && Similar(l, n)
  {
    SameHash(l, s, lim, n);
    hide ManagedStep, ValidLedger, Valid, Ledgers.Verdict, Prepared, DesiredHash;
    assert Leads(l, s, lim, n) && LedgerInv(l) by { StepParts(l, s, lim, n); }
    DesiredHashIdentifiesContent(s, t, lim);
    SettledByContent(l, t, s, lim);
    SettledPrepare(l, s, lim);
    SettledBySimilar(l, n, t);
  }

  lemma StepParts(l: Ledger, s: Snapshot, lim: Limits, n: Ledger)
    requires ManagedStep(l, s, lim, n)
    ensures LedgerInv(l) && s.retirements.Some? && Leads(l, s, lim, n)
  {
    hide LedgerInv, Leads;
  }

  lemma SameHash(l: Ledger, s: Snapshot, lim: Limits, n: Ledger)
    requires ManagedStep(l, s, lim, n) && s.generation == l.managedGenerationHighWater
    ensures l.desiredHash == NoHash || l.desiredHash == DesiredHash(s)
  {
    hide ValidLedger, Valid, RetirementsAccepted, MappingsAccepted, NextEntries, Prepared, DesiredHash;
  }

  lemma SoundNext(l: Ledger, s: Snapshot, lim: Limits, n: Ledger, sealed: set<Retirement>)
    requires Sound(l, sealed) && Leads(l, s, lim, n)
    ensures Sound(n, sealed)
  {
    PrepareKeeps(l, s, lim, n);
    if s.retirements.Some? {
      assert ManagedStep(l, s, lim, n);
      hide LedgerInv, Leads, ManagedStep;
      forall r | r in ClearedOnes(n) ensures r in sealed {
        var e :| e in n.entries && e.cleared && e.retirement == r;
        NewEntryOrigin(l, s, lim, n, e);
        assert r in ClearedOnes(l);
      }
      forall r | r in sealed ensures Barred(n, r.flowMark) {
        assert Barred(l, r.flowMark);
        forall a | a in n.active ensures a.flowMark != r.flowMark {
          ActiveOrigin(l, s, lim, n, a);
        }
      }
    }
  }

  lemma StampKeeps(s: Snapshot, now: nat, lim: Limits)
    requires Valid(s, lim)
    ensures Valid(AgentModel.Stamped(s, now), lim) && DesiredHash(AgentModel.Stamped(s, now)) == DesiredHash(s)
  {
    hide TupleHash, MappingOk, Sort;
    var t := AgentModel.Stamped(s, now);
    forall i | 0 <= i < |t.mappings| ensures MappingFits(t, lim, i) {
      assert MappingFits(s, lim, i);
    }
    if s.retirements.Some? {
      forall i | 0 <= i < |t.retirements.value| ensures RetirementFits(t, lim, i) {
        assert RetirementFits(s, lim, i);
      }
    }
  }

  lemma StampStaysSettled(l: Ledger, s: Snapshot, now: nat, lim: Limits)
    requires Settled(l, s) && Valid(s, lim)
    ensures Settled(l, AgentModel.Stamped(s, now))
  {
    hide Valid, DesiredHash, EpochOf;
    StampKeeps(s, now, lim);
  }

  /** What acceptance gives the agent: a sound ledger, whose own snapshot this is. */
  lemma Accepted(l: Ledger, s: Snapshot, lim: Limits, n: Ledger, sealed: set<Retirement>)
    requires Sound(l, sealed) && Leads(l, s, lim, n) && forall r :: r in sealed ==> r.flowMark != 0
    ensures Sound(n, sealed) && Avoids(n, sealed, PlanOf(Some(s)))
    ensures s.retirements.None? || Settled(n, s)
    ensures n.armed || s.retirements.None?
    ensures !n.armed ==> n == l
  {
    SoundNext(l, s, lim, n, sealed);
    if s.retirements.Some? {
      PrepareSettles(l, s, lim, n);
    }
    PlanFromLedger(n, s, lim);
    FromAvoids(n, PlanOf(Some(s)), sealed);
  }

  /** An entry that is not cleared is still there, and not cleared, in every ledger that may follow. */
  lemma PendsNext(l: Ledger, s: Snapshot, lim: Limits, n: Ledger, sealed: set<Retirement>, rules: seq<Nft.Rule>)
    requires LedgerInv(l) && Leads(l, s, lim, n) && Pends(l, sealed, rules)
    ensures Pends(n, sealed, rules)
  {
    if s.retirements.Some? {
      assert ManagedStep(l, s, lim, n);
      hide LedgerInv, Leads, ManagedStep;
      forall r | Pending(l, r) ensures Pending(n, r) {
        var e :| e in l.entries && e.retirement == r && !e.cleared;
        OldEntryFate(l, s, lim, n, e);
      }
    }
  }

  // ---- Re-assert and boot retry ----

  /** Memory that took over the ledger an apply left. */
  lemma MemAfterApply(w: World, sealed: set<Retirement>, l: Ledger, ran: Ran, m: Mem, lim: Limits)
    requires ApplyKeeps(w, sealed, l, ran, lim)
    requires m.ledger == Some(ran.ledger)
    requires w.snapFile.StoredSnap? ==> Fits(l, w.snapFile.snap)
    requires m.lastApplied.Some? ==>
      Valid(m.lastApplied.value, lim) && Fits(l, m.lastApplied.value) && m.appliedGeneration == m.lastApplied.value.generation
    requires var rules := PlanOf(m.lastApplied); Avoids(l, sealed, rules) || (!ran.ok && Pends(l, sealed, rules))
    ensures MemInv(m, DoAll(w, ran.effects), SealAll(sealed, ran.effects), lim)
  {
    PendsAfter(w, sealed, l, ran, PlanOf(m.lastApplied), lim);
    hide Avoids, Pends, PlanOf, Pending;
    hide Sound, Fits, Valid, SafeFrom, DoAll, SealAll, Cleared;
    var ids :| ran.ledger == Cleared(l, ids);
    if w.snapFile.StoredSnap? {
      ClearedFits(l, ids, w.snapFile.snap);
    }
    if m.lastApplied.Some? {
      ClearedFits(l, ids, m.lastApplied.value);
    }
  }

  lemma PendsAfter(w: World, sealed: set<Retirement>, l: Ledger, ran: Ran, rules: seq<Nft.Rule>, lim: Limits)
    requires ApplyKeeps(w, sealed, l, ran, lim)
    requires Avoids(l, sealed, rules) || (!ran.ok && Pends(l, sealed, rules))
    ensures Pends(ran.ledger, SealAll(sealed, ran.effects), rules)
  {
    hide Sound, SafeFrom, DoAll, SealAll, Cleared;
    forall q, r | q in rules && r in SealAll(sealed, ran.effects) && q.flowMark == r.flowMark ensures Pending(ran.ledger, r) {
      if Avoids(l, sealed, rules) {
        if r !in sealed {
          PendingIsOutstanding(l, r);
        }
        assert false;
      }
    }
  }

  lemma PendingIsOutstanding(l: Ledger, r: Retirement)
    requires Pending(l, r)
    ensures r in Retirements(l)
  {
    var e :| e in l.entries && e.retirement == r && !e.cleared;
    var i :| 0 <= i < |l.entries| && l.entries[i] == e;
    assert Retirements(l)[i] == r;
  }

  lemma ApplyStepSafe(mem: Mem, w: World, sealed: set<Retirement>, s: Option<Snapshot>, env: ApplyEnv, o: Outcome, lim: Limits)
    requires WorldInv(w, sealed, lim) && MemInv(mem, w, sealed, lim) && !mem.ledgerLost
    requires Avoids(mem.ledger.value, sealed, PlanOf(s))
    requires var ran := Apply(mem, s, env); o.effects == ran.effects && o.mem.ledger == Some(ran.ledger)
    requires o.mem.lastApplied.None? ||
      (o.mem.lastApplied == mem.lastApplied && o.mem.appliedGeneration == mem.appliedGeneration && (s == mem.lastApplied || !Apply(mem, s, env).ok))
    ensures StepSafe(w, sealed, o, lim)
  {
    NoRules(mem.ledger.value, sealed);
    hide WorldInv, Sound, Fits, Valid, SafeFrom, DoAll, SealAll, Avoids, Pends, PlanOf, ApplySnapshot;
    var l := mem.ledger.value;
    ApplySafe(w, sealed, l, s, env, lim);
    MemAfterApply(w, sealed, l, Apply(mem, s, env), o.mem, lim);
  }

  /** The rules that a re-assert installs carry neither outstanding nor sealed marks. */
  lemma ReassertAvoids(mem: Mem, w: World, sealed: set<Retirement>, env: CycleEnv, lim: Limits)
    requires MemInv(mem, w, sealed, lim) && !mem.ledgerLost && env.sync.Unchanged? && Sealing(mem, env)
    ensures Avoids(mem.ledger.value, sealed, PlanOf(None))
    ensures mem.applied && !env.present.Present? ==> Avoids(mem.ledger.value, sealed, PlanOf(mem.lastApplied))
  {
    hide PlanOf, Sound, Fits, Valid;
    var l, rules := mem.ledger.value, PlanOf(mem.lastApplied);
    NoRules(l, sealed);
    if mem.applied && !env.present.Present? {
      forall q, r | q in rules && r in sealed ensures q.flowMark != r.flowMark {
        if q.flowMark == r.flowMark {
          PendingIsOutstanding(l, r);
        }
      }
    }
  }

  /** A faithful platform meets the condition: what was applied last then comes from the ledger in memory. */
  lemma FaithfulSeals(mem: Mem, w: World, sealed: set<Retirement>, env: CycleEnv, lim: Limits)
    requires WorldInv(w, sealed, lim) && MemInv(mem, w, sealed, lim) && Faithful(mem, env.sync) && !mem.ledgerLost
    ensures Sealing(mem, env)
  {
    SealedMarks(w, sealed, lim);
    var l := mem.ledger.value;
    if env.sync.Unchanged? {
      NoRules(l, {});
      if mem.lastApplied.Some? {
        PlanFromLedger(l, mem.lastApplied.value, lim);
        hide Valid, Fits, LedgerInv, RulesFrom, PlanOf, WorldInv;
        FromAvoids(l, PlanOf(mem.lastApplied), sealed);
      }
    }
  }

  lemma EnsureAssertedSafe(mem: Mem, w: World, sealed: set<Retirement>, env: CycleEnv, lim: Limits)
    requires WorldInv(w, sealed, lim) && MemInv(mem, w, sealed, lim) && !mem.ledgerLost && env.sync.Unchanged? && Sealing(mem, env)
    ensures StepSafe(w, sealed, EnsureAsserted(mem, env), lim)
  {
    ReassertAvoids(mem, w, sealed, env, lim);
    hide WorldInv, MemInv, Avoids, PlanOf, ApplySnapshot, StepSafe, Valid;
    Memory(mem, w, sealed, lim);
    var o := EnsureAsserted(mem, env);
    if !mem.applied && mem.bootFailed {
      ApplyStepSafe(mem, w, sealed, None, env.apply, o, lim);
    } else if mem.applied && !env.present.Present? {
      ApplyStepSafe(mem, w, sealed, mem.lastApplied, env.apply, o, lim);
    } else {
      Standing(mem, w, sealed, o, lim);
    }
  }

  lemma NoRules(l: Ledger, sealed: set<Retirement>)
    ensures Avoids(l, sealed, PlanOf(None))
  {
  }

  /** A step without effects that keeps ledger and last applied snapshot. */
  lemma Standing(mem: Mem, w: World, sealed: set<Retirement>, o: Outcome, lim: Limits)
    requires WorldInv(w, sealed, lim) && MemInv(mem, w, sealed, lim)
    requires o.effects == [] && o.mem == mem.(hasError := o.mem.hasError)
    ensures StepSafe(w, sealed, o, lim)
  {
    hide WorldInv, Sound, Fits, Valid;
  }

  // ---- A new snapshot ----

  /** The files before the apply: the ledger first, then its snapshot. */
  lemma FilesFirst(mem: Mem, w: World, sealed: set<Retirement>, n: Ledger, s: Snapshot, env: CycleEnv, lim: Limits)
    requires WorldInv(w, sealed, lim) && MemInv(mem, w, sealed, lim) && !mem.ledgerLost
    requires Leads(mem.ledger.value, s, lim, n) && n.armed
    ensures var ledgerWrite := Try(SaveLedger(n, env.saveLedger), WriteLedger(n));
      && SafeFrom(w, sealed, ledgerWrite, lim) && SealAll(sealed, ledgerWrite) == sealed
      && DoAll(w, ledgerWrite) == (if SaveLedger(n, env.saveLedger).Refused? then w else w.(ledgerFile := StoredLedger(n)))
  {
    var l := mem.ledger.value;
    SoundNext(l, s, lim, n, sealed);
    if w.snapFile.StoredSnap? {
      FitsNext(l, s, lim, n, w.snapFile.snap);
    }
    hide WorldInv, MemInv, Sound, Fits, Leads, SafeFrom, DoAll, SealAll, ValidLedger, Seal, Try;
    SoundWriteSafe(w, sealed, n, lim);
    SafeTry(w, sealed, SaveLedger(n, env.saveLedger), WriteLedger(n), lim);
  }

  lemma SnapNext(w: World, sealed: set<Retirement>, n: Ledger, s: Snapshot, now: nat, c: Call, lim: Limits)
    requires WorldInv(w, sealed, lim) && w.ledgerFile.StoredLedger? && Valid(s, lim)
    requires s.retirements.None? || (w.ledgerFile.ledger == n && Settled(n, s))
    requires w.snapFile.StoredSnap? ==> Fits(n, w.snapFile.snap)
    ensures var snapWrite := Try(c, WriteSnap(AgentModel.Stamped(s, now)));
      var after := DoAll(w, snapWrite);
      && SafeFrom(w, sealed, snapWrite, lim) && SealAll(sealed, snapWrite) == sealed
      && after == (if c.Refused? then w else w.(snapFile := StoredSnap(AgentModel.Stamped(s, now))))
      && (after.snapFile.StoredSnap? ==> Fits(n, after.snapFile.snap))
  {
    StampKeeps(s, now, lim);
    if s.retirements.Some? {
      StampStaysSettled(n, s, now, lim);
    }
    var t := AgentModel.Stamped(s, now);
    assert Fits(n, t) && Fits(w.ledgerFile.ledger, t);
    hide WorldInv, Fits, Valid, SafeFrom, DoAll, SealAll, Try;
    SnapWriteSafe(w, sealed, t, lim);
    SafeTry(w, sealed, c, WriteSnap(t), lim);
  }

  /** What a convergence starts from: every snapshot in play fits the new ledger. */
  lemma ConvergeStart(mem: Mem, w: World, sealed: set<Retirement>, n: Ledger, s: Snapshot, lim: Limits)
    requires WorldInv(w, sealed, lim) && MemInv(mem, w, sealed, lim) && !mem.ledgerLost
    requires Leads(mem.ledger.value, s, lim, n)
    ensures Valid(s, lim) && Sound(n, sealed) && (s.retirements.None? || Settled(n, s))
    ensures Fits(n, s) && Avoids(n, sealed, PlanOf(Some(s))) && Pends(n, sealed, PlanOf(mem.lastApplied))
    ensures mem.lastApplied.Some? ==> Fits(n, mem.lastApplied.value)
    ensures w.snapFile.StoredSnap? ==> Fits(n, w.snapFile.snap)
  {
    var l := mem.ledger.value;
    if mem.lastApplied.Some? {
      FitsNext(l, s, lim, n, mem.lastApplied.value);
    }
    if w.snapFile.StoredSnap? {
      FitsNext(l, s, lim, n, w.snapFile.snap);
    }
    SealedMarks(w, sealed, lim);
    hide WorldInv, Fits, Valid, Avoids, Pends, PlanOf, Leads, Settled;
    Accepted(l, s, lim, n, sealed);
    PendsNext(l, s, lim, n, sealed, PlanOf(mem.lastApplied));
  }

  lemma SealedMarks(w: World, sealed: set<Retirement>, lim: Limits)
    requires WorldInv(w, sealed, lim)
    ensures forall r :: r in sealed ==> r.flowMark != 0
  {
    hide FilesOk, Unstamped, Unmatched;
  }

  /** Persisted, then applied: the part of a managed convergence after both files were stored, or of a legacy one. */
  lemma AppliedAfter(mem: Mem, w: World, sealed: set<Retirement>, n: Ledger, s: Snapshot, before: seq<Effect>, env: CycleEnv, lim: Limits)
    requires WorldInv(w, sealed, lim) && MemInv(mem, w, sealed, lim) && !mem.ledgerLost
    requires Leads(mem.ledger.value, s, lim, n)
    requires SafeFrom(w, sealed, before, lim) && SealAll(sealed, before) == sealed
    requires DoAll(w, before).ledgerFile.StoredLedger?
    requires DoAll(w, before).snapFile.StoredSnap? ==> Fits(n, DoAll(w, before).snapFile.snap)
    ensures var ran := ApplySnapshot(n, Some(s), env.apply);
      && (!ran.ok ==> StepSafe(w, sealed, Failing(mem.(ledger := Some(ran.ledger)), before + ran.effects, Attempt(Some(s), false)), lim))
      && (forall o: Outcome ::
            o.effects == before + ran.effects && !o.mem.ledgerLost && o.mem.ledger == Some(ran.ledger)
            && o.mem.lastApplied == Some(s) && o.mem.appliedGeneration == s.generation
            ==> StepSafe(w, sealed, o, lim))
      && (DoAll(w, before + ran.effects).ledgerFile.StoredLedger?)
  {
    hide WorldInv, Sound, Fits, Valid, SafeFrom, DoAll, SealAll, Avoids, Pends, PlanOf, ApplySnapshot, Leads, Settled;
    ConvergeStart(mem, w, sealed, n, s, lim);
    var ran := ApplySnapshot(n, Some(s), env.apply);
    var w1 := DoAll(w, before);
    SafeEnd(w, sealed, before, lim);
    ApplySafe(w1, sealed, n, Some(s), env.apply, lim);
    SafeConcat(w, sealed, before, ran.effects, lim);
    if !ran.ok {
      MemAfterApply(w1, sealed, n, ran, mem.(ledger := Some(ran.ledger), hasError := true), lim);
    }
    forall o: Outcome |
      o.effects == before + ran.effects && !o.mem.ledgerLost && o.mem.ledger == Some(ran.ledger)
      && o.mem.lastApplied == Some(s) && o.mem.appliedGeneration == s.generation
      ensures StepSafe(w, sealed, o, lim)
    {
      MemAfterApply(w1, sealed, n, ran, o.mem, lim);
    }
  }

  lemma Rewritten(mem: Mem, w: World, after: World, sealed: set<Retirement>, n: Ledger, lim: Limits)
    requires MemInv(mem, w, sealed, lim) && !mem.ledgerLost && Sound(n, sealed) && Pends(n, sealed, PlanOf(mem.lastApplied))
    requires mem.lastApplied.Some? ==> Fits(n, mem.lastApplied.value)
    requires after.ledgerFile.StoredLedger? && (after.snapFile.StoredSnap? ==> Fits(n, after.snapFile.snap))
    ensures MemInv(mem.(ledger := Some(n), hasError := true), after, sealed, lim)
  {
    hide Fits, Sound, Valid, Pends;
  }

  /** The ledger was not stored, or only seemingly not: memory keeps the old one. */
  lemma NotStored(mem: Mem, w: World, sealed: set<Retirement>, n: Ledger, s: Snapshot, env: CycleEnv, lim: Limits)
    requires WorldInv(w, sealed, lim) && MemInv(mem, w, sealed, lim) && !mem.ledgerLost
    requires Leads(mem.ledger.value, s, lim, n) && n.armed
    ensures StepSafe(w, sealed, Failing(mem, Try(SaveLedger(n, env.saveLedger), WriteLedger(n)), NoApply), lim)
  {
    hide WorldInv, Sound, Fits, Valid, SafeFrom, DoAll, SealAll, Leads, ValidLedger, Try;
    FilesFirst(mem, w, sealed, n, s, env, lim);
  }

  /** Both files stored, in this order. */
  lemma FilesStored(mem: Mem, w: World, sealed: set<Retirement>, n: Ledger, s: Snapshot, env: CycleEnv, lim: Limits)
    requires WorldInv(w, sealed, lim) && MemInv(mem, w, sealed, lim) && !mem.ledgerLost
    requires Leads(mem.ledger.value, s, lim, n) && n.armed && SaveLedger(n, env.saveLedger).Done?
    ensures var before := Try(Done, WriteLedger(n)) + Try(env.saveSnap, WriteSnap(AgentModel.Stamped(s, env.now)));
      && SafeFrom(w, sealed, before, lim) && SealAll(sealed, before) == sealed
      && DoAll(w, before).ledgerFile.StoredLedger?
      && (DoAll(w, before).snapFile.StoredSnap? ==> Fits(n, DoAll(w, before).snapFile.snap))
      && StepSafe(w, sealed, Failing(mem.(ledger := Some(n)), before, NoApply), lim)
  {
    hide WorldInv, MemInv, Sound, Fits, Valid, SafeFrom, DoAll, SealAll, Leads, ValidLedger, Try, Settled;
    assert mem.ledger.Some? by { Memory(mem, w, sealed, lim); }
    ConvergeStart(mem, w, sealed, n, s, lim);
    FilesFirst(mem, w, sealed, n, s, env, lim);
    var ledgerWrite, snapWrite := Try(Done, WriteLedger(n)), Try(env.saveSnap, WriteSnap(AgentModel.Stamped(s, env.now)));
    var w1 := w.(ledgerFile := StoredLedger(n));
    SafeEnd(w, sealed, ledgerWrite, lim);
    SnapNext(w1, sealed, n, s, env.now, env.saveSnap, lim);
    SafeConcat(w, sealed, ledgerWrite, snapWrite, lim);
    Rewritten(mem, w, DoAll(w1, snapWrite), sealed, n, lim);
  }

  /** A managed snapshot: ledger, snapshot, kernel, connections, ledger again. */
  lemma ManagedConvergeSafe(mem: Mem, w: World, sealed: set<Retirement>, n: Ledger, s: Snapshot, env: CycleEnv, lim: Limits)
    requires WorldInv(w, sealed, lim) && MemInv(mem, w, sealed, lim) && !mem.ledgerLost
    requires Leads(mem.ledger.value, s, lim, n) && n.armed
    ensures StepSafe(w, sealed, Converge(mem, n, s, env), lim)
  {
    hide WorldInv, StepSafe, SafeFrom, DoAll, SealAll, ApplySnapshot, Leads, Sound, Fits, Try, Valid, ValidLedger;
    var saved := SaveLedger(n, env.saveLedger);
    if !saved.Done? {
      NotStored(mem, w, sealed, n, s, env, lim);
    } else {
      FilesStored(mem, w, sealed, n, s, env, lim);
      if env.saveSnap.Done? {
        var before := Try(Done, WriteLedger(n)) + Try(env.saveSnap, WriteSnap(AgentModel.Stamped(s, env.now)));
        AppliedAfter(mem, w, sealed, n, s, before, env, lim);
        var ran := ApplySnapshot(n, Some(s), env.apply);
        assert before + ran.effects + [] == before + ran.effects;
      }
    }
  }

  /** A legacy snapshot on a ledger that was never armed: the kernel first, then the snapshot. */
  lemma LegacyConvergeSafe(mem: Mem, w: World, sealed: set<Retirement>, n: Ledger, s: Snapshot, env: CycleEnv, lim: Limits)
    requires WorldInv(w, sealed, lim) && MemInv(mem, w, sealed, lim) && !mem.ledgerLost
    requires Leads(mem.ledger.value, s, lim, n) && !n.armed
    ensures StepSafe(w, sealed, Converge(mem, n, s, env), lim)
  {
    assert Valid(s, lim) && s.retirements.None? by {
      NextUnarmed(mem, w, sealed, n, s, lim);
    }
    var ran := ApplySnapshot(n, Some(s), env.apply);
    assert [] + [] + ran.effects == ran.effects;
    NoEffects(w, sealed, lim);
    hide WorldInv, Sound, Fits, Valid, SafeFrom, DoAll, SealAll, ApplySnapshot, Leads, ValidLedger, Try, Settled, Avoids, Pends, PlanOf;
    AppliedAfter(mem, w, sealed, n, s, [], env, lim);
    if ran.ok {
      var o := Outcome(mem.(ledger := Some(ran.ledger), lastApplied := Some(s), appliedGeneration := s.generation), ran.effects, true, NoApply);
      assert [] + ran.effects == ran.effects;
      assert StepSafe(w, sealed, o, lim);
      var w1, all := DoAll(w, ran.effects), SealAll(sealed, ran.effects);
      SafeEnd(w, sealed, ran.effects, lim);
      SnapNext(w1, all, ran.ledger, s, env.now, env.saveSnap, lim);
      var snapWrite := Try(env.saveSnap, WriteSnap(AgentModel.Stamped(s, env.now)));
      SafeConcat(w, sealed, ran.effects, snapWrite, lim);
    }
  }

  lemma NextUnarmed(mem: Mem, w: World, sealed: set<Retirement>, n: Ledger, s: Snapshot, lim: Limits)
    requires WorldInv(w, sealed, lim) && MemInv(mem, w, sealed, lim) && !mem.ledgerLost
    requires Leads(mem.ledger.value, s, lim, n) && !n.armed
    ensures Valid(s, lim) && s.retirements.None?
  {
    hide WorldInv, Fits, Valid, Avoids, Pends, PlanOf, Settled;
    SealedMarks(w, sealed, lim);
    Accepted(mem.ledger.value, s, lim, n, sealed);
  }

  lemma NoEffects(w: World, sealed: set<Retirement>, lim: Limits)
    requires WorldInv(w, sealed, lim)
    ensures SafeFrom(w, sealed, [], lim) && DoAll(w, []) == w && SealAll(sealed, []) == sealed
  {
  }

  /** A received snapshot is refused, found in place already, or leads to a convergence. */
  lemma ReceivedCases(mem: Mem, s: Snapshot, flows: set<Flow>, env: CycleEnv, lim: Limits) returns (n: Option<Ledger>)
    requires mem.ledger.Some?
    ensures var o := Received(mem, s, flows, env, lim);
      if n.None? then o == Idle(mem.(hasError := o.mem.hasError))
      else Leads(mem.ledger.value, s, lim, n.value) && ZeroAll(mem.ledger.value.entries, n.value, flows, env.zeros)
           && o == Converge(mem, n.value, s, env)
  {
    hide Converge, ZeroAll, LedgerChanged, Valid, Ledgers.Verdict, Prepared;
    n := None;
    if Valid(s, lim) {
      ValidIsReadable(s, lim);
      var l := mem.ledger.value;
      match Prepare(l, s)
      case Err(_) =>
      case Ok(next) =>
        assert Leads(l, s, lim, next);
        if ZeroAll(l.entries, next, flows, env.zeros)
           && !(mem.applied && s.generation == mem.appliedGeneration && !LedgerChanged(next, l) && env.present.Present?) {
          n := Some(next);
        }
    }
  }

  lemma ValidIsReadable(s: Snapshot, lim: Limits)
    requires Valid(s, lim)
    ensures Readable(s)
  {
  }

  lemma ReceivedSafe(mem: Mem, w: World, sealed: set<Retirement>, s: Snapshot, env: CycleEnv, lim: Limits)
    requires WorldInv(w, sealed, lim) && MemInv(mem, w, sealed, lim) && !mem.ledgerLost
    ensures StepSafe(w, sealed, Received(mem, s, w.flows, env, lim), lim)
  {
    hide WorldInv, MemInv, StepSafe, Converge, Received, ZeroAll, Leads;
    Memory(mem, w, sealed, lim);
    var n := ReceivedCases(mem, s, w.flows, env, lim);
    if n.None? {
      Standing(mem, w, sealed, Received(mem, s, w.flows, env, lim), lim);
    } else if n.value.armed {
      ManagedConvergeSafe(mem, w, sealed, n.value, s, env, lim);
    } else {
      LegacyConvergeSafe(mem, w, sealed, n.value, s, env, lim);
    }
  }

  lemma Memory(mem: Mem, w: World, sealed: set<Retirement>, lim: Limits)
    requires MemInv(mem, w, sealed, lim) && !mem.ledgerLost
    ensures mem.ledger.Some?
  {
    hide Sound, Fits;
  }

  lemma QuarantineStep(w: World, sealed: set<Retirement>, mem: Mem, c: Call, o: Outcome, lim: Limits)
    requires WorldInv(w, sealed, lim) && (mem.ledger.Some? ==> Sound(mem.ledger.value, sealed)) && mem.ledgerLost
    requires o.effects == Try(c, InstallQuarantine) && o.mem == mem
    ensures StepSafe(w, sealed, o, lim)
  {
    hide WorldInv, Sound, Try;
    QuarantineSafe(w, sealed, lim);
    SafeTry(w, sealed, c, InstallQuarantine, lim);
  }

  /** One poll cycle, whatever is answered, keeps every invariant at every point where it may be cut short. */
  lemma CycleSafe(mem: Mem, w: World, sealed: set<Retirement>, env: CycleEnv, lim: Limits)
    requires WorldInv(w, sealed, lim) && MemInv(mem, w, sealed, lim) && Sealing(mem, env)
    ensures StepSafe(w, sealed, Cycle(mem, w.flows, env, lim), lim)
  {
    hide WorldInv, StepSafe, EnsureAsserted, Received, Sound, Fits, Valid;
    var o := Cycle(mem, w.flows, env, lim);
    if mem.ledgerLost {
      QuarantineStep(w, sealed, mem, env.quarantine, o, lim);
    } else {
      match env.sync
      case SyncFailed => Standing(mem, w, sealed, o, lim);
      case Garbage => Standing(mem, w, sealed, o, lim);
      case Unchanged => EnsureAssertedSafe(mem.(hasError := false), w, sealed, env, lim);
      case Body(s) => ReceivedSafe(mem, w, sealed, s, env, lim);
    }
  }

  // ---- Boot ----

  lemma FreshSound(id: string)
    requires IsUUID(id)
    ensures Sound(Fresh(id), {})
  {
  }

  /** Loading the ledger: what is held or in hand is sound, and a new ledger is stored only beside no managed state. */
  lemma LoadFileSafe(w: World, sealed: set<Retirement>, env: BootEnv, setup: Setup)
    requires WorldInv(w, sealed, setup.lim)
    ensures var load := LoadLedgerFile(w, env, setup);
      && SafeFrom(w, sealed, load.effects, setup.lim) && SealAll(sealed, load.effects) == sealed
      && DoAll(w, load.effects) == w.(ledgerFile := DoAll(w, load.effects).ledgerFile)
      && (load.Held? ==> DoAll(w, load.effects).ledgerFile == StoredLedger(load.ledger) && Sound(load.ledger, sealed))
      && (load.Lost? ==> load.inHand.None?)
  {
    var load := LoadLedgerFile(w, env, setup);
    NoEffects(w, sealed, setup.lim);
    if w.ledgerFile.NoLedger? && load.effects != [] {
      var first := Fresh(env.newId.value);
      FreshSound(env.newId.value);
      assert w.snapFile.StoredSnap? ==> Fits(first, w.snapFile.snap);
      assert sealed == {};
      hide WorldInv, SafeFrom, DoAll, SealAll, Sound, Fits, Valid;
      SoundWriteSafe(w, sealed, first, setup.lim);
      SafeOne(w, sealed, WriteLedger(first), setup.lim);
    } else {
      hide Valid, Sound, Unstamped, Unmatched;
    }
  }

  lemma StoredFits(w: World, sealed: set<Retirement>, lim: Limits)
    requires WorldInv(w, sealed, lim) && w.ledgerFile.StoredLedger? && w.snapFile.StoredSnap?
    ensures Valid(w.snapFile.snap, lim) && Fits(w.ledgerFile.ledger, w.snapFile.snap)
  {
    hide Sound, Fits, Valid;
  }

  /** Boot keeps every invariant at every point where it may be cut short. */
  lemma BootSafe(w: World, sealed: set<Retirement>, env: BootEnv, setup: Setup)
    requires WorldInv(w, sealed, setup.lim)
    ensures StepSafe(w, sealed, Boot(w, env, setup), setup.lim)
  {
    hide WorldInv, StepSafe, SafeFrom, DoAll, SealAll, Sound, Fits, Valid, LoadLedgerFile, Avoids, Pends, PlanOf, ApplySnapshot, WithinWindow, Prepared, Ledgers.Verdict;
    var load := LoadPersisted(w.snapFile, env, setup);
    var first := LoadLedgerFile(w, env, setup);
    LoadFileSafe(w, sealed, env, setup);
    SafeEnd(w, sealed, first.effects, setup.lim);
    var w1 := DoAll(w, first.effects);
    var held := LoadLedger(w, Usage(load), env, setup);
    if held.Lost? {
      BootLost(w, sealed, first.effects, held.inHand, env.quarantine, Boot(w, env, setup), setup.lim);
    } else {
      if w1.snapFile.StoredSnap? {
        StoredFits(w1, sealed, setup.lim);
      }
      BootHeld(w, w1, sealed, first, held.ledger, load, env, Boot(w, env, setup), setup.lim);
    }
  }

  lemma BootLost(w: World, sealed: set<Retirement>, es: seq<Effect>, l: Option<Ledger>, c: Call, o: Outcome, lim: Limits)
    requires SafeFrom(w, sealed, es, lim) && SealAll(sealed, es) == sealed
    requires l.Some? ==> Sound(l.value, sealed)
    requires o.effects == es + Try(c, InstallQuarantine) && o.mem.ledger == l && o.mem.ledgerLost
    ensures StepSafe(w, sealed, o, lim)
  {
    hide WorldInv, Sound, SafeFrom, DoAll, SealAll, Try;
    SafeEnd(w, sealed, es, lim);
    var q := Outcome(o.mem, Try(c, InstallQuarantine), false, NoApply);
    QuarantineStep(DoAll(w, es), sealed, o.mem, c, q, lim);
    SafeConcat(w, sealed, es, q.effects, lim);
  }

  /** Boot with a ledger in hand: drop a rejected snapshot, then apply. */
  lemma BootHeld(w: World, w1: World, sealed: set<Retirement>, first: LedgerLoad, n: Ledger, load: Loaded, env: BootEnv, o: Outcome, lim: Limits)
    requires WorldInv(w1, sealed, lim) && first.Held? && w1 == DoAll(w, first.effects)
    requires SafeFrom(w, sealed, first.effects, lim) && SealAll(sealed, first.effects) == sealed
    requires w1.ledgerFile.StoredLedger? && Sound(first.ledger, sealed)
    requires w1.snapFile.StoredSnap? ==> Valid(w1.snapFile.snap, lim) && Fits(first.ledger, w1.snapFile.snap)
    requires load.Usable? ==> w1.snapFile == StoredSnap(load.snap)
    requires if load.Usable? then Leads(first.ledger, load.snap, lim, n) else n == first.ledger
    requires var removal := if load.Rejected? && env.removed then [RemoveSnap] else [];
      var ran := ApplySnapshot(n, Usage(load), env.apply);
      && o.effects == first.effects + removal + ran.effects
      && o.mem.ledger == Some(ran.ledger) && !o.mem.ledgerLost
      && (o.mem.lastApplied.None? || (o.mem.lastApplied == Usage(load) && load.Usable? && o.mem.appliedGeneration == load.snap.generation))
    ensures StepSafe(w, sealed, o, lim)
  {
    SealedMarks(w1, sealed, lim);
    NoRules(n, sealed);
    BootLedger(w1, sealed, first.ledger, n, load, lim);
    assert load.Usable? ==> Valid(load.snap, lim);
    hide WorldInv, Sound, Fits, Valid, SafeFrom, DoAll, SealAll, Avoids, Pends, PlanOf, ApplySnapshot, Leads;
    var removal := if load.Rejected? && env.removed then [RemoveSnap] else [];
    var ran := ApplySnapshot(n, Usage(load), env.apply);
    Removal(w1, sealed, removal, lim);
    var w2 := DoAll(w1, removal);
    SafeConcat(w, sealed, first.effects, removal, lim);
    SafeEnd(w1, sealed, removal, lim);
    ApplySafe(w2, sealed, n, Usage(load), env.apply, lim);
    SafeConcat(w, sealed, first.effects + removal, ran.effects, lim);
    MemAfterApply(w2, sealed, n, ran, o.mem, lim);
  }

  lemma Removal(w: World, sealed: set<Retirement>, removal: seq<Effect>, lim: Limits)
    requires WorldInv(w, sealed, lim) && (removal == [] || removal == [RemoveSnap])
    ensures SafeFrom(w, sealed, removal, lim) && SealAll(sealed, removal) == sealed
    ensures DoAll(w, removal) == if removal == [] then w else w.(snapFile := NoSnap)
  {
    SnapRemovalSafe(w, sealed, lim);
    NoEffects(w, sealed, lim);
    hide WorldInv, SafeFrom, DoAll, SealAll;
    SafeOne(w, sealed, RemoveSnap, lim);
  }

  lemma BootLedger(w: World, sealed: set<Retirement>, l: Ledger, n: Ledger, load: Loaded, lim: Limits)
    requires Sound(l, sealed)
    requires w.snapFile.StoredSnap? ==> Valid(w.snapFile.snap, lim) && Fits(l, w.snapFile.snap)
    requires if load.Usable? then Leads(l, load.snap, lim, n) else n == l
    requires forall r :: r in sealed ==> r.flowMark != 0
    ensures Sound(n, sealed) && Avoids(n, sealed, PlanOf(Usage(load)))
    ensures w.snapFile.StoredSnap? ==> Fits(n, w.snapFile.snap)
  {
    NoRules(n, sealed);
    if load.Usable? {
      Accepted(l, load.snap, lim, n, sealed);
      if w.snapFile.StoredSnap? {
        FitsNext(l, load.snap, lim, n, w.snapFile.snap);
      }
    }
  }
}
