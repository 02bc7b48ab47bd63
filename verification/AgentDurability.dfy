/**
 What every boot and every cycle does to the stored ledger: whatever it stores follows the
 ledger it started from, and while saves report truly memory is never behind disk.
 */
module AgentDurability {
  import opened Values
  import opened Snapshots
  import opened Ledgers
  import opened LedgerProofs
  import opened Conntrack
  import opened AgentModel
  import opened AgentSafety
  import opened AgentSteps
  import opened AgentTraffic
  import opened AgentRuns
  import opened AgentFiles
  import opened AgentBoot

  /** No ledger save took effect and reported failure. */
  predicate TrueSaves(ev: Event) {
    match ev
    case Booting(env, _) => !env.saveNew.Unsure? && !env.apply.persist.Unsure?
    case Cycling(env, _) => !env.saveLedger.Unsure? && !env.apply.persist.Unsure?
    case Killed => true
    case Resting => true
  }

  ghost predicate FileOk(f: LedgerFile) {
    !f.BadLedger? && (f.StoredLedger? ==> LedgerInv(f.ledger))
  }

  /** The new file is the old one, or a good ledger that follows the old one. */
  ghost predicate Follows(f: LedgerFile, g: LedgerFile) {
    FileOk(g) && (f.StoredLedger? ==> g.StoredLedger? && Evolves(f.ledger, g.ledger))
  }

  /** The ledger in memory follows the one on disk. */
  ghost predicate MemFollows(mem: Mem, f: LedgerFile) {
    && Healthy(mem)
    && (!mem.ledgerLost ==> f.StoredLedger? && LedgerInv(mem.ledger.value) && Evolves(f.ledger, mem.ledger.value))
  }

  lemma FollowsReflexive(f: LedgerFile)
    requires FileOk(f)
    ensures Follows(f, f)
  {
    if f.StoredLedger? {
      EvolvesReflexive(f.ledger);
    }
  }

  lemma FollowsTransitive(f: LedgerFile, g: LedgerFile, h: LedgerFile)
    requires FileOk(f) && Follows(f, g) && Follows(g, h)
    ensures Follows(f, h)
  {
    hide Evolves, ValidLedger;
    if f.StoredLedger? {
      EvolvesTransitive(f.ledger, g.ledger, h.ledger);
    }
  }

  /** Every ledger among the effects is good and follows this one. */
  ghost predicate WritesFollow(l: Ledger, es: seq<Effect>) {
    forall e :: e in es && e.WriteLedger? ==> LedgerInv(e.ledger) && Evolves(l, e.ledger)
  }

  lemma {:induction false} NoWrites(w: World, es: seq<Effect>)
    requires forall e :: e in es ==> !e.WriteLedger?
    ensures DoAll(w, es).ledgerFile == w.ledgerFile
    decreases |es|
  {
    if es != [] {
      assert es[0] in es;
      NoWrites(Do(w, es[0]), es[1..]);
    }
  }

  /** After any effects that follow a ledger, the file is the old one or follows that ledger. */
  lemma {:induction false} OldOrFollowing(w: World, es: seq<Effect>, l: Ledger)
    requires WritesFollow(l, es)
    ensures var g := DoAll(w, es).ledgerFile; g == w.ledgerFile || (g.StoredLedger? && LedgerInv(g.ledger) && Evolves(l, g.ledger))
  {
    hide LedgerInv, Evolves;
    if es == [] {
      NothingDone(w);
    } else {
      var init, last := es[..|es| - 1], es[|es| - 1];
      assert es == init + [last] && last in es && forall e :: e in init ==> e in es;
      OldOrFollowing(w, init, l);
      DoConcat(w, init, [last]);
      DoOne(DoAll(w, init), last);
    }
  }

  // ---- Apply ----

  /** An apply ends with its ledger on disk, or with neither disk nor memory changed. */
  lemma ApplyFollows(w: World, l: Ledger, s: Option<Snapshot>, env: ApplyEnv)
    requires LedgerInv(l) && !env.persist.Unsure?
    ensures var ran := ApplySnapshot(l, s, env);
      && WritesFollow(l, ran.effects) && LedgerInv(ran.ledger) && Evolves(l, ran.ledger)
      && var g := DoAll(w, ran.effects).ledgerFile;
         g == StoredLedger(ran.ledger) || (g == w.ledgerFile && ran.ledger == l)
  {
    hide ApplySnapshot, LedgerInv, Evolves, Cleared, WritesLast;
    ApplyWrites(l, s, env);
    var ran := ApplySnapshot(l, s, env);
    ApplyEffects(l, s, env);
    forall e | e in ran.effects && e.WriteLedger? ensures LedgerInv(e.ledger) && Evolves(l, e.ledger) {
      var ids :| e.ledger == Cleared(l, ids);
      ClearKeeps(l, ids);
    }
    var ids :| ran.ledger == Cleared(l, ids);
    ClearKeeps(l, ids);
    LastWrite(w, l, ran);
  }

  /** The only ledger an apply stores is the one it ends with, as its last effect. */
  ghost predicate WritesLast(l: Ledger, ran: Ran) {
    if ran.effects != [] && ran.effects[|ran.effects| - 1].WriteLedger? then
      ran.effects[|ran.effects| - 1].ledger == ran.ledger
    else
      ran.ledger == l && forall e :: e in ran.effects ==> !e.WriteLedger?
  }

  lemma ApplyWrites(l: Ledger, s: Option<Snapshot>, env: ApplyEnv)
    requires !env.persist.Unsure?
    ensures WritesLast(l, ApplySnapshot(l, s, env))
  {
    hide Cleared, ValidLedger, PlanOf, Retirements, Verified;
    ClearAllOnlyDeletes(l.entries, env.clears);
    var (cleared, deletions, ids) := ClearAll(l.entries, env.clears);
    var install := Try(env.install, Install(PlanOf(s), Retirements(l)));
    var before, ran := install + deletions, ApplySnapshot(l, s, env);
    assert forall e :: e in before ==> e in install || e in deletions;
    assert before + [] == before;
    if ran.effects == install || ran.effects == before {
      assert forall i :: 0 <= i < |ran.effects| ==> ran.effects[i] in ran.effects;
      assert forall e :: e in ran.effects ==> !e.WriteLedger?;
    } else {
      assert ran.effects == before + [WriteLedger(ran.ledger)];
    }
  }

  lemma LastWrite(w: World, l: Ledger, ran: Ran)
    requires WritesLast(l, ran)
    ensures var g := DoAll(w, ran.effects).ledgerFile; g == StoredLedger(ran.ledger) || (g == w.ledgerFile && ran.ledger == l)
  {
    var es := ran.effects;
    if es != [] && es[|es| - 1].WriteLedger? {
      assert es == es[..|es| - 1] + [es[|es| - 1]];
      DoConcat(w, es[..|es| - 1], [es[|es| - 1]]);
      DoOne(DoAll(w, es[..|es| - 1]), es[|es| - 1]);
    } else {
      NoWrites(w, es);
    }
  }

  // ---- Steps ----

  /** What every step of the process keeps of the ledger, whole or cut short. */
  ghost predicate StepFollows(w: World, l: Ledger, o: Outcome) {
    && WritesFollow(l, o.effects)
    && MemFollows(o.mem, DoAll(w, o.effects).ledgerFile)
  }

  lemma AppliedFollows(w: World, mem: Mem, l: Ledger, s: Option<Snapshot>, env: ApplyEnv, o: Outcome)
    requires LedgerInv(l) && !env.persist.Unsure? && w.ledgerFile.StoredLedger? && Evolves(w.ledgerFile.ledger, l)
    requires var ran := ApplySnapshot(l, s, env); o.effects == ran.effects && o.mem.ledger == Some(ran.ledger) && !o.mem.ledgerLost
    ensures StepFollows(w, l, o)
  {
    hide ApplySnapshot, Evolves, LedgerInv;
    ApplyFollows(w, l, s, env);
    var ran := ApplySnapshot(l, s, env);
    assert Evolves(ran.ledger, ran.ledger) by { Itself(ran.ledger); }
  }

  lemma Itself(l: Ledger)
    requires LedgerInv(l)
    ensures Evolves(l, l)
  {
    EvolvesReflexive(l);
  }

  /** Effects before an apply that leave this ledger on disk, then the apply. */
  lemma ThenApply(w: World, l: Ledger, before: seq<Effect>, n: Ledger, s: Option<Snapshot>, env: ApplyEnv, o: Outcome)
    requires LedgerInv(l) && LedgerInv(n) && Evolves(l, n) && WritesFollow(l, before) && !env.persist.Unsure?
    requires var f := DoAll(w, before).ledgerFile; f.StoredLedger? && Evolves(f.ledger, n)
    requires var ran := ApplySnapshot(n, s, env);
      o.effects == before + ran.effects && o.mem.ledger == Some(ran.ledger) && !o.mem.ledgerLost
    ensures StepFollows(w, l, o)
  {
    hide ApplySnapshot, Evolves;
    var w1, ran := DoAll(w, before), ApplySnapshot(n, s, env);
    AppliedFollows(w1, o.mem, n, s, env, o.(effects := ran.effects));
    DoConcat(w, before, ran.effects);
    forall e | e in o.effects && e.WriteLedger? ensures LedgerInv(e.ledger) && Evolves(l, e.ledger) {
      if e in ran.effects {
        EvolvesTransitive(l, n, e.ledger);
      }
    }
  }

  lemma StillFollows(w: World, mem: Mem, l: Ledger, o: Outcome)
    requires MemFollows(mem, w.ledgerFile) && o.mem.ledger == mem.ledger && o.mem.ledgerLost == mem.ledgerLost
    requires forall e :: e in o.effects ==> !e.WriteLedger?
    ensures StepFollows(w, l, o)
  {
    hide Evolves, LedgerInv;
    NoWrites(w, o.effects);
  }

  lemma ReassertFollows(mem: Mem, w: World, env: CycleEnv)
    requires MemFollows(mem, w.ledgerFile) && !mem.ledgerLost && !env.apply.persist.Unsure?
    ensures StepFollows(w, mem.ledger.value, EnsureAsserted(mem, env))
  {
    hide ApplySnapshot, Evolves, LedgerInv, StepFollows;
    var l, o := mem.ledger.value, EnsureAsserted(mem, env);
    if o.attempt.NoApply? {
      StillFollows(w, mem, l, o);
    } else {
      AppliedFollows(w, mem, l, o.attempt.target, env.apply, o);
    }
  }

  lemma ConvergeFollows(mem: Mem, w: World, n: Ledger, s: Snapshot, env: CycleEnv)
    requires MemFollows(mem, w.ledgerFile) && !mem.ledgerLost && !env.saveLedger.Unsure? && !env.apply.persist.Unsure?
    requires LedgerInv(n) && Evolves(mem.ledger.value, n) && (!n.armed ==> n == mem.ledger.value)
    ensures StepFollows(w, mem.ledger.value, Converge(mem, n, s, env))
  {
    hide ApplySnapshot, Evolves, LedgerInv, StepFollows;
    var l, o := mem.ledger.value, Converge(mem, n, s, env);
    var ran := ApplySnapshot(n, Some(s), env.apply);
    var snapWrite := Try(env.saveSnap, WriteSnap(AgentModel.Stamped(s, env.now)));
    assert n.armed ==> SaveLedger(n, env.saveLedger).Done? || SaveLedger(n, env.saveLedger).Refused?;
    if n.armed && !SaveLedger(n, env.saveLedger).Done? {
      StillFollows(w, mem, l, o);
    } else if n.armed {
      hide Converge;
      LedgerThenSnap(w, l, n, snapWrite);
      var before := [WriteLedger(n)] + snapWrite;
      ConvergeAfterSave(mem, n, s, env);
      if env.saveSnap.Done? {
        ThenApply(w, l, before, n, Some(s), env.apply, o);
      } else {
        JustSaved(w, l, n, o);
      }
    } else {
      LegacyConverge(mem, n, s, env);
      AppliedFollows(w, mem, l, Some(s), env.apply, o.(effects := ran.effects));
      ThenSnap(w, l, ran.effects, if ran.ok then snapWrite else [], o);
    }
  }

  lemma ConvergeAfterSave(mem: Mem, n: Ledger, s: Snapshot, env: CycleEnv)
    requires mem.ledger.Some? && n.armed && SaveLedger(n, env.saveLedger).Done?
    ensures var o := Converge(mem, n, s, env);
      var before := [WriteLedger(n)] + Try(env.saveSnap, WriteSnap(AgentModel.Stamped(s, env.now)));
      var ran := ApplySnapshot(n, Some(s), env.apply);
      && o.mem.ledgerLost == mem.ledgerLost
      && (if env.saveSnap.Done? then o.effects == before + ran.effects && o.mem.ledger == Some(ran.ledger)
          else o.effects == before && o.mem.ledger == Some(n))
  {
    hide ApplySnapshot, SaveLedger;
    var before := [WriteLedger(n)] + Try(env.saveSnap, WriteSnap(AgentModel.Stamped(s, env.now)));
    var ran := ApplySnapshot(n, Some(s), env.apply);
    assert before + ran.effects + [] == before + ran.effects;
  }

  lemma LegacyConverge(mem: Mem, n: Ledger, s: Snapshot, env: CycleEnv)
    requires mem.ledger.Some? && !n.armed
    ensures var o := Converge(mem, n, s, env);
      var ran := ApplySnapshot(n, Some(s), env.apply);
      && o.mem.ledgerLost == mem.ledgerLost && o.mem.ledger == Some(ran.ledger)
      && o.effects == ran.effects + if ran.ok then Try(env.saveSnap, WriteSnap(AgentModel.Stamped(s, env.now))) else []
  {
    hide ApplySnapshot;
    var ran := ApplySnapshot(n, Some(s), env.apply);
    assert [] + [] + ran.effects == ran.effects && ran.effects + [] == ran.effects;
  }

  lemma LedgerThenSnap(w: World, l: Ledger, n: Ledger, snapWrite: seq<Effect>)
    requires LedgerInv(n) && Evolves(l, n) && forall e :: e in snapWrite ==> !e.WriteLedger?
    ensures var before := [WriteLedger(n)] + snapWrite;
      WritesFollow(l, before) && DoAll(w, before).ledgerFile == StoredLedger(n) && Evolves(n, n)
  {
    Itself(n);
    hide LedgerInv, Evolves;
    DoConcat(w, [WriteLedger(n)], snapWrite);
    DoOne(w, WriteLedger(n));
    NoWrites(DoAll(w, [WriteLedger(n)]), snapWrite);
  }

  lemma JustSaved(w: World, l: Ledger, n: Ledger, o: Outcome)
    requires WritesFollow(l, o.effects) && DoAll(w, o.effects).ledgerFile == StoredLedger(n) && LedgerInv(n) && Evolves(n, n)
    requires o.mem.ledger == Some(n) && !o.mem.ledgerLost
    ensures StepFollows(w, l, o)
  {
    hide LedgerInv, Evolves;
  }

  lemma ThenSnap(w: World, l: Ledger, es: seq<Effect>, snapWrite: seq<Effect>, o: Outcome)
    requires StepFollows(w, l, o.(effects := es)) && o.effects == es + snapWrite && forall e :: e in snapWrite ==> !e.WriteLedger?
    ensures StepFollows(w, l, o)
  {
    hide LedgerInv, Evolves;
    DoConcat(w, es, snapWrite);
    NoWrites(DoAll(w, es), snapWrite);
  }

  lemma CycleFollows(mem: Mem, w: World, env: CycleEnv, lim: Limits)
    requires MemFollows(mem, w.ledgerFile) && !mem.ledgerLost && !env.saveLedger.Unsure? && !env.apply.persist.Unsure?
    ensures StepFollows(w, mem.ledger.value, Cycle(mem, w.flows, env, lim))
  {
    hide EnsureAsserted, Converge, Received, ZeroAll, StepFollows, LedgerInv, Evolves, Leads;
    var l, o := mem.ledger.value, Cycle(mem, w.flows, env, lim);
    match env.sync
    case SyncFailed => StillFollows(w, mem, l, o);
    case Garbage => StillFollows(w, mem, l, o);
    case Unchanged => ReassertFollows(mem.(hasError := false), w, env);
    case Body(s) =>
      var n := ReceivedCases(mem, s, w.flows, env, lim);
      if n.None? {
        StillFollows(w, mem, l, o);
      } else {
        NextFollows(l, s, lim, n.value);
        ConvergeFollows(mem, w, n.value, s, env);
      }
  }

  lemma NextFollows(l: Ledger, s: Snapshot, lim: Limits, n: Ledger)
    requires LedgerInv(l) && Leads(l, s, lim, n)
    ensures LedgerInv(n) && Evolves(l, n) && (!n.armed ==> n == l)
  {
    PrepareKeeps(l, s, lim, n);
  }

  // ---- Boot ----

  /** The ledger boot starts from: the one on disk, or a new one. */
  lemma LoadFollows(w: World, env: BootEnv, setup: Setup)
    requires FileOk(w.ledgerFile) && !env.saveNew.Unsure?
    ensures var load := LoadLedgerFile(w, env, setup);
      && (load.Lost? ==> load.effects == [] && load.inHand.None?)
      && (load.Held? ==>
            && LedgerInv(load.ledger) && (w.ledgerFile.StoredLedger? ==> load.ledger == w.ledgerFile.ledger && load.effects == [])
            && (!w.ledgerFile.StoredLedger? ==> load.effects == [WriteLedger(load.ledger)]))
  {
    hide ProvablyLegacy;
  }

  lemma BootFollows(w: World, env: BootEnv, setup: Setup) returns (l: Ledger)
    requires FileOk(w.ledgerFile) && !env.saveNew.Unsure? && !env.apply.persist.Unsure?
    ensures w.ledgerFile.StoredLedger? ==> l == w.ledgerFile.ledger
    ensures StepFollows(w, l, Boot(w, env, setup))
  {
    hide FileOk, LoadLedgerFile, LoadPersisted, ApplySnapshot, Prepared, Ledgers.Verdict, Valid, LedgerInv, Evolves, StepFollows, WithinWindow;
    LoadFollows(w, env, setup);
    var load := LoadPersisted(w.snapFile, env, setup);
    var first, held := LoadLedgerFile(w, env, setup), LoadLedger(w, Usage(load), env, setup);
    var o := Boot(w, env, setup);
    l := if w.ledgerFile.StoredLedger? then w.ledgerFile.ledger else if first.Held? then first.ledger else Fresh("");
    if first.Lost? {
      assert [] + Try(env.quarantine, InstallQuarantine) == Try(env.quarantine, InstallQuarantine);
      LostFollows(w, l, o);
    } else {
      Itself(l);
      assert held.effects == first.effects;
      if held.Lost? {
        LostFollows(w, l, o);
      } else {
        HeldNext(l, load, held.ledger, setup.lim);
        var removal := if load.Rejected? && env.removed then [RemoveSnap] else [];
        FirstWrite(w, l, first.effects, removal);
        ThenApply(w, l, first.effects + removal, held.ledger, Usage(load), env.apply, o);
      }
    }
  }

  lemma LostFollows(w: World, l: Ledger, o: Outcome)
    requires o.mem.ledgerLost && forall e :: e in o.effects && e.WriteLedger? ==> LedgerInv(l) && e.ledger == l && Evolves(l, l)
    ensures StepFollows(w, l, o)
  {
  }

  lemma HeldNext(l: Ledger, load: Loaded, n: Ledger, lim: Limits)
    requires LedgerInv(l) && Evolves(l, l)
    requires if load.Usable? then Valid(load.snap, lim) && Accepts(l, load.snap) && n == Prepared(l, load.snap) else n == l
    ensures LedgerInv(n) && Evolves(l, n)
  {
    hide Valid, Prepared, Ledgers.Verdict, LedgerInv, Evolves;
    if load.Usable? {
      assert Leads(l, load.snap, lim, n);
      NextFollows(l, load.snap, lim, n);
    }
  }

  lemma FirstWrite(w: World, l: Ledger, first: seq<Effect>, removal: seq<Effect>)
    requires LedgerInv(l) && Evolves(l, l) && removal in [[], [RemoveSnap]]
    requires if w.ledgerFile.StoredLedger? then first == [] && w.ledgerFile.ledger == l else first == [WriteLedger(l)]
    ensures WritesFollow(l, first + removal) && DoAll(w, first + removal).ledgerFile == StoredLedger(l)
  {
    hide LedgerInv, Evolves;
    DoConcat(w, first, removal);
    DoOne(w, WriteLedger(l));
    NoWrites(DoAll(w, first), removal);
  }

  // ---- Runs ----

  ghost predicate Durable(s: Sys) {
    FileOk(s.world.ledgerFile) && (s.mem.Some? ==> MemFollows(s.mem.value, s.world.ledgerFile))
  }

  lemma PerformFollows(s: Sys, l: Ledger, o: Outcome, cut: Option<nat>, n: Sys)
    requires FileOk(s.world.ledgerFile) && StepFollows(s.world, l, o) && Performs(s, o, cut, n)
    requires s.world.ledgerFile.StoredLedger? ==> LedgerInv(l) && Evolves(s.world.ledgerFile.ledger, l)
    ensures Durable(n) && Follows(s.world.ledgerFile, n.world.ledgerFile)
  {
    hide Evolves, SealAll, LedgerInv, Interleaved;
    var es := Reached(o, cut);
    assert forall e :: e in es ==> e in o.effects;
    AnyCut(s.world, l, es);
    PerformsAlike(s, o, cut, n);
  }

  lemma {:induction false} AnyCut(w: World, l: Ledger, es: seq<Effect>)
    requires FileOk(w.ledgerFile) && WritesFollow(l, es)
    requires w.ledgerFile.StoredLedger? ==> LedgerInv(l) && Evolves(w.ledgerFile.ledger, l)
    ensures Follows(w.ledgerFile, DoAll(w, es).ledgerFile)
    decreases |es|
  {
    hide Evolves, LedgerInv;
    if es == [] {
      FollowsReflexive(w.ledgerFile);
    } else {
      var init, last := es[..|es| - 1], es[|es| - 1];
      assert es == init + [last] && last in es && forall e :: e in init ==> e in es;
      AnyCut(w, l, init);
      DoConcat(w, init, [last]);
      DoOne(DoAll(w, init), last);
      if last.WriteLedger? && w.ledgerFile.StoredLedger? {
        Transitive(w.ledgerFile.ledger, l, last.ledger);
      }
    }
  }

  lemma Transitive(f: Ledger, l: Ledger, n: Ledger)
    requires LedgerInv(f) && LedgerInv(l) && Evolves(f, l) && Evolves(l, n)
    ensures Evolves(f, n)
  {
    hide Evolves;
    EvolvesTransitive(f, l, n);
  }

  lemma StepDurable(s: Sys, ev: Event, n: Sys, setup: Setup)
    requires Durable(s) && Steps(s, ev, n, setup) && TrueSaves(ev)
    ensures Durable(n) && Follows(s.world.ledgerFile, n.world.ledgerFile)
  {
    hide Boot, Cycle, Evolves, LedgerInv, StepFollows, Performs, Stampable;
    FollowsReflexive(s.world.ledgerFile);
    if ev.Booting? {
      var l := BootFollows(s.world, ev.boot, setup);
      if s.world.ledgerFile.StoredLedger? {
        Itself(l);
      }
      PerformFollows(s, l, Boot(s.world, ev.boot, setup), ev.cut, n);
    } else if ev.Cycling? {
      var mem := s.mem.value;
      var o := Cycle(mem, s.world.flows, ev.cycle, setup.lim);
      if mem.ledgerLost {
        var l := if s.world.ledgerFile.StoredLedger? then s.world.ledgerFile.ledger else Fresh("");
        LostKeepsFile(mem, s.world, ev.cycle, setup.lim, l);
        if s.world.ledgerFile.StoredLedger? {
          Itself(l);
        }
        PerformFollows(s, l, o, ev.cut, n);
      } else {
        CycleFollows(mem, s.world, ev.cycle, setup.lim);
        PerformFollows(s, mem.ledger.value, o, ev.cut, n);
      }
    }
  }

  lemma LostKeepsFile(mem: Mem, w: World, env: CycleEnv, lim: Limits, l: Ledger)
    requires mem.ledgerLost && MemFollows(mem, w.ledgerFile)
    ensures StepFollows(w, l, Cycle(mem, w.flows, env, lim))
  {
    hide Evolves, LedgerInv;
    StillFollows(w, mem, l, Cycle(mem, w.flows, env, lim));
  }

  lemma {:induction false} EveryStateIsDurable(t: seq<Sys>, evs: seq<Event>, setup: Setup, i: nat)
    requires Run(t, evs, setup) && i < |t| && forall k :: 0 <= k < |evs| ==> TrueSaves(evs[k])
    ensures Durable(t[i])
    decreases i
  {
    hide *;
    RunLength(t, evs, setup);
    if i == 0 {
      FirstIsDurable(t, evs, setup);
    } else {
      EveryStateIsDurable(t, evs, setup, i - 1);
      StepOfRun(t, evs, setup, i - 1);
      StepDurable(t[i - 1], evs[i - 1], t[i], setup);
    }
  }

  lemma FirstIsDurable(t: seq<Sys>, evs: seq<Event>, setup: Setup)
    requires Run(t, evs, setup)
    ensures Durable(t[0])
  {
    hide Valid, Steps;
  }

  // ---- Without any assumption on saves ----

  /** Whatever a cycle stores or keeps in memory follows the ledger it had in memory. */
  ghost predicate FollowsMemory(l: Ledger, o: Outcome) {
    WritesFollow(l, o.effects) && o.mem.ledger.Some? && LedgerInv(o.mem.ledger.value) && Evolves(l, o.mem.ledger.value)
  }

  lemma ApplyFollowsMemory(l: Ledger, s: Option<Snapshot>, env: ApplyEnv)
    requires LedgerInv(l)
    ensures var ran := ApplySnapshot(l, s, env); WritesFollow(l, ran.effects) && LedgerInv(ran.ledger) && Evolves(l, ran.ledger)
  {
    hide ApplySnapshot, LedgerInv, Evolves, Cleared;
    var ran := ApplySnapshot(l, s, env);
    ApplyEffects(l, s, env);
    forall e | e in ran.effects && e.WriteLedger? ensures LedgerInv(e.ledger) && Evolves(l, e.ledger) {
      var ids :| e.ledger == Cleared(l, ids);
      ClearKeeps(l, ids);
    }
    var ids :| ran.ledger == Cleared(l, ids);
    ClearKeeps(l, ids);
  }

  lemma ConvergeFollowsMemory(mem: Mem, n: Ledger, s: Snapshot, env: CycleEnv)
    requires mem.ledger.Some? && LedgerInv(mem.ledger.value) && LedgerInv(n) && Evolves(mem.ledger.value, n)
    ensures FollowsMemory(mem.ledger.value, Converge(mem, n, s, env))
  {
    hide ApplySnapshot, SaveLedger, Evolves, LedgerInv, Converge, LedgerWrite, FilesBefore, SnapAfter;
    var l, o, ran := mem.ledger.value, Converge(mem, n, s, env), ApplySnapshot(n, Some(s), env.apply);
    ApplyFollowsMemory(n, Some(s), env.apply);
    ConvergeShape(mem, n, s, env);
    ConvergeLedgers(mem, n, s, env);
    FilesWrite(n, s, env);
    Itself(l);
    Transitive(l, n, ran.ledger);
    forall e | e in o.effects && e.WriteLedger? ensures LedgerInv(e.ledger) && Evolves(l, e.ledger) {
      if e.ledger != n {
        Transitive(l, n, e.ledger);
      }
    }
  }

  lemma FilesWrite(n: Ledger, s: Snapshot, env: CycleEnv)
    ensures forall e :: e in FilesBefore(n, s, env) && e.WriteLedger? ==> e.ledger == n
    ensures forall e :: e in LedgerWrite(n, env) && e.WriteLedger? ==> e.ledger == n
    ensures forall e :: e in SnapAfter(n, s, env) ==> !e.WriteLedger?
  {
    hide SaveLedger;
  }

  lemma ConvergeLedgers(mem: Mem, n: Ledger, s: Snapshot, env: CycleEnv)
    requires mem.ledger.Some?
    ensures Converge(mem, n, s, env).mem.ledger in
      [mem.ledger, Some(n), Some(ApplySnapshot(n, Some(s), env.apply).ledger)]
  {
    hide ApplySnapshot, SaveLedger;
  }

  lemma CycleFollowsMemory(mem: Mem, flows: set<Flow>, env: CycleEnv, lim: Limits)
    requires Healthy(mem) && !mem.ledgerLost && LedgerInv(mem.ledger.value)
    ensures FollowsMemory(mem.ledger.value, Cycle(mem, flows, env, lim))
  {
    hide ApplySnapshot, Received, Converge, ZeroAll, LedgerInv, Evolves, Leads;
    var l := mem.ledger.value;
    Itself(l);
    ApplyFollowsMemory(l, None, env.apply);
    ApplyFollowsMemory(l, mem.lastApplied, env.apply);
    if env.sync.Body? {
      var n := ReceivedCases(mem, env.sync.snap, flows, env, lim);
      if n.Some? {
        NextFollows(l, env.sync.snap, lim, n.value);
        ConvergeFollowsMemory(mem, n.value, env.sync.snap, env);
      }
    }
  }

  lemma BootWrites(w: World, env: BootEnv, setup: Setup)
    requires FilesInv(w, setup.lim)
    ensures w.ledgerFile.StoredLedger? ==> WritesFollow(w.ledgerFile.ledger, Boot(w, env, setup).effects)
    ensures !w.ledgerFile.StoredLedger? ==>
      forall e :: e in Boot(w, env, setup).effects && e.WriteLedger? ==> LedgerInv(e.ledger)
  {
    LoadedLedger(w, env, setup);
    LoadEffects(w, env, setup);
    BootEffects(w, env, setup);
    hide FilesInv, Boot, LoadLedgerFile, LoadLedger, LoadPersisted, ApplySnapshot, LedgerInv, Evolves, LedgerAvailable;
    var load := LoadPersisted(w.snapFile, env, setup);
    var first, held := LoadLedgerFile(w, env, setup), LoadLedger(w, Usage(load), env, setup);
    var o := Boot(w, env, setup);
    forall e | e in o.effects && e.WriteLedger?
      ensures LedgerInv(e.ledger) && (w.ledgerFile.StoredLedger? ==> Evolves(w.ledgerFile.ledger, e.ledger))
    {
      if e !in first.effects {
        var l := first.ledger;
        HeldFollows(w, env, setup);
        ApplyFollowsMemory(held.ledger, Usage(load), env.apply);
        Transitive(l, held.ledger, e.ledger);
      }
    }
  }

  lemma BootEffects(w: World, env: BootEnv, setup: Setup)
    ensures var load := LoadPersisted(w.snapFile, env, setup);
      var held := LoadLedger(w, Usage(load), env, setup);
      forall e :: e in Boot(w, env, setup).effects ==>
        || e in LoadLedgerFile(w, env, setup).effects || e.InstallQuarantine? || e.RemoveSnap?
        || (held.Held? && e in ApplySnapshot(held.ledger, Usage(load), env.apply).effects)
    ensures var load := LoadPersisted(w.snapFile, env, setup);
      LoadLedger(w, Usage(load), env, setup).Held? ==> LoadLedgerFile(w, env, setup).Held?
  {
    hide LoadLedgerFile, LoadPersisted, ApplySnapshot, Prepare;
  }

  lemma HeldFollows(w: World, env: BootEnv, setup: Setup)
    requires FilesInv(w, setup.lim)
    ensures var load := LoadPersisted(w.snapFile, env, setup);
      var first, held := LoadLedgerFile(w, env, setup), LoadLedger(w, Usage(load), env, setup);
      held.Held? ==> first.Held? && LedgerInv(first.ledger) && LedgerInv(held.ledger) && Evolves(first.ledger, held.ledger)
  {
    LoadedLedger(w, env, setup);
    hide FilesInv, LoadLedgerFile, LoadPersisted, Prepared, Ledgers.Verdict, Valid, LedgerInv, Evolves, LedgerAvailable;
    var load := LoadPersisted(w.snapFile, env, setup);
    var first, held := LoadLedgerFile(w, env, setup), LoadLedger(w, Usage(load), env, setup);
    if held.Held? {
      Itself(first.ledger);
      HeldNext(first.ledger, load, held.ledger, setup.lim);
    }
  }

  lemma LoadEffects(w: World, env: BootEnv, setup: Setup)
    requires FilesInv(w, setup.lim)
    ensures var load := LoadLedgerFile(w, env, setup);
      && (w.ledgerFile.StoredLedger? ==> load.effects == [])
      && forall e :: e in load.effects ==> e.WriteLedger? && LedgerInv(e.ledger)
  {
    hide ProvablyLegacy, Valid;
  }

  lemma LostWrites(mem: Mem, flows: set<Flow>, env: CycleEnv, lim: Limits)
    requires mem.ledgerLost
    ensures forall e :: e in Cycle(mem, flows, env, lim).effects ==> !e.WriteLedger?
    ensures Cycle(mem, flows, env, lim).mem == mem
  {
  }

  lemma FilesAreOk(w: World, lim: Limits)
    requires FilesInv(w, lim)
    ensures FileOk(w.ledgerFile)
  {
    hide LedgerInv, Fits, Valid;
  }
}
