/**
 What lies behind a cleared entry, over every run: an earlier event that installed its
 fence, verified the table that was read back, deleted every connection of it, and then
 stored the ledger that says so.
 */
module AgentEvidence {
  import opened Values
  import opened Snapshots
  import opened Ledgers
  import opened LedgerProofs
  import opened Conntrack
  import opened AgentModel
  import opened AgentSafety
  import opened AgentSteps
  import opened AgentTraffic
  import opened AgentRuns
  import opened AgentFiles
  import opened AgentBoot
  import opened AgentLifecycle

  /** These effects fenced the retirement, under a table that was read back and conforms, then deleted its connections, then
      stored it as cleared. */
  ghost predicate Evidence(es: seq<Effect>, env: ApplyEnv, r: Retirement) {
    exists i, j, k :: 0 <= i < j < k < |es|
      && es[i].Install? && r in es[i].fences && env.install.Done? && Verified(env.readback, es[i].rules, es[i].fences)
      && es[j] == DeleteFlows(r, None)
      && es[k].WriteLedger? && r in ClearedOnes(es[k].ledger)
  }

  lemma EvidenceWithin(a: seq<Effect>, es: seq<Effect>, b: seq<Effect>, env: ApplyEnv, r: Retirement)
    requires Evidence(es, env, r)
    ensures Evidence(a + es + b, env, r)
  {
    hide Verified, ClearedOnes;
    var i, j, k :| 0 <= i < j < k < |es|
      && es[i].Install? && r in es[i].fences && env.install.Done? && Verified(env.readback, es[i].rules, es[i].fences)
      && es[j] == DeleteFlows(r, None)
      && es[k].WriteLedger? && r in ClearedOnes(es[k].ledger);
    var all, n := a + es + b, |a|;
    assert all[n + i] == es[i] && all[n + j] == es[j] && all[n + k] == es[k];
  }

  /** Whatever is stored as cleared was known to be cleared, or the effects up to there are evidence of it. */
  ghost predicate Backed(known: set<Retirement>, es: seq<Effect>, env: ApplyEnv) {
    forall k, r :: 0 <= k < |es| && es[k].WriteLedger? && r in ClearedOnes(es[k].ledger) ==> r in known || Evidence(es[..k + 1], env, r)
  }

  lemma KnownFirst(known: set<Retirement>, a: seq<Effect>, b: seq<Effect>, env: ApplyEnv)
    requires (forall e :: e in a && e.WriteLedger? ==> ClearedOnes(e.ledger) <= known) && Backed(known, b, env)
    ensures Backed(known, a + b, env)
  {
    hide Evidence, ClearedOnes;
    var es := a + b;
    forall k, r | 0 <= k < |es| && es[k].WriteLedger? && r in ClearedOnes(es[k].ledger) && r !in known ensures Evidence(es[..k + 1], env, r) {
      if k >= |a| {
        var m := k - |a|;
        assert es[k] == b[m];
        assert Evidence(b[..m + 1], env, r);
        EvidenceWithin(a, b[..m + 1], [], env, r);
        assert es[..k + 1] == a + b[..m + 1] + [];
      }
    }
  }

  lemma NothingAfter(known: set<Retirement>, a: seq<Effect>, b: seq<Effect>, env: ApplyEnv)
    requires Backed(known, a, env) && forall e :: e in b ==> !e.WriteLedger?
    ensures Backed(known, a + b, env)
  {
    hide Evidence, ClearedOnes;
    var es := a + b;
    forall k, r | 0 <= k < |es| && es[k].WriteLedger? && r in ClearedOnes(es[k].ledger) && r !in known ensures Evidence(es[..k + 1], env, r) {
      if k < |a| {
        assert es[k] == a[k] && es[..k + 1] == a[..k + 1];
      }
    }
  }

  // ---- Apply ----

  lemma NewlyCleared(l: Ledger, calls: seq<ClearCall>, r: Retirement)
    requires LedgerInv(l) && r !in ClearedOnes(l) && r in ClearedOnes(Cleared(l, ClearAll(l.entries, calls).2))
    ensures r in Retirements(l) && DeleteFlows(r, None) in ClearAll(l.entries, calls).1
  {
    hide LedgerInv, Cleared, ClearAll;
    var ids := ClearAll(l.entries, calls).2;
    var e :| e in Cleared(l, ids).entries && e.cleared && e.retirement == r;
    ClearedFacts(l, ids, e);
    var o :| o in l.entries && o.retirement == e.retirement && e == ClearedEntry(o, ids);
    assert o.cleared ==> r in ClearedOnes(l);
    ClearAllDeletes(l.entries, calls, r.retirementId);
    var d :| d in l.entries && !d.cleared && d.retirement.retirementId == r.retirementId && DeleteFlows(d.retirement, None) in ClearAll(l.entries, calls).1;
    UniqueById(l, d, o);
    var i :| 0 <= i < |l.entries| && l.entries[i] == o;
    assert Retirements(l)[i] == r;
  }

  /** The shape of an apply that stores anything. */
  lemma StoringApply(l: Ledger, s: Option<Snapshot>, env: ApplyEnv, e: Effect)
    requires e in ApplySnapshot(l, s, env).effects && e.WriteLedger?
    ensures var ran := ApplySnapshot(l, s, env);
      var (cleared, deletions, ids) := ClearAll(l.entries, env.clears);
      && env.install.Done? && Verified(env.readback, PlanOf(s), Retirements(l))
      && e.ledger == Cleared(l, ids) && ran.effects == [Install(PlanOf(s), Retirements(l))] + deletions + [e]
  {
    ClearAllOnlyDeletes(l.entries, env.clears);
    hide PlanOf, Retirements, Cleared, ValidLedger, ClearAll, Verified;
    var (cleared, deletions, ids) := ClearAll(l.entries, env.clears);
    var install := Try(env.install, Install(PlanOf(s), Retirements(l)));
    assert forall x :: x in install + deletions ==> !x.WriteLedger?;
  }

  lemma ApplyEvidence(l: Ledger, s: Option<Snapshot>, env: ApplyEnv, e: Effect, r: Retirement)
    requires LedgerInv(l) && e in ApplySnapshot(l, s, env).effects && e.WriteLedger? && r in ClearedOnes(e.ledger) && r !in ClearedOnes(l)
    ensures Evidence(ApplySnapshot(l, s, env).effects, env, r)
  {
    hide LedgerInv, ApplySnapshot, ClearAll, Cleared, ClearedOnes, Verified, PlanOf, Retirements;
    StoringApply(l, s, env, e);
    NewlyCleared(l, env.clears, r);
    var es, deletions := ApplySnapshot(l, s, env).effects, ClearAll(l.entries, env.clears).1;
    var j :| 0 <= j < |deletions| && deletions[j] == DeleteFlows(r, None);
    assert es[0].Install? && es[j + 1] == deletions[j] && es[|deletions| + 1] == e;
    assert 0 <= 0 < j + 1 < |deletions| + 1 < |es|;
  }

  lemma ApplyBacked(known: set<Retirement>, l: Ledger, s: Option<Snapshot>, env: ApplyEnv)
    requires LedgerInv(l) && ClearedOnes(l) <= known
    ensures Backed(known, ApplySnapshot(l, s, env).effects, env)
    ensures forall r :: r in ClearedOnes(ApplySnapshot(l, s, env).ledger) ==> r in known || Evidence(ApplySnapshot(l, s, env).effects, env, r)
  {
    var ran := ApplySnapshot(l, s, env);
    hide LedgerInv, ApplySnapshot, ClearedOnes, Evidence;
    var es := ran.effects;
    forall k, r | 0 <= k < |es| && es[k].WriteLedger? && r in ClearedOnes(es[k].ledger) && r !in known ensures Evidence(es[..k + 1], env, r) {
      StoringApply(l, s, env, es[k]);
      ApplyEvidence(l, s, env, es[k], r);
      LastIsOnly(l, s, env, k);
      assert es[..k + 1] == es;
    }
    forall r | r in ClearedOnes(ran.ledger) && r !in known ensures Evidence(es, env, r) {
      ClearedIsStored(l, s, env);
      ApplyEvidence(l, s, env, WriteLedger(ran.ledger), r);
    }
  }

  lemma LastIsOnly(l: Ledger, s: Option<Snapshot>, env: ApplyEnv, k: nat)
    requires k < |ApplySnapshot(l, s, env).effects| && ApplySnapshot(l, s, env).effects[k].WriteLedger?
    ensures k == |ApplySnapshot(l, s, env).effects| - 1
  {
    ClearAllOnlyDeletes(l.entries, env.clears);
    hide ApplySnapshot, ClearAll, Cleared, PlanOf, Retirements, Verified;
    var es, deletions := ApplySnapshot(l, s, env).effects, ClearAll(l.entries, env.clears).1;
    StoringApply(l, s, env, es[k]);
    assert forall m :: 0 <= m < |deletions| ==> es[m + 1] == deletions[m] && deletions[m] in deletions;
    assert es[0].Install?;
  }

  lemma ClearedIsStored(l: Ledger, s: Option<Snapshot>, env: ApplyEnv)
    ensures var ran := ApplySnapshot(l, s, env); ran.ledger == l || WriteLedger(ran.ledger) in ran.effects
  {
    hide PlanOf, Retirements, Cleared, ValidLedger, ClearAll, Verified;
  }

  // ---- Steps ----

  /** Everything a step stores or keeps as cleared was known, or the step is evidence of it. */
  ghost predicate StepBacked(known: set<Retirement>, o: Outcome, env: ApplyEnv) {
    && Backed(known, o.effects, env)
    && (o.mem.ledger.Some? ==> forall r :: r in ClearedOnes(o.mem.ledger.value) ==> r in known || Evidence(o.effects, env, r))
  }

  lemma NextKnows(l: Ledger, s: Snapshot, lim: Limits, n: Ledger)
    requires LedgerInv(l) && Leads(l, s, lim, n)
    ensures LedgerInv(n) && ClearedOnes(n) <= ClearedOnes(l)
  {
    PrepareKeeps(l, s, lim, n);
    if s.retirements.Some? {
      assert ManagedStep(l, s, lim, n);
      hide LedgerInv, Leads, ManagedStep;
      forall r | r in ClearedOnes(n) ensures r in ClearedOnes(l) {
        var e :| e in n.entries && e.cleared && e.retirement == r;
        NewEntryOrigin(l, s, lim, n, e);
      }
    }
  }

  lemma NoEffectsBacked(known: set<Retirement>, env: ApplyEnv)
    ensures Backed(known, [], env)
  {
  }

  lemma WritesKnown(known: set<Retirement>, es: seq<Effect>, env: ApplyEnv)
    requires forall e :: e in es && e.WriteLedger? ==> ClearedOnes(e.ledger) <= known
    ensures Backed(known, es, env)
  {
    hide Backed, ClearedOnes;
    NoEffectsBacked(known, env);
    KnownFirst(known, es, [], env);
    assert es + [] == es;
  }

  lemma ConvergeBacked(mem: Mem, n: Ledger, s: Snapshot, env: CycleEnv)
    requires mem.ledger.Some? && LedgerInv(n) && ClearedOnes(n) <= ClearedOnes(mem.ledger.value)
    ensures StepBacked(ClearedOnes(mem.ledger.value), Converge(mem, n, s, env), env.apply)
  {
    var known, o, ran := ClearedOnes(mem.ledger.value), Converge(mem, n, s, env), ApplySnapshot(n, Some(s), env.apply);
    FilesWriteKnown(known, n, s, env);
    ConvergeShape(mem, n, s, env);
    ConvergeKeeps(mem, n, s, env);
    hide ApplySnapshot, LedgerInv, ClearedOnes, Backed, Evidence, Converge, LedgerWrite, FilesBefore, SnapAfter;
    ApplyBacked(known, n, Some(s), env.apply);
    var before, after := FilesBefore(n, s, env), SnapAfter(n, s, env);
    WritesKnown(known, LedgerWrite(n, env), env.apply);
    WritesKnown(known, before, env.apply);
    KnownFirst(known, before, ran.effects, env.apply);
    NothingAfter(known, before + ran.effects, after, env.apply);
    if o.mem.ledger == Some(ran.ledger) {
      forall r | r in ClearedOnes(ran.ledger) && r !in known ensures Evidence(o.effects, env.apply, r) {
        EvidenceWithin(before, ran.effects, [], env.apply, r);
        EvidenceWithin(before, ran.effects, after, env.apply, r);
        assert before + ran.effects + [] == before + ran.effects;
      }
    }
  }

  lemma FilesWriteKnown(known: set<Retirement>, n: Ledger, s: Snapshot, env: CycleEnv)
    requires ClearedOnes(n) <= known
    ensures forall e :: e in LedgerWrite(n, env) && e.WriteLedger? ==> ClearedOnes(e.ledger) <= known
    ensures forall e :: e in FilesBefore(n, s, env) && e.WriteLedger? ==> ClearedOnes(e.ledger) <= known
    ensures forall e :: e in SnapAfter(n, s, env) ==> !e.WriteLedger?
  {
    hide SaveLedger, ClearedOnes;
  }

  /** The ledger in memory afterwards, and the effects that led to it. */
  lemma ConvergeKeeps(mem: Mem, n: Ledger, s: Snapshot, env: CycleEnv)
    requires mem.ledger.Some?
    ensures var o, ran := Converge(mem, n, s, env), ApplySnapshot(n, Some(s), env.apply);
      || o.mem.ledger == mem.ledger || o.mem.ledger == Some(n)
      || (o.mem.ledger == Some(ran.ledger) &&
            (o.effects == FilesBefore(n, s, env) + ran.effects || o.effects == FilesBefore(n, s, env) + ran.effects + SnapAfter(n, s, env)))
  {
    hide ApplySnapshot, SaveLedger;
  }

  lemma StandingBacked(mem: Mem, o: Outcome, env: ApplyEnv)
    requires mem.ledger.Some? && o.mem.ledger == mem.ledger && o.effects == []
    ensures StepBacked(ClearedOnes(mem.ledger.value), o, env)
  {
    hide ClearedOnes, Evidence;
  }

  lemma ReassertBacked(mem: Mem, env: CycleEnv)
    requires mem.ledger.Some? && LedgerInv(mem.ledger.value)
    ensures StepBacked(ClearedOnes(mem.ledger.value), EnsureAsserted(mem, env), env.apply)
  {
    hide ApplySnapshot, LedgerInv, ClearedOnes, Backed, Evidence;
    var l, o := mem.ledger.value, EnsureAsserted(mem, env);
    NoEffectsBacked(ClearedOnes(l), env.apply);
    ApplyBacked(ClearedOnes(l), l, None, env.apply);
    ApplyBacked(ClearedOnes(l), l, mem.lastApplied, env.apply);
  }

  lemma CycleBacked(mem: Mem, flows: set<Flow>, env: CycleEnv, lim: Limits)
    requires Healthy(mem) && !mem.ledgerLost && LedgerInv(mem.ledger.value)
    ensures StepBacked(ClearedOnes(mem.ledger.value), Cycle(mem, flows, env, lim), env.apply)
  {
    hide EnsureAsserted, Received, Converge, ZeroAll, LedgerInv, Leads, ClearedOnes, StepBacked;
    var l, o := mem.ledger.value, Cycle(mem, flows, env, lim);
    match env.sync
    case SyncFailed => StandingBacked(mem, o, env.apply);
    case Garbage => StandingBacked(mem, o, env.apply);
    case Unchanged => ReassertBacked(mem.(hasError := false), env);
    case Body(s) =>
      var n := ReceivedCases(mem, s, flows, env, lim);
      if n.None? {
        StandingBacked(mem, o, env.apply);
      } else {
        NextKnows(l, s, lim, n.value);
        ConvergeBacked(mem, n.value, s, env);
      }
  }

  function KnownOnDisk(w: World): set<Retirement> {
    if w.ledgerFile.StoredLedger? then ClearedOnes(w.ledgerFile.ledger) else {}
  }

  lemma FirstKnows(w: World, env: BootEnv, setup: Setup)
    requires FilesInv(w, setup.lim)
    ensures var load := LoadLedgerFile(w, env, setup);
      && (forall e :: e in load.effects && e.WriteLedger? ==> ClearedOnes(e.ledger) <= KnownOnDisk(w))
      && (load.Held? ==> LedgerInv(load.ledger) && ClearedOnes(load.ledger) <= KnownOnDisk(w))
      && (load.Lost? ==> load.inHand.None?)
  {
    LoadedLedger(w, env, setup);
    hide FilesInv, ProvablyLegacy, ValidLedger, LedgerInv;
  }

  lemma HeldKnows(l: Ledger, load: Loaded, n: Ledger, lim: Limits)
    requires LedgerInv(l)
    requires if load.Usable? then Valid(load.snap, lim) && Accepts(l, load.snap) && n == Prepared(l, load.snap) else n == l
    ensures LedgerInv(n) && ClearedOnes(n) <= ClearedOnes(l)
  {
    hide Valid, Prepared, Ledgers.Verdict, LedgerInv, ClearedOnes;
    if load.Usable? {
      assert Leads(l, load.snap, lim, n);
      NextKnows(l, load.snap, lim, n);
    }
  }

  lemma LostBootBacked(known: set<Retirement>, o: Outcome, env: ApplyEnv)
    requires forall e :: e in o.effects && e.WriteLedger? ==> ClearedOnes(e.ledger) <= known
    requires o.mem.ledger.Some? ==> ClearedOnes(o.mem.ledger.value) <= known
    ensures StepBacked(known, o, env)
  {
    hide ClearedOnes, Backed, Evidence;
    WritesKnown(known, o.effects, env);
  }

  lemma HeldBootBacked(known: set<Retirement>, before: seq<Effect>, l: Ledger, s: Option<Snapshot>, env: ApplyEnv, o: Outcome)
    requires (forall e :: e in before && e.WriteLedger? ==> ClearedOnes(e.ledger) <= known) && LedgerInv(l) && ClearedOnes(l) <= known
    requires var ran := ApplySnapshot(l, s, env); o.effects == before + ran.effects && o.mem.ledger == Some(ran.ledger)
    ensures StepBacked(known, o, env)
  {
    hide ApplySnapshot, LedgerInv, ClearedOnes, Backed, Evidence;
    var ran := ApplySnapshot(l, s, env);
    ApplyBacked(known, l, s, env);
    KnownFirst(known, before, ran.effects, env);
    forall r | r in ClearedOnes(ran.ledger) && r !in known ensures Evidence(o.effects, env, r) {
      EvidenceWithin(before, ran.effects, [], env, r);
      assert before + ran.effects + [] == before + ran.effects;
    }
  }

  lemma BootBacked(w: World, env: BootEnv, setup: Setup)
    requires FilesInv(w, setup.lim)
    ensures StepBacked(KnownOnDisk(w), Boot(w, env, setup), env.apply)
  {
    hide FilesInv, LoadLedgerFile, LoadPersisted, ApplySnapshot, Prepared, Ledgers.Verdict, Valid, LedgerInv, ClearedOnes, StepBacked, KnownOnDisk;
    FirstKnows(w, env, setup);
    var known, load := KnownOnDisk(w), LoadPersisted(w.snapFile, env, setup);
    var first, held := LoadLedgerFile(w, env, setup), LoadLedger(w, Usage(load), env, setup);
    var o := Boot(w, env, setup);
    if held.Lost? {
      LostBootBacked(known, o, env.apply);
    } else {
      HeldKnows(first.ledger, load, held.ledger, setup.lim);
      var removal := if load.Rejected? && env.removed then [RemoveSnap] else [];
      HeldBootBacked(known, first.effects + removal, held.ledger, Usage(load), env.apply, o);
    }
  }

  // ---- Runs ----

  /** The effects an event carried out, and what its apply was answered. */
  ghost function DoneBy(s: Sys, ev: Event, setup: Setup): seq<Effect>
    requires Enabled(s, ev)
  {
    match ev
    case Booting(env, cut) => Reached(Boot(s.world, env, setup), cut)
    case Cycling(env, cut) => Reached(Cycle(s.mem.value, s.world.flows, env, setup.lim), cut)
    case Killed => []
    case Resting => []
  }

  ghost predicate Shows(s: Sys, ev: Event, setup: Setup, r: Retirement)
    requires Enabled(s, ev)
  {
    || (ev.Booting? && Evidence(DoneBy(s, ev, setup), ev.boot.apply, r))
    || (ev.Cycling? && Evidence(DoneBy(s, ev, setup), ev.cycle.apply, r))
  }

  /** Listed as cleared on disk or in memory. */
  ghost predicate Listed(s: Sys, r: Retirement) {
    || r in KnownOnDisk(s.world)
    || (s.mem.Some? && s.mem.value.ledger.Some? && r in ClearedOnes(s.mem.value.ledger.value))
  }

  /** What is on disk after some of the effects was there before or was stored by one of them. */
  lemma {:induction false} StoredBySome(w: World, es: seq<Effect>, r: Retirement)
    requires r in KnownOnDisk(DoAll(w, es)) && r !in KnownOnDisk(w)
    ensures exists k :: 0 <= k < |es| && es[k].WriteLedger? && r in ClearedOnes(es[k].ledger)
    decreases |es|
  {
    hide ClearedOnes;
    if es == [] {
      NothingDone(w);
    } else {
      var init, last := es[..|es| - 1], es[|es| - 1];
      assert es == init + [last];
      DoConcat(w, init, [last]);
      DoOne(DoAll(w, init), last);
      if !(last.WriteLedger? && r in ClearedOnes(last.ledger)) {
        StoredBySome(w, init, r);
        var k :| 0 <= k < |init| && init[k].WriteLedger? && r in ClearedOnes(init[k].ledger);
        assert es[k] == init[k];
      }
    }
  }

  lemma PerformShows(s: Sys, known: set<Retirement>, o: Outcome, env: ApplyEnv, cut: Option<nat>, n: Sys, r: Retirement)
    requires StepBacked(known, o, env) && Performs(s, o, cut, n) && Listed(n, r) && r !in known && r !in KnownOnDisk(s.world)
    ensures Evidence(Reached(o, cut), env, r)
  {
    hide ClearedOnes, Evidence, Interleaved, SealAll, DoAll;
    var es := Reached(o, cut);
    PerformsAlike(s, o, cut, n);
    if r in KnownOnDisk(n.world) {
      StoredBySome(s.world, es, r);
      var k :| 0 <= k < |es| && es[k].WriteLedger? && r in ClearedOnes(es[k].ledger);
      assert es[k] == o.effects[k] && es[..k + 1] == o.effects[..k + 1];
      EvidenceWithin([], es[..k + 1], es[k + 1..], env, r);
      assert [] + es[..k + 1] + es[k + 1..] == es;
    }
  }

  lemma StepShows(s: Sys, ev: Event, n: Sys, setup: Setup, r: Retirement)
    requires GoodFiles(s, setup.lim) && Steps(s, ev, n, setup) && Listed(n, r) && !Listed(s, r)
    ensures Shows(s, ev, setup, r)
  {
    hide Boot, Cycle, Performs, Stampable, FilesInv, LedgerInv, Fits, ClearedOnes, Evidence, StepBacked;
    match ev
    case Booting(env, cut) =>
      BootBacked(s.world, env, setup);
      PerformShows(s, KnownOnDisk(s.world), Boot(s.world, env, setup), env.apply, cut, n, r);
    case Cycling(env, cut) =>
      var mem, o := s.mem.value, Cycle(s.mem.value, s.world.flows, env, setup.lim);
      if mem.ledgerLost {
        var known := if mem.ledger.Some? then ClearedOnes(mem.ledger.value) else {};
        LostBacked(mem, s.world.flows, env, setup.lim);
        PerformShows(s, known, o, env.apply, cut, n, r);
      } else {
        CycleBacked(mem, s.world.flows, env, setup.lim);
        PerformShows(s, ClearedOnes(mem.ledger.value), o, env.apply, cut, n, r);
      }
    case Killed =>
    case Resting =>
  }

  lemma LostBacked(mem: Mem, flows: set<Flow>, env: CycleEnv, lim: Limits)
    requires mem.ledgerLost
    ensures StepBacked(if mem.ledger.Some? then ClearedOnes(mem.ledger.value) else {}, Cycle(mem, flows, env, lim), env.apply)
  {
    hide ClearedOnes, Evidence;
  }

  /** Over every run, whatever the platform answers: what a ledger on disk or in memory lists as cleared, and so every receipt, has an
      earlier event behind it that fenced it under a verified table, deleted its connections, and stored it. */
  lemma {:induction false} ClearedHasEvidence(t: seq<Sys>, evs: seq<Event>, setup: Setup, j: nat, r: Retirement)
    requires Run(t, evs, setup) && j < |t| && Listed(t[j], r)
    ensures |t| == |evs| + 1 && exists i :: 0 <= i < j && Enabled(t[i], evs[i]) && Shows(t[i], evs[i], setup, r)
    decreases j
  {
    if j == 0 {
      hide Steps, Valid;
    } else {
      hide *;
      RunLength(t, evs, setup);
      StepOfRun(t, evs, setup, j - 1);
      EnabledStep(t[j - 1], evs[j - 1], t[j], setup);
      if Listed(t[j - 1], r) {
        ClearedHasEvidence(t, evs, setup, j - 1, r);
      } else {
        EveryStateHasGoodFiles(t, evs, setup, j - 1);
        StepShows(t[j - 1], evs[j - 1], t[j], setup, r);
      }
    }
  }

  lemma EnabledStep(s: Sys, ev: Event, n: Sys, setup: Setup)
    requires Steps(s, ev, n, setup)
    ensures Enabled(s, ev)
  {
    hide Performs, Drifts;
  }
}
