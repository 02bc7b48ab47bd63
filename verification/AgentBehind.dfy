/**
 Memory behind disk, the state that a save leaves which took effect but reported failure:
 in every state of every run, what can go wrong with the stored ledger next, and exactly when.
 */
module AgentBehind {
  import opened Values
  import opened Snapshots
  import opened Ledgers
  import opened LedgerProofs
  import opened Conntrack
  import opened AgentModel
  import opened AgentSafety
  import opened AgentSteps
  import opened AgentTraffic
  import opened AgentFiles
  import opened AgentBoot
  import opened AgentLifecycle
  import opened AgentRuns
  import opened AgentDurability
  import opened AgentMemory
  import opened AgentLevel
  import SP = SourcePolicy
  import Nft

  // ---- What the platform can send again ----

  /** The platform sends again what the ledger in memory stands for, the table is missing, and the files can be stored. */
  function Resent(s: Snapshot): CycleEnv {
    var inspection := Inspection([], Nft.Guards(0, 0, 0, 0, 0), None);
    CycleEnv(Body(s), [], Missing, Done, Done, 0, ApplyEnv(Refused, inspection, [], Refused), Refused)
  }

  lemma {:induction false} NothingToCheck(es: seq<Entry>, n: Ledger, flows: set<Flow>)
    requires forall e :: e in es ==> Known(n.entries, e.retirement.retirementId)
    ensures ZeroAll(es, n, flows, [])
    decreases |es|
  {
    hide Known;
    if es != [] {
      assert es[0] in es && forall e :: e in es[1..] ==> e in es;
      NothingToCheck(es[1..], n, flows);
    }
  }

  /** A snapshot the ledger in memory accepts without compacting anything, at this generation. */
  ghost predicate Offered(l: Ledger, s: Snapshot, lim: Limits, n: Ledger, generation: int) {
    && Leads(l, s, lim, n) && n.armed && ValidLedger(n) && n.managedGenerationHighWater == generation
    && forall e :: e in l.entries ==> Known(n.entries, e.retirement.retirementId)
  }

  /** The lowest generation that the ledger in memory still accepts. */
  function Floor(l: Ledger): int {
    if l.armed then l.managedGenerationHighWater else 1
  }

  lemma SettledOffered(l: Ledger, s: Snapshot, lim: Limits)
    requires LedgerInv(l) && Valid(s, lim) && Settled(l, s)
    ensures Offered(l, s, lim, Prepared(l, s), l.managedGenerationHighWater)
  {
    hide DesiredHash, EpochOf, Prepared, Ledgers.Verdict, Valid, LedgerInv, ValidLedger;
    SettledPrepare(l, s, lim);
    var n := Prepared(l, s);
    assert Leads(l, s, lim, n);
    forall e | e in l.entries ensures Known(n.entries, e.retirement.retirementId) {
      assert e in n.entries;
    }
    PrepareKeeps(l, s, lim, n);
    InvValid(n);
  }

  /** A managed snapshot without mappings. */
  function Bare(generation: nat): Snapshot {
    Snapshot(generation, [], Some([]), Some(0), 0)
  }

  /** A ledger that was never armed accepts it at any positive generation. */
  lemma BareOffered(l: Ledger, generation: nat, lim: Limits)
    requires LedgerInv(l) && !l.armed && generation > 0
    ensures Offered(l, Bare(generation), lim, Prepared(l, Bare(generation)), generation)
    ensures Prepared(l, Bare(generation)) == l.(armed := true, managedGenerationHighWater := generation, desiredHash := DesiredHash(Bare(generation)))
  {
    hide CanonicalForm, IsUUID;
    var s := Bare(generation);
    assert Kept(l.entries, 0) == [] && Absorb([], []) == [] && Epochs(s.mappings) == [];
    assert Prepared(l, s) == l.(armed := true, managedGenerationHighWater := generation, desiredHash := DesiredHash(s));
  }

  lemma OfferedConverges(mem: Mem, w: World, s: Snapshot, n: Ledger, generation: int, lim: Limits)
    requires mem.ledger.Some? && !mem.ledgerLost && Offered(mem.ledger.value, s, lim, n, generation)
    ensures Cycle(mem, w.flows, Resent(s), lim) == Converge(mem, n, s, Resent(s))
  {
    hide Converge, ZeroAll, Prepared, Ledgers.Verdict, Valid, ValidLedger, Received, Known;
    NothingToCheck(mem.ledger.value.entries, n, w.flows);
    ReceivedGoes(mem, s, w.flows, Resent(s), lim);
  }

  lemma ReceivedGoes(mem: Mem, s: Snapshot, flows: set<Flow>, env: CycleEnv, lim: Limits)
    requires mem.ledger.Some? && Valid(s, lim) && Accepts(mem.ledger.value, s) && !env.present.Present?
    requires ZeroAll(mem.ledger.value.entries, Prepared(mem.ledger.value, s), flows, env.zeros)
    ensures Received(mem, s, flows, env, lim) == Converge(mem, Prepared(mem.ledger.value, s), s, env)
  {
    hide Converge, ZeroAll, Prepared, Ledgers.Verdict, Valid;
  }

  /** The files after a cycle that stores this ledger and cannot reach the kernel. */
  lemma StoredByCycle(mem: Mem, w: World, s: Snapshot, n: Ledger, env: CycleEnv)
    requires mem.ledger.Some? && n.armed && ValidLedger(n)
    requires env.saveLedger.Done? && env.saveSnap.Done? && env.apply.install.Refused?
    ensures DoAll(w, Converge(mem, n, s, env).effects).ledgerFile == StoredLedger(n)
  {
    ConvergeEffects(mem, n, s, env);
    RefusedDoesNothing(n, s, env.apply);
    hide ApplySnapshot, Converge, ValidLedger;
    var a, b := WriteLedger(n), WriteSnap(AgentModel.Stamped(s, env.now));
    assert [a, b] + [] == [a] + [b];
    DoConcat(w, [a], [b]);
    DoOne(w, a);
    DoOne(Do(w, a), b);
  }

  lemma RefusedDoesNothing(n: Ledger, s: Snapshot, env: ApplyEnv)
    requires env.install.Refused?
    ensures ApplySnapshot(n, Some(s), env).effects == []
  {
    hide PlanOf, Verified, Retirements;
  }

  /** A whole cycle that nothing interrupts is a step. */
  lemma Undisturbedly(s: Sys, env: CycleEnv, setup: Setup) returns (n: Sys)
    requires s.mem.Some? && Healthy(s.mem.value)
    ensures Steps(s, Cycling(env, None), n, setup)
    ensures n.world == DoAll(s.world, Cycle(s.mem.value, s.world.flows, env, setup.lim).effects)
  {
    hide Cycle, DoAll, SealAll, Interleaved;
    var o := Cycle(s.mem.value, s.world.flows, env, setup.lim);
    n := Sys(Some(o.mem), DoAll(s.world, o.effects), SealAll(s.sealed, o.effects));
    Undisturbed(s.world, o.effects);
  }

  lemma OfferedStored(s: Sys, snap: Snapshot, n: Ledger, generation: int, setup: Setup) returns (after: Sys)
    requires Running(s) && Offered(s.mem.value.ledger.value, snap, setup.lim, n, generation)
    ensures Steps(s, Cycling(Resent(snap), None), after, setup) && after.world.ledgerFile == StoredLedger(n)
  {
    hide Cycle, Converge, Steps, DoAll, Leads, ValidLedger, Known;
    var mem, env := s.mem.value, Resent(snap);
    OfferedConverges(mem, s.world, snap, n, generation, setup.lim);
    StoredByCycle(mem, s.world, snap, n, env);
    after := Undisturbedly(s, env, setup);
  }

  lemma SettledMarked(l: Ledger, s: Snapshot)
    requires Settled(l, s)
    ensures Readable(s) && Marked(s.mappings)
  {
    hide DesiredHash, EpochOf;
  }

  /** The ledger the running process can be made to store: its own again, or a first managed one. */
  ghost predicate Comes(l: Ledger, g: Ledger) {
    LedgerInv(g) && g.managedGenerationHighWater == Floor(l) && if l.armed then Similar(l, g) else Bottom(g)
  }

  /** From every state in which the process holds its ledger, some cycle stores that ledger, whatever disk holds. */
  lemma Comeback(s: Sys, setup: Setup) returns (ev: Event, n: Sys)
    requires GoodFiles(s, setup.lim) && Grounded(s, setup.lim) && Running(s)
    ensures Steps(s, ev, n, setup) && n.world.ledgerFile.StoredLedger? && Comes(s.mem.value.ledger.value, n.world.ledgerFile.ledger)
  {
    hide FilesInv, Fits, Steps, LedgerInv, Offered, Settled, Valid, Prepared, Similar, Ledgers.Verdict, Resent;
    var l := s.mem.value.ledger.value;
    if l.armed {
      var snap :| Valid(snap, setup.lim) && Settled(l, snap);
      SettledMarked(l, snap);
      SettledOffered(l, snap, setup.lim);
      SettledPrepare(l, snap, setup.lim);
      OfferedInv(l, snap, Prepared(l, snap), l.managedGenerationHighWater, setup.lim);
      ev := Cycling(Resent(snap), None);
      n := OfferedStored(s, snap, Prepared(l, snap), l.managedGenerationHighWater, setup);
    } else {
      BareOffered(l, 1, setup.lim);
      BareBottom(l);
      OfferedInv(l, Bare(1), Prepared(l, Bare(1)), 1, setup.lim);
      ev := Cycling(Resent(Bare(1)), None);
      n := OfferedStored(s, Bare(1), Prepared(l, Bare(1)), 1, setup);
    }
  }

  lemma OfferedInv(l: Ledger, s: Snapshot, n: Ledger, generation: int, lim: Limits)
    requires LedgerInv(l) && Offered(l, s, lim, n, generation)
    ensures LedgerInv(n) && n.managedGenerationHighWater == generation
  {
    hide Leads, LedgerInv;
    PrepareKeeps(l, s, lim, n);
  }

  lemma BareBottom(l: Ledger)
    requires LedgerInv(l) && !l.armed
    ensures Bottom(l.(armed := true, managedGenerationHighWater := 1, desiredHash := DesiredHash(Bare(1))))
  {
    hide CanonicalForm;
  }

  // ---- When the stored ledger can step back ----

  /** The event takes the stored ledger back. */
  ghost predicate StepsBack(s: Sys, ev: Event, n: Sys, setup: Setup) {
    Steps(s, ev, n, setup) && !Follows(s.world.ledgerFile, n.world.ledgerFile)
  }

  /** The event lowers a mark of the stored ledger or gives up a binding. */
  ghost predicate Unbinds(s: Sys, ev: Event, n: Sys, setup: Setup) {
    && Steps(s, ev, n, setup) && s.world.ledgerFile.StoredLedger?
    && (n.world.ledgerFile.StoredLedger? ==> !Binds(s.world.ledgerFile.ledger, n.world.ledgerFile.ledger))
  }

  /** The event lowers the generation of the stored ledger. */
  ghost predicate Lowers(s: Sys, ev: Event, n: Sys, setup: Setup) {
    && Steps(s, ev, n, setup) && s.world.ledgerFile.StoredLedger? && n.world.ledgerFile.StoredLedger?
    && n.world.ledgerFile.ledger.managedGenerationHighWater < s.world.ledgerFile.ledger.managedGenerationHighWater
  }

  lemma OnlyBottomComes(l: Ledger, f: Ledger, g: Ledger)
    requires Comes(l, g) && !l.armed && Binds(f, g)
    ensures Bottom(f)
  {
  }

  lemma BackToMemory(l: Ledger, f: Ledger, g: Ledger)
    requires LedgerInv(f) && Comes(l, g) && l.armed
    ensures Evolves(f, g) ==> Evolves(f, l)
    ensures Binds(f, g) ==> Binds(f, l)
  {
    SimilarSymmetric(l, g);
    SimilarEvolves(g, l);
    hide LedgerInv, Binds;
    if Binds(f, g) {
      InvValid(f);
      InvValid(g);
      BindsTransitive(f, g, l);
    }
    if Evolves(f, g) {
      Transitive(f, g, l);
    }
  }

  /** In every state of every run: some event takes the stored ledger back, in whatever way, if and only if memory is behind disk. */
  lemma StoredLedgerCanStepBackIff(t: seq<Sys>, evs: seq<Event>, setup: Setup, i: nat)
    requires Run(t, evs, setup) && i < |t|
    ensures (exists ev, n :: StepsBack(t[i], ev, n, setup)) <==> !Level(t[i])
  {
    hide Run, Steps, Follows, GoodFiles, Grounded, Bottom, Evolves, Comes, LedgerInv;
    EveryStateHasGoodFiles(t, evs, setup, i);
    EveryStateIsGrounded(t, evs, setup, i);
    var s := t[i];
    if ev, n :| StepsBack(s, ev, n, setup) {
      if Level(s) {
        LevelStep(s, ev, n, setup);
      }
    }
    if !Level(s) {
      RunningStored(s, setup.lim);
      var ev, n := Comeback(s, setup);
      var l, f, g := Base(s), s.world.ledgerFile.ledger, n.world.ledgerFile.ledger;
      BaseOk(s, setup.lim);
      if Follows(s.world.ledgerFile, n.world.ledgerFile) {
        FollowsMeans(s.world.ledgerFile, n.world.ledgerFile);
        BackIsLevel(l, f, g);
        assert false;
      }
      assert StepsBack(s, ev, n, setup);
    }
  }

  lemma FollowsMeans(f: LedgerFile, g: LedgerFile)
    requires Follows(f, g) && f.StoredLedger?
    ensures g.StoredLedger? && Evolves(f.ledger, g.ledger) && Binds(f.ledger, g.ledger)
  {
    hide LedgerInv;
  }

  lemma BackIsLevel(l: Ledger, f: Ledger, g: Ledger)
    requires LedgerInv(f) && Comes(l, g) && Binds(f, g)
    ensures if l.armed then Binds(f, l) && (Evolves(f, g) ==> Evolves(f, l)) else Bottom(f)
  {
    hide LedgerInv, Evolves, Binds, Bottom;
    if l.armed {
      BackToMemory(l, f, g);
    } else {
      OnlyBottomComes(l, f, g);
    }
  }

  lemma RunningStored(s: Sys, lim: Limits)
    requires GoodFiles(s, lim) && Running(s)
    ensures s.world.ledgerFile.StoredLedger? && Healthy(s.mem.value)
  {
    hide FilesInv, LedgerInv, Fits;
  }

  /** In every state of every run: some event lowers a mark of the stored ledger or gives up a binding of it if and only if memory is behind
      disk in marks and bindings. */
  lemma StoredBindingsCanStepBackIff(t: seq<Sys>, evs: seq<Event>, setup: Setup, i: nat)
    requires Run(t, evs, setup) && i < |t|
    ensures (exists ev, n :: Unbinds(t[i], ev, n, setup)) <==> !Bound(t[i])
  {
    hide Run, Steps, Follows, GoodFiles, Grounded, Bottom, Binds, Comes, LedgerInv;
    EveryStateHasGoodFiles(t, evs, setup, i);
    EveryStateIsGrounded(t, evs, setup, i);
    var s := t[i];
    if ev, n :| Unbinds(s, ev, n, setup) {
      if Bound(s) {
        BoundStep(s, ev, n, setup);
      }
    }
    if !Bound(s) {
      RunningStored(s, setup.lim);
      var ev, n := Comeback(s, setup);
      var l, f, g := Base(s), s.world.ledgerFile.ledger, n.world.ledgerFile.ledger;
      BaseOk(s, setup.lim);
      if Binds(f, g) {
        BackIsLevel(l, f, g);
        assert false;
      }
      assert Unbinds(s, ev, n, setup);
    }
  }

  /** In every state of every run: some event lowers the stored generation if and only if the process runs and the stored generation is above
      the lowest one that its ledger still accepts. */
  lemma StoredGenerationCanFallIff(t: seq<Sys>, evs: seq<Event>, setup: Setup, i: nat)
    requires Run(t, evs, setup) && i < |t|
    ensures (exists ev, n :: Lowers(t[i], ev, n, setup)) <==>
      Running(t[i]) && t[i].world.ledgerFile.StoredLedger?
      && Floor(t[i].mem.value.ledger.value) < t[i].world.ledgerFile.ledger.managedGenerationHighWater
  {
    hide Run, Steps, GoodFiles, Grounded, Similar, Bottom;
    EveryStateHasGoodFiles(t, evs, setup, i);
    EveryStateIsGrounded(t, evs, setup, i);
    var s := t[i];
    if ev, n :| Lowers(s, ev, n, setup) {
      FallsOnlyBehind(s, ev, n, setup);
    }
    if Running(s) && s.world.ledgerFile.StoredLedger? && Floor(s.mem.value.ledger.value) < s.world.ledgerFile.ledger.managedGenerationHighWater {
      var ev, n := Comeback(s, setup);
      assert Lowers(s, ev, n, setup);
    }
  }

  lemma FallsOnlyBehind(s: Sys, ev: Event, n: Sys, setup: Setup)
    requires GoodFiles(s, setup.lim) && Lowers(s, ev, n, setup)
    ensures Running(s) && Floor(s.mem.value.ledger.value) < s.world.ledgerFile.ledger.managedGenerationHighWater
  {
    hide Steps, GoodFiles, LedgerInv;
    FileAfter(s, ev, n, setup);
    if Running(s) {
      ArmedPositive(n.world.ledgerFile.ledger);
    }
  }

  // ---- In what way memory can be behind ----

  lemma ClearedBinds(l: Ledger, ids: set<string>)
    requires LedgerInv(l)
    ensures Binds(Cleared(l, ids), l)
  {
    ClearKeeps(l, ids);
    var f := Cleared(l, ids);
    hide LedgerInv, Cleared;
    ClearedKeepsActive(l, ids);
    ClearedMarks(l, ids);
    forall b | Holds(l, b) ensures Holds(f, b) {
      if e :| e in l.entries && BindingOf(e) == b {
        ClearedHolds(l, ids, e);
      }
    }
    forall o, e | o in f.entries && e in l.entries && o.retirement.mappingId == e.retirement.mappingId ensures o.retirement == e.retirement {
      ClearedFacts(l, ids, o);
      InvValid(l);
      EntryFacts(l, e);
    }
  }

  lemma ClearedMarks(l: Ledger, ids: set<string>)
    ensures var f := Cleared(l, ids);
      f == l.(entries := f.entries)
  {
  }

  lemma ClearedHolds(l: Ledger, ids: set<string>, e: Entry)
    requires e in l.entries
    ensures Holds(Cleared(l, ids), BindingOf(e))
  {
    var i :| 0 <= i < |l.entries| && l.entries[i] == e;
    assert Cleared(l, ids).entries[i] in Cleared(l, ids).entries;
    assert BindingOf(Cleared(l, ids).entries[i]) == BindingOf(e);
  }

  lemma NextBinds(l: Ledger, s: Snapshot, f: Ledger, lim: Limits)
    requires ManagedStep(l, s, lim, f) && l.armed && Stands(l, lim)
    requires f.managedGenerationHighWater <= l.managedGenerationHighWater
    ensures Binds(f, l)
  {
    hide *;
    StepParts(l, s, lim, f);
    SameGeneration(l, s, f, lim);
    PrepareKeeps(l, s, lim, f);
    var t := StandsFor(l, lim);
    SameGenerationSameContent(l, s, lim, f, t);
    SimilarSymmetric(l, f);
    SimilarEvolves(f, l);
    EvolvesBinds(f, l);
  }

  lemma SameGeneration(l: Ledger, s: Snapshot, f: Ledger, lim: Limits)
    requires ManagedStep(l, s, lim, f) && f.managedGenerationHighWater <= l.managedGenerationHighWater
    ensures s.generation == l.managedGenerationHighWater
  {
    hide ValidLedger, Valid, RetirementsAccepted, MappingsAccepted, Kept, Absorb, Surviving, MaxId, MaxMark, MaxGeneration, DesiredHash;
    StepFacts(l, s, lim, f);
    StepMarks(l, s, lim, f);
  }

  lemma StandsFor(l: Ledger, lim: Limits) returns (s: Snapshot)
    requires Stands(l, lim) && l.armed
    ensures Valid(s, lim) && Settled(l, s)
  {
    hide Valid, Settled;
    s :| Valid(s, lim) && Settled(l, s);
  }

  lemma EvolvesBinds(l: Ledger, n: Ledger)
    requires Evolves(l, n)
    ensures Binds(l, n)
  {
    hide Binds;
  }

  /** An armed memory is behind disk in marks or bindings exactly when it is behind in the generation; otherwise at most in what is cleared. */
  lemma BoundIffGeneration(t: seq<Sys>, evs: seq<Event>, setup: Setup, i: nat)
    requires Run(t, evs, setup) && i < |t| && Running(t[i]) && t[i].mem.value.ledger.value.armed
    ensures t[i].world.ledgerFile.StoredLedger?
    ensures Bound(t[i]) <==> t[i].world.ledgerFile.ledger.managedGenerationHighWater <= t[i].mem.value.ledger.value.managedGenerationHighWater
  {
    hide Run, GoodFiles, LedgerInv, Cleared, Leads, Stands, Similar;
    EveryStateHasGoodFiles(t, evs, setup, i);
    EveryStateIsGrounded(t, evs, setup, i);
    RunningStored(t[i], setup.lim);
    BaseOk(t[i], setup.lim);
    var l, f := Base(t[i]), t[i].world.ledgerFile.ledger;
    if f.managedGenerationHighWater <= l.managedGenerationHighWater {
      hide Binds;
      if Similar(l, f) {
        SimilarSymmetric(l, f);
        SimilarEvolves(f, l);
      } else if ids :| f == Cleared(l, ids) {
        ClearedBinds(l, ids);
      } else {
        var s :| Leads(l, s, setup.lim, f) && s.retirements.Some?;
        assert ManagedStep(l, s, setup.lim, f);
        NextBinds(l, s, f, setup.lim);
      }
    }
  }

  // ---- Reuse of ids and marks ----

  /** Two ledgers bind one id or one mark differently. */
  ghost predicate Rebinds(f: Ledger, n: Ledger) {
    exists b, c :: Holds(f, b) && Holds(n, c) && EpochsClash(b, c) && b != c
  }

  /** Without a new id on disk nothing can be bound anew. */
  lemma SameIdsNeverRebind(l: Ledger, f: Ledger, n: Ledger)
    requires ValidLedger(l) && ValidLedger(f) && Evolves(l, f) && Evolves(l, n) && f.mappingIdHighWater == l.mappingIdHighWater
    ensures !Rebinds(f, n)
  {
    hide ValidLedger;
    forall b, c | Holds(f, b) && Holds(n, c) && EpochsClash(b, c) ensures b == c {
      BindingsUnique(f, b, b);
      assert Holds(l, b);
      BindingForever(l, n, b, c);
    }
  }

  function OtherPort(p: u16): u16 {
    if p == 1 then 2 else 1
  }

  /** The same mapping with another target port. */
  function Moved(m: Mapping): Mapping {
    m.(targetPort := OtherPort(m.targetPort))
  }

  /** The next generation of a snapshot, with one mapping moved. */
  function WithMoved(s: Snapshot, i: nat): Snapshot
    requires i < |s.mappings|
  {
    s.(generation := s.generation + 1, mappings := s.mappings[i := Moved(s.mappings[i])])
  }

  lemma MovedValid(s: Snapshot, i: nat, lim: Limits)
    requires Valid(s, lim) && i < |s.mappings| && s.retirements.Some?
    ensures Valid(WithMoved(s, i), lim)
  {
    hide TupleHash, SP.Contains;
    var t := WithMoved(s, i);
    forall k | 0 <= k < |t.mappings| ensures MappingFits(t, lim, k) {
      assert MappingFits(s, lim, k);
      forall j | 0 <= j < k ensures !Clash(t.mappings[j], t.mappings[k]) {
        assert !Clash(s.mappings[j], s.mappings[k]);
      }
    }
    forall k | 0 <= k < |t.retirements.value| ensures RetirementFits(t, lim, k) {
      assert RetirementFits(s, lim, k);
      forall m | m in t.mappings ensures m.id != t.retirements.value[k].mappingId && m.flowMark != Some(t.retirements.value[k].flowMark) {
        var j :| 0 <= j < |t.mappings| && t.mappings[j] == m;
        assert s.mappings[j] in s.mappings;
      }
    }
  }

  lemma MovedMappings(l: Ledger, s: Snapshot, i: nat, lim: Limits, f: Ledger)
    requires ManagedStep(l, s, lim, f) && i < |s.mappings| && l.mappingIdHighWater < s.mappings[i].id
    ensures var t := WithMoved(s, i); MappingsAccepted(l, t.mappings) && Marked(t.mappings)
  {
    StepFacts(l, s, lim, f);
    hide ManagedStep, ValidLedger, RetirementsAccepted, Kept, Absorb, Surviving, TupleHash;
    var t := WithMoved(s, i);
    forall k | 0 <= k < |t.mappings| ensures MappingAccepted(l, t.mappings[k]) {
      assert MappingAccepted(l, s.mappings[k]);
      if k == i && ActiveId(l, s.mappings[i].id) {
        var a :| a in l.active && a.mappingId == s.mappings[i].id;
        ActiveFacts(l, a);
      }
    }
  }

  /** Epochs that agree in id and mark, one by one. */
  ghost predicate Alongside(es: seq<Epoch>, fs: seq<Epoch>) {
    |es| == |fs| && forall k :: 0 <= k < |es| ==> es[k].mappingId == fs[k].mappingId && es[k].flowMark == fs[k].flowMark
  }

  lemma {:induction false} AlongsideMaxima(id: int, mark: u32, es: seq<Epoch>, fs: seq<Epoch>)
    requires Alongside(es, fs)
    ensures MaxId(id, es) == MaxId(id, fs) && MaxMark(mark, es) == MaxMark(mark, fs)
  {
    if es != [] {
      AlongsideMaxima(id, mark, es[..|es| - 1], fs[..|fs| - 1]);
    }
  }

  lemma AlongsideSurvives(es: seq<Epoch>, fs: seq<Epoch>, entries: seq<Entry>)
    requires Alongside(es, fs) && Surviving(fs, entries) == fs
    ensures Surviving(es, entries) == es
  {
    hide RetiredId, Surviving;
    SurvivingFacts(fs, entries);
    SurvivingFacts(es, entries);
    forall a | a in es ensures !RetiredId(entries, a.mappingId) {
      var k :| 0 <= k < |es| && es[k] == a;
      assert fs[k] in fs;
    }
  }

  lemma AlongsideValid(f: Ledger, es: seq<Epoch>, generation: int, hash: Digest<Snapshot>)
    requires ValidLedger(f) && Alongside(es, f.active) && (forall k :: 0 <= k < |es| ==> es[k].tupleHash.Length() == 64)
    requires 0 < generation && hash.Length() == 64
    ensures ValidLedger(f.(active := es, managedGenerationHighWater := generation, desiredHash := hash))
  {
    hide TupleHash, IsUUID;
    var n := f.(active := es, managedGenerationHighWater := generation, desiredHash := hash);
    forall k | 0 <= k < |es| ensures EpochOk(n, es[k]) {
      assert EpochOk(f, f.active[k]);
    }
    forall j, k | 0 <= j < k < |es| ensures !EpochsClash(es[j], es[k]) {
      assert !EpochsClash(f.active[j], f.active[k]);
    }
    forall j, k | 0 <= j < |es| && 0 <= k < |n.entries| ensures !EpochsClash(es[j], BindingOf(n.entries[k])) {
      assert !EpochsClash(f.active[j], BindingOf(f.entries[k]));
    }
    assert forall k :: 0 <= k < |n.entries| ==> EntryOk(f, f.entries[k]);
  }

  lemma MovedAlongside(s: Snapshot, i: nat)
    requires i < |s.mappings| && Marked(s.mappings)
    ensures var t := WithMoved(s, i);
      && Marked(t.mappings) && Alongside(Epochs(t.mappings), Epochs(s.mappings))
      && forall k :: 0 <= k < |t.mappings| ==> Epochs(t.mappings)[k].tupleHash.Length() == 64
  {
    hide TuplePreimage;
  }

  /** A ledger field by field. */
  lemma PreparedAs(l: Ledger, t: Snapshot, f: Ledger)
    requires t.retirements.Some? && t.acknowledged == Some(f.acknowledged) && Marked(t.mappings) && l.managedGenerationHighWater < t.generation
    requires f.armed && f.version == l.version && f.ledgerId == l.ledgerId && f.entries == NextEntries(l, t)
    requires f.mappingIdHighWater == MaxId(l.mappingIdHighWater, Epochs(t.mappings))
    requires f.flowMarkHighWater == MaxMark(l.flowMarkHighWater, Epochs(t.mappings))
    requires |Kept(l.entries, f.acknowledged)| <= |f.entries|
    requires f.retirementHighWater == MaxGeneration(l.retirementHighWater, f.entries[|Kept(l.entries, f.acknowledged)|..])
    requires f.active == Surviving(Epochs(t.mappings), f.entries)
    ensures Prepared(l, t) == f.(managedGenerationHighWater := t.generation, desiredHash := DesiredHash(t))
  {
    hide MaxId, MaxMark, MaxGeneration, Surviving, Kept, Absorb, DesiredHash, EpochOf;
  }

  lemma StepVersion(l: Ledger, s: Snapshot, lim: Limits, f: Ledger)
    requires ManagedStep(l, s, lim, f)
    ensures f.version == l.version && f.ledgerId == l.ledgerId
  {
    hide ValidLedger, Valid, RetirementsAccepted, MappingsAccepted, Kept, Absorb, Surviving, MaxId, MaxMark, MaxGeneration, DesiredHash;
  }

  lemma MovedPrepared(l: Ledger, s: Snapshot, i: nat, lim: Limits, f: Ledger)
    requires ManagedStep(l, s, lim, f) && i < |s.mappings|
    ensures var t := WithMoved(s, i);
      && Marked(t.mappings) && t.retirements.Some? && t.acknowledged.Some?
      && Prepared(l, t) == f.(active := Epochs(t.mappings), managedGenerationHighWater := t.generation, desiredHash := DesiredHash(t))
      && ValidLedger(Prepared(l, t))
  {
    hide ManagedStep, ValidLedger, DesiredHash, Kept, Absorb, RetirementsAccepted, MappingsAccepted, Valid, EpochOf, Prepared, MaxId, MaxMark, MaxGeneration, Surviving, Alongside;
    var t := WithMoved(s, i);
    StepFacts(l, s, lim, f);
    StepMarks(l, s, lim, f);
    StepVersion(l, s, lim, f);
    ActiveIsTheSnapshot(l, s, lim, f);
    MovedAlongside(s, i);
    GenerationPositive(f, t);
    HashLength(t);
    AlongsideMaxima(l.mappingIdHighWater, l.flowMarkHighWater, Epochs(t.mappings), Epochs(s.mappings));
    AlongsideSurvives(Epochs(t.mappings), Epochs(s.mappings), f.entries);
    AlongsideValid(f, Epochs(t.mappings), t.generation, DesiredHash(t));
    PreparedAs(l, t, f.(active := Epochs(t.mappings)));
  }

  lemma HashLength(s: Snapshot)
    ensures DesiredHash(s).Length() == 64
  {
    hide CanonicalForm;
  }

  lemma GenerationPositive(f: Ledger, t: Snapshot)
    requires ValidLedger(f) && f.armed && t.generation > f.managedGenerationHighWater
    ensures 0 < t.generation
  {
  }

  /** A newer managed snapshot that passes every check is accepted. */
  lemma AllChecks(l: Ledger, s: Snapshot)
    requires s.retirements.Some? && s.acknowledged.Some? && Marked(s.mappings) && l.managedGenerationHighWater < s.generation
    requires l.acknowledged <= s.acknowledged.value <= l.retirementHighWater
    requires forall e :: e in l.entries && e.retirement.generation <= s.acknowledged.value ==> e.cleared
    requires MappingsAccepted(l, s.mappings) && RetirementsAccepted(l, Kept(l.entries, s.acknowledged.value), s.retirements.value)
    requires forall a :: a in l.active ==> Ledgers.Present(s.mappings, a.mappingId) || RetiredId(NextEntries(l, s), a.mappingId)
    requires ValidLedger(Prepared(l, s))
    ensures Accepts(l, s)
  {
    hide ValidLedger, MappingsAccepted, RetirementsAccepted, Prepared, DesiredHash, Kept, Absorb, Ledgers.Present, RetiredId, NextEntries;
  }

  /** The ledger in memory accepts the moved mapping, which the ledger on disk binds otherwise. */
  lemma MovedAccepted(l: Ledger, s: Snapshot, i: nat, lim: Limits, f: Ledger)
    requires ManagedStep(l, s, lim, f) && i < |s.mappings| && l.mappingIdHighWater < s.mappings[i].id
    ensures Accepts(l, WithMoved(s, i))
  {
    hide ManagedStep, ValidLedger, MappingsAccepted, RetirementsAccepted, Prepared, DesiredHash, Kept, Absorb, Ledgers.Present, RetiredId;
    var t := WithMoved(s, i);
    MovedPrepared(l, s, i, lim, f);
    MovedMappings(l, s, i, lim, f);
    MovedPresent(l, s, i, lim, f);
    MovedOtherwise(l, s, lim, f);
    assert NextEntries(l, t) == NextEntries(l, s);
    AllChecks(l, t);
  }

  /** The checks that do not look at the mappings. */
  lemma MovedOtherwise(l: Ledger, s: Snapshot, lim: Limits, f: Ledger)
    requires ManagedStep(l, s, lim, f)
    ensures s.retirements.Some? && s.acknowledged.Some?
    ensures l.managedGenerationHighWater <= s.generation && l.acknowledged <= s.acknowledged.value <= l.retirementHighWater
    ensures forall e :: e in l.entries && e.retirement.generation <= s.acknowledged.value ==> e.cleared
    ensures RetirementsAccepted(l, Kept(l.entries, s.acknowledged.value), s.retirements.value)
  {
    StepFacts(l, s, lim, f);
    StepMarks(l, s, lim, f);
    hide LedgerInv, Leads, ValidLedger, RetirementsAccepted, Kept, Absorb, Valid;
    forall e | e in l.entries && e.retirement.generation <= s.acknowledged.value ensures e.cleared {
      StepClearsFirst(l, s, lim, f, e);
    }
  }

  lemma MovedPresent(l: Ledger, s: Snapshot, i: nat, lim: Limits, f: Ledger)
    requires ManagedStep(l, s, lim, f) && i < |s.mappings|
    ensures s.acknowledged.Some?
    ensures forall a :: a in l.active ==> Ledgers.Present(WithMoved(s, i).mappings, a.mappingId) || RetiredId(NextEntries(l, s), a.mappingId)
  {
    StepFacts(l, s, lim, f);
    hide LedgerInv, Leads, ValidLedger, RetirementsAccepted, MappingsAccepted, Kept, Absorb, Valid, RetiredId;
    var t := WithMoved(s, i);
    forall a | a in l.active && !RetiredId(NextEntries(l, s), a.mappingId) ensures Ledgers.Present(t.mappings, a.mappingId) {
      StepLosesNone(l, s, lim, f, a);
      var m :| m in s.mappings && m.id == a.mappingId;
      var k :| 0 <= k < |s.mappings| && s.mappings[k] == m;
      assert t.mappings[k] in t.mappings;
    }
  }

  lemma {:induction false} NewIdExists(base: int, es: seq<Epoch>)
    requires base < MaxId(base, es)
    ensures exists k :: 0 <= k < |es| && base < es[k].mappingId
  {
    if es[|es| - 1].mappingId <= base {
      NewIdExists(base, es[..|es| - 1]);
      var k :| 0 <= k < |es| - 1 && base < es[..|es| - 1][k].mappingId;
      assert es[k].mappingId > base;
    }
  }

  lemma MovedRebinds(l: Ledger, s: Snapshot, i: nat, lim: Limits, f: Ledger)
    requires ManagedStep(l, s, lim, f) && i < |s.mappings| && l.mappingIdHighWater < s.mappings[i].id
    ensures var t := WithMoved(s, i); Leads(l, t, lim, Prepared(l, t)) && Rebinds(f, Prepared(l, t))
  {
    hide ManagedStep, LedgerInv, Valid, Ledgers.Verdict, Prepared, ValidLedger, TupleHash, DesiredHash;
    var t := WithMoved(s, i);
    MovedAccepted(l, s, i, lim, f);
    MovedPrepared(l, s, i, lim, f);
    StepParts(l, s, lim, f);
    MovedValid(s, i, lim);
    ActiveIsTheSnapshot(l, s, lim, f);
    MappingInSnapshot(s, lim, s.mappings[i]);
    var b, c := EpochOf(s.mappings[i]), EpochOf(t.mappings[i]);
    TupleHashInjective(MappingTuple(s.mappings[i]), MappingTuple(t.mappings[i]));
    var n := Prepared(l, t);
    assert f.active[i] == b && n.active[i] == c;
    assert b in f.active && c in n.active;
    assert Holds(f, b) && Holds(n, c) && EpochsClash(b, c) && b != c;
  }

  /** After a rest in which every connection ended, the event binds an id or a mark on disk anew. */
  ghost predicate RebindsBy(s: Sys, mid: Sys, ev: Event, n: Sys, setup: Setup) {
    && Steps(s, Resting, mid, setup) && Steps(mid, ev, n, setup) && s.world.ledgerFile.StoredLedger? && n.world.ledgerFile.StoredLedger?
    && Rebinds(s.world.ledgerFile.ledger, n.world.ledgerFile.ledger)
  }

  /** The platform sends this snapshot, no connection of a retirement is left, and the files can be stored. */
  function SentWith(s: Snapshot, zeros: seq<bool>): CycleEnv {
    Resent(s).(zeros := zeros)
  }

  lemma MovedStored(s: Sys, snap: Snapshot, i: nat, setup: Setup) returns (mid: Sys, ev: Event, n: Sys)
    requires Running(s) && s.world.ledgerFile.StoredLedger? && ManagedStep(s.mem.value.ledger.value, snap, setup.lim, s.world.ledgerFile.ledger)
    requires i < |snap.mappings| && s.mem.value.ledger.value.mappingIdHighWater < snap.mappings[i].id
    ensures RebindsBy(s, mid, ev, n, setup)
  {
    hide ManagedStep, WithMoved, Leads, Prepared, ValidLedger, Marked, Rebinds, Steps, RebindsBy, ZeroAll;
    var l, f, next := s.mem.value.ledger.value, s.world.ledgerFile.ledger, WithMoved(snap, i);
    mid := s.(world := s.world.(flows := {}));
    ConnectionsEnd(s, setup);
    MovedRebinds(l, snap, i, setup.lim, f);
    MovedPrepared(l, snap, i, setup.lim, f);
    ArmedNext(l, next, Prepared(l, next), setup.lim);
    var zeros := Nothing(l, Prepared(l, next));
    ev, n := LeadsStored(mid, next, zeros, setup);
    RebindsMeans(s, mid, ev, n, setup);
  }

  lemma RebindsMeans(s: Sys, mid: Sys, ev: Event, n: Sys, setup: Setup)
    requires Steps(s, Resting, mid, setup) && Steps(mid, ev, n, setup) && s.world.ledgerFile.StoredLedger? && n.world.ledgerFile.StoredLedger?
    requires Rebinds(s.world.ledgerFile.ledger, n.world.ledgerFile.ledger)
    ensures RebindsBy(s, mid, ev, n, setup)
  {
    hide Steps, Rebinds;
  }

  lemma ConnectionsEnd(s: Sys, setup: Setup)
    ensures Steps(s, Resting, s.(world := s.world.(flows := {})), setup)
  {
  }

  lemma ArmedNext(l: Ledger, s: Snapshot, n: Ledger, lim: Limits)
    requires Leads(l, s, lim, n) && s.retirements.Some?
    ensures n.armed
  {
    hide Valid, Ledgers.Verdict, MaxId, MaxMark, MaxGeneration, Surviving, Kept, Absorb, DesiredHash;
  }

  /** A snapshot that the ledger in memory accepts is stored by a cycle when no connection is left. */
  lemma LeadsStored(s: Sys, snap: Snapshot, zeros: seq<bool>, setup: Setup) returns (ev: Event, n: Sys)
    requires Running(s) && s.world.flows == {} && Readable(snap) && Marked(snap.mappings)
    requires var l := s.mem.value.ledger.value;
      var next := Prepared(l, snap);
      Leads(l, snap, setup.lim, next) && next.armed && ValidLedger(next) && ZeroAll(l.entries, next, {}, zeros)
    ensures Steps(s, ev, n, setup) && n.world.ledgerFile == StoredLedger(Prepared(s.mem.value.ledger.value, snap))
  {
    hide Valid, Ledgers.Verdict, Prepared, ValidLedger, Converge, ZeroAll, Received, DoAll, Steps;
    var mem, env := s.mem.value, SentWith(snap, zeros);
    ReceivedGoes(mem, snap, {}, env, setup.lim);
    StoredByCycle(mem, s.world, snap, Prepared(mem.ledger.value, snap), env);
    n := Undisturbedly(s, env, setup);
    ev := Cycling(env, None);
  }

  /** Without connections every zero check passes. */
  lemma Nothing(l: Ledger, n: Ledger) returns (zeros: seq<bool>)
    ensures ZeroAll(l.entries, n, {}, zeros)
  {
    hide Known, ZeroAll;
    zeros := ZeroAllPasses(l.entries, n, {});
  }

  lemma NewIdMeans(l: Ledger, f: Ledger, lim: Limits) returns (s: Snapshot, i: nat)
    requires LedgerInv(l) && DiskFrom(l, f, lim) && l.mappingIdHighWater < f.mappingIdHighWater
    ensures ManagedStep(l, s, lim, f) && i < |s.mappings| && l.mappingIdHighWater < s.mappings[i].id
  {
    hide LedgerInv, Leads, Cleared, MaxId;
    if ids :| f == Cleared(l, ids) {
      ClearedMarks(l, ids);
    }
    s :| Leads(l, s, lim, f) && s.retirements.Some?;
    assert ManagedStep(l, s, lim, f);
    hide ManagedStep, ValidLedger, Prepared, MappingsAccepted, RetirementsAccepted;
    StepFacts(l, s, lim, f);
    StepMarks(l, s, lim, f);
    NewIdExists(l.mappingIdHighWater, Epochs(s.mappings));
    i :| 0 <= i < |s.mappings| && l.mappingIdHighWater < Epochs(s.mappings)[i].mappingId;
  }

  /** In every state of every run: some event, once no connection is left, binds an id or a mark differently from its binding on disk if and only
      if the process runs and disk has an id above those in memory, which a save admitted that memory believes to have failed. */
  lemma StoredBindingCanChangeIff(t: seq<Sys>, evs: seq<Event>, setup: Setup, i: nat)
    requires Run(t, evs, setup) && i < |t|
    ensures (exists mid, ev, n :: RebindsBy(t[i], mid, ev, n, setup)) <==>
      Running(t[i]) && t[i].world.ledgerFile.StoredLedger?
      && t[i].mem.value.ledger.value.mappingIdHighWater < t[i].world.ledgerFile.ledger.mappingIdHighWater
  {
    hide Run, Steps, GoodFiles, DiskFrom, Stands, Rebinds, LedgerInv, ManagedStep;
    EveryStateHasGoodFiles(t, evs, setup, i);
    EveryStateIsGrounded(t, evs, setup, i);
    var s := t[i];
    if mid, ev, n :| RebindsBy(s, mid, ev, n, setup) {
      hide RebindsBy, Grounded;
      RebindsOnlyNew(s, mid, ev, n, setup);
    }
    if Running(s) && s.world.ledgerFile.StoredLedger? && s.mem.value.ledger.value.mappingIdHighWater < s.world.ledgerFile.ledger.mappingIdHighWater {
      BaseOk(s, setup.lim);
      hide RebindsBy;
      var snap, k := NewIdMeans(s.mem.value.ledger.value, s.world.ledgerFile.ledger, setup.lim);
      var mid, ev, n := MovedStored(s, snap, k, setup);
    }
  }

  lemma RestKeeps(s: Sys, mid: Sys, setup: Setup)
    requires Steps(s, Resting, mid, setup)
    ensures mid.mem == s.mem && mid.world.ledgerFile == s.world.ledgerFile
  {
  }

  lemma RebindsOnlyNew(s: Sys, mid: Sys, ev: Event, n: Sys, setup: Setup)
    requires GoodFiles(s, setup.lim) && Grounded(s, setup.lim) && RebindsBy(s, mid, ev, n, setup)
    ensures Running(s) && s.mem.value.ledger.value.mappingIdHighWater < s.world.ledgerFile.ledger.mappingIdHighWater
  {
    hide Steps, GoodFiles, Grounded, LedgerInv, Rebinds, Holds;
    RestKeeps(s, mid, setup);
    StepKeepsFiles(s, Resting, mid, setup);
    FileAfter(mid, ev, n, setup);
    BaseOk(s, setup.lim);
    SameHost(s, setup.lim);
    var l, f, g := Base(s), s.world.ledgerFile.ledger, n.world.ledgerFile.ledger;
    InvValid(l);
    InvValid(f);
    if !Running(s) || f.mappingIdHighWater == l.mappingIdHighWater {
      SameIdsNeverRebind(l, f, g);
    }
  }
}
