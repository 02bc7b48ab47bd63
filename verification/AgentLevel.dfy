/**
 The stored ledger from one event to the next, through crashes and reboots and whatever the
 saves report: while memory is not behind disk it only moves forward, and no id and no mark
 on disk is ever reused.
 */
module AgentLevel {
  import opened Values
  import opened Snapshots
  import opened Ledgers
  import opened LedgerProofs
  import opened Conntrack
  import opened AgentModel
  import opened AgentSafety
  import opened AgentSteps
  import opened AgentTraffic
  import opened AgentRuns
  import opened AgentFiles
  import opened AgentHistory
  import opened AgentDurability
  import opened AgentMemory

  // ---- What a cycle stores ----

  lemma ArmedPositive(l: Ledger)
    requires LedgerInv(l) && l.armed
    ensures 0 < l.managedGenerationHighWater
  {
    hide ValidActive, ValidEntries, ValidHeader;
  }

  /** Only armed ledgers are stored. */
  ghost predicate OnlyArmed(es: seq<Effect>) {
    forall e :: e in es && e.WriteLedger? ==> e.ledger.armed
  }

  lemma {:induction false} OldOrArmed(w: World, es: seq<Effect>)
    requires OnlyArmed(es)
    ensures var g := DoAll(w, es).ledgerFile; g == w.ledgerFile || (g.StoredLedger? && g.ledger.armed)
  {
    if es == [] {
      NothingDone(w);
    } else {
      var init, last := es[..|es| - 1], es[|es| - 1];
      assert es == init + [last] && last in es && forall e :: e in init ==> e in es;
      OldOrArmed(w, init);
      DoConcat(w, init, [last]);
      DoOne(DoAll(w, init), last);
    }
  }

  lemma ApplyStoresArmed(l: Ledger, s: Option<Snapshot>, env: ApplyEnv)
    requires LedgerInv(l)
    ensures OnlyArmed(ApplySnapshot(l, s, env).effects)
  {
    InvUnarmed(l);
    hide LedgerInv, ApplySnapshot, Cleared, PlanOf;
    var es := ApplySnapshot(l, s, env).effects;
    ApplyEffects(l, s, env);
    if l.armed {
      forall e | e in es && e.WriteLedger? ensures e.ledger.armed {
        var ids :| e.ledger == Cleared(l, ids);
        ClearedKeepsActive(l, ids);
      }
    } else {
      UnarmedStoresNothing(l, s, env);
    }
  }

  lemma UnarmedStoresNothing(l: Ledger, s: Option<Snapshot>, env: ApplyEnv)
    requires !l.armed && l.entries == []
    ensures forall e :: e in ApplySnapshot(l, s, env).effects ==> !e.WriteLedger?
  {
    hide Verified, PlanOf;
    assert Retirements(l) == [];
  }

  lemma CycleStoresArmed(mem: Mem, flows: set<Flow>, env: CycleEnv, lim: Limits)
    requires Healthy(mem) && !mem.ledgerLost && LedgerInv(mem.ledger.value)
    ensures OnlyArmed(Cycle(mem, flows, env, lim).effects)
  {
    hide ApplySnapshot, Received, Converge, ZeroAll, LedgerInv, Leads;
    var l := mem.ledger.value;
    ApplyStoresArmed(l, None, env.apply);
    ApplyStoresArmed(l, mem.lastApplied, env.apply);
    if env.sync.Body? {
      var s := env.sync.snap;
      var n := ReceivedCases(mem, s, flows, env, lim);
      if n.Some? {
        NextFollows(l, s, lim, n.value);
        ApplyStoresArmed(n.value, Some(s), env.apply);
        ConvergeShape(mem, n.value, s, env);
        WritesOnlyArmed(n.value, s, env);
        hide LedgerWrite, FilesBefore, SnapAfter;
        assert forall e :: e in Converge(mem, n.value, s, env).effects ==>
          e in LedgerWrite(n.value, env) || e in FilesBefore(n.value, s, env) || e in ApplySnapshot(n.value, Some(s), env.apply).effects
          || e in SnapAfter(n.value, s, env);
      }
    }
  }

  lemma WritesOnlyArmed(n: Ledger, s: Snapshot, env: CycleEnv)
    ensures OnlyArmed(LedgerWrite(n, env)) && OnlyArmed(FilesBefore(n, s, env)) && OnlyArmed(SnapAfter(n, s, env))
  {
    hide SaveLedger;
  }

  // ---- One event ----

  /** The process runs and holds its ledger. */
  predicate Running(s: Sys) {
    s.mem.Some? && !s.mem.value.ledgerLost && s.mem.value.ledger.Some?
  }

  /** The ledger from which the next event starts: that of the running process, else the stored one. */
  function Base(s: Sys): Ledger
    requires s.world.ledgerFile.StoredLedger?
  {
    if Running(s) then s.mem.value.ledger.value else s.world.ledgerFile.ledger
  }

  /** After any event, whole or cut short, disk is as it was or holds a good ledger that follows the base, an armed one if the process ran. */
  ghost predicate FileNext(s: Sys, g: LedgerFile)
    requires s.world.ledgerFile.StoredLedger?
  {
    g == s.world.ledgerFile ||
    (g.StoredLedger? && LedgerInv(g.ledger) && Evolves(Base(s), g.ledger) && (Running(s) ==> g.ledger.armed))
  }

  lemma FilePerform(s: Sys, o: Outcome, cut: Option<nat>, n: Sys)
    requires s.world.ledgerFile.StoredLedger? && Performs(s, o, cut, n)
    requires WritesFollow(Base(s), o.effects) && (Running(s) ==> OnlyArmed(o.effects))
    ensures FileNext(s, n.world.ledgerFile)
  {
    hide LedgerInv, Evolves, SealAll, Interleaved, DoAll;
    var es := Reached(o, cut);
    assert forall e :: e in es ==> e in o.effects;
    OldOrFollowing(s.world, es, Base(s));
    if Running(s) {
      OldOrArmed(s.world, es);
    }
    PerformsAlike(s, o, cut, n);
  }

  lemma FileAfter(s: Sys, ev: Event, n: Sys, setup: Setup)
    requires GoodFiles(s, setup.lim) && s.world.ledgerFile.StoredLedger? && Steps(s, ev, n, setup)
    ensures FileNext(s, n.world.ledgerFile)
  {
    hide FilesInv, Boot, Cycle, Performs, Stampable, LedgerInv, Fits, Evolves, OnlyArmed;
    match ev
    case Booting(env, cut) =>
      BootWrites(s.world, env, setup);
      FilePerform(s, Boot(s.world, env, setup), cut, n);
    case Cycling(env, cut) =>
      var mem := s.mem.value;
      if mem.ledgerLost {
        LostWrites(mem, s.world.flows, env, setup.lim);
      } else {
        CycleFollowsMemory(mem, s.world.flows, env, setup.lim);
        CycleStoresArmed(mem, s.world.flows, env, setup.lim);
      }
      FilePerform(s, Cycle(mem, s.world.flows, env, setup.lim), cut, n);
    case Killed =>
    case Resting =>
  }

  // ---- Memory that is not behind disk ----

  /** No mark above those of a first managed generation without mappings: every armed ledger with this id follows. */
  predicate Bottom(f: Ledger) {
    && f.managedGenerationHighWater <= 1 && f.mappingIdHighWater <= 0 && f.flowMarkHighWater <= 0
    && f.retirementHighWater <= 0 && f.acknowledged <= 0
  }

  /** Memory is not behind disk: it follows the stored ledger, or it was never armed and the stored one is bottom. */
  ghost predicate Level(s: Sys) {
    Running(s) ==>
      s.world.ledgerFile.StoredLedger? && if Base(s).armed then Evolves(s.world.ledgerFile.ledger, Base(s)) else Bottom(s.world.ledgerFile.ledger)
  }

  /** Memory is not behind disk in marks and bindings, though it may be in what is cleared. */
  ghost predicate Bound(s: Sys) {
    Running(s) ==>
      s.world.ledgerFile.StoredLedger? && if Base(s).armed then Binds(s.world.ledgerFile.ledger, Base(s)) else Bottom(s.world.ledgerFile.ledger)
  }

  lemma LevelIsBound(s: Sys)
    requires Level(s)
    ensures Bound(s)
  {
    hide Binds;
  }

  lemma BottomIsEmpty(f: Ledger)
    requires LedgerInv(f) && Bottom(f)
    ensures f.active == [] && f.entries == []
  {
    hide IsUUID;
    if f.active != [] {
      ActiveFacts(f, f.active[0]);
      assert false;
    }
    if f.entries != [] {
      EntryFacts(f, f.entries[0]);
      assert false;
    }
  }

  /** Whatever armed ledger a never armed one leads to follows a bottom one of the same host. */
  lemma BottomFollowed(l: Ledger, f: Ledger, n: Ledger)
    requires LedgerInv(l) && !l.armed && LedgerInv(f) && Bottom(f) && l.ledgerId == f.ledgerId
    requires LedgerInv(n) && n.armed && Evolves(l, n)
    ensures Evolves(f, n)
  {
    BottomIsEmpty(f);
    ArmedPositive(n);
    hide ValidLedger, Holds;
    forall b | Holds(n, b) ensures 0 < b.mappingId && 0 < b.flowMark {
      PositiveBinding(n, b);
    }
    forall a | a in n.active ensures 0 < a.mappingId {
      ActiveFacts(n, a);
    }
  }

  lemma PositiveBinding(n: Ledger, b: Epoch)
    requires ValidLedger(n) && Holds(n, b)
    ensures 0 < b.mappingId && 0 < b.flowMark
  {
    hide ValidLedger;
    if b in n.active {
      ActiveFacts(n, b);
    } else {
      var e :| e in n.entries && BindingOf(e) == b;
      EntryFacts(n, e);
    }
  }

  // ---- The stored ledger over stretches of a run ----

  lemma BaseOk(s: Sys, lim: Limits)
    requires GoodFiles(s, lim) && s.world.ledgerFile.StoredLedger?
    ensures LedgerInv(s.world.ledgerFile.ledger) && LedgerInv(Base(s))
  {
    hide LedgerInv, Fits, Valid;
  }

  /** From a state whose memory is not behind disk, the stored ledger only moves forward, whatever the saves report. */
  lemma LevelStep(s: Sys, ev: Event, n: Sys, setup: Setup)
    requires GoodFiles(s, setup.lim) && Grounded(s, setup.lim) && Level(s) && Steps(s, ev, n, setup)
    ensures FileOk(s.world.ledgerFile) && Follows(s.world.ledgerFile, n.world.ledgerFile)
  {
    hide FilesInv, MemFiles, Steps, LedgerInv, Evolves, Bottom, Grounded;
    FilesAreOk(s.world, setup.lim);
    StepKeepsFiles(s, ev, n, setup);
    FilesAreOk(n.world, setup.lim);
    if s.world.ledgerFile.StoredLedger? {
      FileAfter(s, ev, n, setup);
      BaseOk(s, setup.lim);
      var f, l, g := s.world.ledgerFile.ledger, Base(s), n.world.ledgerFile;
      Itself(f);
      if g.StoredLedger? && g != s.world.ledgerFile {
        if l.armed || !Running(s) {
          Transitive(f, l, g.ledger);
        } else {
          SameHost(s, setup.lim);
          BottomFollowed(l, f, g.ledger);
        }
      }
    }
  }

  lemma SameHost(s: Sys, lim: Limits)
    requires GoodFiles(s, lim) && Grounded(s, lim) && s.world.ledgerFile.StoredLedger?
    ensures Evolves(Base(s), s.world.ledgerFile.ledger) && Base(s).ledgerId == s.world.ledgerFile.ledger.ledgerId
  {
    BaseOk(s, lim);
    hide FilesInv, Fits, LedgerInv, Stands, DiskFrom;
    if Running(s) {
      DiskAhead(Base(s), s.world.ledgerFile.ledger, lim);
    } else {
      Itself(Base(s));
    }
  }

  /** From a state whose memory is not behind disk in marks and bindings, the marks on disk do not fall and ids and marks keep
      their bindings, whatever the saves report. */
  lemma BoundStep(s: Sys, ev: Event, n: Sys, setup: Setup)
    requires GoodFiles(s, setup.lim) && Grounded(s, setup.lim) && Bound(s) && Steps(s, ev, n, setup)
    ensures s.world.ledgerFile.StoredLedger? ==>
      && LedgerInv(s.world.ledgerFile.ledger)
      && n.world.ledgerFile.StoredLedger? && LedgerInv(n.world.ledgerFile.ledger)
      && Binds(s.world.ledgerFile.ledger, n.world.ledgerFile.ledger)
  {
    hide FilesInv, MemFiles, Steps, LedgerInv, Binds, Bottom, Grounded;
    if s.world.ledgerFile.StoredLedger? {
      FileAfter(s, ev, n, setup);
      BaseOk(s, setup.lim);
      var f, l, g := s.world.ledgerFile.ledger, Base(s), n.world.ledgerFile.ledger;
      Itself(f);
      InvValid(f);
      InvValid(l);
      if g != f {
        if l.armed || !Running(s) {
          BindsTransitive(f, l, g);
        } else {
          SameHost(s, setup.lim);
          BottomFollowed(l, f, g);
        }
      }
    }
  }

  /** The stored ledger over a stretch of a run in which memory is never behind disk. */
  lemma {:induction false} LevelStretch(t: seq<Sys>, evs: seq<Event>, setup: Setup, i: nat, j: nat)
    requires Run(t, evs, setup) && i <= j < |t| && forall k :: i <= k < j ==> Level(t[k])
    ensures FileOk(t[i].world.ledgerFile) && Follows(t[i].world.ledgerFile, t[j].world.ledgerFile)
    decreases j
  {
    hide *;
    RunLength(t, evs, setup);
    GoodFile(t, evs, setup, i);
    if i == j {
      FollowsReflexive(t[i].world.ledgerFile);
    } else {
      LevelStretch(t, evs, setup, i, j - 1);
      EveryStateHasGoodFiles(t, evs, setup, j - 1);
      EveryStateIsGrounded(t, evs, setup, j - 1);
      StepOfRun(t, evs, setup, j - 1);
      LevelStep(t[j - 1], evs[j - 1], t[j], setup);
      FollowsTransitive(t[i].world.ledgerFile, t[j - 1].world.ledgerFile, t[j].world.ledgerFile);
    }
  }

  lemma GoodFile(t: seq<Sys>, evs: seq<Event>, setup: Setup, i: nat)
    requires Run(t, evs, setup) && i < |t|
    ensures FileOk(t[i].world.ledgerFile)
  {
    hide Run, FilesInv, FileOk, MemFiles;
    EveryStateHasGoodFiles(t, evs, setup, i);
    FilesAreOk(t[i].world, setup.lim);
  }

  /** The ledger is on disk, and keeps the bindings of this one. */
  ghost predicate StillBinds(l: Ledger, f: LedgerFile) {
    f.StoredLedger? && LedgerInv(f.ledger) && Binds(l, f.ledger)
  }

  lemma {:induction false} BoundStretch(t: seq<Sys>, evs: seq<Event>, setup: Setup, i: nat, j: nat)
    requires Run(t, evs, setup) && i <= j < |t| && t[i].world.ledgerFile.StoredLedger? && forall k :: i <= k < j ==> Bound(t[k])
    ensures LedgerInv(t[i].world.ledgerFile.ledger) && StillBinds(t[i].world.ledgerFile.ledger, t[j].world.ledgerFile)
    decreases j
  {
    hide Run, Bound, Steps, LedgerInv, Binds, GoodFiles, Grounded;
    RunLength(t, evs, setup);
    GoodFile(t, evs, setup, i);
    if i == j {
      Itself(t[i].world.ledgerFile.ledger);
    } else {
      BoundStretch(t, evs, setup, i, j - 1);
      EveryStateHasGoodFiles(t, evs, setup, j - 1);
      EveryStateIsGrounded(t, evs, setup, j - 1);
      StepOfRun(t, evs, setup, j - 1);
      BoundStep(t[j - 1], evs[j - 1], t[j], setup);
      var f, g, h := t[i].world.ledgerFile.ledger, t[j - 1].world.ledgerFile.ledger, t[j].world.ledgerFile.ledger;
      InvValid(f);
      InvValid(g);
      BindsTransitive(f, g, h);
    }
  }

  /** Never reuse, on disk, over every stretch of a run in which memory is never behind disk in marks and bindings, whatever crashes in
      between and whatever the saves report: the stored ledger never disappears, its high-water marks never fall, and every id keeps
      its mark and tuple, every mark its id. */
  lemma DurableNeverReuse(t: seq<Sys>, evs: seq<Event>, setup: Setup, i: nat, j: nat, b: Epoch, c: Epoch)
    requires Run(t, evs, setup) && i <= j < |t| && forall k :: i <= k < j ==> Bound(t[k])
    requires t[i].world.ledgerFile.StoredLedger?
    ensures t[j].world.ledgerFile.StoredLedger?
    ensures var l, n := t[i].world.ledgerFile.ledger, t[j].world.ledgerFile.ledger;
      && l.ledgerId == n.ledgerId && (l.armed ==> n.armed)
      && l.mappingIdHighWater <= n.mappingIdHighWater && l.flowMarkHighWater <= n.flowMarkHighWater
      && l.retirementHighWater <= n.retirementHighWater && l.acknowledged <= n.acknowledged
      && l.managedGenerationHighWater <= n.managedGenerationHighWater
      && (Holds(l, b) && Holds(n, c) && EpochsClash(b, c) ==> b == c)
  {
    hide Run, Bound, Holds, ValidLedger;
    BoundStretch(t, evs, setup, i, j);
    var l, n := t[i].world.ledgerFile.ledger, t[j].world.ledgerFile.ledger;
    if Holds(l, b) && Holds(n, c) {
      BindingForever(l, n, b, c);
    }
  }

  /** On disk too no id moves back through its stages, over every stretch in which memory is never behind disk. */
  lemma DurableLifecycle(t: seq<Sys>, evs: seq<Event>, setup: Setup, i: nat, j: nat, id: int)
    requires Run(t, evs, setup) && i <= j < |t| && forall k :: i <= k < j ==> Level(t[k])
    requires t[i].world.ledgerFile.StoredLedger?
    ensures t[j].world.ledgerFile.StoredLedger?
    ensures Stage(t[i].world.ledgerFile.ledger, id) <= Stage(t[j].world.ledgerFile.ledger, id)
  {
    hide Run, Level, Stage, LedgerInv, Evolves;
    LevelStretch(t, evs, setup, i, j);
    InvValid(t[i].world.ledgerFile.ledger);
    InvValid(t[j].world.ledgerFile.ledger);
    StageMovesForward(t[i].world.ledgerFile.ledger, t[j].world.ledgerFile.ledger, id);
  }

  /** While saves report truly, memory is never behind disk. */
  lemma TrueSavesStayLevel(t: seq<Sys>, evs: seq<Event>, setup: Setup, i: nat)
    requires Run(t, evs, setup) && i < |t| && forall k :: 0 <= k < |evs| ==> TrueSaves(evs[k])
    ensures Level(t[i]) && Bound(t[i])
  {
    hide Run, TrueSaves, Evolves, ValidLedger;
    EveryStateIsDurable(t, evs, setup, i);
    if Running(t[i]) && !Base(t[i]).armed {
      UnarmedDisk(t[i].world.ledgerFile.ledger, Base(t[i]));
    }
    LevelIsBound(t[i]);
  }

  lemma UnarmedDisk(f: Ledger, l: Ledger)
    requires LedgerInv(f) && Evolves(f, l) && !l.armed
    ensures Bottom(f)
  {
  }
}
