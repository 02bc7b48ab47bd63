/**
 Traffic and wipes between any two effects of a step: connections come and go under the
 table of the moment, and the table may vanish.  Why a step stays safe all the same: it
 stores a retirement as cleared only after it installed a table that does not stamp the
 mark and then deleted the connections, which nothing can bring back.
 */
module AgentTraffic {
  import opened Values
  import opened Snapshots
  import opened Ledgers
  import opened LedgerProofs
  import opened Nft
  import opened Conntrack
  import opened AgentModel
  import opened AgentSafety
  import opened AgentSteps

  // ---- Interleaving ----

  /** A connection carries no mark but the one a rule in the kernel stamped on it. */
  ghost predicate Stampable(f: Flow, k: KernelTable) {
    f.mark == 0 || (k.Installed? && exists q :: q in k.rules && q.flowMark == f.mark)
  }

  /** What may happen without the agent: connections end, new ones begin, the table is wiped. */
  ghost predicate Drifts(w: World, v: World) {
    && v.ledgerFile == w.ledgerFile && v.snapFile == w.snapFile
    && (v.kernel == w.kernel || v.kernel.NoTable?)
    && forall f :: f in v.flows ==> f in w.flows || Stampable(f, w.kernel)
  }

  /** The effects in order, with anything of that kind before, between and after them. */
  ghost predicate Interleaved(w: World, es: seq<Effect>, v: World)
    decreases |es|
  {
    if es == [] then Drifts(w, v)
    else exists u: World :: Drifts(w, u) && Interleaved(Do(u, es[0]), es[1..], v)
  }

  /** Undisturbed is one of the possibilities. */
  lemma {:induction false} Undisturbed(w: World, es: seq<Effect>)
    ensures Interleaved(w, es, DoAll(w, es))
    decreases |es|
  {
    hide Do;
    if es != [] {
      Undisturbed(Do(w, es[0]), es[1..]);
      assert Drifts(w, w);
    }
  }

  /** Same files; same table unless wiped. */
  ghost predicate Alike(w: World, v: World) {
    v.ledgerFile == w.ledgerFile && v.snapFile == w.snapFile && (v.kernel == w.kernel || v.kernel.NoTable?)
  }

  lemma AlikeAfter(w: World, v: World, e: Effect)
    requires Alike(w, v)
    ensures Alike(Do(w, e), Do(v, e))
  {
    hide Matching;
  }

  /** Traffic and wipes do not reach the files, and leave the table or wipe it. */
  lemma {:induction false} InterleavedAlike(w: World, x: World, es: seq<Effect>, v: World)
    requires Alike(x, w) && Interleaved(w, es, v)
    ensures Alike(DoAll(x, es), v)
    decreases |es|
  {
    hide Do, Stampable;
    if es != [] {
      var u: World :| Drifts(w, u) && Interleaved(Do(u, es[0]), es[1..], v);
      AlikeAfter(x, u, es[0]);
      InterleavedAlike(Do(u, es[0]), Do(x, es[0]), es[1..], v);
    }
  }

  // ---- The order of effects that makes a step robust ----

  function Marks(rules: seq<Rule>): set<u32> {
    set q | q in rules :: q.flowMark
  }

  /** Retirements whose connections were deleted under a table that does not stamp them. */
  function Quieter(marks: set<u32>, quiet: set<Retirement>, e: Effect): set<Retirement> {
    match e
    case Install(_, _) => {}
    case InstallQuarantine => {}
    case DeleteFlows(r, some) => if some.None? && r.flowMark != 0 && r.flowMark !in marks then quiet + {r} else quiet
    case WriteLedger(_) => quiet
    case WriteSnap(_) => quiet
    case RemoveSnap => quiet
  }

  function MarksAfter(marks: set<u32>, e: Effect): set<u32> {
    match e
    case Install(rules, _) => Marks(rules)
    case InstallQuarantine => {}
    case DeleteFlows(_, _) => marks
    case WriteLedger(_) => marks
    case WriteSnap(_) => marks
    case RemoveSnap => marks
  }

  /** One effect in its place: a table stamps no sealed mark, and a ledger clears only what is sealed or quiet. */
  ghost predicate InPlace(quiet: set<Retirement>, sealed: set<Retirement>, e: Effect) {
    && (e.Install? ==> forall r :: r in sealed ==> r.flowMark !in Marks(e.rules))
    && (e.WriteLedger? ==> ClearedOnes(e.ledger) <= sealed + quiet)
  }

  /** All effects in their places, starting from a table that stamps at most these marks. */
  ghost predicate Disciplined(marks: set<u32>, quiet: set<Retirement>, sealed: set<Retirement>, es: seq<Effect>)
    decreases |es|
  {
    es == [] ||
    (InPlace(quiet, sealed, es[0])
     && Disciplined(MarksAfter(marks, es[0]), Quieter(marks, quiet, es[0]), Seal(sealed, es[0]), es[1..]))
  }

  /** Sealed and quiet retirements have no connection, and nothing that could start one. */
  ghost predicate Calm(w: World, marks: set<u32>, quiet: set<Retirement>, sealed: set<Retirement>) {
    && (w.kernel.Installed? ==> Marks(w.kernel.rules) <= marks)
    && Unmatched(w.flows, sealed + quiet)
    && forall r :: r in sealed + quiet ==> r.flowMark != 0 && r.flowMark !in marks
  }

  lemma DriftCalm(w: World, v: World, marks: set<u32>, quiet: set<Retirement>, sealed: set<Retirement>)
    requires Calm(w, marks, quiet, sealed) && Drifts(w, v)
    ensures Calm(v, marks, quiet, sealed)
  {
    forall f, r | f in v.flows && r in sealed + quiet ensures !Matches(f, r) {
      if f !in w.flows && f.mark != 0 {
        assert Stampable(f, w.kernel);
        var q :| q in w.kernel.rules && q.flowMark == f.mark;
        assert q.flowMark in Marks(w.kernel.rules);
      }
    }
  }

  lemma EffectCalm(w: World, marks: set<u32>, quiet: set<Retirement>, sealed: set<Retirement>, e: Effect)
    requires Calm(w, marks, quiet, sealed) && InPlace(quiet, sealed, e)
    ensures Calm(Do(w, e), MarksAfter(marks, e), Quieter(marks, quiet, e), Seal(sealed, e))
  {
    hide Matches;
    var n, quiet', sealed' := Do(w, e), Quieter(marks, quiet, e), Seal(sealed, e);
    forall f, r | f in n.flows && r in sealed' + quiet' ensures !Matches(f, r) {
      assert f in w.flows;
      if r !in sealed + quiet {
        assert e.DeleteFlows? && r == e.retirement && e.some.None?;
        assert Matches(f, r) ==> f in Matching(w.flows, r);
      }
    }
  }

  /** Whatever happens in between, a disciplined step keeps sealed retirements without rule and connection. */
  lemma {:induction false} StaysCalm(w: World, marks: set<u32>, quiet: set<Retirement>, sealed: set<Retirement>, es: seq<Effect>, v: World)
    requires Calm(w, marks, quiet, sealed) && Disciplined(marks, quiet, sealed, es) && Interleaved(w, es, v)
    ensures Unstamped(v.kernel, SealAll(sealed, es)) && Unmatched(v.flows, SealAll(sealed, es))
    ensures forall r :: r in SealAll(sealed, es) ==> r.flowMark != 0
    decreases |es|
  {
    if es == [] {
      DriftCalm(w, v, marks, quiet, sealed);
      CalmMeans(v, marks, quiet, sealed);
    } else {
      hide Calm, Do, InPlace, Drifts, Seal, MarksAfter, Quieter;
      var u: World :| Drifts(w, u) && Interleaved(Do(u, es[0]), es[1..], v);
      DriftCalm(w, u, marks, quiet, sealed);
      EffectCalm(u, marks, quiet, sealed, es[0]);
      StaysCalm(Do(u, es[0]), MarksAfter(marks, es[0]), Quieter(marks, quiet, es[0]), Seal(sealed, es[0]), es[1..], v);
    }
  }

  lemma CalmMeans(v: World, marks: set<u32>, quiet: set<Retirement>, sealed: set<Retirement>)
    requires Calm(v, marks, quiet, sealed)
    ensures Unstamped(v.kernel, sealed) && Unmatched(v.flows, sealed) && forall r :: r in sealed ==> r.flowMark != 0
  {
    hide Matches;
    if v.kernel.Installed? {
      forall q, r | q in v.kernel.rules && r in sealed ensures q.flowMark != r.flowMark {
        assert q.flowMark in Marks(v.kernel.rules);
        assert r in sealed + quiet;
      }
    }
    assert forall r :: r in sealed ==> r in sealed + quiet;
  }

  /** A good world is calm to begin with. */
  lemma InitiallyCalm(w: World, sealed: set<Retirement>, lim: Limits)
    requires WorldInv(w, sealed, lim)
    ensures Calm(w, if w.kernel.Installed? then Marks(w.kernel.rules) else {}, {}, sealed)
  {
    hide FilesOk, Matches;
    assert sealed + {} == sealed;
  }

  lemma {:induction false} DisciplinedPrefix(marks: set<u32>, quiet: set<Retirement>, sealed: set<Retirement>, es: seq<Effect>, k: nat)
    requires Disciplined(marks, quiet, sealed, es) && k <= |es|
    ensures Disciplined(marks, quiet, sealed, es[..k])
    decreases |es|
  {
    hide InPlace, MarksAfter, Quieter, Seal;
    if k > 0 {
      assert es[..k][0] == es[0] && es[..k][1..] == es[1..][..k - 1];
      DisciplinedPrefix(MarksAfter(marks, es[0]), Quieter(marks, quiet, es[0]), Seal(sealed, es[0]), es[1..], k - 1);
    }
  }

  // ---- Every step of the agent is disciplined ----

  /** Disciplined whatever the table stamps beforehand. */
  ghost predicate Robust(sealed: set<Retirement>, es: seq<Effect>) {
    forall marks, quiet :: Disciplined(marks, quiet, sealed, es)
  }

  /** Installs no rules and clears nothing new. */
  ghost predicate Harmless(sealed: set<Retirement>, e: Effect) {
    !e.Install? && (e.WriteLedger? ==> ClearedOnes(e.ledger) <= sealed)
  }

  lemma {:induction false} HarmlessFirst(marks: set<u32>, quiet: set<Retirement>, sealed: set<Retirement>, a: seq<Effect>, b: seq<Effect>)
    requires (forall e :: e in a ==> Harmless(sealed, e)) && Robust(sealed, b)
    ensures Disciplined(marks, quiet, sealed, a + b)
    decreases |a|
  {
    if a == [] {
      assert a + b == b;
    } else {
      assert (a + b)[0] == a[0] && (a + b)[1..] == a[1..] + b;
      assert Harmless(sealed, a[0]);
      assert Seal(sealed, a[0]) == sealed;
      HarmlessFirst(MarksAfter(marks, a[0]), Quieter(marks, quiet, a[0]), sealed, a[1..], b);
    }
  }

  lemma HarmlessThenRobust(sealed: set<Retirement>, a: seq<Effect>, b: seq<Effect>)
    requires (forall e :: e in a ==> Harmless(sealed, e)) && Robust(sealed, b)
    ensures Robust(sealed, a + b)
  {
    hide Disciplined, Harmless;
    forall marks, quiet ensures Disciplined(marks, quiet, sealed, a + b) {
      HarmlessFirst(marks, quiet, sealed, a, b);
    }
  }

  lemma NothingRobust(sealed: set<Retirement>)
    ensures Robust(sealed, [])
  {
  }

  lemma AllHarmless(sealed: set<Retirement>, es: seq<Effect>)
    requires forall e :: e in es ==> Harmless(sealed, e)
    ensures Robust(sealed, es)
  {
    hide Robust, Harmless;
    NothingRobust(sealed);
    HarmlessThenRobust(sealed, es, []);
    assert es + [] == es;
  }

  lemma {:induction false} SnapsLast(marks: set<u32>, quiet: set<Retirement>, sealed: set<Retirement>, a: seq<Effect>, b: seq<Effect>)
    requires Disciplined(marks, quiet, sealed, a) && forall e :: e in b ==> e.WriteSnap?
    ensures Disciplined(marks, quiet, sealed, a + b)
    decreases |a|
  {
    if a == [] {
      assert a + b == b;
      AllHarmless(sealed, b);
    } else {
      assert (a + b)[0] == a[0] && (a + b)[1..] == a[1..] + b;
      hide InPlace, MarksAfter, Quieter, Seal;
      SnapsLast(MarksAfter(marks, a[0]), Quieter(marks, quiet, a[0]), Seal(sealed, a[0]), a[1..], b);
    }
  }

  /** After the deletions every entry that was not cleared is quiet, so a ledger that clears no others may be stored. */
  lemma {:induction false} DeletionsDisciplined(marks: set<u32>, quiet: set<Retirement>, sealed: set<Retirement>, es: seq<Entry>, calls: seq<ClearCall>, n: Ledger)
    requires forall e :: e in es && !e.cleared ==> e.retirement.flowMark != 0 && e.retirement.flowMark !in marks
    requires forall r :: r in ClearedOnes(n) ==> r in sealed + quiet || exists e :: e in es && !e.cleared && e.retirement == r
    ensures var (ok, deletions, ids) := ClearAll(es, calls);
      Disciplined(marks, quiet, sealed, deletions) && (ok ==> Disciplined(marks, quiet, sealed, deletions + [WriteLedger(n)]))
    decreases |es|
  {
    var (ok, deletions, ids) := ClearAll(es, calls);
    if es == [] {
      var w := [WriteLedger(n)];
      assert [] + w == w && w[1..] == [];
    } else {
      assert forall e :: e in es <==> e == es[0] || e in es[1..];
      if es[0].cleared {
        DeletionsDisciplined(marks, quiet, sealed, es[1..], calls, n);
      } else if calls != [] {
        hide ClearedOnes;
        var r := es[0].retirement;
        if calls[0].ClearFailed? {
          assert deletions[1..] == [];
        } else {
          assert r.flowMark != 0 && r.flowMark !in marks;
          forall c | c in ClearedOnes(n) ensures c in sealed + (quiet + {r}) || exists e :: e in es[1..] && !e.cleared && e.retirement == c {
            if c !in sealed + quiet {
              var e :| e in es && !e.cleared && e.retirement == c;
            }
          }
          DeletionsDisciplined(marks, quiet + {r}, sealed, es[1..], calls[1..], n);
          var rest := ClearAll(es[1..], calls[1..]).1;
          assert deletions == [DeleteFlows(r, None)] + rest && deletions[1..] == rest;
          assert deletions + [WriteLedger(n)] == [DeleteFlows(r, None)] + (rest + [WriteLedger(n)]);
          assert (deletions + [WriteLedger(n)])[1..] == rest + [WriteLedger(n)];
        }
      }
    }
  }

  lemma EntriesUnstamped(l: Ledger, sealed: set<Retirement>, rules: seq<Rule>, e: Entry)
    requires LedgerInv(l) && Avoids(l, sealed, rules) && e in l.entries
    ensures e.retirement.flowMark != 0 && e.retirement.flowMark !in Marks(rules)
  {
    hide ValidLedger;
    EntryFacts(l, e);
    var i :| 0 <= i < |l.entries| && l.entries[i] == e;
    assert Retirements(l)[i] in Retirements(l);
  }

  /** An apply whose rules carry no sealed or outstanding mark is disciplined whatever was in the kernel before. */
  lemma ApplyRobust(sealed: set<Retirement>, l: Ledger, s: Option<Snapshot>, env: ApplyEnv)
    requires Sound(l, sealed) && Avoids(l, sealed, PlanOf(s))
    ensures Robust(sealed, ApplySnapshot(l, s, env).effects)
  {
    var es := ApplySnapshot(l, s, env).effects;
    hide LedgerInv, Avoids, PlanOf, Cleared, ValidLedger, Disciplined;
    forall marks, quiet ensures Disciplined(marks, quiet, sealed, es) {
      ApplyDisciplined(marks, quiet, sealed, l, s, env);
    }
  }

  lemma ApplyDisciplined(marks: set<u32>, quiet: set<Retirement>, sealed: set<Retirement>, l: Ledger, s: Option<Snapshot>, env: ApplyEnv)
    requires Sound(l, sealed) && Avoids(l, sealed, PlanOf(s))
    ensures Disciplined(marks, quiet, sealed, ApplySnapshot(l, s, env).effects)
  {
    hide *;
    ClearingDisciplined(sealed, l, PlanOf(s), env.clears);
    var (ok, deletions, ids) := ClearAll(l.entries, env.clears);
    var install, last := Install(PlanOf(s), Retirements(l)), [WriteLedger(Cleared(l, ids))];
    ApplyShape(l, s, env);
    InstallThen(marks, quiet, sealed, install, []);
    InstallThen(marks, quiet, sealed, install, deletions);
    if ok {
      InstallThen(marks, quiet, sealed, install, deletions + last);
    }
    assert [install] + [] == [install] && [install] + (deletions + last) == [install] + deletions + last;
    assert Disciplined(marks, quiet, sealed, []) by { NothingDisciplined(marks, quiet, sealed); }
  }

  lemma NothingDisciplined(marks: set<u32>, quiet: set<Retirement>, sealed: set<Retirement>)
    ensures Disciplined(marks, quiet, sealed, [])
  {
  }

  /** An apply does nothing, installs, installs and deletes, or does all of it and stores the ledger. */
  lemma ApplyShape(l: Ledger, s: Option<Snapshot>, env: ApplyEnv)
    ensures var (ok, deletions, ids) := ClearAll(l.entries, env.clears);
      var install, es := Install(PlanOf(s), Retirements(l)), ApplySnapshot(l, s, env).effects;
      es == [] || es == [install] || es == [install] + deletions || (ok && es == [install] + deletions + [WriteLedger(Cleared(l, ids))])
  {
    hide Sound, Avoids, PlanOf, Cleared, ValidLedger, Retirements, ClearAll, Verified;
    var (ok, deletions, ids) := ClearAll(l.entries, env.clears);
    var install := Install(PlanOf(s), Retirements(l));
    assert [install] + deletions + [] == [install] + deletions;
  }

  /** The deletions, and then the ledger that says so, under rules that carry no sealed or outstanding mark. */
  lemma ClearingDisciplined(sealed: set<Retirement>, l: Ledger, rules: seq<Rule>, calls: seq<ClearCall>)
    requires Sound(l, sealed) && Avoids(l, sealed, rules)
    ensures forall r :: r in sealed ==> r.flowMark !in Marks(rules)
    ensures var (ok, deletions, ids) := ClearAll(l.entries, calls);
      && Disciplined(Marks(rules), {}, sealed, deletions)
      && (ok ==> Disciplined(Marks(rules), {}, sealed, deletions + [WriteLedger(Cleared(l, ids))]))
  {
    AvoidsUnstamped(l, rules, [], sealed);
    assert forall r :: r in sealed ==> r.flowMark !in Marks(rules);
    hide LedgerInv, Avoids, Cleared, ClearAll, Disciplined, Marks;
    var n := Cleared(l, ClearAll(l.entries, calls).2);
    forall e | e in l.entries ensures e.retirement.flowMark != 0 && e.retirement.flowMark !in Marks(rules) {
      EntriesUnstamped(l, sealed, rules, e);
    }
    forall r | r in ClearedOnes(n) ensures r in sealed + {} || exists e :: e in l.entries && !e.cleared && e.retirement == r {
      ClearedHere(l, ClearAll(l.entries, calls).2, sealed, r);
    }
    DeletionsDisciplined(Marks(rules), {}, sealed, l.entries, calls, n);
  }

  lemma InstallThen(marks: set<u32>, quiet: set<Retirement>, sealed: set<Retirement>, install: Effect, rest: seq<Effect>)
    requires install.Install? && (forall r :: r in sealed ==> r.flowMark !in Marks(install.rules))
    requires rest == [] || Disciplined(Marks(install.rules), {}, sealed, rest)
    ensures Disciplined(marks, quiet, sealed, [install] + rest)
  {
    assert ([install] + rest)[1..] == rest;
  }

  lemma RobustThenSnap(sealed: set<Retirement>, a: seq<Effect>, b: seq<Effect>)
    requires Robust(sealed, a) && forall e :: e in b ==> e.WriteSnap?
    ensures Robust(sealed, a + b)
  {
    hide Disciplined;
    forall marks, quiet ensures Disciplined(marks, quiet, sealed, a + b) {
      SnapsLast(marks, quiet, sealed, a, b);
    }
  }

  lemma ReassertRobust(mem: Mem, w: World, sealed: set<Retirement>, env: CycleEnv, lim: Limits)
    requires WorldInv(w, sealed, lim) && MemInv(mem, w, sealed, lim) && !mem.ledgerLost && env.sync.Unchanged? && Sealing(mem, env)
    ensures Robust(sealed, EnsureAsserted(mem, env).effects)
  {
    NothingRobust(sealed);
    ReassertAvoids(mem, w, sealed, env, lim);
    hide WorldInv, Avoids, PlanOf, ApplySnapshot, Robust, Valid, Sound, Fits, Pends;
    var l := mem.ledger.value;
    if !mem.applied && mem.bootFailed {
      ApplyRobust(sealed, l, None, env.apply);
    } else if mem.applied && !env.present.Present? {
      ApplyRobust(sealed, l, mem.lastApplied, env.apply);
    }
  }

  lemma ConvergeRobust(mem: Mem, w: World, sealed: set<Retirement>, n: Ledger, s: Snapshot, env: CycleEnv, lim: Limits)
    requires WorldInv(w, sealed, lim) && MemInv(mem, w, sealed, lim) && !mem.ledgerLost
    requires Leads(mem.ledger.value, s, lim, n)
    ensures Robust(sealed, Converge(mem, n, s, env).effects)
  {
    hide *;
    SealedMarks(w, sealed, lim);
    ConvergeStart(mem, w, sealed, n, s, lim);
    Memory(mem, w, sealed, lim);
    ApplyRobust(sealed, n, Some(s), env.apply);
    ConvergeShape(mem, n, s, env);
    FilesHarmless(sealed, n, s, env);
    var before, ran := FilesBefore(n, s, env), ApplySnapshot(n, Some(s), env.apply);
    AllHarmless(sealed, LedgerWrite(n, env));
    AllHarmless(sealed, before);
    HarmlessThenRobust(sealed, before, ran.effects);
    RobustThenSnap(sealed, before + ran.effects, SnapAfter(n, s, env));
  }

  function LedgerWrite(n: Ledger, env: CycleEnv): seq<Effect> {
    if n.armed then Try(SaveLedger(n, env.saveLedger), WriteLedger(n)) else []
  }

  function SnapWrite(s: Snapshot, env: CycleEnv): seq<Effect> {
    Try(env.saveSnap, WriteSnap(AgentModel.Stamped(s, env.now)))
  }

  function FilesBefore(n: Ledger, s: Snapshot, env: CycleEnv): seq<Effect> {
    LedgerWrite(n, env) + if n.armed then SnapWrite(s, env) else []
  }

  function SnapAfter(n: Ledger, s: Snapshot, env: CycleEnv): seq<Effect> {
    if n.armed then [] else SnapWrite(s, env)
  }

  /** A convergence stops after the ledger, after both files, after the apply, or goes through. */
  lemma ConvergeShape(mem: Mem, n: Ledger, s: Snapshot, env: CycleEnv)
    requires mem.ledger.Some?
    ensures var es, ran := Converge(mem, n, s, env).effects, ApplySnapshot(n, Some(s), env.apply);
      || es == LedgerWrite(n, env) || es == FilesBefore(n, s, env)
      || es == FilesBefore(n, s, env) + ran.effects || es == FilesBefore(n, s, env) + ran.effects + SnapAfter(n, s, env)
  {
    hide ApplySnapshot, SaveLedger;
  }

  lemma FilesHarmless(sealed: set<Retirement>, n: Ledger, s: Snapshot, env: CycleEnv)
    requires Sound(n, sealed)
    ensures forall e :: e in LedgerWrite(n, env) ==> Harmless(sealed, e)
    ensures forall e :: e in FilesBefore(n, s, env) ==> Harmless(sealed, e)
    ensures forall e :: e in SnapAfter(n, s, env) ==> e.WriteSnap?
  {
    hide SaveLedger, LedgerInv, AllBarred;
  }

  /** Every cycle is disciplined. */
  lemma CycleRobust(mem: Mem, w: World, sealed: set<Retirement>, env: CycleEnv, lim: Limits)
    requires WorldInv(w, sealed, lim) && MemInv(mem, w, sealed, lim) && Sealing(mem, env)
    ensures Robust(sealed, Cycle(mem, w.flows, env, lim).effects)
  {
    NothingRobust(sealed);
    hide WorldInv, Robust, EnsureAsserted, Received, Converge, Sound, Fits, Valid, Leads, ZeroAll;
    if mem.ledgerLost {
      AllHarmless(sealed, Try(env.quarantine, InstallQuarantine));
    } else if env.sync.Unchanged? {
      ReassertRobust(mem.(hasError := false), w, sealed, env, lim);
    } else if env.sync.Body? {
      var n := ReceivedCases(mem, env.sync.snap, w.flows, env, lim);
      if n.Some? {
        ConvergeRobust(mem, w, sealed, n.value, env.sync.snap, env, lim);
      }
    }
  }

  lemma FirstHarmless(w: World, sealed: set<Retirement>, env: BootEnv, setup: Setup)
    requires WorldInv(w, sealed, setup.lim)
    ensures var load := LoadLedgerFile(w, env, setup);
      && (forall e :: e in load.effects ==> Harmless(sealed, e))
      && (load.Held? ==> Sound(load.ledger, sealed))
  {
    LoadFileSafe(w, sealed, env, setup);
    hide WorldInv, Valid, ProvablyLegacy, ValidLedger;
  }

  /** Every boot is disciplined. */
  lemma BootRobust(w: World, sealed: set<Retirement>, env: BootEnv, setup: Setup)
    requires WorldInv(w, sealed, setup.lim)
    ensures Robust(sealed, Boot(w, env, setup).effects)
  {
    SealedMarks(w, sealed, setup.lim);
    FirstHarmless(w, sealed, env, setup);
    hide WorldInv, LoadLedgerFile, LoadPersisted, ApplySnapshot, Avoids, PlanOf, Robust, Sound, Prepared, Ledgers.Verdict, Valid;
    var load := LoadPersisted(w.snapFile, env, setup);
    var first, held := LoadLedgerFile(w, env, setup), LoadLedger(w, Usage(load), env, setup);
    var o := Boot(w, env, setup);
    if held.Lost? {
      assert forall e :: e in o.effects ==> Harmless(sealed, e);
      AllHarmless(sealed, o.effects);
    } else {
      HeldSound(sealed, first.ledger, held.ledger, load, setup.lim);
      var removal := if load.Rejected? && env.removed then [RemoveSnap] else [];
      ApplyRobust(sealed, held.ledger, Usage(load), env.apply);
      assert forall e :: e in first.effects + removal ==> Harmless(sealed, e);
      HarmlessThenRobust(sealed, first.effects + removal, ApplySnapshot(held.ledger, Usage(load), env.apply).effects);
    }
  }

  lemma HeldSound(sealed: set<Retirement>, l: Ledger, n: Ledger, load: Loaded, lim: Limits)
    requires Sound(l, sealed)
    requires if load.Usable? then Valid(load.snap, lim) && Accepts(l, load.snap) && n == Prepared(l, load.snap) else n == l
    requires forall r :: r in sealed ==> r.flowMark != 0
    ensures Sound(n, sealed) && Avoids(n, sealed, PlanOf(Usage(load)))
  {
    NoRules(n, sealed);
    hide Sound, Avoids, PlanOf, Valid, Ledgers.Verdict, Prepared;
    if load.Usable? {
      assert Leads(l, load.snap, lim, n);
      Accepted(l, load.snap, lim, n, sealed);
    }
  }

  // ---- Steps among traffic ----

  lemma FilesOfGood(w: World, sealed: set<Retirement>, lim: Limits)
    requires WorldInv(w, sealed, lim)
    ensures FilesOk(w, sealed, lim)
  {
    hide FilesOk, Unstamped, Unmatched;
  }

  lemma FilesOkAlike(w: World, v: World, sealed: set<Retirement>, lim: Limits)
    requires FilesOk(w, sealed, lim) && v.ledgerFile == w.ledgerFile && v.snapFile == w.snapFile
    ensures FilesOk(v, sealed, lim)
  {
    hide Sound, Fits, Valid;
  }

  /** A safe and robust step, cut anywhere, leaves a good world whatever traffic and wipes came in between. */
  lemma SafeAmongTraffic(w: World, sealed: set<Retirement>, es: seq<Effect>, k: nat, v: World, lim: Limits)
    requires SafeFrom(w, sealed, es, lim) && Robust(sealed, es) && k <= |es| && Interleaved(w, es[..k], v)
    ensures WorldInv(v, SealAll(sealed, es[..k]), lim) && Alike(DoAll(w, es[..k]), v)
  {
    var marks := if w.kernel.Installed? then Marks(w.kernel.rules) else {};
    assert Disciplined(marks, {}, sealed, es);
    hide SafeFrom, WorldInv, Disciplined, Robust, Interleaved, FilesOk, Calm, Unstamped, Unmatched, DoAll, SealAll;
    SafeNow(w, sealed, es, lim);
    InitiallyCalm(w, sealed, lim);
    DisciplinedPrefix(marks, {}, sealed, es, k);
    StaysCalm(w, marks, {}, sealed, es[..k], v);
    SafeCut(w, sealed, es, lim, k);
    InterleavedAlike(w, w, es[..k], v);
    FilesOfGood(DoAll(w, es[..k]), SealAll(sealed, es[..k]), lim);
    FilesOkAlike(DoAll(w, es[..k]), v, SealAll(sealed, es[..k]), lim);
    Together(v, SealAll(sealed, es[..k]), lim);
  }

  lemma SafeNow(w: World, sealed: set<Retirement>, es: seq<Effect>, lim: Limits)
    requires SafeFrom(w, sealed, es, lim)
    ensures WorldInv(w, sealed, lim)
  {
    hide WorldInv;
  }

  lemma Together(v: World, sealed: set<Retirement>, lim: Limits)
    requires FilesOk(v, sealed, lim) && Unstamped(v.kernel, sealed) && Unmatched(v.flows, sealed) && forall r :: r in sealed ==> r.flowMark != 0
    ensures WorldInv(v, sealed, lim)
  {
    hide FilesOk, Unstamped, Unmatched;
  }
}
