/**
 The life of a retirement in the hands of the agent: what must have happened before it
 counts as cleared, what before it is compacted, and when a re-assert may clear it wrongly.
 */
module AgentLifecycle {
  import opened Values
  import opened Snapshots
  import opened Ledgers
  import opened LedgerProofs
  import opened Nft
  import opened Conntrack
  import opened AgentModel
  import opened AgentSafety
  import opened AgentSteps
  import opened AgentRuns
  import opened AgentFiles

  // ---- Cleared ----

  lemma {:induction false} ClearAllDeletes(es: seq<Entry>, calls: seq<ClearCall>, id: string)
    requires id in ClearAll(es, calls).2
    ensures exists e :: e in es && !e.cleared && e.retirement.retirementId == id && DeleteFlows(e.retirement, None) in ClearAll(es, calls).1
    decreases |es|
  {
    assert forall e :: e in es[1..] ==> e in es;
    if es[0].cleared {
      ClearAllDeletes(es[1..], calls, id);
    } else if id != es[0].retirement.retirementId {
      ClearAllDeletes(es[1..], calls[1..], id);
    } else {
      assert es[0] in es;
    }
  }

  /** The one way to become cleared: the fences were installed and verified, then every connection of the
      retirement was deleted, and last the ledger that says so was stored. */
  ghost predicate ClearedProperly(l: Ledger, s: Option<Snapshot>, env: ApplyEnv, ran: Ran, r: Retirement) {
    && ran.ok && env.install.Done? && Verified(env.readback, PlanOf(s), Retirements(l)) && |ran.effects| >= 3
    && r in Retirements(l)
    && ran.effects[0] == Install(PlanOf(s), Retirements(l))
    && DeleteFlows(r, None) in ran.effects[1..|ran.effects| - 1]
    && ran.effects[|ran.effects| - 1] == WriteLedger(ran.ledger)
  }

  lemma ClearedOnlyAfter(l: Ledger, s: Option<Snapshot>, env: ApplyEnv, o: Entry)
    requires LedgerInv(l) && o in l.entries && !o.cleared
    requires var ran := ApplySnapshot(l, s, env); o.(cleared := true) in ran.ledger.entries
    ensures ClearedProperly(l, s, env, ApplySnapshot(l, s, env), o.retirement)
  {
    hide LedgerInv, PlanOf, Retirements, Cleared, ValidLedger, ClearAll, ApplySnapshot, Verified;
    var ran := ApplySnapshot(l, s, env);
    var e := o.(cleared := true);
    if e in l.entries {
      UniqueById(l, e, o);
    }
    var (cleared, deletions, ids) := ClearAll(l.entries, env.clears);
    ClearedShape(l, s, env);
    ClearedFacts(l, ids, e);
    var p :| p in l.entries && p.retirement == e.retirement && e == ClearedEntry(p, ids);
    ClearAllDeletes(l.entries, env.clears, o.retirement.retirementId);
    var d :| d in l.entries && !d.cleared && d.retirement.retirementId == o.retirement.retirementId && DeleteFlows(d.retirement, None) in deletions;
    UniqueById(l, d, o);
    assert ran.effects[1..|ran.effects| - 1] == deletions;
    var i :| 0 <= i < |l.entries| && l.entries[i] == o;
    assert Retirements(l)[i] == o.retirement;
  }

  lemma ClearedShape(l: Ledger, s: Option<Snapshot>, env: ApplyEnv)
    requires ApplySnapshot(l, s, env).ledger != l
    ensures var ran := ApplySnapshot(l, s, env);
      var (cleared, deletions, ids) := ClearAll(l.entries, env.clears);
      && ran.ok && env.install.Done? && Verified(env.readback, PlanOf(s), Retirements(l)) && ran.ledger == Cleared(l, ids)
      && ran.effects == [Install(PlanOf(s), Retirements(l))] + deletions + [WriteLedger(ran.ledger)]
  {
    hide PlanOf, Retirements, Cleared, ValidLedger, ClearAll, Verified;
  }

  lemma UniqueById(l: Ledger, d: Entry, o: Entry)
    requires LedgerInv(l) && d in l.entries && o in l.entries && d.retirement.retirementId == o.retirement.retirementId
    ensures d == o
  {
    EntryFacts(l, d);
  }

  // ---- Compacted ----

  lemma {:induction false} ZeroAllChecks(es: seq<Entry>, n: Ledger, flows: set<Flow>, zeros: seq<bool>, e: Entry)
    requires ZeroAll(es, n, flows, zeros) && e in es && !Known(n.entries, e.retirement.retirementId)
    ensures Matching(flows, e.retirement) == {}
    decreases |es|
  {
    hide Matches;
    if e != es[0] {
      assert e in es[1..];
      if Known(n.entries, es[0].retirement.retirementId) {
        ZeroAllChecks(es[1..], n, flows, zeros, e);
      } else {
        ZeroAllChecks(es[1..], n, flows, zeros[1..], e);
      }
    }
  }

  lemma KnownThroughClearing(l: Ledger, ids: set<string>, e: Entry)
    requires e in l.entries
    ensures Known(Cleared(l, ids).entries, e.retirement.retirementId)
  {
    var i :| 0 <= i < |l.entries| && l.entries[i] == e;
    assert Cleared(l, ids).entries[i] in Cleared(l, ids).entries;
  }

  lemma KnownThroughApply(l: Ledger, s: Option<Snapshot>, env: ApplyEnv, e: Entry)
    requires e in l.entries
    ensures Known(ApplySnapshot(l, s, env).ledger.entries, e.retirement.retirementId)
  {
    hide ApplySnapshot, Cleared, Known;
    ApplyEffects(l, s, env);
    var ids :| ApplySnapshot(l, s, env).ledger == Cleared(l, ids);
    KnownThroughClearing(l, ids, e);
  }

  lemma KnownUntilPrepared(mem: Mem, n: Ledger, s: Snapshot, env: CycleEnv, id: string)
    requires mem.ledger.Some? && Known(mem.ledger.value.entries, id) && Known(n.entries, id)
    ensures var o := Converge(mem, n, s, env); o.mem.ledger.Some? && Known(o.mem.ledger.value.entries, id)
  {
    var e :| e in n.entries && e.retirement.retirementId == id;
    hide ApplySnapshot, SaveLedger, Known;
    KnownThroughApply(n, Some(s), env.apply, e);
  }

  /** A retirement id leaves the ledger only in a cycle whose new snapshot acknowledges it, after it was cleared,
      and only if that same cycle found no connection of it. */
  lemma CompactionNeeds(mem: Mem, w: World, env: CycleEnv, lim: Limits, e: Entry)
    requires Healthy(mem) && !mem.ledgerLost && LedgerInv(mem.ledger.value) && e in mem.ledger.value.entries
    requires var o := Cycle(mem, w.flows, env, lim); o.mem.ledger.Some? ==> !Known(o.mem.ledger.value.entries, e.retirement.retirementId)
    ensures env.sync.Body? && e.cleared && Matching(w.flows, e.retirement) == {}
    ensures env.sync.snap.acknowledged.Some? && e.retirement.generation <= env.sync.snap.acknowledged.value
  {
    hide Received, LedgerInv, ApplySnapshot, Matching;
    var l := mem.ledger.value;
    KnownThroughApply(l, mem.lastApplied, env.apply, e);
    KnownThroughApply(l, None, env.apply, e);
    assert Known(l.entries, e.retirement.retirementId);
    hide Known;
    if env.sync.Body? {
      Forgotten(mem, w, env.sync.snap, env, lim, e);
    }
  }

  lemma Forgotten(mem: Mem, w: World, s: Snapshot, env: CycleEnv, lim: Limits, e: Entry)
    requires mem.ledger.Some? && LedgerInv(mem.ledger.value) && e in mem.ledger.value.entries
    requires var o := Received(mem, s, w.flows, env, lim); o.mem.ledger.Some? ==> !Known(o.mem.ledger.value.entries, e.retirement.retirementId)
    ensures e.cleared && Matching(w.flows, e.retirement) == {}
    ensures s.acknowledged.Some? && e.retirement.generation <= s.acknowledged.value
  {
    assert Known(mem.ledger.value.entries, e.retirement.retirementId);
    hide Received, Converge, ZeroAll, LedgerInv, Matching, Known, Leads;
    var l := mem.ledger.value;
    var next := ReceivedCases(mem, s, w.flows, env, lim);
    var n := next.value;
    assert !Known(n.entries, e.retirement.retirementId) by {
      if Known(n.entries, e.retirement.retirementId) {
        KnownUntilPrepared(mem, n, s, env, e.retirement.retirementId);
      }
    }
    ZeroAllChecks(l.entries, n, w.flows, env.zeros, e);
    Gone(l, s, lim, n, e);
  }

  lemma Gone(l: Ledger, s: Snapshot, lim: Limits, n: Ledger, e: Entry)
    requires LedgerInv(l) && Leads(l, s, lim, n) && e in l.entries && !Known(n.entries, e.retirement.retirementId)
    ensures e.cleared && s.acknowledged.Some? && e.retirement.generation <= s.acknowledged.value
  {
    assert s.retirements.Some?;
    assert ManagedStep(l, s, lim, n);
    hide LedgerInv, Leads;
    OldEntryFate(l, s, lim, n, e);
    StepFacts(l, s, lim, n);
  }

  // ---- A reused retirement id ----

  /** A connection of this retirement. */
  function FlowOf(r: Retirement): Flow
    requires r.targetAddr.IPv4?
  {
    Flow(0, r.flowMark, ProtoNumber(r.proto), r.publicPort, r.targetAddr.addr, r.targetPort, 0x20)
  }

  lemma FlowOfMatches(r: Retirement)
    requires r.targetAddr.IPv4?
    ensures Matches(FlowOf(r), r)
  {
  }

  lemma {:induction false} ZeroAllPasses(es: seq<Entry>, n: Ledger, flows: set<Flow>) returns (zeros: seq<bool>)
    requires forall e :: e in es && !Known(n.entries, e.retirement.retirementId) ==> Matching(flows, e.retirement) == {}
    ensures ZeroAll(es, n, flows, zeros)
    decreases |es|
  {
    hide Known, Matching;
    zeros := [];
    if es != [] {
      assert es[0] in es && forall e :: e in es[1..] ==> e in es;
      zeros := ZeroAllPasses(es[1..], n, flows);
      if !Known(n.entries, es[0].retirement.retirementId) {
        zeros := [true] + zeros;
      }
    }
  }

  lemma Reused(l: Ledger, s: Snapshot, lim: Limits, n: Ledger, e: Entry)
    requires ManagedStep(l, s, lim, n) && e in l.entries && e !in n.entries
    ensures Known(n.entries, e.retirement.retirementId) <==>
      exists r :: r in s.retirements.value && r.retirementId == e.retirement.retirementId
  {
    PrepareSettles(l, s, lim, n);
    if Known(n.entries, e.retirement.retirementId) {
      var f :| f in n.entries && f.retirement.retirementId == e.retirement.retirementId;
      NewEntryOrigin(l, s, lim, n, f);
      EntryFacts(l, e);
    }
    if r :| r in s.retirements.value && r.retirementId == e.retirement.retirementId {
      var f :| f in n.entries && f.retirement == r;
    }
  }

  /** The zero check covers a compacted entry exactly when the new snapshot does not give its id to another retirement:
      the check looks entries up by id, while acceptance compares ids only with the entries that are kept. */
  lemma ZeroCheckCovers(l: Ledger, s: Snapshot, lim: Limits, n: Ledger, e: Entry)
    requires ManagedStep(l, s, lim, n) && e in l.entries && e !in n.entries
    ensures (forall flows, zeros :: ZeroAll(l.entries, n, flows, zeros) ==> Matching(flows, e.retirement) == {})
      <==> forall r :: r in s.retirements.value ==> r.retirementId != e.retirement.retirementId
  {
    Reused(l, s, lim, n, e);
    StepParts(l, s, lim, n);
    if Known(n.entries, e.retirement.retirementId) {
      UncheckedFlow(l, n, e);
    } else {
      hide ManagedStep, Known, Matches, ZeroAll;
      forall flows, zeros | ZeroAll(l.entries, n, flows, zeros) ensures Matching(flows, e.retirement) == {} {
        ZeroAllChecks(l.entries, n, flows, zeros, e);
      }
    }
  }

  lemma UncheckedFlow(l: Ledger, n: Ledger, e: Entry)
    requires LedgerInv(l) && e in l.entries && Known(n.entries, e.retirement.retirementId)
    ensures exists flows, zeros :: ZeroAll(l.entries, n, flows, zeros) && Matching(flows, e.retirement) != {}
  {
    assert e.retirement.targetAddr.IPv4?;
    var f := FlowOf(e.retirement);
    FlowOfMatches(e.retirement);
    forall o | o in l.entries && !Known(n.entries, o.retirement.retirementId) ensures Matching({f}, o.retirement) == {} {
      EntryFacts(l, e);
    }
    var zeros := ZeroAllPasses(l.entries, n, {f});
    assert f in Matching({f}, e.retirement);
  }

  // ---- Re-assert ----

  lemma AllCleared(l: Ledger, ids: set<string>, r: Retirement)
    requires forall e :: e in l.entries && !e.cleared ==> e.retirement.retirementId in ids
    ensures (exists e :: e in Cleared(l, ids).entries && e.cleared && e.retirement == r) <==> r in Retirements(l)
  {
    if r in Retirements(l) {
      var i :| 0 <= i < |l.entries| && Retirements(l)[i] == r;
      assert l.entries[i] in l.entries;
      assert Cleared(l, ids).entries[i] in Cleared(l, ids).entries;
    }
    if e :| e in Cleared(l, ids).entries && e.cleared && e.retirement == r {
      var i :| 0 <= i < |l.entries| && Cleared(l, ids).entries[i] == e;
      assert Retirements(l)[i] == r;
    }
  }

  /** After a managed apply that returned success, every outstanding retirement is cleared and the kernel holds the plan. */
  lemma ApplyClearsAll(w: World, l: Ledger, s: Option<Snapshot>, env: ApplyEnv, r: Retirement)
    requires l.armed && ApplySnapshot(l, s, env).ok
    ensures var ran := ApplySnapshot(l, s, env);
      && DoAll(w, ran.effects).kernel == Installed(PlanOf(s), Retirements(l))
      && (r in Receipts(ran.ledger.entries) <==> r in Retirements(l))
  {
    hide PlanOf, Cleared, ValidLedger, Receipts, Verified;
    var ran := ApplySnapshot(l, s, env);
    var (cleared, deletions, ids) := ClearAll(l.entries, env.clears);
    ClearAllIds(l.entries, env.clears);
    AllCleared(l, ids, r);
    ReceiptsAreCleared(ran.ledger.entries, r);
    ClearAllOnlyDeletes(l.entries, env.clears);
    var rest := deletions + [WriteLedger(ran.ledger)];
    assert ran.effects == [Install(PlanOf(s), Retirements(l))] + rest;
    KernelKept(Do(w, ran.effects[0]), rest);
  }

  lemma {:induction false} KernelKept(w: World, es: seq<Effect>)
    requires forall e :: e in es ==> !e.Install? && !e.InstallQuarantine?
    ensures DoAll(w, es).kernel == w.kernel
    decreases |es|
  {
    if es != [] {
      assert es[0] in es;
      KernelKept(Do(w, es[0]), es[1..]);
    }
  }

  /** A successful re-assert reports retirements as cleared while the kernel may still stamp them: the receipts it leads to
      are true exactly when no rule of the last applied snapshot carries the mark of an outstanding entry. */
  lemma ReassertSealsIff(mem: Mem, w: World, env: CycleEnv)
    requires mem.ledger.Some? && mem.ledger.value.armed && mem.applied && !env.present.Present?
    requires EnsureAsserted(mem, env).attempt == Attempt(mem.lastApplied, true)
    ensures DoAll(w, EnsureAsserted(mem, env).effects).kernel.Installed?
    ensures var o := EnsureAsserted(mem, env);
      (forall r, q :: r in ReportOf(o.mem).receipts && q in DoAll(w, o.effects).kernel.rules ==> q.flowMark != r.flowMark)
      <==> (forall r, q :: r in Retirements(mem.ledger.value) && q in PlanOf(mem.lastApplied) ==> q.flowMark != r.flowMark)
  {
    hide PlanOf, ApplySnapshot, Receipts;
    var l, o := mem.ledger.value, EnsureAsserted(mem, env);
    forall r ensures r in ReportOf(o.mem).receipts <==> r in Retirements(l) {
      ApplyClearsAll(w, l, mem.lastApplied, env.apply, r);
    }
    assert DoAll(w, o.effects).kernel == Installed(PlanOf(mem.lastApplied), Retirements(l)) by {
      var r: Retirement :| true;
      ApplyClearsAll(w, l, mem.lastApplied, env.apply, r);
    }
  }
}
