/**
 The agent as an object (internal/agent/agent.go): methods that update its fields and drive
 disk, kernel and conntrack, each proved to do exactly what AgentModel says.
 */
module Agents {
  import opened Values
  import opened Snapshots
  import opened Ledgers
  import opened LedgerProofs
  import opened RetirementLedger
  import opened Nft
  import opened Conntrack
  import opened AgentModel
  import RB = Readback
  import opened AgentSafety
  import opened AgentSteps
  import opened AgentTraffic
  import opened AgentLifecycle
  import opened AgentCounters
  import C = Counters

  /** The state outside the process, changed by atomic calls that may report failure. */
  class Host {
    var ledgerFile: LedgerFile
    var snapFile: SnapFile
    var kernel: KernelTable
    const table: ConnectionTable

    function View(): World
      reads this, table
    {
      World(ledgerFile, snapFile, kernel, table.flows)
    }

    constructor (w: World, table: ConnectionTable)
      requires table.flows == w.flows
      ensures View() == w && this.table == table
    {
      ledgerFile, snapFile, kernel := w.ledgerFile, w.snapFile, w.kernel;
      this.table := table;
    }

    method Replace(rules: seq<Rule>, fences: seq<Retirement>, c: Call) returns (ok: bool)
      modifies this`kernel
      ensures View() == DoAll(old(View()), Try(c, Install(rules, fences))) && ok == c.Done?
    {
      DoTry(View(), c, Install(rules, fences));
      if !c.Refused? {
        kernel := Installed(rules, fences);
      }
      ok := c.Done?;
    }

    method Quarantine(c: Call)
      modifies this`kernel
      ensures View() == DoAll(old(View()), Try(c, InstallQuarantine))
    {
      DoTry(View(), c, InstallQuarantine);
      if !c.Refused? {
        kernel := Quarantined;
      }
    }

    /** Persist: validate, then rename into place. */
    method StoreLedger(l: LedgerObject, c: Call) returns (ok: bool)
      modifies this`ledgerFile
      ensures var save := SaveLedger(l.View(), c);
        View() == DoAll(old(View()), Try(save, WriteLedger(l.View()))) && ok == save.Done?
    {
      var good := l.Validate();
      hide ValidLedger;
      DoTry(View(), SaveLedger(l.View(), c), WriteLedger(l.View()));
      if good && !c.Refused? {
        ledgerFile := StoredLedger(l.View());
      }
      ok := good && c.Done?;
    }

    method StoreSnap(s: Snapshot, now: nat, c: Call) returns (ok: bool)
      modifies this`snapFile
      ensures View() == DoAll(old(View()), Try(c, WriteSnap(AgentModel.Stamped(s, now)))) && ok == c.Done?
    {
      DoTry(View(), c, WriteSnap(AgentModel.Stamped(s, now)));
      if !c.Refused? {
        snapFile := StoredSnap(AgentModel.Stamped(s, now));
      }
      ok := c.Done?;
    }

    method DropSnap(removed: bool)
      modifies this`snapFile
      ensures View() == DoAll(old(View()), if removed then [RemoveSnap] else [])
    {
      DoTry(View(), Done, RemoveSnap);
      if removed {
        snapFile := NoSnap;
      }
    }
  }

  lemma DoTry(w: World, c: Call, e: Effect)
    ensures DoAll(w, Try(c, e)) == if c.Refused? then w else Do(w, e)
  {
    assert [e][1..] == [];
  }

  // ---- The two conntrack loops ----

  /** What a conntrack clear amounts to, whatever the socket answered. */
  function ClearCallOf(ok: bool, before: set<Flow>, after: set<Flow>): ClearCall {
    if ok then ClearedAll else ClearFailed(before - after)
  }

  lemma ClearIsDeletion(w: World, r: Retirement, ok: bool, after: set<Flow>)
    requires ok ==> after == w.flows - Matching(w.flows, r)
    requires after <= w.flows && w.flows - after <= Matching(w.flows, r)
    ensures var call := ClearCallOf(ok, w.flows, after);
      w.(flows := after) == Do(w, DeleteFlows(r, if ok then None else Some(call.some)))
  {
    hide Matching;
    var gone := w.flows - after;
    assert gone * Matching(w.flows, r) == gone;
    assert w.flows - gone == after;
  }

  function Outstanding(es: seq<Entry>): nat {
    if es == [] then 0 else (if es[0].cleared then 0 else 1) + Outstanding(es[1..])
  }

  /** The loop over the first entries, all cleared, then over the others. */
  lemma {:induction false} ClearAllSplit(a: seq<Entry>, b: seq<Entry>, ca: seq<ClearCall>, cb: seq<ClearCall>)
    requires ClearAll(a, ca).0 && |ca| == Outstanding(a)
    ensures var (ok, effects, ids) := ClearAll(b, cb);
      ClearAll(a + b, ca + cb) == (ok, ClearAll(a, ca).1 + effects, ClearAll(a, ca).2 + ids)
    decreases |a|
  {
    var (ok, effects, ids) := ClearAll(b, cb);
    if a == [] {
      assert a + b == b && ca + cb == cb && [] + effects == effects && {} + ids == ids;
    } else {
      assert (a + b)[0] == a[0] && (a + b)[1..] == a[1..] + b;
      if a[0].cleared {
        ClearAllSplit(a[1..], b, ca, cb);
      } else {
        assert (ca + cb)[0] == ca[0] && (ca + cb)[1..] == ca[1..] + cb;
        ClearAllSplit(a[1..], b, ca[1..], cb);
        var d := [DeleteFlows(a[0].retirement, None)];
        var (rest, deletions, names) := ClearAll(a[1..], ca[1..]);
        var name := {a[0].retirement.retirementId};
        assert ca[0].ClearedAll? && ClearAll(a, ca) == (rest, d + deletions, name + names);
        assert d + (deletions + effects) == d + deletions + effects;
        assert name + (names + ids) == name + names + ids;
      }
    }
  }

  lemma {:induction false} OutstandingSplit(a: seq<Entry>, b: seq<Entry>)
    ensures Outstanding(a + b) == Outstanding(a) + Outstanding(b)
    decreases |a|
  {
    if a == [] {
      assert a + b == b;
    } else {
      assert (a + b)[0] == a[0] && (a + b)[1..] == a[1..] + b;
      OutstandingSplit(a[1..], b);
    }
  }

  /** One more entry that needed no clearing, or was cleared. */
  lemma ClearOneMore(es: seq<Entry>, i: nat, calls: seq<ClearCall>)
    requires i < |es| && ClearAll(es[..i], calls).0 && |calls| == Outstanding(es[..i])
    ensures var more := if es[i].cleared then calls else calls + [ClearedAll];
      var (ok, effects, ids) := ClearAll(es[..i], calls);
      && |more| == Outstanding(es[..i + 1])
      && ClearAll(es[..i + 1], more) ==
           if es[i].cleared then (true, effects, ids)
           else (true, effects + [DeleteFlows(es[i].retirement, None)], ids + {es[i].retirement.retirementId})
  {
    var cb := if es[i].cleared then [] else [ClearedAll];
    assert es[..i + 1] == es[..i] + [es[i]] && calls + [] == calls;
    assert [es[i]][1..] == [] && [ClearedAll][1..] == [];
    var (ok, effects, ids) := ClearAll(es[..i], calls);
    assert effects + [] == effects && ids + {} == ids;
    assert ClearAll([], []) == (true, [], {});
    OutstandingSplit(es[..i], [es[i]]);
    ClearAllSplit(es[..i], [es[i]], calls, cb);
    assert [DeleteFlows(es[i].retirement, None)] + [] == [DeleteFlows(es[i].retirement, None)];
    assert {es[i].retirement.retirementId} + {} == {es[i].retirement.retirementId};
  }

  lemma ClearStops(es: seq<Entry>, i: nat, calls: seq<ClearCall>, some: set<Flow>)
    requires i < |es| && ClearAll(es[..i], calls).0 && |calls| == Outstanding(es[..i]) && !es[i].cleared
    ensures ClearAll(es, calls + [ClearFailed(some)]) ==
      (false, ClearAll(es[..i], calls).1 + [DeleteFlows(es[i].retirement, Some(some))], ClearAll(es[..i], calls).2)
  {
    assert es == es[..i] + es[i..];
    ClearAllSplit(es[..i], es[i..], calls, [ClearFailed(some)]);
    assert es[i..][0] == es[i];
    var ids := ClearAll(es[..i], calls).2;
    assert ids + {} == ids;
  }

  /** Unclearing what was just cleared restores the ledger: the ids are unique, and all of them were uncleared. */
  lemma RollbackRestores(l: Ledger, ids: set<string>, k: nat)
    requires ValidLedger(l) && k < |l.entries|
    requires forall id :: id in ids ==> exists e :: e in l.entries && !e.cleared && e.retirement.retirementId == id
    ensures UnclearedEntry(ClearedEntry(l.entries[k], ids), ids) == l.entries[k]
  {
    var o := l.entries[k];
    if o.retirement.retirementId in ids {
      var e :| e in l.entries && !e.cleared && e.retirement.retirementId == o.retirement.retirementId;
      EntryFacts(l, e);
    }
  }

  function Absent(es: seq<Entry>, n: Ledger): nat {
    if es == [] then 0 else (if Known(n.entries, es[0].retirement.retirementId) then 0 else 1) + Absent(es[1..], n)
  }

  lemma {:induction false} ZeroSplit(a: seq<Entry>, b: seq<Entry>, n: Ledger, flows: set<Flow>, za: seq<bool>, zb: seq<bool>)
    requires ZeroAll(a, n, flows, za) && |za| == Absent(a, n)
    ensures ZeroAll(a + b, n, flows, za + zb) == ZeroAll(b, n, flows, zb)
    ensures Absent(a + b, n) == Absent(a, n) + Absent(b, n)
    decreases |a|
  {
    hide Known, Matching;
    if a == [] {
      assert a + b == b && za + zb == zb;
    } else {
      assert (a + b)[0] == a[0] && (a + b)[1..] == a[1..] + b;
      if Known(n.entries, a[0].retirement.retirementId) {
        ZeroSplit(a[1..], b, n, flows, za, zb);
      } else {
        assert (za + zb)[0] == za[0] && (za + zb)[1..] == za[1..] + zb;
        ZeroSplit(a[1..], b, n, flows, za[1..], zb);
      }
    }
  }

  /** One more entry that is still listed, or whose connections were found to be gone. */
  lemma ZeroOneMore(es: seq<Entry>, i: nat, n: Ledger, flows: set<Flow>, zeros: seq<bool>)
    requires i < |es| && ZeroAll(es[..i], n, flows, zeros) && |zeros| == Absent(es[..i], n)
    ensures Known(n.entries, es[i].retirement.retirementId) ==>
      ZeroAll(es[..i + 1], n, flows, zeros) && |zeros| == Absent(es[..i + 1], n)
    ensures !Known(n.entries, es[i].retirement.retirementId) ==>
      && !ZeroAll(es, n, flows, zeros + [false])
      && (Matching(flows, es[i].retirement) == {} ==> ZeroAll(es[..i + 1], n, flows, zeros + [true]) && |zeros| + 1 == Absent(es[..i + 1], n))
  {
    hide Known, Matching;
    assert es[..i + 1] == es[..i] + [es[i]] && es == es[..i] + es[i..] && zeros + [] == zeros;
    assert [es[i]][1..] == [] && es[i..][0] == es[i] && [true][1..] == [];
    ZeroSplit(es[..i], [es[i]], n, flows, zeros, []);
    ZeroSplit(es[..i], [es[i]], n, flows, zeros, [true]);
    ZeroSplit(es[..i], es[i..], n, flows, zeros, [false]);
  }

  /** The environment with the conntrack answers spelled out. */
  function With(env: CycleEnv, zeros: seq<bool>, clears: seq<ClearCall>): CycleEnv {
    env.(zeros := zeros, apply := env.apply.(clears := clears))
  }

  /** Decoded policies are canonical, so only a failed read or a table that differs is refused. */
  method VerifyTable(v: Inspection, rules: seq<Rule>, fences: seq<Retirement>) returns (ok: bool)
    ensures ok == Verified(v, rules, fences)
  {
    hide RulesOk, RB.Conforms;
    ok := v.table.Some? && RulesOk(rules);
    if ok {
      ok := RB.VerifyManaged(v.iface, rules, fences, v.guards, v.table.value);
    }
  }

  method KeptIds(s: Snapshot) returns (keep: set<int>)
    ensures keep == IdsOf(s)
  {
    keep := {};
    for i := 0 to |s.mappings|
      invariant keep == set k | 0 <= k < i :: s.mappings[k].id
    {
      keep := keep + {s.mappings[i].id};
    }
    forall id ensures id in keep <==> id in IdsOf(s) {
      if id in IdsOf(s) {
        var m :| m in s.mappings && m.id == id;
        var k :| 0 <= k < |s.mappings| && s.mappings[k] == m;
      }
    }
  }

  // ---- The agent ----

  class Agent {
    var ledger: LedgerObject?
    var ledgerLost: bool
    var applied: bool
    var appliedGeneration: int
    var lastApplied: Option<Snapshot>
    var bootFailed: bool
    var hasError: bool
    const counters: C.CounterState
    const host: Host
    const setup: Setup

    function View(): Mem
      reads this, ledger
    {
      Mem(if ledger == null then None else Some(ledger.View()), ledgerLost, applied, appliedGeneration, lastApplied, bootFailed, hasError)
    }

    ghost predicate Valid()
      reads this, ledger
    {
      Healthy(View()) && (ledger != null ==> ValidLedger(ledger.View()))
    }

    /** A new agent holds a new ledger (if an id could be drawn), which boot replaces. */
    constructor (host: Host, setup: Setup, id: Option<string>)
      ensures View() == Blank.(ledger := if id.Some? then Some(Fresh(id.value)) else None)
      ensures this.host == host && this.setup == setup && fresh(counters) && counters.m == map[]
    {
      ledger, ledgerLost, applied, appliedGeneration := null, false, false, 0;
      lastApplied, bootFailed, hasError := None, false, false;
      this.host, this.setup := host, setup;
      counters := new C.CounterState();
      new;
      if id.Some? {
        ledger := new LedgerObject.Of(Fresh(id.value));
      }
    }

    /** Merges the current kernel counters, unless reading them failed. */
    method FoldCounters(read: Readout)
      modifies counters`m
      ensures counters.m == FoldRead(old(counters.m), read)
    {
      if read.Some? {
        counters.Fold(read.value);
      }
    }

    /** Deletes the connections of every entry not yet cleared, in order, until one fails. */
    method ClearConnections(answers: nat -> Answers) returns (ok: bool, ids: set<string>, ghost calls: seq<ClearCall>)
      requires ledger != null
      modifies host.table
      ensures var r := ClearAll(ledger.entries, calls); ok == r.0 && ids == r.2 && host.View() == DoAll(old(host.View()), r.1)
    {
      var es := ledger.entries;
      ok, ids, calls := true, {}, [];
      assert es[..0] == [];
      for i := 0 to |es|
        invariant ClearAll(es[..i], calls).0 && ClearAll(es[..i], calls).2 == ids && |calls| == Outstanding(es[..i])
        invariant host.View() == DoAll(old(host.View()), ClearAll(es[..i], calls).1)
      {
        ClearOneMore(es, i, calls);
        if !es[i].cleared {
          ghost var w, done := host.View(), ClearAll(es[..i], calls).1;
          var r := es[i].retirement;
          var gone := host.table.Clear(r, answers(i));
          ghost var call := ClearCallOf(gone, w.flows, host.table.flows);
          ClearIsDeletion(w, r, gone, host.table.flows);
          ghost var e := DeleteFlows(r, if gone then None else Some(call.some));
          DoConcat(old(host.View()), done, [e]);
          DoOne(w, e);
          if !gone {
            ClearStops(es, i, calls, call.some);
            calls := calls + [call];
            return false, ids, calls;
          }
          calls, ids := calls + [call], ids + {r.retirementId};
        }
      }
      assert es[..|es|] == es;
    }

    /** Installs the plan of the snapshot behind the ledger's fences; under an armed ledger also verifies the readback, clears the
        connections of new retirements and stores that they are cleared. */
    method Apply(s: Option<Snapshot>, env: ApplyEnv, answers: nat -> Answers) returns (ok: bool, ghost clears: seq<ClearCall>)
      requires Valid() && ledger != null
      modifies ledger, host, host.table
      ensures Valid()
      ensures var ran := ApplySnapshot(old(ledger.View()), s, env.(clears := clears));
        ok == ran.ok && ledger.View() == ran.ledger && host.View() == DoAll(old(host.View()), ran.effects)
    {
      hide ValidLedger, PlanOf, Cleared, DoAll, Try, Verified;
      ghost var l, w := ledger.View(), host.View();
      var rules := PlanOf(s);
      var fences := ledger.Retirements();
      clears := [];
      ok := host.Replace(rules, fences, env.install);
      if (!ledger.armed && |fences| == 0) || !ok {
        return;
      }
      ok := VerifyTable(env.readback, rules, fences);
      if !ok {
        return;
      }
      ghost var install, w1 := Try(env.install, Install(rules, fences)), host.View();
      var cleared;
      ok, cleared, clears := ClearConnections(answers);
      ghost var deletions := ClearAll(l.entries, clears).1;
      DoConcat(w, install, deletions);
      if !ok {
        return;
      }
      ledger.Clear(cleared);
      ok := host.StoreLedger(ledger, env.persist);
      ghost var n := Ledgers.Cleared(l, cleared);
      DoConcat(w, install + deletions, Try(SaveLedger(n, env.persist), WriteLedger(n)));
      if !ok {
        ledger.Unclear(cleared);
        Restored(l, cleared, clears, ledger.entries);
      }
    }

    method EnsureQuarantine(c: Call)
      modifies host
      ensures host.View() == DoAll(old(host.View()), Try(c, InstallQuarantine))
    {
      host.Quarantine(c);
    }

    /** Re-attempts the converge to the empty set after a failed boot, without looking whether a table is there. */
    method RetryBootConverge(env: CycleEnv, answers: nat -> Answers, read: Readout) returns (ghost clears: seq<ClearCall>)
      requires Valid() && ledger != null && !ledgerLost
      modifies this, ledger, host, host.table, counters`m
      ensures Valid() && ledger == old(ledger)
      ensures var o, m1 := AgentModel.RetryBootConverge(old(View()), With(env, env.zeros, clears)), FoldRead(old(counters.m), read);
        counters.m == if Succeeded(o) then C.Rebaselined(m1) else m1
      ensures var o := AgentModel.RetryBootConverge(old(View()), With(env, env.zeros, clears));
        View() == o.mem && host.View() == DoAll(old(host.View()), o.effects)
    {
      hide ApplySnapshot, ValidLedger, DoAll, FoldRead, C.Rebaselined;
      FoldCounters(read);
      var ok;
      ok, clears := Apply(None, env.apply, answers);
      if !ok {
        hasError := true;
        return;
      }
      counters.MarkReset();
      appliedGeneration, applied, lastApplied := 0, true, None;
      bootFailed := false;
    }

    /** Repairs a table that was wiped from outside, at the same generation. */
    method EnsureAsserted(env: CycleEnv, answers: nat -> Answers, read: Readout) returns (ghost clears: seq<ClearCall>)
      requires Valid() && ledger != null && !ledgerLost
      modifies this, ledger, host, host.table, counters`m
      ensures Valid() && ledger == old(ledger)
      ensures counters.m == ReassertTotals(old(counters.m), old(View()), With(env, env.zeros, clears), read)
      ensures var o := AgentModel.EnsureAsserted(old(View()), With(env, env.zeros, clears));
        View() == o.mem && host.View() == DoAll(old(host.View()), o.effects)
    {
      hide ApplySnapshot, ValidLedger, FoldRead, C.Rebaselined;
      clears := [];
      if !applied {
        if bootFailed {
          clears := RetryBootConverge(env, answers, read);
        }
        return;
      }
      if env.present.Present? {
        return;
      }
      hide DoAll;
      var ok;
      ok, clears := Apply(lastApplied, env.apply, answers);
      if !ok {
        hasError := true;
        return;
      }
      counters.MarkReset();
    }

    /** Every entry that the next ledger no longer lists must have no connection left. */
    method CheckZero(next: LedgerObject, answers: nat -> Answers) returns (ok: bool, ghost zeros: seq<bool>)
      requires ledger != null
      ensures ok == ZeroAll(ledger.entries, next.View(), host.table.flows, zeros)
      ensures ok ==> forall e :: e in ledger.entries && !Known(next.entries, e.retirement.retirementId) ==>
        Matching(host.table.flows, e.retirement) == {}
    {
      hide Matching;
      ok, zeros := true, [];
      var es := ledger.entries;
      assert es[..0] == [];
      for i := 0 to |es|
        invariant ZeroAll(es[..i], next.View(), host.table.flows, zeros) && |zeros| == Absent(es[..i], next.View())
      {
        ZeroOneMore(es, i, next.View(), host.table.flows, zeros);
        var still := false;
        for j := 0 to |next.entries|
          invariant still <==> exists k :: 0 <= k < j && next.entries[k].retirement.retirementId == es[i].retirement.retirementId
        {
          if next.entries[j].retirement.retirementId == es[i].retirement.retirementId {
            still := true;
          }
        }
        assert still <==> Known(next.View().entries, es[i].retirement.retirementId);
        if !still {
          var zero := host.table.Zero(es[i].retirement, answers(i));
          if !zero {
            return false, zeros + [false];
          }
          zeros := zeros + [true];
        }
      }
      assert es[..|es|] == es;
      forall e | e in es && !Known(next.entries, e.retirement.retirementId) ensures Matching(host.table.flows, e.retirement) == {} {
        ZeroAllChecks(es, next.View(), host.table.flows, zeros, e);
      }
    }

    /** Under an armed ledger both files come before the kernel: the ledger, then its snapshot. */
    method StoreFiles(next: LedgerObject, s: Snapshot, env: CycleEnv) returns (go: bool)
      requires ledger != null && next.armed
      modifies this`ledger, this`hasError, host
      ensures var save := SaveLedger(next.View(), env.saveLedger);
        && go == (save.Done? && env.saveSnap.Done?)
        && ledger == (if save.Done? then next else old(ledger)) && hasError == (old(hasError) || !go)
        && host.View() == DoAll(old(host.View()), if save.Done? then FileEffects(next.View(), s, env) else Try(save, WriteLedger(next.View())))
    {
      hide DoAll, SaveLedger, Try;
      ghost var w, n := host.View(), next.View();
      go := host.StoreLedger(next, env.saveLedger);
      if !go {
        hasError := true;
        return;
      }
      ledger := next;
      go := host.StoreSnap(s, env.now, env.saveSnap);
      DoConcat(w, Try(Done, WriteLedger(n)), Try(env.saveSnap, WriteSnap(AgentModel.Stamped(s, env.now))));
      if !go {
        hasError := true;
      }
    }

    /** Notes a successful apply: the generation, the counters and the end of any error. */
    method NoteApplied(s: Snapshot) returns (advanced: bool)
      modifies this`appliedGeneration, this`applied, this`lastApplied, this`bootFailed, this`hasError, counters`m
      ensures advanced == (!old(applied) || s.generation != old(appliedGeneration))
      ensures appliedGeneration == s.generation && applied && lastApplied == Some(s) && !bootFailed && !hasError
      ensures counters.m == C.Pruned(C.Rebaselined(old(counters.m)), IdsOf(s))
    {
      counters.MarkReset();
      advanced := !applied || s.generation != appliedGeneration;
      appliedGeneration, applied, lastApplied := s.generation, true, Some(s);
      bootFailed, hasError := false, false;
      var keep := KeptIds(s);
      counters.Prune(keep);
    }

    /** The apply of a convergence, the late snapshot of a legacy one, and the notes. */
    method Finish(s: Snapshot, env: CycleEnv, answers: nat -> Answers) returns (advanced: bool, ghost clears: seq<ClearCall>)
      requires Valid() && ledger != null && !ledgerLost
      modifies this, ledger, host, host.table, counters`m
      ensures Valid() && ledger == old(ledger)
      ensures var n := old(ledger.View());
        var ran := ApplySnapshot(n, Some(s), env.apply.(clears := clears));
        if !ran.ok then
          && View() == old(View()).(ledger := Some(ran.ledger), hasError := true) && !advanced
          && host.View() == DoAll(old(host.View()), ran.effects) && counters.m == old(counters.m)
        else
          && View() == Mem(Some(ran.ledger), false, true, s.generation, Some(s), false, false)
          && advanced == (!old(applied) || s.generation != old(appliedGeneration))
          && host.View() == DoAll(old(host.View()), ran.effects + SnapAfter(n, s, env))
          && counters.m == C.Pruned(C.Rebaselined(old(counters.m)), IdsOf(s))
    {
      hide ApplySnapshot, ValidLedger, DoAll, Try, C.Rebaselined, C.Pruned, IdsOf;
      ghost var w, n := host.View(), ledger.View();
      var armed := ledger.armed;
      var ok;
      ok, clears := Apply(Some(s), env.apply, answers);
      ghost var ran := ApplySnapshot(n, Some(s), env.apply.(clears := clears));
      if !ok {
        hasError := true;
        return false, clears;
      }
      if armed {
        NothingDone(host.View());
      } else {
        var _ := host.StoreSnap(s, env.now, env.saveSnap);
      }
      DoConcat(w, ran.effects, SnapAfter(n, s, env));
      advanced := NoteApplied(s);
    }

    /** Stores and applies a prepared snapshot, in the order its kind demands, and notes the generation. */
    method Converge(next: LedgerObject, s: Snapshot, env: CycleEnv, answers: nat -> Answers, read: Readout)
      returns (advanced: bool, ghost clears: seq<ClearCall>)
      requires Valid() && ledger != null && !ledgerLost && ValidLedger(next.View())
      modifies this, ledger, next, host, host.table, counters`m
      ensures Valid() && (ledger == old(ledger) || ledger == next)
      ensures counters.m == ConvergeTotals(old(counters.m), old(View()), old(next.View()), s, With(env, env.zeros, clears), read)
      ensures var o := AgentModel.Converge(old(View()), old(next.View()), s, With(env, env.zeros, clears));
        View() == o.mem && advanced == o.advanced && host.View() == DoAll(old(host.View()), o.effects)
    {
      hide ApplySnapshot, ValidLedger, DoAll, AgentModel.Converge, SaveLedger, Try, With, FoldRead, C.Rebaselined, C.Pruned, IdsOf, FileEffects, SnapAfter;
      FoldCounters(read);
      clears := [];
      ghost var w, n, mem := host.View(), next.View(), View();
      if next.armed {
        ConvergeStopsEarly(mem, n, s, env, clears);
        var go := StoreFiles(next, s, env);
        if !go {
          return false, [];
        }
      } else {
        NothingDone(w);
        NoFiles(n, s, env);
        ledger := next;
      }
      advanced, clears := Finish(s, env, answers);
      ConvergeApplies(mem, n, s, env, clears);
      ghost var ran := ApplySnapshot(n, Some(s), env.apply.(clears := clears));
      DoConcat(w, FileEffects(n, s, env), ran.effects);
      DoConcat(w, FileEffects(n, s, env), ran.effects + SnapAfter(n, s, env));
      assert FileEffects(n, s, env) + (ran.effects + SnapAfter(n, s, env)) == FileEffects(n, s, env) + ran.effects + SnapAfter(n, s, env);
    }

    /** A changed answer: validate, prepare, check, and converge unless everything is in place. */
    method Receive(s: Snapshot, env: CycleEnv, clearing: nat -> Answers, zeroing: nat -> Answers, read: Readout)
      returns (advanced: bool, ghost zeros: seq<bool>, ghost clears: seq<ClearCall>)
      requires Valid() && ledger != null && !ledgerLost
      modifies this, ledger, host, host.table, counters`m
      ensures Valid() && (ledger == old(ledger) || fresh(ledger))
      ensures counters.m == ReceivedTotals(old(counters.m), old(View()), s, old(host.View()).flows, With(env, zeros, clears), setup.lim, read)
      ensures var o := Received(old(View()), s, old(host.View()).flows, With(env, zeros, clears), setup.lim);
        View() == o.mem && advanced == o.advanced && host.View() == DoAll(old(host.View()), o.effects)
    {
      hide AgentModel.Converge, Snapshots.Valid, ValidLedger, Ledgers.Verdict, Prepared, ZeroAll, DoAll, FoldRead, C.Rebaselined, C.Pruned, IdsOf, LedgerChanged;
      NothingDone(host.View());
      zeros, clears := [], [];
      var problem := Snapshots.Validate(s, setup.lim);
      if problem.Some? {
        hasError := true;
        return false, zeros, clears;
      }
      ValidIsReadable(s, setup.lim);
      var prepared := ledger.Prepare(s);
      if prepared.Err? {
        hasError := true;
        return false, zeros, clears;
      }
      var next := prepared.value;
      AcceptedIsValid(ledger.View(), s);
      var ok;
      ok, zeros := CheckZero(next, zeroing);
      if !ok {
        hasError := true;
        return false, zeros, clears;
      }
      var changed := LedgerChanged(next.View(), ledger.View());
      if applied && s.generation == appliedGeneration && !changed && env.present.Present? {
        hasError := false;
        return false, zeros, clears;
      }
      ghost var mem, n := View(), next.View();
      advanced, clears := Converge(next, s, env, clearing, read);
      ConvergeIgnoresZeros(mem, n, s, env, zeros, clears);
    }

    /** What the sync request tells the platform: the state, one receipt per cleared entry, and the next counter rows in rotation. */
    method MakeReport() returns (report: Report, rows: seq<C.Row>)
      modifies counters`cursor
      ensures report == ReportOf(View()) && C.IsReport(counters.m, old(counters.cursor), rows)
      ensures C.MovesOn(counters.m, old(counters.cursor), counters.cursor)
    {
      var receipts: seq<Retirement> := [];
      if ledger == null {
        report := Report(false, appliedGeneration, hasError, "", 0, 0, 0, 0, []);
      } else {
        var cleared := ledger.ClearedEntries();
        for i := 0 to |cleared|
          invariant |receipts| == i && forall k :: 0 <= k < i ==> receipts[k] == cleared[k].retirement
        {
          receipts := receipts + [cleared[i].retirement];
        }
        report := Report(!ledgerLost, appliedGeneration, hasError, ledger.ledgerId, ledger.mappingIdHighWater, ledger.flowMarkHighWater,
                         ledger.retirementHighWater, ledger.managedGenerationHighWater, receipts);
      }
      rows := counters.Snapshot();
    }

    /** One sync exchange and its consequences. */
    method Cycle(env: CycleEnv, clearing: nat -> Answers, zeroing: nat -> Answers, first: Readout, second: Readout)
      returns (report: Report, rows: seq<C.Row>, advanced: bool, ghost zeros: seq<bool>, ghost clears: seq<ClearCall>)
      requires Valid()
      modifies this, ledger, host, host.table, counters
      ensures Valid() && (ledger == old(ledger) || fresh(ledger))
      ensures report == ReportOf(old(View())) && C.IsReport(FoldRead(old(counters.m), first), old(counters.cursor), rows)
      ensures C.MovesOn(FoldRead(old(counters.m), first), old(counters.cursor), counters.cursor)
      ensures counters.m ==
        CycleTotals(old(counters.m), old(View()), old(host.View()).flows, With(env, zeros, clears), setup.lim, first, second)
      ensures var o := AgentModel.Cycle(old(View()), old(host.View()).flows, With(env, zeros, clears), setup.lim);
        View() == o.mem && advanced == o.advanced && host.View() == DoAll(old(host.View()), o.effects)
    {
      hide Received, AgentModel.EnsureAsserted, ValidLedger, DoAll, FoldRead, ReassertTotals, ReceivedTotals, C.IsReport, C.MovesOn, ReportOf, Retirements, LedgerObject.View, Try, C.Rebaselined, C.Pruned, Receipts;
      NothingDone(host.View());
      zeros, clears := env.zeros, [];
      FoldCounters(first);
      report, rows := MakeReport();
      if ledgerLost {
        EnsureQuarantine(env.quarantine);
        return report, rows, false, zeros, clears;
      }
      match env.sync
      case SyncFailed =>
        advanced := false;
      case Garbage =>
        hasError, advanced := true, false;
      case Unchanged =>
        hasError := false;
        clears := EnsureAsserted(env, clearing, second);
        NeverAdvances(old(View()).(hasError := false), With(env, zeros, clears));
        advanced := false;
      case Body(s) =>
        advanced, zeros, clears := Receive(s, env, clearing, zeroing, second);
    }

    /** A poll: a cycle and, if it advanced the generation, one immediate follow-up whose own outcome triggers nothing. */
    method RunOnce(first: CycleEnv, second: CycleEnv, clearing: nat -> Answers, zeroing: nat -> Answers, readouts: nat -> Readout)
      returns (reports: seq<Report>, rows: seq<seq<C.Row>>, ghost cursors: seq<int>,
               ghost zeros: seq<bool>, ghost clears: seq<ClearCall>, ghost zeros': seq<bool>, ghost clears': seq<ClearCall>)
      requires Valid()
      modifies this, ledger, host, host.table, counters
      ensures Valid()
      ensures (View(), host.View(), reports) ==
        Poll(old(View()), old(host.View()), With(first, zeros, clears), With(second, zeros', clears'), setup.lim)
      ensures var (m, shown) :=
          PollTotals(old(counters.m), old(View()), old(host.View()), With(first, zeros, clears), With(second, zeros', clears'), setup.lim, readouts);
        counters.m == m && |rows| == |reports| && C.InRotation(shown, cursors, rows)
      ensures cursors[0] == old(counters.cursor) && cursors[|rows|] == counters.cursor
    {
      hide AgentModel.Cycle, ValidLedger, DoAll, With, ReportOf, CycleTotals, FoldRead, C.IsReport, C.MovesOn;
      zeros', clears' := [], [];
      var report, part, advanced;
      report, part, advanced, zeros, clears := Cycle(first, clearing, zeroing, readouts(0), readouts(1));
      reports, rows, cursors := [report], [part], [old(counters.cursor), counters.cursor];
      ghost var o := AgentModel.Cycle(old(View()), old(host.View()).flows, With(first, zeros, clears), setup.lim);
      if advanced {
        report, part, advanced, zeros', clears' := Cycle(second, clearing, zeroing, readouts(2), readouts(3));
        reports, rows, cursors := reports + [report], rows + [part], cursors + [counters.cursor];
        assert reports == [ReportOf(old(View())), ReportOf(o.mem)];
      }
    }

    /** Whether nothing on disk or in the kernel speaks of managed state. */
    method ProvesLegacy(env: BootEnv) returns (legacy: bool)
      ensures legacy == ProvablyLegacy(host.View(), env, setup)
    {
      if host.snapFile.BadSnap? || !env.snapStattable {
        return false;
      }
      if host.snapFile.StoredSnap? {
        var problem := Snapshots.Validate(host.snapFile.snap, setup.lim);
        hide Snapshots.Valid, Blames;
        if !env.snapReadable || problem.Some? || host.snapFile.snap.retirements.Some? {
          return false;
        }
      }
      legacy := env.inspectable && !HasManagedState(host.kernel);
    }

    /** The stored ledger or, on a provably legacy host, a new one that could be stored. */
    method ReadLedger(env: BootEnv) returns (found: LedgerObject?)
      modifies host
      ensures var load := LoadLedgerFile(old(host.View()), env, setup);
        && host.View() == DoAll(old(host.View()), load.effects)
        && (load.Held? <==> found != null) && (load.Lost? ==> load.inHand.None?)
      ensures found != null ==>
        fresh(found) && ValidLedger(found.View()) && found.View() == LoadLedgerFile(old(host.View()), env, setup).ledger
    {
      hide ValidLedger, DoAll, ProvablyLegacy;
      NothingDone(host.View());
      found := null;
      if !env.ledgerReadable || host.ledgerFile.BadLedger? {
        return;
      }
      if host.ledgerFile.StoredLedger? {
        var stored := new LedgerObject.Of(host.ledgerFile.ledger);
        var good := stored.Validate();
        found := if good then stored else null;
        return;
      }
      var legacy := ProvesLegacy(env);
      if legacy && env.newId.Some? {
        var first := new LedgerObject.Of(Fresh(env.newId.value));
        var ok := host.StoreLedger(first, env.saveNew);
        found := if ok then first else null;
      }
    }

    /** Reads the ledger and holds it against the persisted snapshot; whatever fails loses the ledger. */
    method LoadLedger(persisted: Option<Snapshot>, env: BootEnv) returns (ok: bool)
      requires !ledgerLost && (persisted.Some? ==> Readable(persisted.value))
      modifies this, host
      ensures var load := AgentModel.LoadLedger(old(host.View()), persisted, env, setup);
        && ok == load.Held? && host.View() == DoAll(old(host.View()), load.effects)
        && View() == old(View()).(ledger := if ok then Some(load.ledger) else load.inHand, ledgerLost := !ok)
      ensures Valid() && (ledger != null ==> fresh(ledger))
    {
      hide LoadLedgerFile, ValidLedger, DoAll, Ledgers.Verdict, Prepared;
      ledger := ReadLedger(env);
      ok := ledger != null;
      if ok && persisted.Some? {
        var s := persisted.value;
        ok := s.retirements.None? || s.acknowledged.value == ledger.acknowledged;
        if ok {
          var next := ledger.Prepare(s);
          ok := next.Ok?;
          if ok {
            AcceptedIsValid(ledger.View(), s);
            ledger := next.value;
          }
        }
      }
      ledgerLost := !ok;
    }

    /** Boot with a ledger in hand: apply the usable snapshot, or the empty set. */
    method BootApply(load: Loaded, env: BootEnv, answers: nat -> Answers, read: Readout) returns (ok: bool, ghost clears: seq<ClearCall>)
      requires Valid() && ledger != null && View() == Blank.(ledger := View().ledger)
      modifies this, ledger, host, host.table, counters`m
      ensures ok == ApplySnapshot(old(ledger.View()), Usage(load), env.apply.(clears := clears)).ok
      ensures counters.m == if ok then C.Rebaselined(FoldRead(old(counters.m), read)) else FoldRead(old(counters.m), read)
      ensures Valid()
      ensures var removal := if load.Rejected? && env.removed then [RemoveSnap] else [];
        var ran := ApplySnapshot(old(ledger.View()), Usage(load), env.apply.(clears := clears));
        && host.View() == DoAll(old(host.View()), removal + ran.effects)
        && View() == if !ran.ok then Blank.(ledger := Some(ran.ledger), bootFailed := true, hasError := true)
             else Blank.(ledger := Some(ran.ledger), applied := true, lastApplied := Usage(load),
                         appliedGeneration := if load.Usable? then load.snap.generation else 0)
    {
      hide ValidLedger, DoAll, ApplySnapshot, FoldRead, C.Rebaselined;
      ghost var w, l := host.View(), ledger.View();
      host.DropSnap(load.Rejected? && env.removed);
      FoldCounters(read);
      ok, clears := Apply(Usage(load), env.apply, answers);
      DoConcat(w, if load.Rejected? && env.removed then [RemoveSnap] else [],
               ApplySnapshot(l, Usage(load), env.apply.(clears := clears)).effects);
      if !ok {
        bootFailed, hasError := true, true;
        return;
      }
      counters.MarkReset();
      applied, lastApplied, appliedGeneration := true, Usage(load), if load.Usable? then load.snap.generation else 0;
    }

    /** Restores the persisted snapshot inside its window, converges to the empty set otherwise, and quarantines without a ledger. */
    method BootReapply(env: BootEnv, answers: nat -> Answers, read: Readout) returns (ok: bool, ghost clears: seq<ClearCall>)
      requires View() == Blank.(ledger := View().ledger)
      modifies this, host, host.table, counters`m
      ensures counters.m == BootTotals(old(counters.m), old(host.View()), env.(apply := env.apply.(clears := clears)), setup, read)
      ensures Valid()
      ensures var o := Boot(old(host.View()), env.(apply := env.apply.(clears := clears)), setup);
        View() == o.mem && host.View() == DoAll(old(host.View()), o.effects)
    {
      hide ValidLedger, DoAll, ApplySnapshot, AgentModel.LoadLedger, LoadPersisted, FoldRead, C.Rebaselined, Boot;
      clears := [];
      ghost var w := host.View();
      var load := LoadPersisted(host.snapFile, env, setup);
      ok := LoadLedger(Usage(load), env);
      ghost var held := AgentModel.LoadLedger(w, Usage(load), env, setup);
      if !ok {
        // Every failure to load has lost the ledger, so the source's fail-closed apply under an armed ledger is never reached.
        EnsureQuarantine(env.quarantine);
        DoConcat(w, held.effects, Try(env.quarantine, InstallQuarantine));
        bootFailed, hasError := true, true;
      } else {
        ok, clears := BootApply(load, env, answers, read);
        ghost var removal := if load.Rejected? && env.removed then [RemoveSnap] else [];
        ghost var ran := ApplySnapshot(held.ledger, Usage(load), env.apply.(clears := clears));
        DoConcat(w, held.effects, removal + ran.effects);
        assert held.effects + (removal + ran.effects) == held.effects + removal + ran.effects;
      }
      LoadIgnoresApply(w, env, setup, clears);
      BootIs(w, env.(apply := env.apply.(clears := clears)), setup);
    }
  }

  lemma Restored(l: Ledger, ids: set<string>, calls: seq<ClearCall>, es: seq<Entry>)
    requires ValidLedger(l) && ids == ClearAll(l.entries, calls).2 && |es| == |Cleared(l, ids).entries|
    requires forall k :: 0 <= k < |es| ==> es[k] == UnclearedEntry(Cleared(l, ids).entries[k], ids)
    ensures es == l.entries
  {
    hide ValidLedger;
    ClearAllIds(l.entries, calls);
    forall k | 0 <= k < |es| ensures es[k] == l.entries[k] {
      RollbackRestores(l, ids, k);
    }
  }

  lemma AcceptedIsValid(l: Ledger, s: Snapshot)
    requires ValidLedger(l) && Accepts(l, s)
    ensures ValidLedger(Prepared(l, s))
  {
    hide ValidLedger, DesiredHash;
  }

  lemma NeverAdvances(mem: Mem, env: CycleEnv)
    requires mem.ledger.Some?
    ensures !AgentModel.EnsureAsserted(mem, env).advanced
  {
    hide ApplySnapshot;
  }

  /** The files a managed convergence stores before it applies. */
  function FileEffects(n: Ledger, s: Snapshot, env: CycleEnv): seq<Effect> {
    if n.armed then Try(Done, WriteLedger(n)) + Try(env.saveSnap, WriteSnap(AgentModel.Stamped(s, env.now))) else []
  }

  lemma ConvergeStopsEarly(mem: Mem, n: Ledger, s: Snapshot, env: CycleEnv, clears: seq<ClearCall>)
    requires mem.ledger.Some? && n.armed
    ensures var o, save := AgentModel.Converge(mem, n, s, With(env, env.zeros, clears)), SaveLedger(n, env.saveLedger);
      && (!save.Done? ==> o == Failing(mem, Try(save, WriteLedger(n)), NoApply))
      && (save.Done? && !env.saveSnap.Done? ==> o == Failing(mem.(ledger := Some(n)), FileEffects(n, s, env), NoApply))
  {
    hide ApplySnapshot, SaveLedger;
  }

  lemma ConvergeApplies(mem: Mem, n: Ledger, s: Snapshot, env: CycleEnv, clears: seq<ClearCall>)
    requires mem.ledger.Some? && (n.armed ==> SaveLedger(n, env.saveLedger).Done? && env.saveSnap.Done?)
    ensures var o := AgentModel.Converge(mem, n, s, With(env, env.zeros, clears));
      var ran := ApplySnapshot(n, Some(s), env.apply.(clears := clears));
      var effects := FileEffects(n, s, env) + ran.effects;
      if !ran.ok then o == Failing(mem.(ledger := Some(ran.ledger)), effects, Attempt(Some(s), false))
      else
        && o.mem == Mem(Some(ran.ledger), mem.ledgerLost, true, s.generation, Some(s), false, false)
        && o.effects == effects + SnapAfter(n, s, env)
        && o.advanced == (!mem.applied || s.generation != mem.appliedGeneration) && o.attempt == Attempt(Some(s), true)
  {
    hide ApplySnapshot, SaveLedger;
    var ran := ApplySnapshot(n, Some(s), env.apply.(clears := clears));
    assert [] + [] + ran.effects == [] + ran.effects;
  }

  lemma NoFiles(n: Ledger, s: Snapshot, env: CycleEnv)
    requires !n.armed
    ensures FileEffects(n, s, env) == []
  {
  }

  lemma ConvergeIgnoresZeros(mem: Mem, n: Ledger, s: Snapshot, env: CycleEnv, zeros: seq<bool>, clears: seq<ClearCall>)
    requires mem.ledger.Some?
    ensures AgentModel.Converge(mem, n, s, With(env, zeros, clears)) == AgentModel.Converge(mem, n, s, With(env, env.zeros, clears))
  {
    hide ApplySnapshot, SaveLedger;
  }

  /** Boot, by what loading the ledger gave. */
  lemma BootIs(w: World, env: BootEnv, setup: Setup)
    ensures var load := LoadPersisted(w.snapFile, env, setup);
      var held, o := AgentModel.LoadLedger(w, Usage(load), env, setup), Boot(w, env, setup);
      if held.Lost? then
        && o.mem == Blank.(ledger := held.inHand, ledgerLost := true, bootFailed := true, hasError := true) && o.attempt.NoApply?
        && o.effects == held.effects + Try(env.quarantine, InstallQuarantine)
      else
        var removal := if load.Rejected? && env.removed then [RemoveSnap] else [];
        var ran := ApplySnapshot(held.ledger, Usage(load), env.apply);
        && o.effects == held.effects + removal + ran.effects && o.attempt == Attempt(Usage(load), ran.ok)
        && o.mem == if !ran.ok then Blank.(ledger := Some(ran.ledger), bootFailed := true, hasError := true)
             else Blank.(ledger := Some(ran.ledger), applied := true, lastApplied := Usage(load),
                         appliedGeneration := if load.Usable? then load.snap.generation else 0)
  {
    hide AgentModel.LoadLedger, LoadPersisted, ApplySnapshot;
  }

  lemma LoadIgnoresApply(w: World, env: BootEnv, setup: Setup, clears: seq<ClearCall>)
    ensures var env' := env.(apply := env.apply.(clears := clears));
      && LoadPersisted(w.snapFile, env', setup) == LoadPersisted(w.snapFile, env, setup)
      && AgentModel.LoadLedger(w, Usage(LoadPersisted(w.snapFile, env, setup)), env', setup)
         == AgentModel.LoadLedger(w, Usage(LoadPersisted(w.snapFile, env, setup)), env, setup)
  {
    hide ValidLedger, Prepare, Snapshots.Valid, HasManagedState;
  }
}
