/**
 What every step of the agent keeps, at every point where it may crash: the files stay
 consistent, and a retirement that was once durably cleared stays sealed, that is, no
 kernel rule stamps its mark and no connection of it exists.
 */
module AgentSafety {
  import opened Values
  import opened Snapshots
  import opened Ledgers
  import opened LedgerProofs
  import opened Nft
  import opened Conntrack
  import opened AgentModel

  // ---- Invariants ----

  /** A snapshot that may lie beside this ledger: legacy, the ledger's own, or older than the ledger. */
  ghost predicate Fits(l: Ledger, s: Snapshot) {
    s.retirements.None? || Settled(l, s) || s.generation < l.managedGenerationHighWater
  }

  /** The mark was used before and no active epoch has it. */
  ghost predicate Barred(l: Ledger, mark: u32) {
    mark <= l.flowMarkHighWater && forall a :: a in l.active ==> a.flowMark != mark
  }

  ghost predicate AllBarred(l: Ledger, sealed: set<Retirement>) {
    forall r :: r in sealed ==> Barred(l, r.flowMark)
  }

  function ClearedOnes(l: Ledger): set<Retirement> {
    set e | e in l.entries && e.cleared :: e.retirement
  }

  /** A ledger that may be stored or held while these retirements are sealed. */
  ghost predicate Sound(l: Ledger, sealed: set<Retirement>) {
    LedgerInv(l) && AllBarred(l, sealed) && ClearedOnes(l) <= sealed
  }

  /** No rule stamps a sealed mark. */
  ghost predicate Unstamped(k: KernelTable, sealed: set<Retirement>) {
    k.Installed? ==> forall q, r :: q in k.rules && r in sealed ==> q.flowMark != r.flowMark
  }

  /** No connection of a sealed retirement exists. */
  ghost predicate Unmatched(flows: set<Flow>, sealed: set<Retirement>) {
    forall f, r :: f in flows && r in sealed ==> !Matches(f, r)
  }

  /** The files alone: readable, valid, and fitting each other. */
  ghost predicate FilesInv(w: World, lim: Limits) {
    && !w.ledgerFile.BadLedger? && !w.snapFile.BadSnap?
    && (w.snapFile.StoredSnap? ==> Valid(w.snapFile.snap, lim))
    && (w.ledgerFile.StoredLedger? ==> LedgerInv(w.ledgerFile.ledger))
    && (w.ledgerFile.StoredLedger? && w.snapFile.StoredSnap? ==> Fits(w.ledgerFile.ledger, w.snapFile.snap))
    && (w.ledgerFile.NoLedger? && w.snapFile.StoredSnap? ==> w.snapFile.snap.retirements.None?)
  }

  ghost predicate FilesOk(w: World, sealed: set<Retirement>, lim: Limits) {
    && FilesInv(w, lim)
    && (w.ledgerFile.StoredLedger? ==> Sound(w.ledgerFile.ledger, sealed))
    && (w.ledgerFile.NoLedger? ==> sealed == {})
  }

  ghost predicate WorldInv(w: World, sealed: set<Retirement>, lim: Limits) {
    && FilesOk(w, sealed, lim)
    && Unstamped(w.kernel, sealed)
    && Unmatched(w.flows, sealed)
    && (forall r :: r in sealed ==> r.flowMark != 0)
  }

  /** The running agent agrees with the files. */
  ghost predicate MemInv(mem: Mem, w: World, sealed: set<Retirement>, lim: Limits) {
    && Healthy(mem)
    && (mem.ledger.Some? ==> Sound(mem.ledger.value, sealed))
    && (!mem.ledgerLost ==>
          && w.ledgerFile.StoredLedger?
          && (w.snapFile.StoredSnap? ==> Fits(mem.ledger.value, w.snapFile.snap))
          && Pends(mem.ledger.value, sealed, PlanOf(mem.lastApplied))
          && (mem.lastApplied.Some? ==>
                && Valid(mem.lastApplied.value, lim) && Fits(mem.ledger.value, mem.lastApplied.value)
                && mem.appliedGeneration == mem.lastApplied.value.generation))
  }

  /** The retirement is an entry that memory does not count as cleared. */
  ghost predicate Pending(l: Ledger, r: Retirement) {
    exists e :: e in l.entries && e.retirement == r && !e.cleared
  }

  /** A rule can carry the mark of a sealed retirement only while memory does not know that it was cleared. */
  ghost predicate Pends(l: Ledger, sealed: set<Retirement>, rules: seq<Rule>) {
    forall q, r :: q in rules && r in sealed && q.flowMark == r.flowMark ==> Pending(l, r)
  }

  // ---- Sealing along effects ----

  /** What a durable ledger reports as cleared is sealed from then on. */
  function Seal(sealed: set<Retirement>, e: Effect): set<Retirement> {
    if e.WriteLedger? then sealed + ClearedOnes(e.ledger) else sealed
  }

  function SealAll(sealed: set<Retirement>, es: seq<Effect>): set<Retirement>
    decreases |es|
  {
    if es == [] then sealed else SealAll(Seal(sealed, es[0]), es[1..])
  }

  /** The world is good now and stays good after each of the effects, so a crash may cut them anywhere. */
  ghost predicate SafeFrom(w: World, sealed: set<Retirement>, es: seq<Effect>, lim: Limits)
    decreases |es|
  {
    WorldInv(w, sealed, lim) && (es == [] || SafeFrom(Do(w, es[0]), Seal(sealed, es[0]), es[1..], lim))
  }

  lemma NothingDone(w: World)
    ensures DoAll(w, []) == w
  {
  }

  lemma DoOne(w: World, e: Effect)
    ensures DoAll(w, [e]) == Do(w, e)
  {
    assert [e][1..] == [];
  }

  lemma {:induction false} DoConcat(w: World, a: seq<Effect>, b: seq<Effect>)
    ensures DoAll(w, a + b) == DoAll(DoAll(w, a), b)
    decreases |a|
  {
    if a == [] {
      assert a + b == b;
    } else {
      assert (a + b)[0] == a[0] && (a + b)[1..] == a[1..] + b;
      DoConcat(Do(w, a[0]), a[1..], b);
    }
  }

  lemma {:induction false} SafeCut(w: World, sealed: set<Retirement>, es: seq<Effect>, lim: Limits, k: nat)
    requires SafeFrom(w, sealed, es, lim) && k <= |es|
    ensures WorldInv(DoAll(w, es[..k]), SealAll(sealed, es[..k]), lim)
    decreases |es|
  {
    hide WorldInv, Do, Seal;
    if k > 0 {
      assert es[..k][0] == es[0] && es[..k][1..] == es[1..][..k - 1];
      SafeCut(Do(w, es[0]), Seal(sealed, es[0]), es[1..], lim, k - 1);
    }
  }

  lemma {:induction false} SafeConcat(w: World, sealed: set<Retirement>, a: seq<Effect>, b: seq<Effect>, lim: Limits)
    requires SafeFrom(w, sealed, a, lim) && SafeFrom(DoAll(w, a), SealAll(sealed, a), b, lim)
    ensures SafeFrom(w, sealed, a + b, lim)
    ensures DoAll(w, a + b) == DoAll(DoAll(w, a), b) && SealAll(sealed, a + b) == SealAll(SealAll(sealed, a), b)
    decreases |a|
  {
    hide WorldInv, Do, Seal;
    if a == [] {
      assert a + b == b;
    } else {
      assert (a + b)[0] == a[0] && (a + b)[1..] == a[1..] + b;
      SafeConcat(Do(w, a[0]), Seal(sealed, a[0]), a[1..], b, lim);
    }
  }

  lemma SafeOne(w: World, sealed: set<Retirement>, e: Effect, lim: Limits)
    requires WorldInv(w, sealed, lim) && WorldInv(Do(w, e), Seal(sealed, e), lim)
    ensures SafeFrom(w, sealed, [e], lim) && DoAll(w, [e]) == Do(w, e) && SealAll(sealed, [e]) == Seal(sealed, e)
  {
    hide WorldInv, Do, Seal;
    assert [e][1..] == [];
    assert SafeFrom(Do(w, e), Seal(sealed, e), [], lim);
  }

  lemma SafeTry(w: World, sealed: set<Retirement>, c: Call, e: Effect, lim: Limits)
    requires WorldInv(w, sealed, lim) && WorldInv(Do(w, e), Seal(sealed, e), lim)
    ensures SafeFrom(w, sealed, Try(c, e), lim)
    ensures DoAll(w, Try(c, e)) == (if c.Refused? then w else Do(w, e))
    ensures SealAll(sealed, Try(c, e)) == (if c.Refused? then sealed else Seal(sealed, e))
  {
    hide WorldInv, Do, Seal;
    SafeOne(w, sealed, e, lim);
  }

  // ---- One effect at a time ----

  lemma LedgerWriteSafe(w: World, sealed: set<Retirement>, n: Ledger, lim: Limits)
    requires WorldInv(w, sealed, lim) && LedgerInv(n)
    requires w.snapFile.StoredSnap? ==> Fits(n, w.snapFile.snap)
    requires var all := Seal(sealed, WriteLedger(n));
      AllBarred(n, all) && Unstamped(w.kernel, all) && Unmatched(w.flows, all) && forall r :: r in all ==> r.flowMark != 0
    ensures WorldInv(Do(w, WriteLedger(n)), Seal(sealed, WriteLedger(n)), lim)
  {
    hide LedgerInv, Fits, AllBarred, Unstamped, Unmatched, Valid;
  }

  /** Storing a sound ledger seals nothing new. */
  lemma SoundWriteSafe(w: World, sealed: set<Retirement>, n: Ledger, lim: Limits)
    requires WorldInv(w, sealed, lim) && Sound(n, sealed)
    requires w.snapFile.StoredSnap? ==> Fits(n, w.snapFile.snap)
    ensures WorldInv(Do(w, WriteLedger(n)), Seal(sealed, WriteLedger(n)), lim) && Seal(sealed, WriteLedger(n)) == sealed
  {
    hide LedgerInv, Fits, Unstamped, Unmatched, Valid, Barred;
    assert Seal(sealed, WriteLedger(n)) == sealed;
  }

  lemma SnapWriteSafe(w: World, sealed: set<Retirement>, s: Snapshot, lim: Limits)
    requires WorldInv(w, sealed, lim) && Valid(s, lim) && w.ledgerFile.StoredLedger? && Fits(w.ledgerFile.ledger, s)
    ensures WorldInv(Do(w, WriteSnap(s)), sealed, lim)
  {
    hide Sound, Fits, Unstamped, Unmatched, Valid;
  }

  lemma SnapRemovalSafe(w: World, sealed: set<Retirement>, lim: Limits)
    requires WorldInv(w, sealed, lim)
    ensures WorldInv(Do(w, RemoveSnap), sealed, lim)
  {
    hide Sound, Fits, Unstamped, Unmatched, Valid;
  }

  lemma QuarantineSafe(w: World, sealed: set<Retirement>, lim: Limits)
    requires WorldInv(w, sealed, lim)
    ensures WorldInv(Do(w, InstallQuarantine), sealed, lim)
  {
    hide Sound, Fits, Unmatched, Valid;
  }

  lemma InstallSafe(w: World, sealed: set<Retirement>, rules: seq<Rule>, fences: seq<Retirement>, lim: Limits)
    requires WorldInv(w, sealed, lim) && Unstamped(Installed(rules, fences), sealed)
    ensures WorldInv(Do(w, Install(rules, fences)), sealed, lim)
  {
    hide Sound, Fits, Unstamped, Unmatched, Valid;
  }

  lemma DeletionSafe(w: World, sealed: set<Retirement>, r: Retirement, some: Option<set<Flow>>, lim: Limits)
    requires WorldInv(w, sealed, lim)
    ensures WorldInv(Do(w, DeleteFlows(r, some)), sealed, lim)
  {
    hide Sound, Fits, Unstamped, Valid, Matches;
  }

  // ---- Apply ----

  /** The rules come from the ledger: each is unmarked or carries the mark of an active epoch. */
  ghost predicate RulesFrom(l: Ledger, rules: seq<Rule>) {
    forall q :: q in rules ==> q.flowMark == 0 || exists a :: a in l.active && a.flowMark == q.flowMark
  }

  /** No rule carries the mark of a sealed or of an outstanding retirement. */
  ghost predicate Avoids(l: Ledger, sealed: set<Retirement>, rules: seq<Rule>) {
    forall q, r :: q in rules && (r in sealed || r in Retirements(l)) ==> q.flowMark != r.flowMark
  }

  lemma FromAvoids(l: Ledger, rules: seq<Rule>, sealed: set<Retirement>)
    requires RulesFrom(l, rules) && Sound(l, sealed) && forall r :: r in sealed ==> r.flowMark != 0
    ensures Avoids(l, sealed, rules)
  {
    hide LedgerInv;
    assert ValidLedger(l) by { InvValid(l); }
    forall q, r | q in rules && (r in sealed || r in Retirements(l)) ensures q.flowMark != r.flowMark {
      if r in sealed {
        assert Barred(l, r.flowMark);
      } else {
        OutstandingUnused(l, r);
      }
    }
  }

  lemma OutstandingUnused(l: Ledger, r: Retirement)
    requires ValidLedger(l) && r in Retirements(l)
    ensures r.flowMark != 0 && forall a :: a in l.active ==> a.flowMark != r.flowMark
  {
    hide ValidLedger;
    var i :| 0 <= i < |Retirements(l)| && Retirements(l)[i] == r;
    assert l.entries[i] in l.entries;
    EntryFacts(l, l.entries[i]);
    forall a | a in l.active ensures a.flowMark != r.flowMark {
      ActiveFacts(l, a);
    }
  }

  lemma AvoidsUnstamped(l: Ledger, rules: seq<Rule>, fences: seq<Retirement>, sealed: set<Retirement>)
    requires Avoids(l, sealed, rules)
    ensures Unstamped(Installed(rules, fences), sealed)
  {
  }

  /** The plan of a settled or of a legacy snapshot comes from the ledger. */
  lemma PlanFromLedger(l: Ledger, s: Snapshot, lim: Limits)
    requires Valid(s, lim) && (s.retirements.None? || Settled(l, s))
    ensures RulesFrom(l, PlanOf(Some(s))) && Plannable(s)
  {
    hide RetirementFits, DesiredHash, TupleHash;
    forall i | 0 <= i < |s.mappings| ensures s.mappings[i].targetAddr.IPv4? {
      assert MappingFits(s, lim, i);
    }
    var rules := PlanOf(Some(s));
    forall q | q in rules ensures q.flowMark == 0 || exists a :: a in l.active && a.flowMark == q.flowMark {
      var i :| 0 <= i < |rules| && rules[i] == q;
      assert MappingFits(s, lim, i);
      if s.retirements.Some? {
        assert s.mappings[i] in s.mappings;
        assert EpochOf(s.mappings[i]) in l.active;
      }
    }
  }

  /** When the conntrack loop succeeds, every entry that was not cleared has no connection left and is listed. */
  lemma {:induction false} ClearAllSafe(w: World, sealed: set<Retirement>, es: seq<Entry>, calls: seq<ClearCall>, lim: Limits)
    requires WorldInv(w, sealed, lim)
    ensures var (ok, effects, ids) := ClearAll(es, calls);
      var after := DoAll(w, effects);
      && SafeFrom(w, sealed, effects, lim)
      && SealAll(sealed, effects) == sealed
      && after == w.(flows := after.flows) && after.flows <= w.flows
      && (ok ==> forall e :: e in es && !e.cleared ==> Matching(after.flows, e.retirement) == {})
    decreases |es|
  {
    if es != [] && (es[0].cleared || calls == []) {
      hide WorldInv;
      if es[0].cleared {
        ClearAllSafe(w, sealed, es[1..], calls, lim);
      }
    } else if es != [] {
      var r := es[0].retirement;
      hide WorldInv, Matches;
      if calls[0].ClearFailed? {
        DeletionSafe(w, sealed, r, Some(calls[0].some), lim);
        SafeOne(w, sealed, DeleteFlows(r, Some(calls[0].some)), lim);
      } else {
        var e := DeleteFlows(r, None);
        DeletionSafe(w, sealed, r, None, lim);
        ClearAllSafe(Do(w, e), sealed, es[1..], calls[1..], lim);
        var (ok, rest, ids) := ClearAll(es[1..], calls[1..]);
        SafeOne(w, sealed, e, lim);
        SafeConcat(w, sealed, [e], rest, lim);
        assert Matching(Do(w, e).flows, r) == {};
        assert Matching(DoAll(Do(w, e), rest).flows, r) <= Matching(Do(w, e).flows, r);
      }
    }
  }

  lemma {:induction false} ClearAllIds(es: seq<Entry>, calls: seq<ClearCall>)
    ensures var (ok, effects, ids) := ClearAll(es, calls);
      && (forall id :: id in ids ==> exists e :: e in es && !e.cleared && e.retirement.retirementId == id)
      && (ok ==> forall e :: e in es && !e.cleared ==> e.retirement.retirementId in ids)
    decreases |es|
  {
    if es != [] {
      assert forall e :: e in es <==> e == es[0] || e in es[1..];
      if es[0].cleared {
        ClearAllIds(es[1..], calls);
      } else if calls != [] && calls[0].ClearedAll? {
        ClearAllIds(es[1..], calls[1..]);
        forall id | id in ClearAll(es, calls).2 ensures exists e :: e in es && !e.cleared && e.retirement.retirementId == id {
          if id == es[0].retirement.retirementId {
            assert es[0] in es;
          } else {
            var e :| e in es[1..] && !e.cleared && e.retirement.retirementId == id;
          }
        }
      }
    }
  }

  /** The newly cleared entries may be sealed: no rule stamps them and no connection of them is left. */
  lemma NewlySealed(w: World, sealed: set<Retirement>, l: Ledger, n: Ledger, ids: set<string>, lim: Limits)
    requires WorldInv(w, sealed, lim) && Sound(l, sealed) && n == Cleared(l, ids) && LedgerInv(n)
    requires w.kernel.Installed? && Avoids(l, sealed, w.kernel.rules)
    requires forall e :: e in l.entries && !e.cleared ==> Matching(w.flows, e.retirement) == {}
    ensures var all := Seal(sealed, WriteLedger(n));
      AllBarred(n, all) && Unstamped(w.kernel, all) && Unmatched(w.flows, all) && forall r :: r in all ==> r.flowMark != 0
  {
    var all := Seal(sealed, WriteLedger(n));
    forall r | r in all
      ensures r.flowMark != 0 && Barred(n, r.flowMark)
      ensures forall f :: f in w.flows ==> !Matches(f, r)
      ensures forall q :: q in w.kernel.rules ==> q.flowMark != r.flowMark
    {
      if r !in sealed {
        var e :| e in n.entries && e.cleared && e.retirement == r;
        hide LedgerInv, Matches;
        SealedEntry(w, sealed, l, n, ids, e);
      } else {
        assert Barred(l, r.flowMark);
      }
    }
  }

  lemma SealedEntry(w: World, sealed: set<Retirement>, l: Ledger, n: Ledger, ids: set<string>, e: Entry)
    requires Sound(l, sealed) && n == Cleared(l, ids)
    requires w.kernel.Installed? && Avoids(l, sealed, w.kernel.rules)
    requires forall e :: e in l.entries && !e.cleared ==> Matching(w.flows, e.retirement) == {}
    requires e in n.entries && e.retirement !in sealed
    ensures e.retirement.flowMark != 0 && Barred(n, e.retirement.flowMark)
    ensures forall f :: f in w.flows ==> !Matches(f, e.retirement)
    ensures forall q :: q in w.kernel.rules ==> q.flowMark != e.retirement.flowMark
  {
    hide Matches, Cleared;
    ClearedFacts(l, ids, e);
    var o :| o in l.entries && o.retirement == e.retirement && e == ClearedEntry(o, ids);
    assert o.cleared ==> o.retirement in ClearedOnes(l);
    EntryFacts(l, o);
    forall a | a in l.active ensures a.flowMark != e.retirement.flowMark {
      ActiveFacts(l, a);
    }
    ClearedKeepsActive(l, ids);
    forall f | f in w.flows ensures !Matches(f, e.retirement) {
      assert f in Matching(w.flows, o.retirement) <==> Matches(f, e.retirement);
    }
  }

  lemma ClearedKeepsActive(l: Ledger, ids: set<string>)
    ensures Cleared(l, ids).active == l.active && Cleared(l, ids).flowMarkHighWater == l.flowMarkHighWater
    ensures Cleared(l, ids).managedGenerationHighWater == l.managedGenerationHighWater && Cleared(l, ids).armed == l.armed
  {
  }

  lemma ClearedFits(l: Ledger, ids: set<string>, s: Snapshot)
    requires Fits(l, s)
    ensures Fits(Cleared(l, ids), s)
  {
    hide Settled, Cleared;
    ClearedKeepsActive(l, ids);
    if Settled(l, s) {
      ClearStaysSettled(l, s, ids);
    }
  }

  /** What an apply leaves behind. */
  ghost predicate ApplyKeeps(w: World, sealed: set<Retirement>, l: Ledger, ran: Ran, lim: Limits) {
    var after, all := DoAll(w, ran.effects), SealAll(sealed, ran.effects);
    && SafeFrom(w, sealed, ran.effects, lim)
    && sealed <= all
    && Sound(ran.ledger, all)
    && (exists ids :: ran.ledger == Cleared(l, ids))
    && (forall r :: r in all ==> r in sealed || Pending(l, r))
    && (!ran.ok ==> ran.ledger == l)
    && after.snapFile == w.snapFile
    && after.ledgerFile.StoredLedger?
  }

  lemma ClearedNothing(l: Ledger)
    ensures l == Cleared(l, {})
  {
    assert l.entries == Cleared(l, {}).entries;
  }

  lemma InstallKeeps(w: World, sealed: set<Retirement>, l: Ledger, rules: seq<Rule>, env: ApplyEnv, lim: Limits)
    requires WorldInv(w, sealed, lim) && Sound(l, sealed) && Avoids(l, sealed, rules)
    ensures var install := Try(env.install, Install(rules, Retirements(l)));
      && SafeFrom(w, sealed, install, lim) && SealAll(sealed, install) == sealed
      && DoAll(w, install) == if env.install.Refused? then w else w.(kernel := Installed(rules, Retirements(l)))
  {
    var e := Install(rules, Retirements(l));
    AvoidsUnstamped(l, rules, Retirements(l), sealed);
    hide WorldInv, Sound, Avoids, Unstamped;
    InstallSafe(w, sealed, rules, Retirements(l), lim);
    SafeTry(w, sealed, env.install, e, lim);
  }

  /** An apply is safe at every point, changes no file but the ledger, and only ever clears entries. */
  lemma ApplySafe(w: World, sealed: set<Retirement>, l: Ledger, s: Option<Snapshot>, env: ApplyEnv, lim: Limits)
    requires WorldInv(w, sealed, lim) && Sound(l, sealed) && Avoids(l, sealed, PlanOf(s))
    requires w.ledgerFile.StoredLedger? && (w.snapFile.StoredSnap? ==> Fits(l, w.snapFile.snap))
    ensures ApplyKeeps(w, sealed, l, ApplySnapshot(l, s, env), lim)
  {
    hide WorldInv, Sound, Avoids, PlanOf, Fits, Cleared, SafeFrom, DoAll, SealAll, Try, ApplyKeeps, Verified;
    var rules := PlanOf(s);
    var install := Try(env.install, Install(rules, Retirements(l)));
    InstallKeeps(w, sealed, l, rules, env, lim);
    if (!l.armed && Retirements(l) == []) || !env.install.Done? || !Verified(env.readback, rules, Retirements(l)) {
      NothingCleared(w, sealed, l, install, env.install.Done?, lim);
      NothingCleared(w, sealed, l, install, false, lim);
    } else {
      var w1 := w.(kernel := Installed(rules, Retirements(l)));
      SafeEnd(w, sealed, install, lim);
      ClearAllSafe(w1, sealed, l.entries, env.clears, lim);
      var (cleared, deletions, ids) := ClearAll(l.entries, env.clears);
      SafeConcat(w, sealed, install, deletions, lim);
      if cleared {
        ClearingKeeps(w, sealed, l, install + deletions, ids, env.persist, lim);
      } else {
        NothingCleared(w, sealed, l, install + deletions, false, lim);
      }
    }
  }

  lemma NothingCleared(w: World, sealed: set<Retirement>, l: Ledger, es: seq<Effect>, ok: bool, lim: Limits)
    requires SafeFrom(w, sealed, es, lim) && SealAll(sealed, es) == sealed && Sound(l, sealed)
    requires DoAll(w, es).snapFile == w.snapFile && DoAll(w, es).ledgerFile.StoredLedger?
    ensures ApplyKeeps(w, sealed, l, Ran(l, ok, es), lim)
  {
    hide WorldInv, Sound, Cleared, SafeFrom, DoAll, SealAll;
    ClearedNothing(l);
  }

  lemma ClearedHere(l: Ledger, ids: set<string>, sealed: set<Retirement>, r: Retirement)
    requires ClearedOnes(l) <= sealed && r in ClearedOnes(Cleared(l, ids))
    ensures r in sealed || Pending(l, r)
  {
    hide Cleared;
    var e :| e in Cleared(l, ids).entries && e.cleared && e.retirement == r;
    ClearedFacts(l, ids, e);
    var o :| o in l.entries && o.retirement == e.retirement && e == ClearedEntry(o, ids);
    assert o.cleared ==> r in ClearedOnes(l);
  }

  /** The last step of an apply: every connection is gone and the cleared ledger is stored, or not. */
  lemma ClearingKeeps(w: World, sealed: set<Retirement>, l: Ledger, es: seq<Effect>, ids: set<string>, persist: Call, lim: Limits)
    requires SafeFrom(w, sealed, es, lim) && SealAll(sealed, es) == sealed && Sound(l, sealed)
    requires var after := DoAll(w, es);
      && after.snapFile == w.snapFile && after.ledgerFile.StoredLedger?
      && after.kernel.Installed? && Avoids(l, sealed, after.kernel.rules)
      && forall e :: e in l.entries && !e.cleared ==> Matching(after.flows, e.retirement) == {}
    requires w.snapFile.StoredSnap? ==> Fits(l, w.snapFile.snap)
    ensures var n := Cleared(l, ids);
      var save := SaveLedger(n, persist);
      ApplyKeeps(w, sealed, l, Ran(if save.Done? then n else l, save.Done?, es + Try(save, WriteLedger(n))), lim)
  {
    hide WorldInv, Sound, Avoids, Fits, Cleared, SafeFrom, DoAll, SealAll, Try, Matching, ValidLedger, Seal, Do;
    var n := Cleared(l, ids);
    var save := SaveLedger(n, persist);
    var after := DoAll(w, es);
    SafeEnd(w, sealed, es, lim);
    ClearWrite(after, sealed, l, n, ids, lim);
    SafeTry(after, sealed, save, WriteLedger(n), lim);
    SafeConcat(w, sealed, es, Try(save, WriteLedger(n)), lim);
    WriteLedgerFacts(after, sealed, n);
    ClearedNothing(l);
    SoundMore(l, n, ids, sealed);
    SealedHere(l, ids, sealed);
  }

  lemma SealedHere(l: Ledger, ids: set<string>, sealed: set<Retirement>)
    requires Sound(l, sealed)
    ensures forall r :: r in Seal(sealed, WriteLedger(Cleared(l, ids))) ==> r in sealed || Pending(l, r)
  {
    hide Cleared, LedgerInv, Pending;
    forall r | r in ClearedOnes(Cleared(l, ids)) ensures r in sealed || Pending(l, r) {
      ClearedHere(l, ids, sealed, r);
    }
  }

  lemma WriteLedgerFacts(w: World, sealed: set<Retirement>, n: Ledger)
    ensures Do(w, WriteLedger(n)) == w.(ledgerFile := StoredLedger(n))
    ensures sealed <= Seal(sealed, WriteLedger(n))
  {
  }

  lemma SafeEnd(w: World, sealed: set<Retirement>, es: seq<Effect>, lim: Limits)
    requires SafeFrom(w, sealed, es, lim)
    ensures WorldInv(w, sealed, lim) && WorldInv(DoAll(w, es), SealAll(sealed, es), lim)
  {
    hide WorldInv;
    assert es[..|es|] == es;
    SafeCut(w, sealed, es, lim, |es|);
  }

  lemma ClearWrite(w: World, sealed: set<Retirement>, l: Ledger, n: Ledger, ids: set<string>, lim: Limits)
    requires WorldInv(w, sealed, lim) && Sound(l, sealed) && n == Cleared(l, ids)
    requires w.kernel.Installed? && Avoids(l, sealed, w.kernel.rules)
    requires forall e :: e in l.entries && !e.cleared ==> Matching(w.flows, e.retirement) == {}
    requires w.snapFile.StoredSnap? ==> Fits(l, w.snapFile.snap)
    ensures WorldInv(Do(w, WriteLedger(n)), Seal(sealed, WriteLedger(n)), lim)
    ensures Sound(n, Seal(sealed, WriteLedger(n)))
  {
    ClearKeeps(l, ids);
    hide WorldInv, LedgerInv, Fits, Cleared, Avoids, AllBarred, Unstamped, Unmatched;
    NewlySealed(w, sealed, l, n, ids, lim);
    if w.snapFile.StoredSnap? {
      ClearedFits(l, ids, w.snapFile.snap);
    }
    LedgerWriteSafe(w, sealed, n, lim);
  }

  /** The ledger before the clearing stays sound when the clearing was sealed but reported as failed. */
  lemma SoundMore(l: Ledger, n: Ledger, ids: set<string>, sealed: set<Retirement>)
    requires Sound(l, sealed) && n == Cleared(l, ids) && Sound(n, Seal(sealed, WriteLedger(n)))
    ensures Sound(l, Seal(sealed, WriteLedger(n)))
  {
    hide LedgerInv, Cleared;
    ClearedKeepsActive(l, ids);
    assert forall r :: r in Seal(sealed, WriteLedger(n)) ==> Barred(n, r.flowMark);
  }
}
