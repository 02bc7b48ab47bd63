/**
 What every accepted snapshot and every clearing keeps: the ledger invariant, the
 never-reuse relation between any two ledgers of a run, idempotence of Prepare, and
 completeness of the nine-field change detector.
 */
module LedgerProofs {
  import opened Values
  import opened Snapshots
  import opened Ledgers

  // ---- The invariant and the evolution relation ----

  /** Holds of every reachable ledger. */
  ghost predicate LedgerInv(l: Ledger) {
    && ValidLedger(l)
    && 0 <= l.acknowledged
    && (forall e :: e in l.entries ==> l.acknowledged < e.retirement.generation <= l.retirementHighWater)
    && (forall e :: e in l.entries ==> ValidTuple(RetirementTuple(e.retirement)))
    && (!l.armed ==> l == Fresh(l.ledgerId))
    && (l.armed ==> HashOfGeneration(l.desiredHash, l.managedGenerationHighWater))
  }

  lemma InvValid(l: Ledger)
    requires LedgerInv(l)
    ensures ValidLedger(l)
  {
    hide ValidLedger;
  }

  /** The recorded hash is that of a snapshot of the recorded generation. */
  ghost predicate HashOfGeneration(hash: Digest<Snapshot>, generation: int) {
    hash.Sha256? && hash.preimage.generation == generation
  }

  lemma DesiredHashKeepsGeneration(s: Snapshot)
    ensures HashOfGeneration(DesiredHash(s), s.generation)
  {
    hide Sort;
  }

  /** The ledger currently binds this id to this mark and tuple, as active or as retired. */
  ghost predicate Holds(l: Ledger, b: Epoch) {
    b in l.active || exists e :: e in l.entries && BindingOf(e) == b
  }

  /** Nothing that was given away is given away again: the marks do not fall, and ids and marks keep what they are bound to. */
  ghost predicate Binds(l: Ledger, n: Ledger) {
    && l.ledgerId == n.ledgerId
    && (l.armed ==> n.armed)
    && l.mappingIdHighWater <= n.mappingIdHighWater
    && l.flowMarkHighWater <= n.flowMarkHighWater
    && l.retirementHighWater <= n.retirementHighWater
    && l.managedGenerationHighWater <= n.managedGenerationHighWater
    && l.acknowledged <= n.acknowledged
    && (forall b :: Holds(n, b) ==> Holds(l, b) || (l.mappingIdHighWater < b.mappingId && l.flowMarkHighWater < b.flowMark))
    && (forall a :: a in n.active ==> a in l.active || l.mappingIdHighWater < a.mappingId)
    && (forall o, e :: o in l.entries && e in n.entries && o.retirement.mappingId == e.retirement.mappingId ==>
          o.retirement == e.retirement)
  }

  /** Every way in which `n` may follow `l`, after any number of steps: it keeps the bindings, and what is cleared stays so. */
  ghost predicate Evolves(l: Ledger, n: Ledger) {
    && Binds(l, n)
    && (forall o, e :: o in l.entries && e in n.entries && o.retirement.mappingId == e.retirement.mappingId ==> o.cleared ==> e.cleared)
  }

  // ---- Membership forms of validity ----

  lemma ActiveFacts(l: Ledger, a: Epoch)
    requires ValidLedger(l) && a in l.active
    ensures EpochOk(l, a)
    ensures forall b :: b in l.active && EpochsClash(a, b) ==> a == b
    ensures forall e :: e in l.entries ==> !EpochsClash(a, BindingOf(e))
  {
    var i :| 0 <= i < |l.active| && l.active[i] == a;
    forall b | b in l.active && EpochsClash(a, b) ensures a == b {
      var j :| 0 <= j < |l.active| && l.active[j] == b;
    }
    forall e | e in l.entries ensures !EpochsClash(a, BindingOf(e)) {
      var j :| 0 <= j < |l.entries| && l.entries[j] == e;
    }
  }

  lemma EntryFacts(l: Ledger, e: Entry)
    requires ValidLedger(l) && e in l.entries
    ensures EntryOk(l, e)
    ensures forall f :: f in l.entries && EntriesClash(e, f) ==> e == f
  {
    hide ValidHeader, ValidActive, ValidMarks, EntryOk, EntriesClash;
    var i :| 0 <= i < |l.entries| && l.entries[i] == e;
    forall f | f in l.entries && EntriesClash(e, f) ensures e == f {
      var j :| 0 <= j < |l.entries| && l.entries[j] == f;
      ClashSymmetric(e, f);
    }
  }

  lemma ClashSymmetric(e: Entry, f: Entry)
    ensures EntriesClash(e, f) <==> EntriesClash(f, e)
  {
  }

  /** Within one ledger an id determines the mark and tuple, and so does a mark. */
  lemma BindingsUnique(l: Ledger, b: Epoch, c: Epoch)
    requires ValidLedger(l) && Holds(l, b) && Holds(l, c)
    ensures EpochsClash(b, c) ==> b == c
    ensures 0 < b.mappingId <= l.mappingIdHighWater && 0 < b.flowMark <= l.flowMarkHighWater
  {
    if b in l.active {
      ActiveFacts(l, b);
      if c !in l.active {
        var e :| e in l.entries && BindingOf(e) == c;
      }
    } else {
      var e :| e in l.entries && BindingOf(e) == b;
      EntryFacts(l, e);
      if c in l.active {
        ActiveFacts(l, c);
      } else {
        var f :| f in l.entries && BindingOf(f) == c;
      }
    }
  }

  // ---- Facts about the recursive pieces of Prepare ----

  lemma {:induction false} KeptFacts(es: seq<Entry>, ack: int)
    ensures forall e :: e in Kept(es, ack) <==> e in es && ack < e.retirement.generation
    ensures (forall e :: e in es ==> ack < e.retirement.generation) ==> Kept(es, ack) == es
  {
    if es != [] {
      var init, last := es[..|es| - 1], es[|es| - 1];
      KeptFacts(init, ack);
      assert es == init + [last];
    }
  }

  lemma AcceptedPrefix(l: Ledger, kept: seq<Entry>, rs: seq<Retirement>)
    requires RetirementsAccepted(l, kept, rs) && rs != []
    ensures RetirementsAccepted(l, kept, rs[..|rs| - 1])
    ensures RetirementAccepted(l, Absorb(kept, rs[..|rs| - 1]), rs[|rs| - 1])
  {
    hide RetirementAccepted, Absorb;
    var init := rs[..|rs| - 1];
    forall i | 0 <= i < |init| ensures RetirementAccepted(l, Absorb(kept, init[..i]), init[i]) {
      assert init[..i] == rs[..i];
    }
  }

  /** Every added entry is uncleared and retires an exact active epoch. */
  lemma {:induction false} AbsorbAdds(l: Ledger, kept: seq<Entry>, rs: seq<Retirement>, e: Entry)
    requires RetirementsAccepted(l, kept, rs) && e in Absorb(kept, rs)[|kept|..]
    ensures !e.cleared && e.retirement in rs && RetiresEpoch(l, e.retirement)
  {
    hide RetirementsAccepted, RetiresEpoch;
    if rs != [] {
      AcceptedPrefix(l, kept, rs);
      var init, r := rs[..|rs| - 1], rs[|rs| - 1];
      var es, all := Absorb(kept, init), Absorb(kept, rs);
      if e in es[|kept|..] {
        AbsorbAdds(l, kept, init, e);
      } else {
        assert all == es + [Entry(r, false)];
        assert all[|kept|..] == es[|kept|..] + [Entry(r, false)];
      }
    }
  }

  /** Every listed retirement is outstanding afterwards. */
  lemma {:induction false} AbsorbCovers(l: Ledger, kept: seq<Entry>, rs: seq<Retirement>, q: Retirement)
    requires RetirementsAccepted(l, kept, rs) && q in rs
    ensures exists e :: e in Absorb(kept, rs) && e.retirement == q
  {
    hide RetirementsAccepted, RetiresEpoch;
    AcceptedPrefix(l, kept, rs);
    var init, r := rs[..|rs| - 1], rs[|rs| - 1];
    var es, all := Absorb(kept, init), Absorb(kept, rs);
    if q in init {
      AbsorbCovers(l, kept, init, q);
      var e :| e in es && e.retirement == q;
      assert e in all;
    } else if Known(es, r.retirementId) {
      var e :| e in es && e.retirement.retirementId == r.retirementId;
      assert e in all && e.retirement == q;
    } else {
      assert all == es + [Entry(r, false)];
      assert Entry(r, false) in all;
    }
  }

  /** Retirements that are all outstanding already add nothing. */
  lemma {:induction false} AbsorbKnown(kept: seq<Entry>, rs: seq<Retirement>)
    requires forall r :: r in rs ==> Known(kept, r.retirementId)
    ensures Absorb(kept, rs) == kept
  {
    if rs != [] {
      AbsorbKnown(kept, rs[..|rs| - 1]);
      assert rs[|rs| - 1] in rs;
    }
  }

  lemma {:induction false} SurvivingFacts(next: seq<Epoch>, es: seq<Entry>)
    ensures forall a :: a in Surviving(next, es) <==> a in next && !RetiredId(es, a.mappingId)
    ensures (forall a :: a in next ==> !RetiredId(es, a.mappingId)) ==> Surviving(next, es) == next
  {
    if next != [] {
      var init, last := next[..|next| - 1], next[|next| - 1];
      SurvivingFacts(init, es);
      assert next == init + [last];
    }
  }

  lemma {:induction false} MaxIdFacts(base: int, es: seq<Epoch>)
    ensures base <= MaxId(base, es) && forall a :: a in es ==> a.mappingId <= MaxId(base, es)
    ensures (forall a :: a in es ==> a.mappingId <= base) ==> MaxId(base, es) == base
  {
    if es != [] {
      MaxIdFacts(base, es[..|es| - 1]);
      assert es == es[..|es| - 1] + [es[|es| - 1]];
    }
  }

  lemma {:induction false} MaxMarkFacts(base: u32, es: seq<Epoch>)
    ensures base <= MaxMark(base, es) && forall a :: a in es ==> a.flowMark <= MaxMark(base, es)
    ensures (forall a :: a in es ==> a.flowMark <= base) ==> MaxMark(base, es) == base
  {
    if es != [] {
      MaxMarkFacts(base, es[..|es| - 1]);
      assert es == es[..|es| - 1] + [es[|es| - 1]];
    }
  }

  lemma {:induction false} MaxGenerationFacts(base: int, es: seq<Entry>)
    ensures base <= MaxGeneration(base, es)
    ensures forall e :: e in es ==> e.retirement.generation <= MaxGeneration(base, es)
  {
    if es != [] {
      MaxGenerationFacts(base, es[..|es| - 1]);
      assert es == es[..|es| - 1] + [es[|es| - 1]];
    }
  }

  // ---- One accepted managed snapshot ----

  /** The snapshot is valid and accepted, and takes one ledger to the other. */
  ghost predicate Leads(l: Ledger, s: Snapshot, lim: Limits, n: Ledger) {
    Valid(s, lim) && Accepts(l, s) && n == Prepared(l, s)
  }

  ghost predicate ManagedStep(l: Ledger, s: Snapshot, lim: Limits, n: Ledger) {
    LedgerInv(l) && s.retirements.Some? && Leads(l, s, lim, n)
  }

  /** What acceptance amounts to, piece by piece. */
  lemma StepFacts(l: Ledger, s: Snapshot, lim: Limits, n: Ledger)
    requires ManagedStep(l, s, lim, n)
    ensures s.retirements.Some? && s.acknowledged == Some(n.acknowledged) && 0 <= l.acknowledged <= n.acknowledged <= l.retirementHighWater
    ensures RetirementsAccepted(l, Kept(l.entries, n.acknowledged), s.retirements.value)
    ensures MappingsAccepted(l, s.mappings) && Marked(s.mappings)
    ensures n.entries == Absorb(Kept(l.entries, n.acknowledged), s.retirements.value)
    ensures n.active == Surviving(Epochs(s.mappings), n.entries)
    ensures ValidLedger(l) && ValidLedger(n)
  {
    hide ValidLedger, Valid, RetirementsAccepted, Kept, Absorb, Surviving;
  }

  lemma StepMarks(l: Ledger, s: Snapshot, lim: Limits, n: Ledger)
    requires ManagedStep(l, s, lim, n) && Marked(s.mappings)
    requires |Kept(l.entries, n.acknowledged)| <= |n.entries|
    ensures n.armed && n.ledgerId == l.ledgerId
    ensures n.mappingIdHighWater == MaxId(l.mappingIdHighWater, Epochs(s.mappings))
    ensures n.flowMarkHighWater == MaxMark(l.flowMarkHighWater, Epochs(s.mappings))
    ensures n.retirementHighWater == MaxGeneration(l.retirementHighWater, n.entries[|Kept(l.entries, n.acknowledged)|..])
    ensures n.managedGenerationHighWater == s.generation && n.desiredHash == DesiredHash(s)
    ensures l.managedGenerationHighWater <= s.generation
  {
    hide ValidLedger, Valid, RetirementsAccepted, MappingsAccepted, Kept, Absorb, Surviving, MaxId, MaxMark, MaxGeneration, DesiredHash;
  }

  lemma StepClearsFirst(l: Ledger, s: Snapshot, lim: Limits, n: Ledger, e: Entry)
    requires ManagedStep(l, s, lim, n) && e in l.entries && e.retirement.generation <= n.acknowledged
    ensures e.cleared
  {
    hide ValidLedger, Valid, RetirementsAccepted, MappingsAccepted, Kept, Absorb, Surviving, MaxId, MaxMark, MaxGeneration, DesiredHash;
  }

  lemma StepLosesNone(l: Ledger, s: Snapshot, lim: Limits, n: Ledger, a: Epoch)
    requires ManagedStep(l, s, lim, n) && a in l.active && !RetiredId(n.entries, a.mappingId)
    ensures Present(s.mappings, a.mappingId)
  {
    hide ValidLedger, Valid, RetirementsAccepted, MappingsAccepted, Kept, Absorb, Surviving, MaxId, MaxMark, MaxGeneration, DesiredHash, Present, RetiredId;
  }

  lemma RetirementInSnapshot(s: Snapshot, lim: Limits, r: Retirement)
    requires Valid(s, lim) && s.retirements.Some? && r in s.retirements.value
    ensures ValidTuple(RetirementTuple(r)) && r.flowMark != 0 && 0 < r.generation
    ensures forall m :: m in s.mappings ==> m.id != r.mappingId
  {
    hide MappingFits;
    var i :| 0 <= i < |s.retirements.value| && s.retirements.value[i] == r;
    assert RetirementFits(s, lim, i);
  }

  lemma MappingInSnapshot(s: Snapshot, lim: Limits, m: Mapping)
    requires Valid(s, lim) && m in s.mappings
    ensures MappingOk(m, s.retirements.Some?, lim)
    ensures s.retirements.Some? ==> ValidTuple(MappingTuple(m))
    ensures forall k :: k in s.mappings && Clash(m, k) ==> m == k
  {
    hide RetirementFits;
    var i :| 0 <= i < |s.mappings| && s.mappings[i] == m;
    assert MappingFits(s, lim, i);
    forall k | k in s.mappings && Clash(m, k) ensures m == k {
      var j :| 0 <= j < |s.mappings| && s.mappings[j] == k;
      assert MappingFits(s, lim, j);
    }
  }

  /** Where the entries of the new ledger come from. */
  lemma NewEntryOrigin(l: Ledger, s: Snapshot, lim: Limits, n: Ledger, e: Entry)
    requires ManagedStep(l, s, lim, n) && e in n.entries
    ensures e in l.entries || (!e.cleared && e.retirement in s.retirements.value && RetiresEpoch(l, e.retirement))
    ensures e in l.entries ==> n.acknowledged < e.retirement.generation
  {
    hide ManagedStep, ValidLedger, RetirementsAccepted, MappingsAccepted, Absorb, Kept, Surviving;
    StepFacts(l, s, lim, n);
    var kept := Kept(l.entries, n.acknowledged);
    KeptFacts(l.entries, n.acknowledged);
    assert n.entries == kept + n.entries[|kept|..];
    if e !in kept {
      AbsorbAdds(l, kept, s.retirements.value, e);
    }
  }

  lemma NewEntryInv(l: Ledger, s: Snapshot, lim: Limits, n: Ledger, e: Entry)
    requires ManagedStep(l, s, lim, n) && e in n.entries
    ensures n.acknowledged < e.retirement.generation <= n.retirementHighWater
    ensures ValidTuple(RetirementTuple(e.retirement))
  {
    hide ValidLedger, Valid, Verdict, Prepared, RetirementsAccepted, MappingsAccepted, Absorb, Kept, ValidTuple, MaxGeneration, Surviving;
    StepFacts(l, s, lim, n);
    StepMarks(l, s, lim, n);
    NewEntryOrigin(l, s, lim, n, e);
    var kept := Kept(l.entries, n.acknowledged);
    MaxGenerationFacts(l.retirementHighWater, n.entries[|kept|..]);
    assert n.entries == kept + n.entries[|kept|..];
    if e !in l.entries {
      RetirementInSnapshot(s, lim, e.retirement);
      KeptFacts(l.entries, n.acknowledged);
    }
  }

  /** Outstanding entries leave only when cleared and acknowledged. */
  lemma OldEntryFate(l: Ledger, s: Snapshot, lim: Limits, n: Ledger, e: Entry)
    requires ManagedStep(l, s, lim, n) && e in l.entries
    ensures e in n.entries <==> n.acknowledged < e.retirement.generation
    ensures e !in n.entries ==> e.cleared
  {
    hide ManagedStep, ValidLedger, ValidTuple, RetirementsAccepted, MappingsAccepted, Kept, Absorb, Surviving;
    StepFacts(l, s, lim, n);
    if e in n.entries {
      NewEntryInv(l, s, lim, n, e);
    }
    if e.retirement.generation <= n.acknowledged {
      StepClearsFirst(l, s, lim, n, e);
    }
    KeptFacts(l.entries, n.acknowledged);
    assert n.entries == Kept(l.entries, n.acknowledged) + n.entries[|Kept(l.entries, n.acknowledged)|..];
  }

  lemma NewActiveOrigin(l: Ledger, s: Snapshot, lim: Limits, n: Ledger, m: Mapping)
    requires ManagedStep(l, s, lim, n) && m in s.mappings
    ensures m.flowMark.Some?
    ensures EpochOf(m) in l.active || (l.mappingIdHighWater < m.id && l.flowMarkHighWater < m.flowMark.value)
    ensures !RetiredId(n.entries, m.id)
  {
    StepFacts(l, s, lim, n);
    hide LedgerInv, Valid, ValidLedger, Verdict, Prepared, RetirementsAccepted, Absorb, Kept, Surviving;
    var i :| 0 <= i < |s.mappings| && s.mappings[i] == m;
    assert MappingAccepted(l, s.mappings[i]);
    forall e | e in n.entries ensures e.retirement.mappingId != m.id {
      NewEntryOrigin(l, s, lim, n, e);
      if e in l.entries {
        EntryFacts(l, e);
        if EpochOf(m) in l.active {
          ActiveFacts(l, EpochOf(m));
        }
      } else {
        RetirementInSnapshot(s, lim, e.retirement);
      }
    }
  }

  /** The final compaction of `next` removes nothing: the active epochs are those of the snapshot, in its order. */
  lemma ActiveIsTheSnapshot(l: Ledger, s: Snapshot, lim: Limits, n: Ledger)
    requires ManagedStep(l, s, lim, n)
    ensures Marked(s.mappings) && n.active == Epochs(s.mappings)
  {
    StepFacts(l, s, lim, n);
    hide LedgerInv, Valid, ValidLedger, Verdict, Prepared, RetirementsAccepted, MappingsAccepted, Absorb, Kept, Surviving, RetiredId;
    var next := Epochs(s.mappings);
    forall a | a in next ensures !RetiredId(n.entries, a.mappingId) {
      var i :| 0 <= i < |next| && next[i] == a;
      NewActiveOrigin(l, s, lim, n, s.mappings[i]);
    }
    SurvivingFacts(next, n.entries);
  }

  lemma ActiveOrigin(l: Ledger, s: Snapshot, lim: Limits, n: Ledger, a: Epoch)
    requires ManagedStep(l, s, lim, n) && a in n.active
    ensures a in l.active || (l.mappingIdHighWater < a.mappingId && l.flowMarkHighWater < a.flowMark)
    ensures exists m :: m in s.mappings && m.flowMark.Some? && EpochOf(m) == a
  {
    ActiveIsTheSnapshot(l, s, lim, n);
    hide LedgerInv, Valid, ValidLedger, Verdict, Prepared;
    var i :| 0 <= i < |n.active| && n.active[i] == a;
    NewActiveOrigin(l, s, lim, n, s.mappings[i]);
    assert EpochOf(s.mappings[i]) == a;
  }

  lemma PreparedInv(l: Ledger, s: Snapshot, lim: Limits, n: Ledger)
    requires ManagedStep(l, s, lim, n)
    ensures LedgerInv(n)
  {
    hide ManagedStep, ValidLedger, RetirementsAccepted, MappingsAccepted, Absorb, Kept, Surviving, ValidTuple, MaxId, MaxMark, MaxGeneration, DesiredHash;
    StepFacts(l, s, lim, n);
    StepMarks(l, s, lim, n);
    DesiredHashKeepsGeneration(s);
    forall e | e in n.entries
      ensures n.acknowledged < e.retirement.generation <= n.retirementHighWater && ValidTuple(RetirementTuple(e.retirement))
    {
      NewEntryInv(l, s, lim, n, e);
    }
  }

  lemma PreparedEvolves(l: Ledger, s: Snapshot, lim: Limits, n: Ledger)
    requires ManagedStep(l, s, lim, n)
    ensures Evolves(l, n)
  {
    hide ManagedStep, ValidLedger, RetirementsAccepted, MappingsAccepted, Absorb, Kept, Surviving, MaxId, MaxMark, MaxGeneration;
    StepFacts(l, s, lim, n);
    StepMarks(l, s, lim, n);
    MaxIdFacts(l.mappingIdHighWater, Epochs(s.mappings));
    MaxMarkFacts(l.flowMarkHighWater, Epochs(s.mappings));
    MaxGenerationFacts(l.retirementHighWater, n.entries[|Kept(l.entries, n.acknowledged)|..]);
    forall b | Holds(n, b)
      ensures Holds(l, b) || (l.mappingIdHighWater < b.mappingId && l.flowMarkHighWater < b.flowMark)
    {
      if b in n.active {
        ActiveOrigin(l, s, lim, n, b);
      } else {
        var e :| e in n.entries && BindingOf(e) == b;
        NewEntryOrigin(l, s, lim, n, e);
      }
    }
    forall a | a in n.active ensures a in l.active || l.mappingIdHighWater < a.mappingId {
      ActiveOrigin(l, s, lim, n, a);
    }
    forall o, e | o in l.entries && e in n.entries && o.retirement.mappingId == e.retirement.mappingId
      ensures o.retirement == e.retirement && (o.cleared ==> e.cleared)
    {
      NewEntryOrigin(l, s, lim, n, e);
      if e in l.entries {
        EntryFacts(l, o);
      } else {
        ActiveFacts(l, BindingOf(e));
      }
    }
  }

  /** Any accepted snapshot, managed or legacy, keeps the invariant and only moves forward. */
  lemma PrepareKeeps(l: Ledger, s: Snapshot, lim: Limits, n: Ledger)
    requires LedgerInv(l) && Leads(l, s, lim, n)
    ensures LedgerInv(n) && Evolves(l, n)
  {
    if s.retirements.Some? {
      PreparedInv(l, s, lim, n);
      PreparedEvolves(l, s, lim, n);
    } else {
      EvolvesReflexive(l);
    }
  }

  // ---- Clearing ----

  lemma ClearedFacts(l: Ledger, ids: set<string>, e: Entry)
    requires e in Cleared(l, ids).entries
    ensures exists o :: o in l.entries && o.retirement == e.retirement && e == ClearedEntry(o, ids)
  {
    var i :| 0 <= i < |l.entries| && Cleared(l, ids).entries[i] == e;
    assert l.entries[i] in l.entries;
  }

  lemma ClearKeeps(l: Ledger, ids: set<string>)
    requires LedgerInv(l)
    ensures LedgerInv(Cleared(l, ids)) && Evolves(l, Cleared(l, ids))
  {
    var n := Cleared(l, ids);
    assert forall i :: 0 <= i < |n.entries| ==> n.entries[i].retirement == l.entries[i].retirement;
    forall e | e in n.entries
      ensures n.acknowledged < e.retirement.generation <= n.retirementHighWater && ValidTuple(RetirementTuple(e.retirement))
    {
      ClearedFacts(l, ids, e);
    }
    forall b | Holds(n, b) ensures Holds(l, b) {
      if b !in n.active {
        var e :| e in n.entries && BindingOf(e) == b;
        ClearedFacts(l, ids, e);
      }
    }
    forall o, e | o in l.entries && e in n.entries && o.retirement.mappingId == e.retirement.mappingId
      ensures o.retirement == e.retirement && (o.cleared ==> e.cleared)
    {
      ClearedFacts(l, ids, e);
      var p :| p in l.entries && p.retirement == e.retirement && e == ClearedEntry(p, ids);
      EntryFacts(l, o);
      assert o == p;
    }
    assert !l.armed ==> n.entries == [];
  }

  /** The list of cleared entries holds each of them once, and nothing else. */
  lemma {:induction false} ClearedListIsExact(es: seq<Entry>, e: Entry)
    ensures multiset(ClearedList(es))[e] == if e.cleared then multiset(es)[e] else 0
    ensures e in ClearedList(es) <==> e in es && e.cleared
  {
    if es != [] {
      var init, last := es[..|es| - 1], es[|es| - 1];
      assert es == init + [last];
      ClearedListIsExact(init, e);
    }
    assert e in ClearedList(es) <==> e in multiset(ClearedList(es));
  }

  // ---- Never reuse ----

  lemma EvolvesReflexive(l: Ledger)
    requires ValidLedger(l)
    ensures Evolves(l, l)
  {
    forall o, e | o in l.entries && e in l.entries && o.retirement.mappingId == e.retirement.mappingId ensures o == e {
      EntryFacts(l, o);
    }
  }

  /** An entry of the first ledger that is still, or again, an entry of the third was one of the second. */
  lemma EntryBetween(l: Ledger, m: Ledger, n: Ledger, o: Entry, e: Entry)
    requires ValidLedger(l) && ValidLedger(m) && Binds(l, m) && Binds(m, n)
    requires o in l.entries && e in n.entries && o.retirement.mappingId == e.retirement.mappingId
    ensures o.retirement == e.retirement && exists f :: f in m.entries && f.retirement == o.retirement
  {
    EntryFacts(l, o);
    assert Holds(n, BindingOf(e));
    assert Holds(m, BindingOf(e));
    if BindingOf(e) in m.active {
      ActiveFacts(l, BindingOf(e));
    } else {
      var f :| f in m.entries && BindingOf(f) == BindingOf(e);
      assert o.retirement == f.retirement;
    }
  }

  lemma BindsTransitive(l: Ledger, m: Ledger, n: Ledger)
    requires ValidLedger(l) && ValidLedger(m) && Binds(l, m) && Binds(m, n)
    ensures Binds(l, n)
  {
    forall o, e | o in l.entries && e in n.entries && o.retirement.mappingId == e.retirement.mappingId ensures o.retirement == e.retirement {
      EntryBetween(l, m, n, o, e);
    }
  }

  lemma EvolvesTransitive(l: Ledger, m: Ledger, n: Ledger)
    requires ValidLedger(l) && ValidLedger(m) && Evolves(l, m) && Evolves(m, n)
    ensures Evolves(l, n)
  {
    hide Binds, ValidLedger;
    BindsTransitive(l, m, n);
    forall o, e | o in l.entries && e in n.entries && o.retirement.mappingId == e.retirement.mappingId && o.cleared ensures e.cleared {
      EntryBetween(l, m, n, o, e);
    }
  }

  /** Across any stretch of a run an id keeps its mark and tuple, and a mark keeps its id. */
  lemma BindingForever(l: Ledger, n: Ledger, b: Epoch, c: Epoch)
    requires ValidLedger(l) && Binds(l, n) && Holds(l, b) && Holds(n, c)
    ensures EpochsClash(b, c) ==> b == c
  {
    BindingsUnique(l, b, b);
    if Holds(l, c) {
      BindingsUnique(l, b, c);
    }
  }

  /** An id that has left the active set never returns to it. */
  lemma LeftNeverReturns(l: Ledger, m: Ledger, n: Ledger, a: Epoch)
    requires ValidLedger(l) && Evolves(l, m) && Evolves(m, n)
    requires a in l.active && !ActiveId(m, a.mappingId)
    ensures !ActiveId(n, a.mappingId)
  {
    ActiveFacts(l, a);
  }

  // ---- Lifecycle ----

  /** The stage of a mapping id: unseen, active, outstanding, cleared, gone. */
  ghost function Stage(l: Ledger, id: int): nat {
    if l.mappingIdHighWater < id then 0
    else if ActiveId(l, id) then 1
    else if exists e :: e in l.entries && e.retirement.mappingId == id && !e.cleared then 2
    else if RetiredId(l.entries, id) then 3
    else 4
  }

  /** Every id only moves forward through the stages. */
  lemma StageMovesForward(l: Ledger, n: Ledger, id: int)
    requires ValidLedger(l) && ValidLedger(n) && Evolves(l, n)
    ensures Stage(l, id) <= Stage(n, id)
  {
    if id <= l.mappingIdHighWater {
      if ActiveId(n, id) {
        var a :| a in n.active && a.mappingId == id;
        assert a in l.active;
      } else if RetiredId(n.entries, id) {
        var e :| e in n.entries && e.retirement.mappingId == id
          && (Stage(n, id) == 2 ==> !e.cleared);
        assert Holds(n, BindingOf(e)) && Holds(l, BindingOf(e));
        if BindingOf(e) !in l.active {
          var o :| o in l.entries && BindingOf(o) == BindingOf(e);
          StageOfEntry(l, o);
        } else {
          assert ActiveId(l, id);
        }
      }
    }
  }

  lemma StageOfEntry(l: Ledger, o: Entry)
    requires ValidLedger(l) && o in l.entries
    ensures Stage(l, o.retirement.mappingId) == if o.cleared then 3 else 2
  {
    var id := o.retirement.mappingId;
    EntryFacts(l, o);
    if ActiveId(l, id) {
      var a :| a in l.active && a.mappingId == id;
      ActiveFacts(l, a);
    }
    forall e | e in l.entries && e.retirement.mappingId == id ensures e == o {
    }
  }

  // ---- Settled: the snapshot a ledger currently stands for ----

  /** The ledger is exactly what this managed snapshot asks for (whatever the listing order, whatever was cleared). */
  ghost predicate Settled(l: Ledger, s: Snapshot) {
    && s.retirements.Some? && l.armed
    && s.generation == l.managedGenerationHighWater && l.desiredHash == DesiredHash(s)
    && s.acknowledged == Some(l.acknowledged)
    && Marked(s.mappings)
    && (forall m :: m in s.mappings ==> m.flowMark.Some? && EpochOf(m) in l.active)
    && (forall a :: a in l.active ==> exists m :: m in s.mappings && m.flowMark.Some? && EpochOf(m) == a)
    && (forall r :: r in s.retirements.value ==> exists e :: e in l.entries && e.retirement == r)
  }

  /** An accepted managed snapshot settles the ledger. */
  lemma PrepareSettles(l: Ledger, s: Snapshot, lim: Limits, n: Ledger)
    requires ManagedStep(l, s, lim, n)
    ensures Settled(n, s)
  {
    hide ManagedStep, ValidLedger, RetirementsAccepted, MappingsAccepted, Absorb, Kept, Surviving, MaxId, MaxMark, MaxGeneration, DesiredHash;
    StepFacts(l, s, lim, n);
    StepMarks(l, s, lim, n);
    ActiveIsTheSnapshot(l, s, lim, n);
    forall r | r in s.retirements.value ensures exists e :: e in n.entries && e.retirement == r {
      AbsorbCovers(l, Kept(l.entries, n.acknowledged), s.retirements.value, r);
    }
    forall m | m in s.mappings ensures m.flowMark.Some? && EpochOf(m) in n.active {
      var i :| 0 <= i < |s.mappings| && s.mappings[i] == m;
      assert n.active[i] == EpochOf(m);
    }
    forall a | a in n.active ensures exists m :: m in s.mappings && m.flowMark.Some? && EpochOf(m) == a {
      ActiveOrigin(l, s, lim, n, a);
    }
  }

  /** Clearing entries does not unsettle. */
  lemma ClearStaysSettled(l: Ledger, s: Snapshot, ids: set<string>)
    requires Settled(l, s)
    ensures Settled(Cleared(l, ids), s)
  {
    var n := Cleared(l, ids);
    forall r | r in s.retirements.value ensures exists e :: e in n.entries && e.retirement == r {
      var e :| e in l.entries && e.retirement == r;
      var i :| 0 <= i < |l.entries| && l.entries[i] == e;
      assert n.entries[i] in n.entries;
    }
  }

  /** The same content in another order settles the same ledgers. */
  lemma SettledByContent(l: Ledger, s: Snapshot, t: Snapshot, lim: Limits)
    requires Settled(l, s) && Valid(s, lim) && Valid(t, lim) && SameContent(s, t)
    ensures Settled(l, t)
  {
    hide Valid, DesiredHash, EpochOf;
    DesiredHashIdentifiesContent(s, t, lim);
    SameMultisetSameElements(s.mappings, t.mappings);
    SameMultisetSameElements(s.retirements.value, t.retirements.value);
    assert forall i :: 0 <= i < |t.mappings| ==> t.mappings[i] in t.mappings;
  }

  /** Ledgers that differ only in the order of their active epochs settle the same snapshots. */
  ghost predicate Similar(l: Ledger, n: Ledger) {
    n == l.(active := n.active) && multiset(n.active) == multiset(l.active)
  }

  lemma SettledBySimilar(l: Ledger, n: Ledger, s: Snapshot)
    requires Settled(l, s) && Similar(l, n)
    ensures Settled(n, s)
  {
    SameMultisetSameElements(l.active, n.active);
  }

  lemma SnapshotEpochsDistinct(s: Snapshot, lim: Limits, i: nat, j: nat)
    requires Valid(s, lim) && Marked(s.mappings) && i < j < |s.mappings|
    ensures !EpochsClash(Epochs(s.mappings)[i], Epochs(s.mappings)[j])
  {
    hide RetirementFits, TupleHash;
    assert MappingFits(s, lim, j);
    assert !Clash(s.mappings[i], s.mappings[j]);
  }

  lemma SettledEpochs(l: Ledger, s: Snapshot, lim: Limits)
    requires LedgerInv(l) && Valid(s, lim) && Settled(l, s)
    ensures multiset(Epochs(s.mappings)) == multiset(l.active)
    ensures forall i, j :: 0 <= i < j < |s.mappings| ==> !EpochsClash(Epochs(s.mappings)[i], Epochs(s.mappings)[j])
  {
    hide Valid, ValidEntries, DesiredHash, EpochOf;
    var es := Epochs(s.mappings);
    forall i, j | 0 <= i < j < |s.mappings| ensures !EpochsClash(es[i], es[j]) {
      SnapshotEpochsDistinct(s, lim, i, j);
    }
    forall a | a in l.active ensures a in es {
      var m :| m in s.mappings && m.flowMark.Some? && EpochOf(m) == a;
      var i :| 0 <= i < |s.mappings| && s.mappings[i] == m;
      assert es[i] == a;
    }
    forall a | a in es ensures a in l.active {
      var i :| 0 <= i < |es| && es[i] == a;
      assert s.mappings[i] in s.mappings;
    }
    SameElementsSameMultiset(es, l.active);
  }

  /** Preparing a settled snapshot again succeeds and changes nothing but the order of the active epochs. */
  lemma SettledPrepare(l: Ledger, s: Snapshot, lim: Limits)
    requires LedgerInv(l) && Valid(s, lim) && Settled(l, s)
    ensures Accepts(l, s) && Prepared(l, s) == l.(active := Epochs(s.mappings))
    ensures Similar(l, Prepared(l, s))
  {
    hide Valid, ValidLedger, Prepared, RetirementsAccepted, MappingsAccepted, Absorb, Kept, DesiredHash, Present;
    SettledPrepared(l, s, lim);
    SettledAccepted(l, s, lim);
    SettledValid(l, s, lim);
    SettledEpochs(l, s, lim);
    KeptFacts(l.entries, l.acknowledged);
    SettledPresent(l, s);
    AcknowledgedBelowHighWater(l);
  }

  lemma AcknowledgedBelowHighWater(l: Ledger)
    requires ValidLedger(l)
    ensures l.acknowledged <= l.retirementHighWater
  {
  }

  lemma SettledPresent(l: Ledger, s: Snapshot)
    requires Settled(l, s)
    ensures forall a :: a in l.active ==> Present(s.mappings, a.mappingId)
  {
    forall a | a in l.active ensures Present(s.mappings, a.mappingId) {
      var m :| m in s.mappings && m.flowMark.Some? && EpochOf(m) == a;
    }
  }

  lemma SettledPrepared(l: Ledger, s: Snapshot, lim: Limits)
    requires LedgerInv(l) && Valid(s, lim) && Settled(l, s)
    ensures Prepared(l, s) == l.(active := Epochs(s.mappings))
  {
    hide Valid, ValidLedger, ValidTuple, Kept, Absorb, Surviving, MaxId, MaxMark, DesiredHash, EpochOf;
    var es := Epochs(s.mappings);
    SettledEpochs(l, s, lim);
    SameMultisetSameElements(es, l.active);
    KeptFacts(l.entries, l.acknowledged);
    forall r | r in s.retirements.value ensures Known(l.entries, r.retirementId) {
      var e :| e in l.entries && e.retirement == r;
    }
    AbsorbKnown(l.entries, s.retirements.value);
    forall a | a in es
      ensures !RetiredId(l.entries, a.mappingId) && a.mappingId <= l.mappingIdHighWater && a.flowMark <= l.flowMarkHighWater
    {
      ActiveFacts(l, a);
    }
    SurvivingFacts(es, l.entries);
    MaxIdFacts(l.mappingIdHighWater, es);
    MaxMarkFacts(l.flowMarkHighWater, es);
  }

  lemma SettledAccepted(l: Ledger, s: Snapshot, lim: Limits)
    requires LedgerInv(l) && Valid(s, lim) && Settled(l, s)
    ensures MappingsAccepted(l, s.mappings)
    ensures RetirementsAccepted(l, l.entries, s.retirements.value)
  {
    hide Valid, ValidLedger, Absorb, DesiredHash, RetiresEpoch;
    forall i | 0 <= i < |s.mappings| ensures MappingAccepted(l, s.mappings[i]) {
      var m := s.mappings[i];
      assert m in s.mappings;
      assert EpochOf(m) in l.active && EpochOf(m).mappingId == m.id;
    }
    var rs := s.retirements.value;
    forall i | 0 <= i < |rs| ensures RetirementAccepted(l, Absorb(l.entries, rs[..i]), rs[i]) {
      forall r | r in rs[..i] ensures Known(l.entries, r.retirementId) {
        assert r in rs;
        var e :| e in l.entries && e.retirement == r;
      }
      AbsorbKnown(l.entries, rs[..i]);
      assert rs[i] in rs;
      var e :| e in l.entries && e.retirement == rs[i];
      EntryFacts(l, e);
    }
  }

  lemma SettledValid(l: Ledger, s: Snapshot, lim: Limits)
    requires LedgerInv(l) && Valid(s, lim) && Settled(l, s)
    ensures ValidLedger(l.(active := Epochs(s.mappings)))
  {
    hide Valid, EpochOf, DesiredHash;
    SettledEpochs(l, s, lim);
    var n := l.(active := Epochs(s.mappings));
    SameMultisetSameElements(n.active, l.active);
    forall i | 0 <= i < |n.active|
      ensures EpochOk(n, n.active[i])
      ensures forall j :: 0 <= j < |n.entries| ==> !EpochsClash(n.active[i], BindingOf(n.entries[j]))
    {
      assert n.active[i] in l.active;
      ActiveFacts(l, n.active[i]);
    }
  }

  /** Prepare is idempotent, even after any of the entries were cleared in between. */
  lemma PrepareIdempotent(l: Ledger, s: Snapshot, lim: Limits, ids: set<string>)
    requires LedgerInv(l) && Valid(s, lim) && s.retirements.Some? && Accepts(l, s)
    ensures var n := Cleared(Prepared(l, s), ids); Accepts(n, s) && Prepared(n, s) == n
  {
    var p := Prepared(l, s);
    PreparedInv(l, s, lim, p);
    PrepareSettles(l, s, lim, p);
    ActiveIsTheSnapshot(l, s, lim, p);
    ClearKeeps(p, ids);
    ClearStaysSettled(p, s, ids);
    SettledPrepare(Cleared(p, ids), s, lim);
  }

  // ---- The change detector ----

  /** The nine fields the agent compares before it decides that nothing changed. */
  predicate LedgerChanged(n: Ledger, l: Ledger) {
    || n.desiredHash != l.desiredHash
    || n.managedGenerationHighWater != l.managedGenerationHighWater
    || n.armed != l.armed
    || n.mappingIdHighWater != l.mappingIdHighWater
    || n.flowMarkHighWater != l.flowMarkHighWater
    || n.retirementHighWater != l.retirementHighWater
    || n.acknowledged != l.acknowledged
    || |n.active| != |l.active|
    || |n.entries| != |l.entries|
  }

  /** The detector misses nothing: it is silent exactly when the prepared ledger is the current one up to order. */
  lemma ChangeDetectorComplete(l: Ledger, s: Snapshot, lim: Limits)
    requires LedgerInv(l) && Valid(s, lim) && Accepts(l, s)
    ensures !LedgerChanged(Prepared(l, s), l) <==> Similar(l, Prepared(l, s))
  {
    var n := Prepared(l, s);
    if !LedgerChanged(n, l) && s.retirements.Some? {
      SilentMeansSimilar(l, s, lim, n);
    }
    if Similar(l, n) {
      SameMultisetSameElements(l.active, n.active);
    }
  }

  lemma SilentMeansSimilar(l: Ledger, s: Snapshot, lim: Limits, n: Ledger)
    requires ManagedStep(l, s, lim, n) && !LedgerChanged(n, l)
    ensures Similar(l, n)
  {
    hide ManagedStep, ValidEntries, EpochOk, Kept, Absorb, Surviving, MappingsAccepted, RetirementsAccepted, MaxId, MaxMark, MaxGeneration, DesiredHash;
    SilentSameEntries(l, s, lim, n);
    StepFacts(l, s, lim, n);
    StepMarks(l, s, lim, n);
    ActiveIsTheSnapshot(l, s, lim, n);
    MaxIdFacts(l.mappingIdHighWater, Epochs(s.mappings));
    forall a | a in n.active ensures a in l.active {
      ActiveOrigin(l, s, lim, n, a);
    }
    forall a | a in l.active ensures a in n.active {
      ActiveFacts(l, a);
      StillActive(l, s, lim, n, a);
    }
    SameElementsSameMultiset(n.active, l.active);
  }

  lemma SilentSameEntries(l: Ledger, s: Snapshot, lim: Limits, n: Ledger)
    requires ManagedStep(l, s, lim, n) && !LedgerChanged(n, l)
    ensures n.entries == l.entries && n == l.(active := n.active)
  {
    hide Valid, ValidLedger, Verdict, Kept, Absorb, Surviving, MappingsAccepted, RetirementsAccepted, MaxId, MaxMark, MaxGeneration, DesiredHash;
    StepFacts(l, s, lim, n);
    KeptFacts(l.entries, l.acknowledged);
  }

  /** An epoch that no outstanding entry retires is still listed. */
  lemma StillActive(l: Ledger, s: Snapshot, lim: Limits, n: Ledger, a: Epoch)
    requires ManagedStep(l, s, lim, n) && a in l.active && !RetiredId(n.entries, a.mappingId)
    ensures a in n.active
  {
    hide Valid, ValidLedger, Verdict, Prepared, RetiredId;
    StepLosesNone(l, s, lim, n, a);
    ActiveIsTheSnapshot(l, s, lim, n);
    ActiveFacts(l, a);
    var m :| m in s.mappings && m.id == a.mappingId;
    NewActiveOrigin(l, s, lim, n, m);
    var i :| 0 <= i < |s.mappings| && s.mappings[i] == m;
    assert n.active[i] == EpochOf(m) == a;
  }

  /** An active epoch stays active or becomes an outstanding, uncleared retirement: none is lost. */
  lemma ActiveFate(l: Ledger, s: Snapshot, lim: Limits, n: Ledger, a: Epoch)
    requires ManagedStep(l, s, lim, n) && a in l.active
    ensures a in n.active || exists e :: e in n.entries && BindingOf(e) == a && !e.cleared
  {
    if RetiredId(n.entries, a.mappingId) {
      var e :| e in n.entries && e.retirement.mappingId == a.mappingId;
      NewEntryOrigin(l, s, lim, n, e);
      ActiveFacts(l, a);
      assert BindingOf(e) == a;
    } else {
      StillActive(l, s, lim, n, a);
    }
  }
}
