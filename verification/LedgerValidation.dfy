/**
 The validation at the end of Prepare (internal/retirement/ledger.go): for reachable ledgers
 and valid snapshots the earlier checks already imply everything it looks at, except the cap
 on outstanding retirements and the reserved generation 0.
 */
module LedgerValidation {
  import opened Values
  import opened Snapshots
  import opened Ledgers
  import opened LedgerProofs

  /** A managed snapshot that passed every check before the final validation. */
  ghost predicate Checked(l: Ledger, s: Snapshot, lim: Limits) {
    && LedgerInv(l) && Valid(s, lim) && s.retirements.Some?
    && (Verdict(l, s) == None || Verdict(l, s) == Some(InvalidResult))
  }

  lemma CheckedFacts(l: Ledger, s: Snapshot, lim: Limits)
    requires Checked(l, s, lim)
    ensures ValidLedger(l) && s.acknowledged.Some? && l.managedGenerationHighWater <= s.generation
    ensures s.generation == l.managedGenerationHighWater ==> l.desiredHash == NoHash || l.desiredHash == DesiredHash(s)
    ensures l.acknowledged <= s.acknowledged.value <= l.retirementHighWater
    ensures MappingsAccepted(l, s.mappings) && Marked(s.mappings)
    ensures RetirementsAccepted(l, Kept(l.entries, s.acknowledged.value), s.retirements.value)
    ensures Verdict(l, s) == None <==> ValidLedger(Prepared(l, s))
  {
    hide ValidLedger, Valid, RetirementsAccepted, NextEntries, Prepared, DesiredHash;
    assert Readable(s) by { HeaderOnly(s, lim); }
    assert forall i :: 0 <= i < |s.mappings| ==> MappingAccepted(l, s.mappings[i]);
  }

  lemma HeaderOnly(s: Snapshot, lim: Limits)
    requires Valid(s, lim)
    ensures Readable(s) && 0 <= s.generation
  {
  }

  // ---- Entries ----

  ghost predicate DistinctRetirements(es: seq<Entry>) {
    forall i, j :: 0 <= i < j < |es| ==> es[i].retirement.retirementId != es[j].retirement.retirementId
  }

  lemma {:induction false} KeptDistinct(es: seq<Entry>, ack: int)
    requires DistinctRetirements(es)
    ensures DistinctRetirements(Kept(es, ack))
  {
    if es != [] {
      var init, last := es[..|es| - 1], es[|es| - 1];
      assert DistinctRetirements(init);
      KeptDistinct(init, ack);
      KeptFacts(init, ack);
      var k := Kept(init, ack);
      forall i | 0 <= i < |k| ensures k[i].retirement.retirementId != last.retirement.retirementId {
        assert k[i] in init;
        var j :| 0 <= j < |init| && init[j] == k[i];
        assert es[j] == init[j];
      }
    }
  }

  lemma {:induction false} AbsorbDistinct(kept: seq<Entry>, rs: seq<Retirement>)
    requires DistinctRetirements(kept)
    ensures DistinctRetirements(Absorb(kept, rs))
  {
    if rs != [] {
      AbsorbDistinct(kept, rs[..|rs| - 1]);
    }
  }

  lemma CheckedGenerations(l: Ledger, s: Snapshot, lim: Limits)
    requires Checked(l, s, lim)
    ensures forall e :: e in l.entries ==> e.retirement.generation <= l.retirementHighWater
  {
    hide ValidLedger, Valid, Verdict, ValidTuple;
  }

  /** Where the entries come from. */
  lemma EntryOrigin(l: Ledger, s: Snapshot, lim: Limits, e: Entry)
    requires Checked(l, s, lim) && s.acknowledged.Some? && e in NextEntries(l, s)
    ensures e in l.entries || (e.retirement in s.retirements.value && RetiresEpoch(l, e.retirement))
    ensures e.retirement.generation <= MaxGeneration(l.retirementHighWater, NextEntries(l, s)[|Kept(l.entries, s.acknowledged.value)|..])
  {
    hide Checked, ValidLedger, Valid, Verdict, Prepared, RetirementsAccepted, MappingsAccepted, Absorb, Kept, MaxGeneration, RetiresEpoch, DesiredHash;
    CheckedFacts(l, s, lim);
    CheckedValid(l, s, lim);
    CheckedGenerations(l, s, lim);
    var kept, es := Kept(l.entries, s.acknowledged.value), NextEntries(l, s);
    KeptFacts(l.entries, s.acknowledged.value);
    MaxGenerationFacts(l.retirementHighWater, es[|kept|..]);
    assert es == kept + es[|kept|..];
    if e !in kept {
      AbsorbAdds(l, kept, s.retirements.value, e);
    }
  }

  /** Every entry is in order on its own. */
  lemma EntryInOrder(l: Ledger, s: Snapshot, lim: Limits, e: Entry)
    requires Checked(l, s, lim) && Marked(s.mappings) && s.acknowledged.Some? && e in NextEntries(l, s)
    ensures EntryOk(Prepared(l, s), e)
  {
    EntryOrigin(l, s, lim, e);
    CheckedFacts(l, s, lim);
    MaxIdFacts(l.mappingIdHighWater, Epochs(s.mappings));
    MaxMarkFacts(l.flowMarkHighWater, Epochs(s.mappings));
    hide ValidLedger, Verdict, RetirementsAccepted, MappingsAccepted, Kept, Absorb, Surviving, MaxId, MaxMark, MaxGeneration, TupleHash, DesiredHash, IsUUID, Valid;
    if e in l.entries {
      EntryFacts(l, e);
    } else {
      RetirementIsFine(s, lim, e.retirement);
      ActiveFacts(l, Epoch(e.retirement.mappingId, e.retirement.flowMark, e.retirement.tupleHash));
    }
  }

  lemma RetirementIsFine(s: Snapshot, lim: Limits, r: Retirement)
    requires Valid(s, lim) && s.retirements.Some? && r in s.retirements.value
    ensures IsUUID(r.retirementId) && r.tupleHash == TupleHash(RetirementTuple(r))
    ensures forall m :: m in s.mappings ==> m.id != r.mappingId && m.flowMark != Some(r.flowMark)
    ensures forall q :: q in s.retirements.value && q.flowMark == r.flowMark ==> q == r
  {
    hide MappingFits, IsUUID, TupleHash;
    var rs := s.retirements.value;
    var i :| 0 <= i < |rs| && rs[i] == r;
    assert RetirementFits(s, lim, i);
    forall q | q in rs && q.flowMark == r.flowMark ensures q == r {
      var j :| 0 <= j < |rs| && rs[j] == q;
      assert RetirementFits(s, lim, j);
    }
  }

  /** No two entries of the next ledger clash. */
  lemma EntriesApart(l: Ledger, s: Snapshot, lim: Limits, e: Entry, f: Entry)
    requires Checked(l, s, lim) && s.acknowledged.Some? && e in NextEntries(l, s) && f in NextEntries(l, s)
    requires e.retirement.retirementId != f.retirement.retirementId
    ensures !EntriesClash(e, f)
  {
    EntryOrigin(l, s, lim, e);
    EntryOrigin(l, s, lim, f);
    CheckedFacts(l, s, lim);
    hide Checked, ValidLedger, Verdict, Valid, RetirementsAccepted, MappingsAccepted, Kept, Absorb, MaxGeneration, NextEntries, Prepared;
    if EntriesClash(e, f) {
      if e in l.entries {
        EntryFacts(l, e);
        if f !in l.entries {
          ActiveFacts(l, BindingOf(f));
        }
      } else if f in l.entries {
        ActiveFacts(l, BindingOf(e));
      } else {
        ActiveFacts(l, BindingOf(e));
        assert Valid(s, lim) by { CheckedValid(l, s, lim); }
        RetirementIsFine(s, lim, e.retirement);
      }
    }
  }

  lemma CheckedValid(l: Ledger, s: Snapshot, lim: Limits)
    requires Checked(l, s, lim)
    ensures Valid(s, lim) && s.retirements.Some?
  {
    hide Valid, LedgerInv, Verdict;
  }

  // ---- Active epochs ----

  /** No mapping of the snapshot clashes with an entry of the next ledger. */
  lemma MappingApart(l: Ledger, s: Snapshot, lim: Limits, m: Mapping, e: Entry)
    requires Checked(l, s, lim) && Marked(s.mappings) && s.acknowledged.Some? && m in s.mappings && m.flowMark.Some? && e in NextEntries(l, s)
    ensures !EpochsClash(EpochOf(m), BindingOf(e))
  {
    CheckedFacts(l, s, lim);
    EntryOrigin(l, s, lim, e);
    CheckedValid(l, s, lim);
    hide Checked, ValidLedger, Verdict, Valid, RetirementsAccepted, Kept, Absorb, MaxGeneration, NextEntries, Prepared, TupleHash;
    var i :| 0 <= i < |s.mappings| && s.mappings[i] == m;
    assert MappingAccepted(l, s.mappings[i]);
    if e in l.entries {
      EntryFacts(l, e);
      if EpochOf(m) in l.active {
        ActiveFacts(l, EpochOf(m));
      }
    } else {
      RetirementIsFine(s, lim, e.retirement);
    }
  }

  lemma NextActive(l: Ledger, s: Snapshot, lim: Limits)
    requires Checked(l, s, lim) && Marked(s.mappings) && s.acknowledged.Some?
    ensures Surviving(Epochs(s.mappings), NextEntries(l, s)) == Epochs(s.mappings)
  {
    hide Checked, Surviving, NextEntries, TupleHash, Valid;
    CheckedValid(l, s, lim);
    var es := Epochs(s.mappings);
    forall a | a in es ensures !RetiredId(NextEntries(l, s), a.mappingId) {
      var i :| 0 <= i < |es| && es[i] == a;
      assert s.mappings[i] in s.mappings && s.mappings[i].flowMark.Some?;
      forall e | e in NextEntries(l, s) ensures e.retirement.mappingId != a.mappingId {
        MappingApart(l, s, lim, s.mappings[i], e);
      }
    }
    SurvivingFacts(es, NextEntries(l, s));
  }

  lemma EpochInOrder(l: Ledger, s: Snapshot, lim: Limits, i: nat)
    requires Valid(s, lim) && s.retirements.Some? && s.acknowledged.Some? && Marked(s.mappings) && i < |s.mappings|
    ensures EpochOk(Prepared(l, s), Epochs(s.mappings)[i])
  {
    hide ValidLedger, Valid, Kept, Absorb, Surviving, MaxId, MaxMark, MaxGeneration, DesiredHash, TuplePreimage;
    MappingInSnapshot(s, lim, s.mappings[i]);
    MaxIdFacts(l.mappingIdHighWater, Epochs(s.mappings));
    MaxMarkFacts(l.flowMarkHighWater, Epochs(s.mappings));
    assert Epochs(s.mappings)[i] in Epochs(s.mappings);
  }

  // ---- The final validation ----

  lemma PreparedParts(l: Ledger, s: Snapshot, lim: Limits)
    requires Checked(l, s, lim) && Marked(s.mappings) && s.acknowledged.Some?
    ensures var n := Prepared(l, s);
      && n.version == l.version && n.ledgerId == l.ledgerId && n.entries == NextEntries(l, s) && n.active == Epochs(s.mappings)
      && n.armed && n.acknowledged == s.acknowledged.value && n.managedGenerationHighWater == s.generation && n.desiredHash == DesiredHash(s)
      && l.retirementHighWater <= n.retirementHighWater
  {
    CheckedFacts(l, s, lim);
    NextActive(l, s, lim);
    MaxGenerationFacts(l.retirementHighWater, NextEntries(l, s)[|Kept(l.entries, s.acknowledged.value)|..]);
    NoHashLater(l, s, lim);
    hide Checked, ValidLedger, Valid, Verdict, RetirementsAccepted, MappingsAccepted, Kept, Absorb, Surviving, MaxId, MaxMark, MaxGeneration, DesiredHash;
  }

  lemma NoHashLater(l: Ledger, s: Snapshot, lim: Limits)
    requires Checked(l, s, lim)
    ensures DesiredHash(s).Length() == 64
  {
    hide CanonicalForm, Checked;
  }

  lemma ActiveValid(l: Ledger, s: Snapshot, lim: Limits)
    requires Checked(l, s, lim) && Marked(s.mappings) && s.acknowledged.Some?
    ensures ValidActive(Prepared(l, s))
  {
    PreparedParts(l, s, lim);
    CheckedValid(l, s, lim);
    hide Checked, Valid, Prepared, NextEntries, EpochOk, TupleHash, DesiredHash, EpochsClash;
    forall i | 0 <= i < |s.mappings| ensures EpochOk(Prepared(l, s), Epochs(s.mappings)[i]) {
      EpochInOrder(l, s, lim, i);
    }
    forall i, j | 0 <= i < j < |s.mappings| ensures !EpochsClash(Epochs(s.mappings)[i], Epochs(s.mappings)[j]) {
      SnapshotEpochsDistinct(s, lim, i, j);
    }
  }

  lemma EntriesValid(l: Ledger, s: Snapshot, lim: Limits)
    requires Checked(l, s, lim) && Marked(s.mappings) && s.acknowledged.Some?
    ensures ValidEntries(Prepared(l, s))
  {
    PreparedParts(l, s, lim);
    EntriesDistinct(l, s, lim);
    hide Checked, Prepared, NextEntries, EntryOk, EntriesClash, EpochsClash, TupleHash, DesiredHash;
    var n := Prepared(l, s);
    forall i | 0 <= i < |n.entries| ensures EntryOk(n, n.entries[i]) {
      EntryInOrder(l, s, lim, n.entries[i]);
    }
    forall i, j | 0 <= i < j < |n.entries| ensures !EntriesClash(n.entries[i], n.entries[j]) {
      EntriesApart(l, s, lim, n.entries[i], n.entries[j]);
    }
    forall i, j | 0 <= i < |n.active| && 0 <= j < |n.entries| ensures !EpochsClash(n.active[i], BindingOf(n.entries[j])) {
      assert s.mappings[i] in s.mappings && s.mappings[i].flowMark.Some?;
      MappingApart(l, s, lim, s.mappings[i], n.entries[j]);
    }
  }

  lemma EntriesDistinct(l: Ledger, s: Snapshot, lim: Limits)
    requires Checked(l, s, lim) && s.acknowledged.Some?
    ensures DistinctRetirements(NextEntries(l, s))
  {
    CheckedFacts(l, s, lim);
    hide Checked, Kept, Absorb, MappingsAccepted, RetirementsAccepted, Verdict, Prepared, DesiredHash;
    assert DistinctRetirements(l.entries) by { ValidDistinct(l); }
    KeptDistinct(l.entries, s.acknowledged.value);
    AbsorbDistinct(Kept(l.entries, s.acknowledged.value), s.retirements.value);
  }

  lemma ValidDistinct(l: Ledger)
    requires ValidLedger(l)
    ensures DistinctRetirements(l.entries)
  {
    forall i, j | 0 <= i < j < |l.entries| ensures l.entries[i].retirement.retirementId != l.entries[j].retirement.retirementId {
      assert !EntriesClash(l.entries[i], l.entries[j]);
    }
  }

  /** The final validation refuses a snapshot that passed the other checks exactly when it would leave too many retirements outstanding,
      or carries the reserved generation 0. */
  lemma FinalValidationIsTheCap(l: Ledger, s: Snapshot, lim: Limits)
    requires Checked(l, s, lim)
    ensures Readable(s) && s.acknowledged.Some?
    ensures Verdict(l, s) == Some(InvalidResult) <==> |NextEntries(l, s)| > MAX_OUTSTANDING || s.generation == 0
  {
    CheckedFacts(l, s, lim);
    CheckedValid(l, s, lim);
    HeaderOnly(s, lim);
    PreparedParts(l, s, lim);
    ActiveValid(l, s, lim);
    EntriesValid(l, s, lim);
    NoHashLater(l, s, lim);
    ValidLedgerHeader(l);
    VerdictIsOne(l, s, lim);
    hide Checked, Valid, Verdict, Prepared, NextEntries, ValidActive, ValidEntries, DesiredHash, IsUUID, MappingsAccepted, RetirementsAccepted, LedgerInv;
  }

  lemma ValidLedgerHeader(l: Ledger)
    requires ValidLedger(l)
    ensures l.version == 1 && IsUUID(l.ledgerId)
  {
    hide IsUUID, ValidActive, ValidEntries;
  }

  lemma VerdictIsOne(l: Ledger, s: Snapshot, lim: Limits)
    requires Checked(l, s, lim)
    ensures Readable(s) && (Verdict(l, s) == None || Verdict(l, s) == Some(InvalidResult))
  {
    hide LedgerInv, Verdict, Valid;
    CheckedValid(l, s, lim);
    HeaderOnly(s, lim);
  }
}
