/**
 Whole runs of the retirement ledger: every sequence of accepted snapshots and
 clearings from a new ledger.
 */
module LedgerRuns {
  import opened Snapshots
  import opened Ledgers
  import opened LedgerProofs

  /** One accepted snapshot, or one clearing of any of the outstanding entries. */
  ghost predicate Step(l: Ledger, n: Ledger, lim: Limits) {
    || (exists s :: Leads(l, s, lim, n))
    || (exists ids :: n == Cleared(l, ids))
  }

  ghost predicate Run(t: seq<Ledger>, lim: Limits) {
    && t != [] && IsUUID(t[0].ledgerId) && t[0] == Fresh(t[0].ledgerId)
    && forall i :: 0 <= i < |t| - 1 ==> Step(t[i], t[i + 1], lim)
  }

  lemma StepKeeps(l: Ledger, n: Ledger, lim: Limits)
    requires LedgerInv(l) && Step(l, n, lim)
    ensures LedgerInv(n) && Evolves(l, n)
  {
    hide LedgerInv, Evolves, Leads;
    if s :| Leads(l, s, lim, n) {
      PrepareKeeps(l, s, lim, n);
    } else {
      var ids :| n == Cleared(l, ids);
      ClearKeeps(l, ids);
    }
  }

  lemma {:induction false} RunInv(t: seq<Ledger>, lim: Limits, i: nat)
    requires Run(t, lim) && i < |t|
    ensures LedgerInv(t[i])
  {
    if i > 0 {
      hide Step, LedgerInv;
      RunInv(t, lim, i - 1);
      assert Step(t[i - 1], t[i - 1 + 1], lim);
      StepKeeps(t[i - 1], t[i], lim);
    }
  }

  lemma {:induction false} RunEvolves(t: seq<Ledger>, lim: Limits, i: nat, j: nat)
    requires Run(t, lim) && i <= j < |t|
    ensures Evolves(t[i], t[j])
    decreases j
  {
    hide Step, Evolves, Valid;
    RunInv(t, lim, i);
    if i == j {
      EvolvesReflexive(t[i]);
    } else {
      RunEvolves(t, lim, i, j - 1);
      RunInv(t, lim, j - 1);
      assert Step(t[j - 1], t[j - 1 + 1], lim);
      StepKeeps(t[j - 1], t[j], lim);
      EvolvesTransitive(t[i], t[j - 1], t[j]);
    }
  }

  /** High-water marks and arming never go back; an id has one mark and tuple for ever, and a mark one id. */
  lemma NeverReuse(t: seq<Ledger>, lim: Limits, i: nat, j: nat, b: Epoch, c: Epoch)
    requires Run(t, lim) && i <= j < |t|
    ensures t[i].mappingIdHighWater <= t[j].mappingIdHighWater && t[i].flowMarkHighWater <= t[j].flowMarkHighWater
    ensures t[i].retirementHighWater <= t[j].retirementHighWater && t[i].acknowledged <= t[j].acknowledged
    ensures t[i].managedGenerationHighWater <= t[j].managedGenerationHighWater && (t[i].armed ==> t[j].armed)
    ensures Holds(t[i], b) && Holds(t[j], c) && EpochsClash(b, c) ==> b == c
  {
    RunInv(t, lim, i);
    RunEvolves(t, lim, i, j);
    hide Run, Holds, ValidLedger;
    if Holds(t[i], b) && Holds(t[j], c) {
      BindingForever(t[i], t[j], b, c);
    }
  }

  /** An id that has left the active set of a run never returns to it. */
  lemma NeverReturns(t: seq<Ledger>, lim: Limits, i: nat, j: nat, k: nat, id: int)
    requires Run(t, lim) && i <= j <= k < |t|
    requires ActiveId(t[i], id) && !ActiveId(t[j], id)
    ensures !ActiveId(t[k], id)
  {
    RunInv(t, lim, i);
    RunEvolves(t, lim, i, j);
    RunEvolves(t, lim, j, k);
    hide Run, ValidLedger, Evolves;
    var a :| a in t[i].active && a.mappingId == id;
    LeftNeverReturns(t[i], t[j], t[k], a);
  }

  /** Unseen, active, outstanding, cleared, gone: no id of a run ever moves back. */
  lemma LifecycleMovesForward(t: seq<Ledger>, lim: Limits, i: nat, j: nat, id: int)
    requires Run(t, lim) && i <= j < |t|
    ensures Stage(t[i], id) <= Stage(t[j], id)
  {
    RunInv(t, lim, i);
    RunInv(t, lim, j);
    RunEvolves(t, lim, i, j);
    hide Run, ValidLedger, Evolves, Stage;
    StageMovesForward(t[i], t[j], id);
  }

  /** Every armed ledger of a run stands for a valid snapshot. */
  lemma {:induction false} ArmedStandsForASnapshot(t: seq<Ledger>, lim: Limits, i: nat)
    requires Run(t, lim) && i < |t| && t[i].armed
    ensures exists s :: Valid(s, lim) && Settled(t[i], s)
  {
    hide Valid, Settled, LedgerInv, Leads;
    if i > 0 {
      RunInv(t, lim, i - 1);
      assert Step(t[i - 1], t[i - 1 + 1], lim);
      var l, n := t[i - 1], t[i];
      if s :| Leads(l, s, lim, n) {
        if s.retirements.Some? {
          LeadsSettles(l, s, lim, n);
        } else {
          LegacyLeads(l, s, lim, n);
          ArmedStandsForASnapshot(t, lim, i - 1);
        }
      } else {
        var ids :| t[i] == Cleared(t[i - 1], ids);
        ArmedStandsForASnapshot(t, lim, i - 1);
        var s :| Valid(s, lim) && Settled(t[i - 1], s);
        ClearStaysSettled(t[i - 1], s, ids);
      }
    }
  }

  lemma LeadsSettles(l: Ledger, s: Snapshot, lim: Limits, n: Ledger)
    requires LedgerInv(l) && Leads(l, s, lim, n) && s.retirements.Some?
    ensures Valid(s, lim) && Settled(n, s)
  {
    assert ManagedStep(l, s, lim, n);
    hide LedgerInv, Valid, Settled;
    PrepareSettles(l, s, lim, n);
  }

  lemma LegacyLeads(l: Ledger, s: Snapshot, lim: Limits, n: Ledger)
    requires Leads(l, s, lim, n) && s.retirements.None?
    ensures n == l
  {
    hide Valid;
  }

  // ---- Conservation ----

  /** At step k the epoch was outstanding and cleared, and the next acknowledgement covered and removed it. */
  ghost predicate CompactedAt(t: seq<Ledger>, k: nat, a: Epoch)
    requires k + 1 < |t|
  {
    && (exists e :: e in t[k].entries && BindingOf(e) == a && e.cleared && e.retirement.generation <= t[k + 1].acknowledged)
    && !Holds(t[k + 1], a)
  }

  lemma StepConserves(l: Ledger, n: Ledger, lim: Limits, a: Epoch)
    requires LedgerInv(l) && Step(l, n, lim) && Holds(l, a)
    ensures Holds(n, a) || exists e :: e in l.entries && BindingOf(e) == a && e.cleared && e.retirement.generation <= n.acknowledged
  {
    hide LedgerInv, Leads;
    if s :| Leads(l, s, lim, n) {
      SnapshotConserves(l, s, lim, n, a);
    } else {
      var ids :| n == Cleared(l, ids);
      if a !in l.active {
        var e :| e in l.entries && BindingOf(e) == a;
        var i :| 0 <= i < |l.entries| && l.entries[i] == e;
        assert n.entries[i] in n.entries && BindingOf(n.entries[i]) == a;
      }
    }
  }

  lemma SnapshotConserves(l: Ledger, s: Snapshot, lim: Limits, n: Ledger, a: Epoch)
    requires LedgerInv(l) && Leads(l, s, lim, n) && Holds(l, a)
    ensures Holds(n, a) || exists e :: e in l.entries && BindingOf(e) == a && e.cleared && e.retirement.generation <= n.acknowledged
  {
    if s.retirements.None? {
      assert n == l;
    } else {
      assert ManagedStep(l, s, lim, n);
      hide LedgerInv, Leads, ManagedStep;
      if a in l.active {
        ActiveFate(l, s, lim, n, a);
      } else {
        var e :| e in l.entries && BindingOf(e) == a;
        OldEntryFate(l, s, lim, n, e);
      }
    }
  }

  /** Once it is no longer held, an epoch is never held again. */
  lemma GoneForGood(t: seq<Ledger>, lim: Limits, i: nat, j: nat, k: nat, a: Epoch)
    requires Run(t, lim) && i <= j <= k < |t| && Holds(t[i], a) && !Holds(t[j], a)
    ensures !Holds(t[k], a)
  {
    RunInv(t, lim, i);
    RunEvolves(t, lim, i, j);
    RunEvolves(t, lim, j, k);
    hide Run, ValidLedger, Holds;
    BindingsUnique(t[i], a, a);
  }

  lemma StepCompacts(t: seq<Ledger>, lim: Limits, j: nat, a: Epoch)
    requires Run(t, lim) && j + 1 < |t| && Holds(t[j], a) && !Holds(t[j + 1], a)
    ensures CompactedAt(t, j, a)
  {
    hide Step, LedgerInv, Holds;
    RunInv(t, lim, j);
    assert Step(t[j], t[j + 1], lim);
    StepConserves(t[j], t[j + 1], lim, a);
  }

  /** No admitted epoch is ever lost: the ledger holds it until the step that compacts it, cleared and acknowledged. */
  lemma {:induction false} Conservation(t: seq<Ledger>, lim: Limits, i: nat, j: nat, a: Epoch)
    requires Run(t, lim) && i <= j < |t| && Holds(t[i], a)
    ensures Holds(t[j], a) <==> forall k :: i <= k < j ==> !CompactedAt(t, k, a)
    decreases j
  {
    hide Run, Holds;
    if i < j {
      Conservation(t, lim, i, j - 1, a);
      if Holds(t[j], a) {
        forall k | i <= k < j ensures !CompactedAt(t, k, a) {
          if !Holds(t[k + 1], a) {
            GoneForGood(t, lim, i, k + 1, j, a);
          }
        }
      } else if Holds(t[j - 1], a) {
        StepCompacts(t, lim, j - 1, a);
      }
    }
  }

  /** The stages exclude each other: an epoch the ledger holds is active or outstanding, never both. */
  lemma HeldOnce(t: seq<Ledger>, lim: Limits, j: nat, a: Epoch)
    requires Run(t, lim) && j < |t| && Holds(t[j], a)
    ensures a in t[j].active <==> !RetiredId(t[j].entries, a.mappingId)
  {
    RunInv(t, lim, j);
    hide Run, ValidLedger;
    if a in t[j].active {
      ActiveFacts(t[j], a);
    }
  }
}
