/**
 The convergence loop as functions (internal/agent/agent.go): boot, poll cycle, apply,
 re-assert and quarantine.  Each takes the agent's memory and the answers of the outside
 calls, and yields the new memory and the ordered effects on disk, kernel and conntrack;
 a crash keeps a prefix of the effects.
 */
module AgentModel {
  import opened Values
  import opened Snapshots
  import opened Ledgers
  import opened LedgerProofs
  import opened Nft
  import opened Conntrack
  import RB = Readback

  // ---- The world outside the process ----

  datatype LedgerFile = NoLedger | BadLedger | StoredLedger(ledger: Ledger)
  datatype SnapFile = NoSnap | BadSnap | StoredSnap(snap: Snapshot)
  datatype KernelTable = NoTable | Installed(rules: seq<Rule>, fences: seq<Retirement>) | Quarantined

  datatype World = World(ledgerFile: LedgerFile, snapFile: SnapFile, kernel: KernelTable, flows: set<Flow>)

  /** One atomic change: a rename, a netlink batch, or conntrack deletions (all matching flows, or some of them). */
  datatype Effect =
    | WriteLedger(ledger: Ledger)
    | WriteSnap(snap: Snapshot)
    | RemoveSnap
    | Install(rules: seq<Rule>, fences: seq<Retirement>)
    | InstallQuarantine
    | DeleteFlows(retirement: Retirement, some: Option<set<Flow>>)

  function Do(w: World, e: Effect): World {
    match e
    case WriteLedger(l) => w.(ledgerFile := StoredLedger(l))
    case WriteSnap(s) => w.(snapFile := StoredSnap(s))
    case RemoveSnap => w.(snapFile := NoSnap)
    case Install(rules, fences) => w.(kernel := Installed(rules, fences))
    case InstallQuarantine => w.(kernel := Quarantined)
    case DeleteFlows(r, some) =>
      w.(flows := w.flows - if some.Some? then some.value * Matching(w.flows, r) else Matching(w.flows, r))
  }

  function DoAll(w: World, es: seq<Effect>): World
    decreases |es|
  {
    if es == [] then w else DoAll(Do(w, es[0]), es[1..])
  }

  /** A call that took effect, one that did not, and one that took effect but reported failure. */
  datatype Call = Done | Refused | Unsure

  function Try(c: Call, e: Effect): seq<Effect> {
    if c.Refused? then [] else [e]
  }

  /** Persist validates before it writes. */
  function SaveLedger(l: Ledger, c: Call): Call {
    if ValidLedger(l) then c else Refused
  }

  /** Every managed or tagged table: an inspection finds active, retired or quarantine tags. */
  predicate HasManagedState(k: KernelTable) {
    k.Quarantined? || (k.Installed? && (k.rules != [] || k.fences != []))
  }

  // ---- The agent's memory ----

  datatype Mem = Mem(
    ledger: Option<Ledger>,
    ledgerLost: bool,
    applied: bool,
    appliedGeneration: int,
    lastApplied: Option<Snapshot>,
    bootFailed: bool,
    hasError: bool)

  datatype Setup = Setup(lim: Limits, maxAge: nat)

  /** What a report tells the platform. */
  datatype Report = Report(
    retirementCapability: bool,
    appliedGeneration: int,
    hasError: bool,
    ledgerId: string,
    mappingIdHighWater: int,
    flowMarkHighWater: u32,
    retirementHighWater: int,
    managedGenerationHighWater: int,
    receipts: seq<Retirement>)

  function Receipts(es: seq<Entry>): (rs: seq<Retirement>)
    ensures |rs| == |ClearedList(es)| && forall i :: 0 <= i < |rs| ==> rs[i] == ClearedList(es)[i].retirement
  {
    var cleared := ClearedList(es);
    seq(|cleared|, i requires 0 <= i < |cleared| => cleared[i].retirement)
  }

  function ReportOf(mem: Mem): Report {
    var capable := !mem.ledgerLost && mem.ledger.Some?;
    if mem.ledger.None? then Report(capable, mem.appliedGeneration, mem.hasError, "", 0, 0, 0, 0, [])
    else
      var l := mem.ledger.value;
      Report(capable, mem.appliedGeneration, mem.hasError, l.ledgerId, l.mappingIdHighWater, l.flowMarkHighWater,
             l.retirementHighWater, l.managedGenerationHighWater, Receipts(l.entries))
  }

  // ---- Apply ----

  datatype ClearCall = ClearedAll | ClearFailed(some: set<Flow>)

  /** The configured interface and guards, and the table that was read back, if reading succeeded. */
  datatype Inspection = Inspection(iface: Bytes, guards: Guards, table: Option<RB.Table>)

  /** The readback check: what was read conforms to these rules and fences. */
  predicate Verified(v: Inspection, rules: seq<Rule>, fences: seq<Retirement>) {
    v.table.Some? && RulesOk(rules) && RB.Conforms(v.iface, rules, fences, v.guards, v.table.value)
  }

  datatype ApplyEnv = ApplyEnv(install: Call, readback: Inspection, clears: seq<ClearCall>, persist: Call)

  /** The ledger afterwards, whether apply returned success, and its effects in order. */
  datatype Ran = Ran(ledger: Ledger, ok: bool, effects: seq<Effect>)

  function PlanOf(s: Option<Snapshot>): seq<Rule> {
    if s.Some? && Plannable(s.value) then Plan(s.value) else []
  }

  /** Clears the conntrack flows of every uncleared entry, in order, until one fails. */
  function ClearAll(es: seq<Entry>, calls: seq<ClearCall>): (bool, seq<Effect>, set<string>) {
    if es == [] then (true, [], {})
    else if es[0].cleared then ClearAll(es[1..], calls)
    else if calls == [] then (false, [], {})
    else
      var r := es[0].retirement;
      match calls[0]
      case ClearFailed(some) => (false, [DeleteFlows(r, Some(some))], {})
      case ClearedAll =>
        var (ok, effects, ids) := ClearAll(es[1..], calls[1..]);
        (ok, [DeleteFlows(r, None)] + effects, {r.retirementId} + ids)
  }

  function ApplySnapshot(l: Ledger, s: Option<Snapshot>, env: ApplyEnv): Ran {
    var rules, fences := PlanOf(s), Retirements(l);
    var install := Try(env.install, Install(rules, fences));
    if !l.armed && fences == [] then Ran(l, env.install.Done?, install)
    else if !env.install.Done? || !Verified(env.readback, rules, fences) then Ran(l, false, install)
    else
      var (cleared, deletions, ids) := ClearAll(l.entries, env.clears);
      if !cleared then Ran(l, false, install + deletions)
      else
        var n := Cleared(l, ids);
        var save := SaveLedger(n, env.persist);
        Ran(if save.Done? then n else l, save.Done?, install + deletions + Try(save, WriteLedger(n)))
  }

  // ---- The poll cycle ----

  datatype SyncAnswer = SyncFailed | Unchanged | Body(snap: Snapshot) | Garbage
  datatype Presence = Present | Missing | Unknown

  datatype CycleEnv = CycleEnv(
    sync: SyncAnswer,
    zeros: seq<bool>,
    present: Presence,
    saveLedger: Call,
    saveSnap: Call,
    now: nat,
    apply: ApplyEnv,
    quarantine: Call)

  /** The apply a step made, if any: the snapshot (none for the empty set) and whether it returned success. */
  datatype Attempt = NoApply | Attempt(target: Option<Snapshot>, ok: bool)

  datatype Outcome = Outcome(mem: Mem, effects: seq<Effect>, advanced: bool, attempt: Attempt)

  function Idle(mem: Mem): Outcome {
    Outcome(mem, [], false, NoApply)
  }

  /** Nothing but an error to report. */
  function Failing(mem: Mem, effects: seq<Effect>, attempt: Attempt): Outcome {
    Outcome(mem.(hasError := true), effects, false, attempt)
  }

  /** Every entry about to be dropped must have no flow left. */
  function ZeroAll(es: seq<Entry>, n: Ledger, flows: set<Flow>, zeros: seq<bool>): bool {
    es == [] ||
    if Known(n.entries, es[0].retirement.retirementId) then ZeroAll(es[1..], n, flows, zeros)
    else zeros != [] && zeros[0] && Matching(flows, es[0].retirement) == {} && ZeroAll(es[1..], n, flows, zeros[1..])
  }

  function Stamped(s: Snapshot, now: nat): Snapshot {
    s.(persistedAt := now)
  }

  /** The re-applied or newly applied state after `apply` of the given snapshot. */
  function Apply(mem: Mem, s: Option<Snapshot>, env: ApplyEnv): Ran
    requires mem.ledger.Some?
  {
    ApplySnapshot(mem.ledger.value, s, env)
  }

  function RetryBootConverge(mem: Mem, env: CycleEnv): Outcome
    requires mem.ledger.Some?
  {
    var ran := Apply(mem, None, env.apply);
    var m := mem.(ledger := Some(ran.ledger));
    if !ran.ok then Failing(m, ran.effects, Attempt(None, false))
    else Outcome(m.(appliedGeneration := 0, applied := true, lastApplied := None, bootFailed := false), ran.effects, false, Attempt(None, true))
  }

  function EnsureAsserted(mem: Mem, env: CycleEnv): Outcome
    requires mem.ledger.Some?
  {
    if !mem.applied then if mem.bootFailed then RetryBootConverge(mem, env) else Idle(mem)
    else if env.present.Present? then Idle(mem)
    else
      var ran := Apply(mem, mem.lastApplied, env.apply);
      var m := mem.(ledger := Some(ran.ledger));
      var attempt := Attempt(mem.lastApplied, ran.ok);
      if ran.ok then Outcome(m, ran.effects, false, attempt) else Failing(m, ran.effects, attempt)
  }

  /** Persist, apply and note the new generation. */
  function Converge(mem: Mem, n: Ledger, s: Snapshot, env: CycleEnv): Outcome
    requires mem.ledger.Some?
  {
    var saved := if n.armed then SaveLedger(n, env.saveLedger) else Done;
    var ledgerWrite := if n.armed then Try(saved, WriteLedger(n)) else [];
    if !saved.Done? then Failing(mem, ledgerWrite, NoApply)
    else
      var m := mem.(ledger := Some(n));
      var snapWrite := Try(env.saveSnap, WriteSnap(Stamped(s, env.now)));
      var before := ledgerWrite + if n.armed then snapWrite else [];
      if n.armed && !env.saveSnap.Done? then Failing(m, before, NoApply)
      else
        var ran := Apply(m, Some(s), env.apply);
        var m' := m.(ledger := Some(ran.ledger));
        var effects := before + ran.effects;
        if !ran.ok then Failing(m', effects, Attempt(Some(s), false))
        else
          Outcome(m'.(appliedGeneration := s.generation, applied := true, lastApplied := Some(s), bootFailed := false, hasError := false),
                  effects + (if n.armed then [] else snapWrite),
                  !mem.applied || s.generation != mem.appliedGeneration, Attempt(Some(s), true))
  }

  function Received(mem: Mem, s: Snapshot, flows: set<Flow>, env: CycleEnv, lim: Limits): Outcome
    requires mem.ledger.Some?
  {
    if !Valid(s, lim) then Failing(mem, [], NoApply)
    else
      var l := mem.ledger.value;
      match Prepare(l, s)
      case Err(_) => Failing(mem, [], NoApply)
      case Ok(n) =>
        if !ZeroAll(l.entries, n, flows, env.zeros) then Failing(mem, [], NoApply)
        else if mem.applied && s.generation == mem.appliedGeneration && !LedgerChanged(n, l) && env.present.Present? then
          Idle(mem.(hasError := false))
        else Converge(mem, n, s, env)
  }

  predicate Healthy(mem: Mem) {
    !mem.ledgerLost ==> mem.ledger.Some?
  }

  function Cycle(mem: Mem, flows: set<Flow>, env: CycleEnv, lim: Limits): Outcome
    requires Healthy(mem)
  {
    if mem.ledgerLost then Outcome(mem, Try(env.quarantine, InstallQuarantine), false, NoApply)
    else match env.sync
      case SyncFailed => Idle(mem)
      case Unchanged => EnsureAsserted(mem.(hasError := false), env)
      case Garbage => Failing(mem, [], NoApply)
      case Body(s) => Received(mem, s, flows, env, lim)
  }

  /** The memory, the host and the reports after a poll: one cycle, and one more if it advanced. */
  function Poll(mem: Mem, w: World, env: CycleEnv, env': CycleEnv, lim: Limits): (Mem, World, seq<Report>)
    requires Healthy(mem)
  {
    var o := Cycle(mem, w.flows, env, lim);
    var after := DoAll(w, o.effects);
    if !o.advanced || !Healthy(o.mem) then (o.mem, after, [ReportOf(mem)])
    else
      var o' := Cycle(o.mem, after.flows, env', lim);
      (o'.mem, DoAll(after, o'.effects), [ReportOf(mem), ReportOf(o.mem)])
  }

  // ---- Boot ----

  datatype BootEnv = BootEnv(
    now: nat,
    ledgerReadable: bool,
    snapReadable: bool,
    snapStattable: bool,
    inspectable: bool,
    newId: Option<string>,
    saveNew: Call,
    apply: ApplyEnv,
    removed: bool,
    quarantine: Call)

  datatype Loaded = NotThere | Rejected | Usable(snap: Snapshot)

  /** The bounded fail-open load of the persisted snapshot. */
  function LoadPersisted(f: SnapFile, env: BootEnv, setup: Setup): (r: Loaded)
    ensures r.Usable? ==> f == StoredSnap(r.snap) && Valid(r.snap, setup.lim) && Readable(r.snap)
  {
    match f
    case NoSnap => NotThere
    case BadSnap => Rejected
    case StoredSnap(s) =>
      if env.snapReadable && Valid(s, setup.lim) && WithinWindow(s, env.now, setup.maxAge) then Usable(s) else Rejected
  }

  /** The window: a stored copy is used exactly when it can be read, is valid, carries a stamp, and is neither from the
      future beyond the tolerance nor older than the limit; and only a missing file counts as missing. */
  lemma PersistedUsableIff(f: SnapFile, env: BootEnv, setup: Setup)
    ensures var r := LoadPersisted(f, env, setup);
      && (r.NotThere? <==> f.NoSnap?)
      && (r.Usable? <==>
            f.StoredSnap? && env.snapReadable && Valid(f.snap, setup.lim) && f.snap.persistedAt != 0
            && f.snap.persistedAt <= env.now + CLOCK_SKEW_TOLERANCE && env.now <= f.snap.persistedAt + setup.maxAge)
  {
    hide Valid;
  }

  /** The ledger after loading: kept, or lost (with or without a ledger in hand). */
  datatype LedgerLoad = Held(ledger: Ledger, effects: seq<Effect>) | Lost(inHand: Option<Ledger>, effects: seq<Effect>)

  /** Without a ledger file only a provably legacy, unmanaged host may start afresh. */
  function ProvablyLegacy(w: World, env: BootEnv, setup: Setup): bool {
    && (match w.snapFile
        case NoSnap => env.snapStattable
        case BadSnap => false
        case StoredSnap(s) => env.snapStattable && env.snapReadable && Valid(s, setup.lim) && s.retirements.None?)
    && env.inspectable && !HasManagedState(w.kernel)
  }

  function LoadLedgerFile(w: World, env: BootEnv, setup: Setup): LedgerLoad {
    if !env.ledgerReadable then Lost(None, [])
    else match w.ledgerFile
      case BadLedger => Lost(None, [])
      case StoredLedger(l) => if ValidLedger(l) then Held(l, []) else Lost(None, [])
      case NoLedger =>
        if !ProvablyLegacy(w, env, setup) || env.newId.None? then Lost(None, [])
        else
          var first := Fresh(env.newId.value);
          var save := SaveLedger(first, env.saveNew);
          if save.Done? then Held(first, [WriteLedger(first)]) else Lost(None, Try(save, WriteLedger(first)))
  }

  function LoadLedger(w: World, persisted: Option<Snapshot>, env: BootEnv, setup: Setup): LedgerLoad
    requires persisted.Some? ==> Readable(persisted.value)
  {
    var load := LoadLedgerFile(w, env, setup);
    if load.Lost? || persisted.None? then load
    else
      var l, s := load.ledger, persisted.value;
      if s.retirements.Some? && s.acknowledged.value != l.acknowledged then Lost(Some(l), load.effects)
      else match Prepare(l, s)
        case Err(_) => Lost(Some(l), load.effects)
        case Ok(n) => Held(n, load.effects)
  }

  function Usage(load: Loaded): Option<Snapshot> {
    if load.Usable? then Some(load.snap) else None
  }

  const Blank := Mem(None, false, false, 0, None, false, false)

  /** Restores the persisted snapshot inside the window, converges to the empty set otherwise, and quarantines on ledger loss. */
  function Boot(w: World, env: BootEnv, setup: Setup): Outcome {
    var load := LoadPersisted(w.snapFile, env, setup);
    match LoadLedger(w, Usage(load), env, setup)
    case Lost(l, effects) =>
      Outcome(Blank.(ledger := l, ledgerLost := true, bootFailed := true, hasError := true),
              effects + Try(env.quarantine, InstallQuarantine), false, NoApply)
    case Held(l, effects) =>
      var removal := if load.Rejected? && env.removed then [RemoveSnap] else [];
      var ran := ApplySnapshot(l, Usage(load), env.apply);
      var m := Blank.(ledger := Some(ran.ledger));
      var all := effects + removal + ran.effects;
      if !ran.ok then Outcome(m.(bootFailed := true, hasError := true), all, false, Attempt(Usage(load), false))
      else
        Outcome(m.(applied := true, lastApplied := Usage(load), appliedGeneration := if load.Usable? then load.snap.generation else 0),
                all, false, Attempt(Usage(load), true))
  }
}
