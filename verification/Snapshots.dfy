/**
 Desired-state snapshots (internal/snapshot/snapshot.go): the validated shape of a
 mapping set, the tuple hash that binds a flow mark to a mapping, the canonical
 identity of a snapshot, and the age window of the persisted copy.
 */
module Snapshots {
  import opened Values
  import opened Text
  import SP = SourcePolicy

  const MAX_MAPPINGS := 65536
  const MAX_RETIREMENTS := 4096
  const MAX_GUARD_VALUE := 1_000_000
  const CLOCK_SKEW_TOLERANCE := 300

  /** An address text: the IPv4 address it denotes, or a text that is not an IPv4 address. */
  datatype Address = IPv4(addr: SP.Addr) | NotIPv4(text: string)

  datatype Mapping = Mapping(
    id: int,
    proto: string,
    publicPort: u16,
    targetAddr: Address,
    targetPort: u16,
    sourcePolicy: Option<SP.Policy>,
    flowMark: Option<u32>,
    ctMax: Option<nat>,
    newConnRate: Option<nat>,
    newConnBurst: Option<nat>,
    perSourceRate: Option<nat>,
    perSourceBurst: Option<nat>)

  /** Permanently blocks the conntrack flows created by a removed mapping. */
  datatype Retirement = Retirement(
    retirementId: string,
    mappingId: int,
    generation: int,
    proto: string,
    publicPort: u16,
    targetAddr: Address,
    targetPort: u16,
    flowMark: u32,
    tupleHash: Digest<string>)

  /** `persistedAt` is zero except on the copy kept on disk. */
  datatype Snapshot = Snapshot(
    generation: int,
    mappings: seq<Mapping>,
    retirements: Option<seq<Retirement>>,
    acknowledged: Option<int>,
    persistedAt: nat)

  datatype Limits = Limits(targetCidr: SP.Prefix, bandMin: u16, bandMax: u16)

  // ---- Tuple hash ----

  datatype Tuple = Tuple(id: int, proto: string, publicPort: u16, targetAddr: Address, targetPort: u16, flowMark: u32)

  function ByteText(b: bv8): string {
    FormatInt(b as nat)
  }

  function Dotted(x: SP.Addr): string {
    ByteText(x.a) + "." + (ByteText(x.b) + "." + (ByteText(x.c) + "." + ByteText(x.d)))
  }

  function AddressText(x: Address): string {
    if x.IPv4? then Dotted(x.addr) else x.text
  }

  function TupleFields(t: Tuple): seq<string> {
    [FormatInt(t.id), t.proto, FormatInt(t.publicPort), AddressText(t.targetAddr), FormatInt(t.targetPort), FormatInt(t.flowMark)]
  }

  function TuplePreimage(t: Tuple): string {
    Terminated('\n', TupleFields(t))
  }

  function TupleHash(t: Tuple): Digest<string> {
    Sha256(TuplePreimage(t))
  }

  /** What is hashed, line by line: the platform computes the same. */
  lemma TupleLines(t: Tuple)
    ensures TupleHash(t) == Sha256(
      FormatInt(t.id) + "\n" + (t.proto + "\n" + (FormatInt(t.publicPort) + "\n" + (AddressText(t.targetAddr) + "\n"
      + (FormatInt(t.targetPort) + "\n" + (FormatInt(t.flowMark) + "\n"))))))
  {
    hide FormatInt, AddressText;
    var a, b, c := FormatInt(t.id), FormatInt(t.publicPort), AddressText(t.targetAddr);
    var d, e := FormatInt(t.targetPort), FormatInt(t.flowMark);
    NextLine(e, []);
    NextLine(d, [e]);
    NextLine(c, [d, e]);
    NextLine(b, [c, d, e]);
    NextLine(t.proto, [b, c, d, e]);
    NextLine(a, [t.proto, b, c, d, e]);
    assert [e] + [] == [e] && [d] + [e] == [d, e] && [c] + [d, e] == [c, d, e] && [b] + [c, d, e] == [b, c, d, e];
    assert TupleFields(t) == [a] + [t.proto, b, c, d, e] && [t.proto] + [b, c, d, e] == [t.proto, b, c, d, e];
    assert Terminated('\n', [e]) == e + "\n" by {
      assert Terminated('\n', []) == "";
    }
  }

  lemma NextLine(x: string, rest: seq<string>)
    ensures Terminated('\n', [x] + rest) == x + "\n" + Terminated('\n', rest)
  {
    assert ([x] + rest)[1..] == rest;
  }

  function MappingTuple(m: Mapping): Tuple
    requires m.flowMark.Some?
  {
    Tuple(m.id, m.proto, m.publicPort, m.targetAddr, m.targetPort, m.flowMark.value)
  }

  function RetirementTuple(r: Retirement): Tuple {
    Tuple(r.mappingId, r.proto, r.publicPort, r.targetAddr, r.targetPort, r.flowMark)
  }

  predicate KnownProto(proto: string) {
    proto == "tcp" || proto == "udp"
  }

  /** The tuples validation lets through. */
  predicate ValidTuple(t: Tuple) {
    KnownProto(t.proto) && t.targetAddr.IPv4?
  }

  lemma DottedInjective(x: SP.Addr, y: SP.Addr)
    requires Dotted(x) == Dotted(y)
    ensures x == y
  {
    ByteBeforeDot(x.a, ByteText(x.b) + "." + (ByteText(x.c) + "." + ByteText(x.d)),
                  y.a, ByteText(y.b) + "." + (ByteText(y.c) + "." + ByteText(y.d)));
    ByteBeforeDot(x.b, ByteText(x.c) + "." + ByteText(x.d), y.b, ByteText(y.c) + "." + ByteText(y.d));
    ByteBeforeDot(x.c, ByteText(x.d), y.c, ByteText(y.d));
    ByteTextInjective(x.d, y.d);
  }

  lemma ByteBeforeDot(x: bv8, rest: string, y: bv8, rest': string)
    requires ByteText(x) + "." + rest == ByteText(y) + "." + rest'
    ensures x == y && rest == rest'
  {
    FormatIntHasNo('.', x as nat);
    FormatIntHasNo('.', y as nat);
    CutOfJoin(ByteText(x), '.', rest);
    CutOfJoin(ByteText(y), '.', rest');
    ByteTextInjective(x, y);
  }

  lemma ByteTextInjective(x: bv8, y: bv8)
    requires ByteText(x) == ByteText(y)
    ensures x == y
  {
    FormatIntInjective(x as nat, y as nat);
    SP.ByteIsItsValue(x, y);
  }

  lemma DottedHasNoNewline(x: SP.Addr)
    ensures '\n' !in Dotted(x)
  {
    FormatIntHasNo('\n', x.a as nat);
    FormatIntHasNo('\n', x.b as nat);
    FormatIntHasNo('\n', x.c as nat);
    FormatIntHasNo('\n', x.d as nat);
  }

  lemma TupleFieldsOneLine(t: Tuple)
    requires ValidTuple(t)
    ensures forall i :: 0 <= i < |TupleFields(t)| ==> '\n' !in TupleFields(t)[i]
  {
    FormatIntHasNo('\n', t.id);
    FormatIntHasNo('\n', t.publicPort);
    FormatIntHasNo('\n', t.targetPort);
    FormatIntHasNo('\n', t.flowMark);
    DottedHasNoNewline(t.targetAddr.addr);
  }

  /** The newline-separated preimage loses nothing: equal hashes mean equal tuples. */
  lemma TupleHashInjective(t: Tuple, u: Tuple)
    requires ValidTuple(t) && ValidTuple(u)
    ensures TupleHash(t) == TupleHash(u) <==> t == u
  {
    if TupleHash(t) == TupleHash(u) {
      var f, g := TupleFields(t), TupleFields(u);
      TupleFieldsOneLine(t);
      TupleFieldsOneLine(u);
      TerminatedInjective('\n', f, g);
      assert f[0] == g[0] && f[1] == g[1] && f[2] == g[2] && f[3] == g[3] && f[4] == g[4] && f[5] == g[5];
      FormatIntInjective(t.id, u.id);
      FormatIntInjective(t.publicPort, u.publicPort);
      FormatIntInjective(t.targetPort, u.targetPort);
      FormatIntInjective(t.flowMark, u.flowMark);
      DottedInjective(t.targetAddr.addr, u.targetAddr.addr);
    }
  }

  // ---- Validation ----

  predicate IsHex(c: char) {
    '0' <= c <= '9' || 'a' <= c <= 'f'
  }

  predicate IsUUID(s: string) {
    && |s| == 36
    && forall i :: 0 <= i < 36 ==>
         if i == 8 || i == 13 || i == 18 || i == 23 then s[i] == '-'
         else if i == 14 then '1' <= s[i] <= '5'
         else if i == 19 then s[i] in "89ab"
         else IsHex(s[i])
  }

  predicate GuardOk(v: Option<nat>) {
    v.Some? ==> v.value <= MAX_GUARD_VALUE
  }

  /** A burst override needs a non-zero rate override. */
  predicate BurstOk(burst: Option<nat>, rate: Option<nat>) {
    burst.Some? ==> rate.Some? && rate.value != 0
  }

  /** What validation asks of one mapping on its own. */
  predicate MappingOk(m: Mapping, managed: bool, lim: Limits) {
    && 0 < m.id
    && (if managed then m.flowMark.Some? && m.flowMark.value != 0 else m.flowMark.None?)
    && KnownProto(m.proto)
    && lim.bandMin <= m.publicPort <= lim.bandMax
    && m.targetPort != 0
    && m.targetAddr.IPv4? && SP.Contains(lim.targetCidr, m.targetAddr.addr)
    && BurstOk(m.newConnBurst, m.newConnRate) && BurstOk(m.perSourceBurst, m.perSourceRate)
    && GuardOk(m.ctMax) && GuardOk(m.newConnRate) && GuardOk(m.newConnBurst)
    && GuardOk(m.perSourceRate) && GuardOk(m.perSourceBurst)
  }

  /** Two mappings that may not stand in one snapshot. */
  predicate Clash(m: Mapping, k: Mapping) {
    m.id == k.id || (m.flowMark.Some? && m.flowMark == k.flowMark) || (m.proto == k.proto && m.publicPort == k.publicPort)
  }

  predicate MappingFits(s: Snapshot, lim: Limits, i: nat)
    requires i < |s.mappings|
  {
    && MappingOk(s.mappings[i], s.retirements.Some?, lim)
    && forall j :: 0 <= j < i ==> !Clash(s.mappings[j], s.mappings[i])
  }

  predicate RetirementOk(r: Retirement, s: Snapshot, lim: Limits) {
    && IsUUID(r.retirementId)
    && 0 < r.mappingId && 0 < r.generation <= s.generation && r.flowMark != 0
    && (forall m :: m in s.mappings ==> m.id != r.mappingId && m.flowMark != Some(r.flowMark))
    && KnownProto(r.proto)
    && lim.bandMin <= r.publicPort <= lim.bandMax && r.targetPort != 0
    && r.targetAddr.IPv4?
    && r.tupleHash == TupleHash(RetirementTuple(r))
  }

  predicate RetirementFits(s: Snapshot, lim: Limits, i: nat)
    requires s.retirements.Some? && i < |s.retirements.value|
  {
    var rs := s.retirements.value;
    && RetirementOk(rs[i], s, lim)
    && forall j :: 0 <= j < i ==> rs[j].retirementId != rs[i].retirementId && rs[j].flowMark != rs[i].flowMark
  }

  predicate HeaderOk(s: Snapshot) {
    && 0 <= s.generation
    && (s.generation == 0 ==> s.mappings == [])
    && |s.mappings| <= MAX_MAPPINGS
    && (if s.retirements.Some? then s.acknowledged.Some? && 0 <= s.acknowledged.value else s.acknowledged.None?)
  }

  /** The declarative meaning of a snapshot that passes validation. */
  predicate Valid(s: Snapshot, lim: Limits) {
    && HeaderOk(s)
    && (forall i :: 0 <= i < |s.mappings| ==> MappingFits(s, lim, i))
    && (s.retirements.Some? ==>
          && |s.retirements.value| <= MAX_RETIREMENTS
          && forall i :: 0 <= i < |s.retirements.value| ==> RetirementFits(s, lim, i))
  }

  /** A failure of the snapshot as a whole, or one attributed to a mapping. */
  datatype Problem = SnapshotProblem | MappingProblem(id: int)

  /** The first mapping that does not fit is the one blamed. */
  predicate Blames(s: Snapshot, lim: Limits, id: int) {
    exists i :: 0 <= i < |s.mappings| && s.mappings[i].id == id && !MappingFits(s, lim, i)
      && forall j :: 0 <= j < i ==> MappingFits(s, lim, j)
  }

  method Validate(s: Snapshot, lim: Limits) returns (r: Option<Problem>)
    ensures r.None? <==> Valid(s, lim)
    ensures r.Some? && r.value.MappingProblem? ==> Blames(s, lim, r.value.id)
    ensures r == Some(SnapshotProblem) ==> !HeaderOk(s) || forall i :: 0 <= i < |s.mappings| ==> MappingFits(s, lim, i)
  {
    hide SP.Contains;
    if s.generation < 0 || (s.generation == 0 && |s.mappings| > 0) || |s.mappings| > MAX_MAPPINGS {
      return Some(SnapshotProblem);
    }
    var managed := s.retirements.Some?;
    if managed && (s.acknowledged.None? || s.acknowledged.value < 0) {
      return Some(SnapshotProblem);
    }
    if !managed && s.acknowledged.Some? {
      return Some(SnapshotProblem);
    }
    var seen: set<(string, u16)>, seenId: set<int>, seenMark: set<u32> := {}, {}, {};
    for i := 0 to |s.mappings|
      invariant forall j :: 0 <= j < i ==> MappingFits(s, lim, j)
      invariant seen == set j | 0 <= j < i :: (s.mappings[j].proto, s.mappings[j].publicPort)
      invariant seenId == set j | 0 <= j < i :: s.mappings[j].id
      invariant seenMark == set j | 0 <= j < i && s.mappings[j].flowMark.Some? :: s.mappings[j].flowMark.value
    {
      var m := s.mappings[i];
      ghost var clash := exists j :: 0 <= j < i && Clash(s.mappings[j], m);
      assert MappingFits(s, lim, i) <==> MappingOk(m, managed, lim) && !clash;
      assert m.id in seenId || (m.proto, m.publicPort) in seen ==> clash;
      assert m.flowMark.Some? && m.flowMark.value in seenMark ==> clash;
      if m.id <= 0 || m.id in seenId {
        return Some(MappingProblem(m.id));
      }
      seenId := seenId + {m.id};
      if managed {
        if m.flowMark.None? || m.flowMark.value == 0 || m.flowMark.value in seenMark {
          return Some(MappingProblem(m.id));
        }
        seenMark := seenMark + {m.flowMark.value};
      } else if m.flowMark.Some? {
        return Some(MappingProblem(m.id));
      }
      if m.proto != "tcp" && m.proto != "udp" {
        return Some(MappingProblem(m.id));
      }
      if m.publicPort < lim.bandMin || m.publicPort > lim.bandMax || m.targetPort == 0 {
        return Some(MappingProblem(m.id));
      }
      if !m.targetAddr.IPv4? || !SP.Contains(lim.targetCidr, m.targetAddr.addr) {
        return Some(MappingProblem(m.id));
      }
      if m.newConnBurst.Some? && (m.newConnRate.None? || m.newConnRate.value == 0) {
        return Some(MappingProblem(m.id));
      }
      if m.perSourceBurst.Some? && (m.perSourceRate.None? || m.perSourceRate.value == 0) {
        return Some(MappingProblem(m.id));
      }
      if !GuardOk(m.ctMax) || !GuardOk(m.newConnRate) || !GuardOk(m.newConnBurst)
         || !GuardOk(m.perSourceRate) || !GuardOk(m.perSourceBurst) {
        return Some(MappingProblem(m.id));
      }
      if (m.proto, m.publicPort) in seen {
        return Some(MappingProblem(m.id));
      }
      seen := seen + {(m.proto, m.publicPort)};
    }
    if managed {
      var bad := ValidateRetirements(s, lim, seenId, seenMark);
      if bad {
        return Some(SnapshotProblem);
      }
    }
    r := None;
  }

  method ValidateRetirements(s: Snapshot, lim: Limits, seenId: set<int>, marks: set<u32>) returns (bad: bool)
    requires s.retirements.Some?
    requires seenId == set j | 0 <= j < |s.mappings| :: s.mappings[j].id
    requires marks == set j | 0 <= j < |s.mappings| && s.mappings[j].flowMark.Some? :: s.mappings[j].flowMark.value
    ensures !bad <==>
      && |s.retirements.value| <= MAX_RETIREMENTS
      && forall i :: 0 <= i < |s.retirements.value| ==> RetirementFits(s, lim, i)
  {
    var rs := s.retirements.value;
    if |rs| > MAX_RETIREMENTS {
      return true;
    }
    var seenRetirement: set<string>, seenMark := {}, marks;
    for i := 0 to |rs|
      invariant forall j :: 0 <= j < i ==> RetirementFits(s, lim, j)
      invariant seenRetirement == set j | 0 <= j < i :: rs[j].retirementId
      invariant seenMark == marks + set j | 0 <= j < i :: rs[j].flowMark
    {
      var r := rs[i];
      ghost var repeated := exists j :: 0 <= j < i && (rs[j].retirementId == r.retirementId || rs[j].flowMark == r.flowMark);
      assert RetirementFits(s, lim, i) <==> RetirementOk(r, s, lim) && !repeated;
      if !IsUUID(r.retirementId) || r.retirementId in seenRetirement {
        return true;
      }
      seenRetirement := seenRetirement + {r.retirementId};
      if r.mappingId <= 0 || r.generation <= 0 || r.generation > s.generation || r.flowMark == 0 {
        return true;
      }
      if r.mappingId in seenId {
        return true;
      }
      if r.flowMark in seenMark {
        if r.flowMark in marks {
          assert exists m :: m in s.mappings && m.flowMark == Some(r.flowMark);
        }
        return true;
      }
      seenMark := seenMark + {r.flowMark};
      if r.proto != "tcp" && r.proto != "udp" {
        return true;
      }
      if r.publicPort < lim.bandMin || r.publicPort > lim.bandMax || r.targetPort == 0 || !r.targetAddr.IPv4? {
        return true;
      }
      if TupleHash(RetirementTuple(r)) != r.tupleHash {
        return true;
      }
      assert RetirementFits(s, lim, i);
    }
    bad := false;
  }

  // ---- Canonical identity ----

  predicate MappingLe(m: Mapping, k: Mapping) {
    m.id <= k.id
  }

  predicate RetirementLe(r: Retirement, q: Retirement) {
    r.generation < q.generation || (r.generation == q.generation && LexLe(r.retirementId, q.retirementId))
  }

  lemma MappingOrder()
    ensures TotalPreorder(MappingLe)
  {
  }

  lemma RetirementOrder()
    ensures TotalPreorder(RetirementLe)
    ensures forall r, q :: RetirementLe(r, q) && RetirementLe(q, r) ==> r.retirementId == q.retirementId
  {
    forall r: Retirement, q: Retirement
      ensures RetirementLe(r, q) || RetirementLe(q, r)
      ensures RetirementLe(r, q) && RetirementLe(q, r) ==> r.retirementId == q.retirementId
    {
      LexTotal(r.retirementId, q.retirementId);
    }
    forall a: Retirement, b: Retirement, c: Retirement | RetirementLe(a, b) && RetirementLe(b, c)
      ensures RetirementLe(a, c)
    {
      if a.generation == b.generation == c.generation {
        LexTransitive(a.retirementId, b.retirementId, c.retirementId);
      }
    }
  }

  /** The value whose JSON encoding is hashed: sorted copies, no persistence stamp. */
  function CanonicalForm(s: Snapshot): Snapshot {
    s.(mappings := Sort(MappingLe, s.mappings),
       retirements := if s.retirements.Some? then Some(Sort(RetirementLe, s.retirements.value)) else None,
       persistedAt := 0)
  }

  function DesiredHash(s: Snapshot): Digest<Snapshot> {
    Sha256(CanonicalForm(s))
  }

  /** Equal up to the order of mappings and retirements and the persistence stamp. */
  predicate SameContent(s: Snapshot, t: Snapshot) {
    && s.generation == t.generation
    && s.acknowledged == t.acknowledged
    && multiset(s.mappings) == multiset(t.mappings)
    && s.retirements.Some? == t.retirements.Some?
    && (s.retirements.Some? ==> multiset(s.retirements.value) == multiset(t.retirements.value))
  }

  lemma CanonicalMappings(s: Snapshot, t: Snapshot, lim: Limits)
    requires Valid(s, lim) && multiset(s.mappings) == multiset(t.mappings)
    ensures CanonicalForm(s).mappings == CanonicalForm(t).mappings
  {
    MappingOrder();
    var p, q := Sort(MappingLe, s.mappings), Sort(MappingLe, t.mappings);
    SortFacts(MappingLe, s.mappings);
    SortFacts(MappingLe, t.mappings);
    SameMultisetSameElements(p, s.mappings);
    forall a, b | a in p && b in p && MappingLe(a, b) && MappingLe(b, a) ensures a == b {
      MappingsById(s, lim, a, b);
    }
    SortedIsUnique(MappingLe, p, q);
  }

  lemma MappingsById(s: Snapshot, lim: Limits, a: Mapping, b: Mapping)
    requires Valid(s, lim) && a in s.mappings && b in s.mappings && a.id == b.id
    ensures a == b
  {
    var i :| 0 <= i < |s.mappings| && s.mappings[i] == a;
    var j :| 0 <= j < |s.mappings| && s.mappings[j] == b;
    assert MappingFits(s, lim, i) && MappingFits(s, lim, j);
    assert i < j ==> !Clash(s.mappings[i], s.mappings[j]);
    assert j < i ==> !Clash(s.mappings[j], s.mappings[i]);
  }

  lemma CanonicalRetirements(s: Snapshot, t: Snapshot, lim: Limits)
    requires Valid(s, lim) && s.retirements.Some? && t.retirements.Some?
    requires multiset(s.retirements.value) == multiset(t.retirements.value)
    ensures CanonicalForm(s).retirements == CanonicalForm(t).retirements
  {
    RetirementOrder();
    var p, q := Sort(RetirementLe, s.retirements.value), Sort(RetirementLe, t.retirements.value);
    SortFacts(RetirementLe, s.retirements.value);
    SortFacts(RetirementLe, t.retirements.value);
    SameMultisetSameElements(p, s.retirements.value);
    forall a, b | a in p && b in p && RetirementLe(a, b) && RetirementLe(b, a) ensures a == b {
      RetirementsById(s, lim, a, b);
    }
    SortedIsUnique(RetirementLe, p, q);
  }

  lemma RetirementsById(s: Snapshot, lim: Limits, a: Retirement, b: Retirement)
    requires Valid(s, lim) && s.retirements.Some?
    requires a in s.retirements.value && b in s.retirements.value && a.retirementId == b.retirementId
    ensures a == b
  {
    var rs := s.retirements.value;
    var i :| 0 <= i < |rs| && rs[i] == a;
    var j :| 0 <= j < |rs| && rs[j] == b;
    assert RetirementFits(s, lim, i) && RetirementFits(s, lim, j);
  }

  lemma CanonicalKeepsContent(s: Snapshot)
    ensures SameContent(s, CanonicalForm(s))
  {
    MappingOrder();
    RetirementOrder();
    SortFacts(MappingLe, s.mappings);
    if s.retirements.Some? {
      SortFacts(RetirementLe, s.retirements.value);
    }
  }

  /** The desired hash identifies content: it ignores listing order and the stamp, and nothing else. */
  lemma DesiredHashIdentifiesContent(s: Snapshot, t: Snapshot, lim: Limits)
    requires Valid(s, lim) && Valid(t, lim)
    ensures DesiredHash(s) == DesiredHash(t) <==> SameContent(s, t)
  {
    CanonicalKeepsContent(s);
    CanonicalKeepsContent(t);
    if SameContent(s, t) {
      CanonicalMappings(s, t, lim);
      if s.retirements.Some? {
        CanonicalRetirements(s, t, lim);
      }
    }
    hide Valid, Sort;
  }

  // ---- The persisted copy ----

  /** The bounded fail-open window: stamped, not in the future beyond the tolerance, not older than the limit. */
  predicate WithinWindow(s: Snapshot, now: nat, maxAge: nat) {
    s.persistedAt != 0 && s.persistedAt <= now + CLOCK_SKEW_TOLERANCE && now - s.persistedAt <= maxAge
  }

  // ---- Validity, member by member ----

  /** One mapping, number by number. */
  predicate FineMapping(m: Mapping, managed: bool, lim: Limits) {
    && 1 <= m.id && (m.proto == "tcp" || m.proto == "udp")
    && lim.bandMin <= m.publicPort <= lim.bandMax && m.targetPort > 0
    && m.targetAddr.IPv4? && SP.Contains(lim.targetCidr, m.targetAddr.addr)
    && (managed <==> m.flowMark.Some?) && m.flowMark != Some(0)
    && (forall v :: v in [m.ctMax, m.newConnRate, m.newConnBurst, m.perSourceRate, m.perSourceBurst] && v.Some? ==> v.value <= 1_000_000)
    && (m.newConnBurst.Some? ==> m.newConnRate.Some? && m.newConnRate != Some(0))
    && (m.perSourceBurst.Some? ==> m.perSourceRate.Some? && m.perSourceRate != Some(0))
  }

  /** One retirement: it names nothing that is still mapped, and carries the hash of its own tuple. */
  predicate FineRetirement(r: Retirement, s: Snapshot, lim: Limits) {
    && IsUUID(r.retirementId) && 1 <= r.mappingId && 1 <= r.generation <= s.generation && r.flowMark > 0
    && (r.proto == "tcp" || r.proto == "udp") && lim.bandMin <= r.publicPort <= lim.bandMax && r.targetPort > 0 && r.targetAddr.IPv4?
    && r.tupleHash == TupleHash(Tuple(r.mappingId, r.proto, r.publicPort, r.targetAddr, r.targetPort, r.flowMark))
    && !exists m :: m in s.mappings && (m.id == r.mappingId || m.flowMark == Some(r.flowMark))
  }

  /** As many values as members. */
  predicate Injective<T(==)>(xs: seq<T>) {
    |SetOf(xs)| == |xs|
  }

  lemma {:induction false} InjectiveIff<T>(xs: seq<T>)
    ensures Injective(xs) <==> forall i, j :: 0 <= i < j < |xs| ==> xs[i] != xs[j]
  {
    if xs != [] {
      var init, last := xs[..|xs| - 1], xs[|xs| - 1];
      InjectiveIff(init);
      assert SetOf(xs) == SetOf(init) + {last};
      AtMostMembers(init);
    }
  }

  lemma {:induction false} AtMostMembers<T>(xs: seq<T>)
    ensures |SetOf(xs)| <= |xs|
  {
    if xs != [] {
      AtMostMembers(xs[..|xs| - 1]);
      assert SetOf(xs) == SetOf(xs[..|xs| - 1]) + {xs[|xs| - 1]};
    }
  }

  function Ids(ms: seq<Mapping>): seq<int> {
    seq(|ms|, i requires 0 <= i < |ms| => ms[i].id)
  }

  function Endpoints(ms: seq<Mapping>): seq<(string, u16)> {
    seq(|ms|, i requires 0 <= i < |ms| => (ms[i].proto, ms[i].publicPort))
  }

  function MarksOf(ms: seq<Mapping>): seq<Option<u32>> {
    seq(|ms|, i requires 0 <= i < |ms| => ms[i].flowMark)
  }

  function RetirementIds(rs: seq<Retirement>): seq<string> {
    seq(|rs|, i requires 0 <= i < |rs| => rs[i].retirementId)
  }

  function RetiredMarks(rs: seq<Retirement>): seq<u32> {
    seq(|rs|, i requires 0 <= i < |rs| => rs[i].flowMark)
  }

  /** What a snapshot has to be, without any order among its members: fine members, as many ids, endpoints and marks as mappings, as many ids and
      marks as retirements, and the caps. */
  predicate WellFormed(s: Snapshot, lim: Limits) {
    && 0 <= s.generation && (s.mappings != [] ==> s.generation > 0) && |s.mappings| <= 65536
    && (forall m :: m in s.mappings ==> FineMapping(m, s.retirements.Some?, lim))
    && Injective(Ids(s.mappings)) && Injective(Endpoints(s.mappings)) && (s.retirements.Some? ==> Injective(MarksOf(s.mappings)))
    && (if s.retirements.None? then s.acknowledged.None?
        else
          && s.acknowledged.Some? && 0 <= s.acknowledged.value && |s.retirements.value| <= 4096
          && (forall r :: r in s.retirements.value ==> FineRetirement(r, s, lim))
          && Injective(RetirementIds(s.retirements.value)) && Injective(RetiredMarks(s.retirements.value)))
  }

  lemma FineIff(m: Mapping, managed: bool, lim: Limits)
    ensures MappingOk(m, managed, lim) <==> FineMapping(m, managed, lim)
  {
    hide SP.Contains;
    var vs := [m.ctMax, m.newConnRate, m.newConnBurst, m.perSourceRate, m.perSourceBurst];
    assert vs[0] in vs && vs[1] in vs && vs[2] in vs && vs[3] in vs && vs[4] in vs;
  }

  lemma FineRetirementIff(r: Retirement, s: Snapshot, lim: Limits)
    ensures RetirementOk(r, s, lim) <==> FineRetirement(r, s, lim)
  {
    hide TupleHash, IsUUID;
  }

  lemma MappingsIff(s: Snapshot, lim: Limits)
    ensures (forall i :: 0 <= i < |s.mappings| ==> MappingFits(s, lim, i)) <==>
      && (forall m :: m in s.mappings ==> FineMapping(m, s.retirements.Some?, lim))
      && Injective(Ids(s.mappings)) && Injective(Endpoints(s.mappings)) && (s.retirements.Some? ==> Injective(MarksOf(s.mappings)))
  {
    hide FineMapping, MappingOk, Injective;
    var ms, managed := s.mappings, s.retirements.Some?;
    InjectiveIff(Ids(ms));
    InjectiveIff(Endpoints(ms));
    InjectiveIff(MarksOf(ms));
    forall i | 0 <= i < |ms| ensures MappingOk(ms[i], managed, lim) <==> FineMapping(ms[i], managed, lim) {
      FineIff(ms[i], managed, lim);
    }
    if forall i :: 0 <= i < |ms| ==> MappingFits(s, lim, i) {
      PairsApart(s, lim);
    }
    if (forall m :: m in ms ==> FineMapping(m, managed, lim)) && Injective(Ids(ms)) && Injective(Endpoints(ms)) && (managed ==> Injective(MarksOf(ms))) {
      ApartFits(s, lim);
    }
  }

  lemma PairsApart(s: Snapshot, lim: Limits)
    requires forall i :: 0 <= i < |s.mappings| ==> MappingFits(s, lim, i)
    ensures forall m :: m in s.mappings ==> FineMapping(m, s.retirements.Some?, lim)
    ensures forall i, j :: 0 <= i < j < |s.mappings| ==> Ids(s.mappings)[i] != Ids(s.mappings)[j] && Endpoints(s.mappings)[i] != Endpoints(s.mappings)[j]
    ensures s.retirements.Some? ==> forall i, j :: 0 <= i < j < |s.mappings| ==> MarksOf(s.mappings)[i] != MarksOf(s.mappings)[j]
  {
    hide FineMapping, MappingOk;
    var ms := s.mappings;
    forall i | 0 <= i < |ms| ensures FineMapping(ms[i], s.retirements.Some?, lim) && (s.retirements.Some? ==> ms[i].flowMark.Some?) {
      assert MappingFits(s, lim, i);
      FineIff(ms[i], s.retirements.Some?, lim);
      FineMarked(ms[i], s.retirements.Some?, lim);
    }
    forall i, j | 0 <= i < j < |ms| ensures !Clash(ms[i], ms[j]) {
      assert MappingFits(s, lim, j);
    }
  }

  lemma FineMarked(m: Mapping, managed: bool, lim: Limits)
    requires FineMapping(m, managed, lim)
    ensures managed <==> m.flowMark.Some?
  {
    hide SP.Contains;
  }

  lemma ApartFits(s: Snapshot, lim: Limits)
    requires forall m :: m in s.mappings ==> FineMapping(m, s.retirements.Some?, lim)
    requires Injective(Ids(s.mappings)) && Injective(Endpoints(s.mappings)) && (s.retirements.Some? ==> Injective(MarksOf(s.mappings)))
    ensures forall i :: 0 <= i < |s.mappings| ==> MappingFits(s, lim, i)
  {
    hide FineMapping, MappingOk, Injective;
    var ms := s.mappings;
    InjectiveIff(Ids(ms));
    InjectiveIff(Endpoints(ms));
    InjectiveIff(MarksOf(ms));
    forall i | 0 <= i < |ms| ensures MappingFits(s, lim, i) {
      assert ms[i] in ms;
      FineIff(ms[i], s.retirements.Some?, lim);
      FineMarked(ms[i], s.retirements.Some?, lim);
      forall j | 0 <= j < i ensures !Clash(ms[j], ms[i]) {
        assert Ids(ms)[j] != Ids(ms)[i] && Endpoints(ms)[j] != Endpoints(ms)[i];
        assert s.retirements.Some? ==> MarksOf(ms)[j] != MarksOf(ms)[i];
      }
    }
  }

  lemma RetirementsIff(s: Snapshot, lim: Limits)
    requires s.retirements.Some?
    ensures (forall i :: 0 <= i < |s.retirements.value| ==> RetirementFits(s, lim, i)) <==>
      && (forall r :: r in s.retirements.value ==> FineRetirement(r, s, lim))
      && Injective(RetirementIds(s.retirements.value)) && Injective(RetiredMarks(s.retirements.value))
  {
    hide FineRetirement, RetirementOk, Injective;
    var rs := s.retirements.value;
    InjectiveIff(RetirementIds(rs));
    InjectiveIff(RetiredMarks(rs));
    forall i | 0 <= i < |rs| ensures RetirementOk(rs[i], s, lim) <==> FineRetirement(rs[i], s, lim) {
      FineRetirementIff(rs[i], s, lim);
    }
    if forall i :: 0 <= i < |rs| ==> RetirementFits(s, lim, i) {
      forall i, j | 0 <= i < j < |rs| ensures RetirementIds(rs)[i] != RetirementIds(rs)[j] && RetiredMarks(rs)[i] != RetiredMarks(rs)[j] {
        assert RetirementFits(s, lim, j);
      }
      forall r | r in rs ensures FineRetirement(r, s, lim) {
        var i :| 0 <= i < |rs| && rs[i] == r;
        assert RetirementFits(s, lim, i);
      }
    }
    if (forall r :: r in rs ==> FineRetirement(r, s, lim)) && Injective(RetirementIds(rs)) && Injective(RetiredMarks(rs)) {
      forall i | 0 <= i < |rs| ensures RetirementFits(s, lim, i) {
        assert rs[i] in rs;
        forall j | 0 <= j < i ensures rs[j].retirementId != rs[i].retirementId && rs[j].flowMark != rs[i].flowMark {
          assert RetirementIds(rs)[j] != RetirementIds(rs)[i] && RetiredMarks(rs)[j] != RetiredMarks(rs)[i];
        }
      }
    }
  }

  /** Validation lets through exactly the well-formed snapshots, whatever their order. */
  lemma ValidIffWellFormed(s: Snapshot, lim: Limits)
    ensures Valid(s, lim) <==> WellFormed(s, lim)
  {
    hide MappingFits, RetirementFits, FineMapping, FineRetirement, Injective;
    MappingsIff(s, lim);
    if s.retirements.Some? {
      RetirementsIff(s, lim);
    }
  }
}
