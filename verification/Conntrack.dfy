/**
 The conntrack side of a retirement (internal/conntrackctl/conntrack.go): which flows
 belong to it, deleting them one by one, and checking that none is left.
 */
module Conntrack {
  import opened Values
  import opened Snapshots
  import opened Nft
  import SP = SourcePolicy

  /** A tracked connection: its mark, the original destination port and the translated peer. */
  datatype Flow = Flow(id: nat, mark: u32, proto: Byte, origDport: u16, replySource: SP.Addr, replyPort: u16, status: bv32)

  /** Mark, protocol, public port and translated target all agree, and the flow is translated. */
  predicate Matches(f: Flow, r: Retirement) {
    && f.mark == r.flowMark
    && f.proto == ProtoNumber(r.proto)
    && f.origDport == r.publicPort
    && r.targetAddr == IPv4(f.replySource)
    && f.replyPort == r.targetPort
    && HasDnat(f.status)
  }

  function Matching(flows: set<Flow>, r: Retirement): set<Flow> {
    set f | f in flows && Matches(f, r)
  }

  /** What the netlink calls of one operation answer: the dial and the two dumps, how many deletions succeed, the timeout. */
  datatype Answers = Answers(dialed: bool, dumped: bool, deletions: nat, redumped: bool, timedOut: bool)

  class ConnectionTable {
    var flows: set<Flow>

    /** The flows a retirement owns: a dump filtered by mark, then by the whole tuple. */
    method Find(r: Retirement) returns (found: seq<Flow>)
      ensures SetOf(found) == Matching(flows, r)
      ensures forall i, j :: 0 <= i < j < |found| ==> found[i] != found[j]
    {
      found := [];
      var todo := set f | f in flows && f.mark == r.flowMark;
      while |todo| > 0
        invariant todo <= flows && forall f :: f in todo ==> f.mark == r.flowMark
        invariant forall f :: f in found <==> f in Matching(flows, r) && f !in todo
        invariant forall i, j :: 0 <= i < j < |found| ==> found[i] != found[j]
        decreases |todo|
      {
        HasFlow(todo);
        var f: Flow :| f in todo;
        if Matches(f, r) {
          found := found + [f];
        }
        todo := todo - {f};
      }
      assert forall f :: f in Matching(flows, r) ==> f in found;
    }

    /** Success means that no flow of the retirement is left and no other flow was touched;
        failure may leave some of its flows behind, but still touches no other. */
    method Clear(r: Retirement, a: Answers) returns (ok: bool)
      modifies this
      ensures ok <==> a.dialed && a.dumped && |Matching(old(flows), r)| <= a.deletions && a.redumped && !a.timedOut
      ensures ok ==> flows == old(flows) - Matching(old(flows), r)
      ensures flows <= old(flows) && old(flows) - flows <= Matching(old(flows), r)
    {
      if !a.dialed || !a.dumped {
        return false;
      }
      var found := Find(r);
      DistinctCardinality(found);
      var i := 0;
      while i < |found|
        invariant i <= |found| && i <= a.deletions
        invariant flows == old(flows) - SetOf(found[..i])
      {
        if i == a.deletions {
          assert forall f :: f in found[..i] ==> f in found;
          return false;
        }
        assert found[..i + 1] == found[..i] + [found[i]];
        flows := flows - {found[i]};
        i := i + 1;
      }
      assert found[..i] == found;
      if !a.redumped {
        return false;
      }
      var left := Find(r);
      assert Matching(flows, r) == {};
      DistinctCardinality(left);
      ok := |left| == 0 && !a.timedOut;
    }

    /** Succeeds exactly when the calls do and no flow of the retirement exists. */
    method Zero(r: Retirement, a: Answers) returns (ok: bool)
      ensures ok <==> a.dialed && a.dumped && !a.timedOut && Matching(flows, r) == {}
    {
      if !a.dialed || !a.dumped {
        return false;
      }
      var left := Find(r);
      ok := |left| == 0 && !a.timedOut;
      assert |left| == 0 ==> SetOf(left) == {};
      DistinctCardinality(left);
    }
  }

  lemma HasFlow(s: set<Flow>)
    ensures s == {} || exists f :: f in s
  {
    if forall f :: f !in s {
      assert s == {};
    }
  }
}
