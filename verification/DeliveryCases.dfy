/** Runs of one replica that show each way to fail or to stall, and that honest
    deliveries in the order of the batches never fail. */
module DeliveryCases {
  import opened Arith
  import opened Protocol
  import opened Invariant
  import opened Quorum
  import opened Delivery
  import opened DeliveryRuns
  import A = Agreement
  import C = Contents
  import P = Preserve

  // ------------------------------------------------ stored votes were delivered or sent

  ghost predicate Known(c: Plain, s: Site, trace: seq<Event>) {
    s.Up? ==>
      && A.Rows(c, s.node.prep) && A.Rows(c, s.node.comm)
      && (forall i: nat, r: nat :: i < c.ring && r < c.Nodes() ==> KnownPrep(s.node.prep[i][r], s.node.out, trace))
      && (forall i: nat, r: nat :: i < c.ring && r < c.Nodes() ==> KnownComm(s.node.comm[i][r], s.node.out, trace))
  }

  ghost predicate KnownPrep(w: Vote, out: seq<Msg>, trace: seq<Event>) {
    w.txnId == EMPTY || PrepArrives(w) in trace || Prepare(w) in out
  }

  ghost predicate KnownComm(w: Vote, out: seq<Msg>, trace: seq<Event>) {
    w.txnId == EMPTY || CommitArrives(w) in trace || Commit(w) in out
  }

  lemma KnownMore(c: Plain, s: Site, trace: seq<Event>, e: Event)
    requires Known(c, s, trace)
    ensures Known(c, s, trace + [e])
  {
    if s.Up? {
      forall i: nat, r: nat | i < c.ring && r < c.Nodes()
        ensures KnownPrep(s.node.prep[i][r], s.node.out, trace + [e]) && KnownComm(s.node.comm[i][r], s.node.out, trace + [e])
      {
        assert KnownPrep(s.node.prep[i][r], s.node.out, trace) && KnownComm(s.node.comm[i][r], s.node.out, trace);
      }
    }
  }

  lemma KnownStep(c: Plain, n: Node, m: Node, e: Event, trace: seq<Event>, i: nat, r: nat)
    requires C.VotesFrom(c, n, m, e) && n.out <= m.out && i < c.ring && r < c.Nodes()
    requires KnownPrep(n.prep[i][r], n.out, trace) && KnownComm(n.comm[i][r], n.out, trace)
    ensures KnownPrep(m.prep[i][r], m.out, trace + [e]) && KnownComm(m.comm[i][r], m.out, trace + [e])
  {
    assert C.PrepFrom(c, n, m, e, i, r) && C.CommFrom(c, n, m, e, i, r);
    forall x | x in n.out ensures x in m.out {
      StillSent(n.out, m.out, x);
    }
  }

  lemma KnownDeliver(c: Plain, s: Site, e: Event, trace: seq<Event>)
    requires FineSite(c, s) && Known(c, s, trace)
    ensures Known(c, Deliver(c, s, e), trace + [e])
  {
    hide Fine, Handle, Grow, Heard, Passed, Shaped, Allowed, C.VotesFrom, A.Rows, KnownPrep, KnownComm, Orderly;
    KnownMore(c, s, trace, e);
    if s.Up? && Orderly(c, s.node, s.acc, s.hist, e) {
      var n := s.node;
      OrderlyShaped(c, n, s.acc, s.hist, e);
      FineParts(c, n, s.acc, s.hist, s.passed);
      if Handle(c, n, e).Ok? {
        var m := Handle(c, n, e).node;
        C.HandleContents(c, n, s.acc, e);
        A.HandleAfter(c, n, e);
        KnownSteps(c, s, Deliver(c, s, e), e, trace);
      }
    }
  }

  lemma KnownSteps(c: Plain, s: Site, t: Site, e: Event, trace: seq<Event>)
    requires s.Up? && t.Up? && Known(c, s, trace) && C.VotesFrom(c, s.node, t.node, e) && s.node.out <= t.node.out
    ensures Known(c, t, trace + [e])
  {
    hide C.PrepFrom, C.CommFrom, KnownPrep, KnownComm;
    forall i: nat, r: nat | i < c.ring && r < c.Nodes()
      ensures KnownPrep(t.node.prep[i][r], t.node.out, trace + [e]) && KnownComm(t.node.comm[i][r], t.node.out, trace + [e])
    {
      KnownStep(c, s.node, t.node, e, trace, i, r);
    }
  }

  lemma FineParts(c: Plain, n: Node, acc: Accepted, h: Hist, passed: set<nat>)
    requires Fine(c, n, acc, h, passed)
    ensures Shaped(c, n) && Inv(c, n, acc) && AcceptedOk(c, acc)
  {
    hide Stored, PassedOk, Flagged;
    StoredParts(c, n, acc, h);
  }

  lemma {:induction false} AlwaysKnown(c: Plain, id: nat, trace: seq<Event>)
    requires id < c.Nodes()
    ensures Known(c, After(c, id, trace), trace)
  {
    if trace != [] {
      hide Known, Deliver, FineSite;
      var short := trace[..|trace| - 1];
      AlwaysKnown(c, id, short);
      AlwaysFine(c, id, short);
      assert trace == short + [trace[|trace| - 1]];
      KnownDeliver(c, After(c, id, short), trace[|trace| - 1], short);
    }
  }

  // ------------------------------------------------ one digest, no clash

  /** Every vote of the trace for batch k carries this digest and the view. */
  ghost predicate OneVote(c: Plain, trace: seq<Event>, k: nat, hash: Digest) {
    forall e :: e in trace && (e.PrepArrives? || e.CommitArrives?) && e.vote.txnId == k ==>
      e.vote.hash == hash && e.vote.view == c.primary
  }

  ghost predicate Uniform(c: Plain, row: seq<Vote>, k: nat, hash: Digest) {
    forall r: nat :: r < |row| && row[r].txnId == k ==> row[r].hash == hash && row[r].view == c.primary && row[r].endIndex == k
  }

  lemma UniformPut(c: Plain, row: seq<Vote>, k: nat, hash: Digest, v: Vote)
    requires Uniform(c, row, k, hash) && (v.txnId == k ==> v.hash == hash && v.view == c.primary && v.endIndex == k)
    ensures Uniform(c, Put(row, v), k, hash)
  {
  }

  lemma NoClash(c: Plain, prep: seq<Vote>, comm: seq<Vote>, k: nat, hash: Digest)
    requires Uniform(c, prep, k, hash) && Uniform(c, comm, k, hash)
    ensures !Clash(prep, comm, k)
  {
  }

  lemma SentHash(c: Plain, n: Node, acc: Accepted, w: Vote)
    requires Inv(c, n, acc) && (Prepare(w) in n.out || Commit(w) in n.out)
    ensures w.txnId in acc && w.hash == DigestAt(c, acc, w.txnId) && w.view == c.primary
  {
    hide StoresOk, SlotsOk, ExecsOk, PreparedOk, LogOk, Shaped, GoodVote, IsEnd;
    P.InvShaped(c, n, acc);
    P.GoodShaped(c, acc[w.txnId]);
  }

  lemma KnownUniform(c: Plain, id: nat, trace: seq<Event>, k: nat, hash: Digest)
    requires id < c.Nodes() && k != EMPTY && OneVote(c, trace, k, hash)
    requires var s := After(c, id, trace); s.Up? && (k in s.acc ==> DigestAt(c, s.acc, k) == hash)
    ensures var n := After(c, id, trace).node; Uniform(c, Slot(c, n.prep, k), k, hash) && Uniform(c, Slot(c, n.comm, k), k, hash)
  {
    hide Fine, After, Inv, DigestAt, Shaped;
    AlwaysFine(c, id, trace);
    AlwaysKnown(c, id, trace);
    var s := After(c, id, trace);
    var n := s.node;
    FineParts(c, n, s.acc, s.hist, s.passed);
    A.InvSlots(c, n, s.acc);
    var i := k % c.ring;
    forall r: nat | r < c.Nodes()
      ensures n.prep[i][r].txnId == k ==> n.prep[i][r].hash == hash && n.prep[i][r].view == c.primary && n.prep[i][r].endIndex == k
      ensures n.comm[i][r].txnId == k ==> n.comm[i][r].hash == hash && n.comm[i][r].view == c.primary && n.comm[i][r].endIndex == k
    {
      assert KnownPrep(n.prep[i][r], n.out, trace) && KnownComm(n.comm[i][r], n.out, trace);
      assert EntryOk(c, n.prep[i][r], i, r) && EntryOk(c, n.comm[i][r], i, r);
      if Prepare(n.prep[i][r]) in n.out { SentHash(c, n, s.acc, n.prep[i][r]); }
      if Commit(n.comm[i][r]) in n.out { SentHash(c, n, s.acc, n.comm[i][r]); }
    }
  }

  /** With one digest per batch no delivery of a vote or a batch clashes. */
  lemma OneDigestNoClash(c: Plain, id: nat, trace: seq<Event>, k: nat, hash: Digest, v: Vote)
    requires id < c.Nodes() && k != EMPTY && OneVote(c, trace, k, hash)
    requires var s := After(c, id, trace); s.Up? && (k in s.acc ==> DigestAt(c, s.acc, k) == hash)
    requires v.txnId == k ==> v.hash == hash && v.view == c.primary && v.endIndex == k
    ensures var n := After(c, id, trace).node;
            && !Clash(Slot(c, n.prep, k), Put(Slot(c, n.comm, k), v), k)
            && !Clash(Put(Slot(c, n.prep, k), v), Put(Slot(c, n.comm, k), v), k)
  {
    hide After, DigestAt, Clash, Uniform, Put, Slot, OneVote;
    KnownUniform(c, id, trace, k, hash);
    var n := After(c, id, trace).node;
    UniformPut(c, Slot(c, n.prep, k), k, hash, v);
    UniformPut(c, Slot(c, n.comm, k), k, hash, v);
    NoClash(c, Slot(c, n.prep, k), Put(Slot(c, n.comm, k), v), k, hash);
    NoClash(c, Put(Slot(c, n.prep, k), v), Put(Slot(c, n.comm, k), v), k, hash);
  }

  // ------------------------------------------------ honest deliveries

  /** Votes of the view with their batch's digest, hashes that fit, executions in
      order, and fewer than 2f prepares at the primary before it made their batch. */
  ghost predicate Honest(c: Plain, d: nat -> Digest, s: Site, e: Event)
    requires s.Up?
  {
    match e
    case PrepArrives(v) =>
      && v.view == c.primary && v.hash == d(v.txnId)
      && (s.node.id == c.primary ==> v.txnId in s.acc || |Preps(s.hist, v.txnId)| + 1 < 2 * c.f)
    case CommitArrives(v) => v.view == c.primary && v.hash == d(v.txnId)
    case BatchArrives(b) =>
      && BatchShaped(c, b) && b.view == c.primary && LastHash(c, b) == d(LastId(b))
      && forall i :: 0 <= i < c.batch ==> b.hash[i] == DigestOf(b.reqs[i].req)
    case ClientBatch(k, reqs) => |reqs| == c.batch && DigestOf(reqs[c.batch - 1]) == d(c.batch * k + c.batch - 1)
    case RunExec(x) => x.index == s.node.next
    case OrderReady(b) => true
  }

  ghost predicate HonestRun(c: Plain, d: nat -> Digest, id: nat, trace: seq<Event>)
    requires id < c.Nodes()
  {
    forall i :: 0 <= i < |trace| && After(c, id, trace[..i]).Up? ==> Honest(c, d, After(c, id, trace[..i]), trace[i])
  }

  lemma {:induction false} PrefixUp(c: Plain, id: nat, trace: seq<Event>, i: nat)
    requires id < c.Nodes() && i <= |trace| && After(c, id, trace).Up?
    ensures After(c, id, trace[..i]).Up?
    decreases |trace|
  {
    hide Orderly, Handle;
    if i == |trace| {
      assert trace[..i] == trace;
    } else {
      assert trace[..|trace| - 1][..i] == trace[..i];
      PrefixUp(c, id, trace[..|trace| - 1], i);
    }
  }

  lemma HonestVotes(c: Plain, d: nat -> Digest, id: nat, trace: seq<Event>, k: nat)
    requires id < c.Nodes() && HonestRun(c, d, id, trace) && After(c, id, trace).Up?
    ensures OneVote(c, trace, k, d(k))
  {
    hide After;
    forall e | e in trace && (e.PrepArrives? || e.CommitArrives?) && e.vote.txnId == k
      ensures e.vote.hash == d(k) && e.vote.view == c.primary
    {
      var i :| 0 <= i < |trace| && trace[i] == e;
      PrefixUp(c, id, trace, i);
    }
  }

  ghost predicate AccDigests(c: Plain, d: nat -> Digest, s: Site) {
    s.Up? ==> forall k :: k in s.acc ==> DigestAt(c, s.acc, k) == d(k)
  }

  /** An honest delivery is not fatal. */
  lemma HonestNotFatal(c: Plain, d: nat -> Digest, id: nat, trace: seq<Event>, e: Event)
    requires id < c.Nodes() && HonestRun(c, d, id, trace)
    requires var s := After(c, id, trace); s.Up? && AccDigests(c, d, s) && Honest(c, d, s, e) && Orderly(c, s.node, s.acc, s.hist, e)
    ensures var s := After(c, id, trace); EventShaped(c, e) && !Fatal(c, s.node, s.acc, s.hist, e)
  {
    hide After, Clash, Put, Slot, Shaped, HonestRun, DigestAt, InOrder, A.Windowed;
    var s := After(c, id, trace);
    match e
    case CommitArrives(v) =>
      HonestVotes(c, d, id, trace, v.txnId);
      OneDigestNoClash(c, id, trace, v.txnId, d(v.txnId), v);
    case BatchArrives(b) =>
      HonestVotes(c, d, id, trace, LastId(b));
      OneDigestNoClash(c, id, trace, LastId(b), d(LastId(b)), VoteFor(c, LastId(b), LastHash(c, b), s.node.id));
    case _ =>
  }

  lemma DigestsGrow(c: Plain, d: nat -> Digest, s: Site, e: Event)
    requires s.Up? && AccDigests(c, d, s) && Honest(c, d, s, e) && EventShaped(c, e)
    ensures forall k :: k in Grow(c, s.acc, e) ==> DigestAt(c, Grow(c, s.acc, e), k) == d(k)
  {
  }

  lemma HonestShorter(c: Plain, d: nat -> Digest, id: nat, trace: seq<Event>)
    requires id < c.Nodes() && trace != [] && HonestRun(c, d, id, trace)
    ensures HonestRun(c, d, id, trace[..|trace| - 1])
  {
    hide After, Honest;
    var short := trace[..|trace| - 1];
    forall i | 0 <= i < |short| ensures short[..i] == trace[..i] && short[i] == trace[i] {
    }
  }

  /** Over every run of honest deliveries, in whatever order votes and batches come,
      no assertion fails. */
  lemma {:induction false} HonestNeverFails(c: Plain, d: nat -> Digest, id: nat, trace: seq<Event>)
    requires id < c.Nodes() && HonestRun(c, d, id, trace)
    ensures After(c, id, trace).Up? && AccDigests(c, d, After(c, id, trace))
  {
    hide Orderly, Fatal, Handle, AccDigests, Grow, Heard;
    if trace == [] {
      assert AccDigests(c, d, After(c, id, trace)) by { NoDigests(c, d, id); }
    } else {
      var short, e := trace[..|trace| - 1], trace[|trace| - 1];
      HonestShorter(c, d, id, trace);
      HonestNeverFails(c, d, id, short);
      var s := After(c, id, short);
      assert short + [e] == trace;
      FailsExactlyWhen(c, id, short, e);
      if Orderly(c, s.node, s.acc, s.hist, e) {
        HonestNotFatal(c, d, id, short, e);
        DigestsDeliver(c, d, s, e);
      }
    }
  }

  lemma NoDigests(c: Plain, d: nat -> Digest, id: nat)
    requires id < c.Nodes()
    ensures AccDigests(c, d, After(c, id, []))
  {
    hide Boot;
  }

  lemma DigestsDeliver(c: Plain, d: nat -> Digest, s: Site, e: Event)
    requires s.Up? && AccDigests(c, d, s) && Honest(c, d, s, e)
    ensures AccDigests(c, d, Deliver(c, s, e))
  {
    hide Handle, Honest, Grow, Heard, Passed;
    if Orderly(c, s.node, s.acc, s.hist, e) {
      OrderlyShaped(c, s.node, s.acc, s.hist, e);
      DigestsGrow(c, d, s, e);
    }
  }
}
