/** Votes carry the digest of a batch's last request only.  So a primary that sends
    different batches with one last request to two backups gets both executed: one run
    of four nodes, only the primary faulty, in which every vote of the three others is
    one they sent. */
module Equivocation {
  import opened Protocol
  import opened Invariant
  import opened Delivery
  import opened DeliveryRuns
  import opened DeliveryCases
  import opened DeliveryExamples
  import A = Agreement
  import L = LogSafety
  import G = LogAgreement
  import P = Preserve

  // ------------------------------------------------ the cluster follows its nodes' deliveries

  /** Every backup is where its own deliveries have brought it. */
  ghost predicate Tracks(c: Plain, s: A.Cluster, ts: seq<seq<Event>>) {
    && A.ClusterShaped(c, s) && |ts| == c.Nodes()
    && forall r: nat :: 0 < r < c.Nodes() ==>
         var u := After(c, r, ts[r]); u.Up? && s.nodes[r] == u.node && s.accs[r] == u.acc
  }

  /** One delivery that the others' messages allow. */
  lemma Advance(c: Plain, run: seq<A.Action>, ts: seq<seq<Event>>, r: nat, e: Event)
    requires Tracks(c, A.Run(c, {0}, run), ts) && 0 < r < c.Nodes()
    requires var s, u := A.Run(c, {0}, run), After(c, r, ts[r]);
             && Orderly(c, u.node, u.acc, u.hist, e) && A.Genuine(c, {0}, A.OutsOf(s), u.node, e)
             && After(c, r, ts[r] + [e]).Up?
    ensures Tracks(c, A.Run(c, {0}, run + [A.Action(r, e)]), ts[r := ts[r] + [e]])
    ensures After(c, r, ts[r] + [e]).node == A.Run(c, {0}, run + [A.Action(r, e)]).nodes[r]
  {
    hide After, Handle, Grow, Heard, Passed, A.Genuine, Shaped;
    var a := A.Action(r, e);
    assert (run + [a])[..|run|] == run;
    AfterOne(c, r, ts[r], e);
  }

  // ------------------------------------------------ what a backup has sent

  lemma SentVotes(c: Plain, id: nat, trace: seq<Event>, acc: Accepted, a: Votes, b: Votes)
    requires id < c.Nodes() && id != c.primary && Met(c, id, trace, acc, a, b) && a.k in acc
    ensures After(c, id, trace).Up?
    ensures Prepare(VoteFor(c, a.k, a.hash, id)) in After(c, id, trace).node.out
    ensures 2 * c.f <= |a.preps| ==> Commit(VoteFor(c, a.k, a.hash, id)) in After(c, id, trace).node.out
  {
    hide After, Fine, VoteFor, Preps, Comms, IsEnd, DigestAt, Shaped;
    MetHeard(c, id, trace, acc, a, b);
    AlwaysFine(c, id, trace);
    var s := After(c, id, trace);
    VotedFine(c, s.node, s.acc, s.hist, s.passed);
    assert Own(c, acc, a.k, id) == VoteFor(c, a.k, a.hash, id);
  }

  lemma VotedFine(c: Plain, n: Node, acc: Accepted, h: Hist, passed: set<nat>)
    requires Fine(c, n, acc, h, passed)
    ensures Voted(c, n.id, n.out, acc, h)
  {
    hide Stored, PassedOk, Flagged, Voted;
  }

  /** A prepare of the one batch lands on no later one. */
  lemma NothingLater(c: Plain, id: nat, trace: seq<Event>, acc: Accepted, a: Votes, b: Votes, r: nat)
    requires id < c.Nodes() && Met(c, id, trace, acc, a, b) && a.k == b.k && r < c.Nodes() && r != id
    ensures After(c, id, trace).Up?
    ensures var row := Slot(c, After(c, id, trace).node.prep, a.k);
            r < |row| && (row[r].txnId == EMPTY || row[r].txnId <= a.k)
  {
    hide After, Inv, Preps, Comms, IsEnd, Shaped, BatchStart;
    MetHeard(c, id, trace, acc, a, b);
    AlwaysFine(c, id, trace);
    var s := After(c, id, trace);
    FineParts(c, s.node, s.acc, s.hist, s.passed);
    A.InvSlots(c, s.node, s.acc);
    SlotLong(c, s.node, a.k);
    var w := Slot(c, s.node.prep, a.k)[r];
    assert EntryOk(c, w, a.k % c.ring, r);
    if w.txnId != EMPTY {
      HeardEntry(c, id, trace, w.txnId, r);
      assert r in Preps(s.hist, w.txnId);
    }
  }

  // ------------------------------------------------ the scene

  /** A run with each backup's deliveries, batches and votes heard. */
  datatype Scene = Scene(run: seq<A.Action>, ts: seq<seq<Event>>, accs: seq<Accepted>, vs: seq<Votes>)

  ghost predicate Playing(c: Plain, k: nat, hash: Digest, x: Scene) {
    && |x.ts| == |x.accs| == |x.vs| == c.Nodes()
    && Tracks(c, A.Run(c, {0}, x.run), x.ts)
    && forall r: nat :: 0 < r < c.Nodes() ==>
         && x.vs[r].k == k && x.vs[r].hash == hash
         && Met(c, r, x.ts[r], x.accs[r], x.vs[r], Votes(k, hash, {}, {})) && Clean(c, r, x.ts[r])
  }

  ghost function Step(x: Scene, r: nat, e: Event, acc: Accepted, v: Votes): Scene
    requires r < |x.ts| == |x.accs| == |x.vs|
  {
    Scene(x.run + [A.Action(r, e)], x.ts[r := x.ts[r] + [e]], x.accs[r := acc], x.vs[r := v])
  }

  lemma Plays(c: Plain, k: nat, hash: Digest, x: Scene, r: nat, e: Event, acc: Accepted, v: Votes)
    requires Playing(c, k, hash, x) && 0 < r < c.Nodes() && v.k == k && v.hash == hash
    requires var u := After(c, r, x.ts[r]);
             u.Up? && Orderly(c, u.node, u.acc, u.hist, e) && A.Genuine(c, {0}, A.OutsOf(A.Run(c, {0}, x.run)), u.node, e)
    requires Met(c, r, x.ts[r] + [e], acc, v, Votes(k, hash, {}, {})) && Clean(c, r, x.ts[r] + [e])
    ensures Playing(c, k, hash, Step(x, r, e, acc, v))
  {
    hide After, Met, Clean, A.Run, Tracks, Orderly, A.Genuine;
    assert After(c, r, x.ts[r] + [e]).Up? by { CleanUp(c, r, x.ts[r] + [e]); }
    Advance(c, x.run, x.ts, r, e);
  }

  lemma CleanUp(c: Plain, id: nat, trace: seq<Event>)
    requires id < c.Nodes() && Clean(c, id, trace)
    ensures After(c, id, trace).Up?
  {
    hide After;
  }

  lemma Curtain(c: Plain, k: nat, hash: Digest) returns (x: Scene)
    requires c.f == 1 && c.primary == 0 && IsEnd(c, k) && k < c.ring
    ensures Playing(c, k, hash, x) && x.accs == [map[], map[], map[], map[]]
    ensures x.vs == seq(4, _ => Votes(k, hash, {}, {}))
  {
    hide Met, Clean, Boot;
    var v := Votes(k, hash, {}, {});
    x := Scene([], [[], [], [], []], [map[], map[], map[], map[]], seq(4, _ => v));
    forall r: nat | 0 < r < 4 ensures Met(c, r, [], map[], v, v) && Clean(c, r, []) {
      MetNothing(c, r, v, v);
    }
  }

  /** The lying primary hands backup r a batch. */
  lemma Hand(c: Plain, k: nat, hash: Digest, x: Scene, r: nat, q: Batch) returns (y: Scene)
    requires Playing(c, k, hash, x) && 0 < r < c.Nodes() && c.primary == 0
    requires GoodHashes(c, q) && LastId(q) == k && k < c.ring && LastHash(c, q) == hash
    requires x.accs[r] == map[] && x.vs[r] == Votes(k, hash, {}, {})
    ensures Playing(c, k, hash, y) && y.accs == x.accs[r := map[k := q]] && y.vs == x.vs
  {
    hide After, Clean, A.Run, Shaped, IsEnd, OneVote, Preps, Comms, Tracks, Young;
    P.GoodShaped(c, q);
    var e := BatchArrives(q);
    MetBatch(c, r, x.ts[r], map[], x.vs[r], x.vs[r], q);
    assert map[][k := q] == map[k := q];
    YoungUp(c, r, After(c, r, x.ts[r]));
    FreshOrderly(c, r, After(c, r, x.ts[r]), e);
    Plays(c, k, hash, x, r, e, map[k := q], x.vs[r]);
    y := Step(x, r, e, map[k := q], x.vs[r]);
  }

  /** Backup p's prepare reaches backup r. */
  lemma PassPrepare(c: Plain, k: nat, hash: Digest, x: Scene, r: nat, p: nat) returns (y: Scene)
    requires Playing(c, k, hash, x) && 0 < r < c.Nodes() && 0 < p < c.Nodes() && p != r && c.primary == 0
    requires k in x.accs[p] && p !in x.vs[r].preps && |x.vs[r].comms| <= 2 * c.f
    ensures Playing(c, k, hash, y) && y.accs == x.accs && y.vs == x.vs[r := x.vs[r].(preps := x.vs[r].preps + {p})]
  {
    hide After, Clean, A.Run, Shaped, IsEnd, OneVote, Preps, Comms, VoteFor, Young, GoodVote;
    var b := Votes(k, hash, {}, {});
    var v := VoteFor(c, k, hash, p);
    var e := PrepArrives(v);
    var s, u := A.Run(c, {0}, x.run), After(c, r, x.ts[r]);
    assert Met(c, r, x.ts[r], x.accs[r], x.vs[r], b) && Met(c, p, x.ts[p], x.accs[p], x.vs[p], b);
    MetPrep(c, r, x.ts[r], x.accs[r], x.vs[r], b, p);
    SentVotes(c, p, x.ts[p], x.accs[p], x.vs[p], b);
    NothingLater(c, r, x.ts[r], x.accs[r], x.vs[r], b, p);
    VoteForGood(c, k, hash, p);
    YoungUp(c, r, u);
    FreshOrderly(c, r, u, e);
    OrderlyShaped(c, u.node, u.acc, u.hist, e);
    assert A.SentBy(A.OutsOf(s), r, u.node.out, p, Prepare(v));
    GenuinePrep(c, A.OutsOf(s), u.node, v);
    Plays(c, k, hash, x, r, e, x.accs[r], x.vs[r].(preps := x.vs[r].preps + {p}));
    y := Step(x, r, e, x.accs[r], x.vs[r].(preps := x.vs[r].preps + {p}));
  }

  lemma GenuinePrep(c: Plain, outs: A.Outs, n: Node, v: Vote)
    requires Shaped(c, n) && v.sender < c.Nodes() && v.sender != n.id && v.txnId == v.endIndex
    requires A.SentBy(outs, n.id, n.out, v.sender, Prepare(v))
    requires var row := Slot(c, n.prep, v.txnId); v.sender < |row| && (row[v.sender].txnId == EMPTY || row[v.sender].txnId <= v.txnId)
    ensures A.Genuine(c, {0}, outs, n, PrepArrives(v))
  {
  }

  /** The commit of backup p, which has both prepares, or of the primary reaches backup r. */
  lemma PassCommit(c: Plain, k: nat, hash: Digest, x: Scene, r: nat, p: nat) returns (y: Scene)
    requires Playing(c, k, hash, x) && 0 < r < c.Nodes() && p < c.Nodes() && p != r && c.primary == 0
    requires p == 0 || (k in x.accs[p] && 2 * c.f <= |x.vs[p].preps|)
    requires p !in x.vs[r].comms && 2 * c.f <= |x.vs[r].preps|
    ensures Playing(c, k, hash, y) && y.accs == x.accs && y.vs == x.vs[r := x.vs[r].(comms := x.vs[r].comms + {p})]
  {
    hide After, Clean, A.Run, Shaped, IsEnd, OneVote, Preps, Comms, VoteFor, Young, GoodVote;
    var b := Votes(k, hash, {}, {});
    var v := VoteFor(c, k, hash, p);
    var e := CommitArrives(v);
    var s, u := A.Run(c, {0}, x.run), After(c, r, x.ts[r]);
    assert Met(c, r, x.ts[r], x.accs[r], x.vs[r], b);
    MetCommit(c, r, x.ts[r], x.accs[r], x.vs[r], b, p);
    VoteForGood(c, k, hash, p);
    YoungUp(c, r, u);
    FreshOrderly(c, r, u, e);
    OrderlyShaped(c, u.node, u.acc, u.hist, e);
    if p != 0 {
      assert Met(c, p, x.ts[p], x.accs[p], x.vs[p], b);
      SentVotes(c, p, x.ts[p], x.accs[p], x.vs[p], b);
      assert A.SentBy(A.OutsOf(s), r, u.node.out, p, Commit(v));
    }
    Plays(c, k, hash, x, r, e, x.accs[r], x.vs[r].(comms := x.vs[r].comms + {p}));
    y := Step(x, r, e, x.accs[r], x.vs[r].(comms := x.vs[r].comms + {p}));
  }

  // ------------------------------------------------ running the batch

  /** A log that reaches the end of the first batch is that batch's requests. */
  lemma FirstLog(c: Plain, n: Node, q: Batch)
    requires q.index != [] && LastId(q) == c.batch - 1 && Inv(c, n, map[LastId(q) := q]) && n.next == c.batch
    ensures n.log == L.Requests(q.reqs)
  {
    hide Inv, L.Requests, LogOf, AcceptedOk;
    var acc: Accepted := map[LastId(q) := q];
    L.LogShape(c, n, acc);
    AllRequests(c, q, acc);
    L.LogOfBatch(c, acc, LastId(q), c.batch);
    assert LastId(q) + 1 - c.batch + c.batch == c.batch;
  }

  lemma AllRequests(c: Plain, q: Batch, acc: Accepted)
    requires AcceptedOk(c, acc) && q.index != [] && LastId(q) in acc && acc[LastId(q)] == q
    ensures L.Requests(q.reqs)[..c.batch] == L.Requests(q.reqs) && LogOf(c, acc, 0) == [] && |q.reqs| == c.batch
  {
  }

  /** The first batch, once queued, runs, and the log is its requests. */
  lemma RunsBatch(c: Plain, id: nat, trace: seq<Event>, q: Batch, a: Votes, b: Votes)
    requires id < c.Nodes() && q.index != [] && LastId(q) == c.batch - 1 && a.k == LastId(q)
    requires Met(c, id, trace, map[LastId(q) := q], a, b) && Clean(c, id, trace)
    requires 2 * c.f <= |a.preps| && 2 * c.f + 1 <= |a.comms|
    ensures 0 < LastId(q) && After(c, id, trace).Up?
    ensures var s, e := After(c, id, trace), RunExec(ExecOf(c, LastId(q)));
            && Orderly(c, s.node, s.acc, s.hist, e)
            && After(c, id, trace + [e]).Up? && After(c, id, trace + [e]).node.log == L.Requests(q.reqs)
  {
    hide Met, Clean, After, Fine, Shaped, Queued, Inv, IsEnd, ProcessExecute, ExecOf;
    var k := LastId(q);
    MetHeard(c, id, trace, map[k := q], a, b);
    MetQueued(c, id, trace, map[k := q], a, b);
    var s := After(c, id, trace);
    ExecIndex(c, k);
    QueuedMsg(c, s.node.out, k);
    var x := ExecOf(c, k);
    RunsInOrderOnly(c, id, trace, x);
    AfterOne(c, id, trace, RunExec(x));
    AlwaysFine(c, id, trace);
    AlwaysFine(c, id, trace + [RunExec(x)]);
    FineParts(c, s.node, s.acc, s.hist, s.passed);
    var t := After(c, id, trace + [RunExec(x)]);
    FineParts(c, t.node, t.acc, t.hist, t.passed);
    P.RunExecInv(c, s.node, s.acc, x);
    FirstLog(c, t.node, q);
  }

  /** Node r runs the first batch in the cluster. */
  lemma Runs(c: Plain, run: seq<A.Action>, ts: seq<seq<Event>>, r: nat, q: Batch, a: Votes, b: Votes) returns (e: Event)
    requires Tracks(c, A.Run(c, {0}, run), ts) && 0 < r < c.Nodes()
    requires q.index != [] && LastId(q) == c.batch - 1 && a.k == LastId(q)
    requires Met(c, r, ts[r], map[LastId(q) := q], a, b) && Clean(c, r, ts[r])
    requires 2 * c.f <= |a.preps| && 2 * c.f + 1 <= |a.comms|
    ensures Tracks(c, A.Run(c, {0}, run + [A.Action(r, e)]), ts[r := ts[r] + [e]])
    ensures A.Run(c, {0}, run + [A.Action(r, e)]).nodes[r].log == L.Requests(q.reqs)
  {
    hide Met, Clean, After, A.Run, Orderly, L.Requests;
    RunsBatch(c, r, ts[r], q, a, b);
    e := RunExec(ExecOf(c, LastId(q)));
    var u := After(c, r, ts[r]);
    OrderlyShaped(c, u.node, u.acc, u.hist, e);
    Advance(c, run, ts, r, e);
  }

  lemma OthersStay(c: Plain, run: seq<A.Action>, r: nat, e: Event, i: nat)
    requires i < c.Nodes() && i != r
    ensures A.Run(c, {0}, run + [A.Action(r, e)]).nodes[i] == A.Run(c, {0}, run).nodes[i]
  {
    hide Handle, A.Delivers, Shaped;
    assert (run + [A.Action(r, e)])[..|run|] == run;
  }

  // ------------------------------------------------ the play

  /** Three backups hand each other their prepares. */
  lemma AllPrepares(c: Plain, k: nat, hash: Digest, x: Scene) returns (y: Scene)
    requires c.f == 1 && c.primary == 0 && Playing(c, k, hash, x) && x.vs == seq(4, _ => Votes(k, hash, {}, {}))
    requires k in x.accs[1] && k in x.accs[2] && k in x.accs[3]
    ensures Playing(c, k, hash, y) && y.accs == x.accs
    ensures y.vs[1] == Votes(k, hash, {2, 3}, {}) && y.vs[2] == Votes(k, hash, {1, 3}, {}) && y.vs[3] == Votes(k, hash, {1, 2}, {})
  {
    hide Playing;
    assert |x.accs| == 4 by { Lengths(c, k, hash, x); }
    y := PassPrepare(c, k, hash, x, 1, 2);
    y := PassPrepare(c, k, hash, y, 1, 3);
    y := PassPrepare(c, k, hash, y, 2, 1);
    y := PassPrepare(c, k, hash, y, 2, 3);
    y := PassPrepare(c, k, hash, y, 3, 1);
    y := PassPrepare(c, k, hash, y, 3, 2);
    SumsOfSets();
  }

  lemma Lengths(c: Plain, k: nat, hash: Digest, x: Scene)
    requires Playing(c, k, hash, x)
    ensures |x.ts| == |x.accs| == |x.vs| == c.Nodes()
  {
  }

  /** Backups 1 and 2 get everybody's commits. */
  lemma AllCommits(c: Plain, k: nat, hash: Digest, x: Scene) returns (y: Scene)
    requires c.f == 1 && c.primary == 0 && Playing(c, k, hash, x) && |x.vs| == |x.accs| == 4
    requires k in x.accs[1] && k in x.accs[2] && k in x.accs[3]
    requires x.vs[1] == Votes(k, hash, {2, 3}, {}) && x.vs[2] == Votes(k, hash, {1, 3}, {}) && x.vs[3] == Votes(k, hash, {1, 2}, {})
    ensures Playing(c, k, hash, y) && y.accs == x.accs
    ensures y.vs[1] == Votes(k, hash, {2, 3}, {0, 2, 3}) && y.vs[2] == Votes(k, hash, {1, 3}, {0, 1, 3})
  {
    hide Playing;
    assert |{2, 3}| == 2 && |{1, 3}| == 2 && |{1, 2}| == 2;
    y := PassCommit(c, k, hash, x, 1, 0);
    y := PassCommit(c, k, hash, y, 1, 2);
    y := PassCommit(c, k, hash, y, 1, 3);
    y := PassCommit(c, k, hash, y, 2, 0);
    y := PassCommit(c, k, hash, y, 2, 1);
    y := PassCommit(c, k, hash, y, 2, 3);
    SumsOfSets();
  }

  /** Four nodes of which only the primary is faulty, and two batches that end alike
      and begin differently: one run in which backups 1 and 2 each execute one of
      them, so that their logs part company at the first request. */
  lemma SameVotesDifferentLogs(c: Plain, q1: Batch, q2: Batch) returns (run: seq<A.Action>)
    requires c.f == 1 && c.primary == 0 && GoodHashes(c, q1) && GoodHashes(c, q2)
    requires LastId(q1) == LastId(q2) == c.batch - 1 && LastHash(c, q1) == LastHash(c, q2) && q1.hash[0] != q2.hash[0]
    ensures var s := A.Run(c, {0}, run);
            && s.nodes[1].log == L.Requests(q1.reqs) && s.nodes[2].log == L.Requests(q2.reqs)
            && !G.Comparable(G.Texts(s.nodes[1].log), G.Texts(s.nodes[2].log))
  {
    hide Playing, A.Run, Tracks, L.Requests, GoodBatch, GoodHashes;
    assert GoodBatch(c, q1) && GoodBatch(c, q2) by { HashesGood(c, q1); HashesGood(c, q2); }
    P.GoodShaped(c, q1);
    P.GoodShaped(c, q2);
    var k, hash := LastId(q1), LastHash(c, q1);
    var x := Curtain(c, k, hash);
    x := Hand(c, k, hash, x, 1, q1);
    x := Hand(c, k, hash, x, 2, q2);
    x := Hand(c, k, hash, x, 3, q1);
    x := AllPrepares(c, k, hash, x);
    Lengths(c, k, hash, x);
    x := AllCommits(c, k, hash, x);
    Lengths(c, k, hash, x);
    assert |{2, 3}| == 2 && |{1, 3}| == 2 && |{0, 2, 3}| == 3 && |{0, 1, 3}| == 3;
    PlayingAt(c, k, hash, x, 1);
    PlayingAt(c, k, hash, x, 2);
    var e1 := Runs(c, x.run, x.ts, 1, q1, x.vs[1], Votes(k, hash, {}, {}));
    var more := x.run + [A.Action(1, e1)];
    var e2 := Runs(c, more, x.ts[1 := x.ts[1] + [e1]], 2, q2, x.vs[2], Votes(k, hash, {}, {}));
    OthersStay(c, more, 2, e2, 1);
    run := more + [A.Action(2, e2)];
    Parted(c, q1, q2);
  }

  lemma HashesGood(c: Plain, q: Batch)
    requires GoodHashes(c, q)
    ensures GoodBatch(c, q)
  {
    hide GoodBatch;
  }

  lemma PlayingAt(c: Plain, k: nat, hash: Digest, x: Scene, r: nat)
    requires Playing(c, k, hash, x) && 0 < r < c.Nodes()
    ensures |x.ts| == |x.accs| == |x.vs| == c.Nodes() && Tracks(c, A.Run(c, {0}, x.run), x.ts)
    ensures Met(c, r, x.ts[r], x.accs[r], x.vs[r], Votes(k, hash, {}, {})) && Clean(c, r, x.ts[r])
  {
    hide Met, Clean, Tracks;
  }

  lemma Parted(c: Plain, q1: Batch, q2: Batch)
    requires GoodHashes(c, q1) && GoodHashes(c, q2) && q1.hash[0] != q2.hash[0]
    ensures !G.Comparable(G.Texts(L.Requests(q1.reqs)), G.Texts(L.Requests(q2.reqs)))
  {
    var a, b := G.Texts(L.Requests(q1.reqs)), G.Texts(L.Requests(q2.reqs));
    assert a[0] == q1.hash[0] && b[0] == q2.hash[0];
  }
}
