/** Concrete orders of arrival at one backup of four that stall it or stop it. */
module DeliveryExamples {
  import opened Arith
  import opened Protocol
  import opened Invariant
  import opened Quorum
  import opened Delivery
  import opened DeliveryRuns
  import opened DeliveryCases
  import A = Agreement
  import P = Preserve

  // ------------------------------------------------ a backup that has run nothing yet

  /** Nothing run, and no vote met for a batch beyond the first ring. */
  ghost predicate Young(c: Plain, id: nat, s: Site) {
    && s.Up? && Shaped(c, s.node) && s.node.id == id && s.node.next == 0
    && forall j: nat :: c.ring <= j ==> Preps(s.hist, j) == {} && Comms(s.hist, j) == {}
  }

  /** A message such a backup may meet. */
  ghost predicate Fresh(c: Plain, id: nat, s: Site, e: Event)
    requires s.Up?
  {
    match e
    case BatchArrives(b) => GoodBatch(c, b) && LastId(b) < c.ring && LastId(b) !in s.acc
    case PrepArrives(v) => GoodVote(c, v) && v.txnId < c.ring && v.sender != id && v.sender !in Preps(s.hist, v.txnId)
    case CommitArrives(v) => GoodVote(c, v) && v.txnId < c.ring && v.sender != id && v.sender !in Comms(s.hist, v.txnId)
    case _ => false
  }

  lemma FreshOrderly(c: Plain, id: nat, s: Site, e: Event)
    requires id != c.primary && Young(c, id, s) && Fresh(c, id, s, e)
    ensures Orderly(c, s.node, s.acc, s.hist, e)
  {
    hide Shaped, Preps, Comms, BatchStart, IsEnd;
    if e.BatchArrives? { P.GoodShaped(c, e.batch); }
    if e.PrepArrives? || e.CommitArrives? { InOrderYoung(c, id, s, e.vote.sender, e.vote.txnId); }
  }

  lemma InOrderYoung(c: Plain, id: nat, s: Site, r: nat, k: nat)
    requires Young(c, id, s) && k < c.ring
    ensures InOrder(c, s.hist, r, k)
  {
    hide Shaped, Preps, Comms;
    forall j: nat | k < j && j % c.ring == k % c.ring ensures c.ring <= j {
      SameSlot(k, j, c.ring);
    }
  }

  /** Only an execution moves the next index. */
  lemma NextKept(c: Plain, s: Site, e: Event)
    requires s.Up? && Fine(c, s.node, s.acc, s.hist, s.passed) && Orderly(c, s.node, s.acc, s.hist, e)
    requires e.BatchArrives? || e.PrepArrives? || e.CommitArrives?
    ensures var t := Deliver(c, s, e); t.Up? ==> t.node.next == s.node.next
  {
    hide Fine, Stored, Shaped, Queued, OnlyAt, ProcessBatch, ProcessPrep, ProcessCommit, A.Windowed, Preps, Comms, GoodVote, GoodBatch, IsEnd,
         FatalPrep, FatalCommit, FatalBatch;
    var n, acc, h := s.node, s.acc, s.hist;
    SubjectEnds(c, n, acc, h, e);
    var k := Subject(c, e);
    FlagsAt(c, n, acc, h, s.passed, k);
    match e
    case BatchArrives(b) => BatchStep(c, n, acc, h, b);
    case PrepArrives(v) => PrepStep(c, n, acc, h, v);
    case CommitArrives(v) => CommitStep(c, n, acc, h, v);
  }

  lemma SubjectEnds(c: Plain, n: Node, acc: Accepted, h: Hist, e: Event)
    requires Orderly(c, n, acc, h, e) && (e.BatchArrives? || e.PrepArrives? || e.CommitArrives?)
    ensures EventShaped(c, e) && IsEnd(c, Subject(c, e))
  {
    hide Shaped, BatchStart;
  }

  lemma YoungStep(c: Plain, id: nat, trace: seq<Event>, e: Event)
    requires id < c.Nodes() && id != c.primary
    requires var s := After(c, id, trace); Young(c, id, s) && Fresh(c, id, s, e)
    ensures EventShaped(c, e)
    ensures var s, t := After(c, id, trace), After(c, id, trace + [e]);
            if Fatal(c, s.node, s.acc, s.hist, e) then t.Down?
            else Young(c, id, t) && t.acc == Grow(c, s.acc, e) && t.hist == Heard(s.hist, e)
                 && t.passed == Passed(c, t.acc, t.hist, s.passed, Subject(c, e))
  {
    hide Orderly, Fatal, FineSite, After, Shaped, Preps, Comms, Fresh, Passed, Grow, EventShaped, Subject;
    var s, t := After(c, id, trace), After(c, id, trace + [e]);
    FreshOrderly(c, id, s, e);
    OrderlyShaped(c, s.node, s.acc, s.hist, e);
    FailsExactlyWhen(c, id, trace, e);
    AfterOne(c, id, trace, e);
    AlwaysFine(c, id, trace);
    if t.Up? {
      FineIs(c, s);
      FreshKind(c, id, s, e);
      NextKept(c, s, e);
      IdKept(c, id, trace + [e]);
      A.HandleAfter(c, s.node, e);
      HeardYoung(c, id, s, e);
    }
  }

  lemma FineIs(c: Plain, s: Site)
    requires s.Up? && FineSite(c, s)
    ensures Fine(c, s.node, s.acc, s.hist, s.passed)
  {
    hide Fine;
  }

  lemma FreshKind(c: Plain, id: nat, s: Site, e: Event)
    requires s.Up? && Fresh(c, id, s, e)
    ensures e.BatchArrives? || e.PrepArrives? || e.CommitArrives?
  {
  }

  lemma HeardYoung(c: Plain, id: nat, s: Site, e: Event)
    requires Young(c, id, s) && Fresh(c, id, s, e)
    ensures forall j: nat :: c.ring <= j ==> Preps(Heard(s.hist, e), j) == {} && Comms(Heard(s.hist, e), j) == {}
  {
    hide Shaped, GoodVote, GoodBatch;
    forall j: nat | c.ring <= j
      ensures Preps(Heard(s.hist, e), j) == Preps(s.hist, j) && Comms(Heard(s.hist, e), j) == Comms(s.hist, j)
    {
    }
  }

  // ------------------------------------------------ votes for two batches

  /** What has come for one batch: the senders of its prepares and commits, all with
      the digest given. */
  datatype Votes = Votes(k: nat, hash: Digest, preps: set<nat>, comms: set<nat>)

  ghost predicate For(c: Plain, acc: Accepted, a: Votes) {
    IsEnd(c, a.k) && a.k < c.ring && (a.k in acc ==> DigestAt(c, acc, a.k) == a.hash)
  }

  /** Backup id has these batches, has run nothing, and has heard exactly this. */
  ghost predicate Met(c: Plain, id: nat, trace: seq<Event>, acc: Accepted, a: Votes, b: Votes)
    requires id < c.Nodes()
  {
    var s := After(c, id, trace);
    && Young(c, id, s) && s.acc == acc
    && For(c, acc, a) && For(c, acc, b) && (a.k == b.k ==> a.hash == b.hash)
    && OneVote(c, trace, a.k, a.hash) && OneVote(c, trace, b.k, b.hash)
    && (forall j: nat :: Preps(s.hist, j) == if j == a.k then a.preps else if j == b.k then b.preps else {})
    && (forall j: nat :: Comms(s.hist, j) == if j == a.k then a.comms else if j == b.k then b.comms else {})
  }

  /** No batch has been overtaken. */
  ghost predicate Clean(c: Plain, id: nat, trace: seq<Event>)
    requires id < c.Nodes()
  {
    var s := After(c, id, trace); s.Up? && s.passed == {}
  }

  lemma MetNothing(c: Plain, id: nat, a: Votes, b: Votes)
    requires id < c.Nodes() && For(c, map[], a) && For(c, map[], b) && a.preps == a.comms == b.preps == b.comms == {}
    requires a.k == b.k ==> a.hash == b.hash
    ensures Met(c, id, [], map[], a, b) && Clean(c, id, [])
  {
    hide IsEnd;
  }

  lemma MetSwap(c: Plain, id: nat, trace: seq<Event>, acc: Accepted, a: Votes, b: Votes)
    requires id < c.Nodes() && Met(c, id, trace, acc, a, b) && a.k != b.k
    ensures Met(c, id, trace, acc, b, a)
  {
    hide After, Young, For, OneVote, Preps, Comms;
  }

  lemma OneVoteMore(c: Plain, trace: seq<Event>, e: Event, k: nat, hash: Digest)
    requires OneVote(c, trace, k, hash)
    requires (e.PrepArrives? || e.CommitArrives?) && e.vote.txnId == k ==> e.vote.hash == hash && e.vote.view == c.primary
    ensures OneVote(c, trace + [e], k, hash)
  {
  }

  ghost predicate GoodHashes(c: Plain, b: Batch) {
    GoodBatch(c, b) && b.view == c.primary && forall i :: 0 <= i < c.batch ==> b.hash[i] == DigestOf(b.reqs[i].req)
  }

  lemma VoteForGood(c: Plain, k: nat, hash: Digest, r: nat)
    requires IsEnd(c, k) && r < c.Nodes()
    ensures var v := VoteFor(c, k, hash, r); GoodVote(c, v) && v.txnId == k && v.endIndex == k && v.hash == hash && v.sender == r && v.view == c.primary
  {
  }

  lemma MetBatch(c: Plain, id: nat, trace: seq<Event>, acc: Accepted, a: Votes, b: Votes, q: Batch)
    requires id < c.Nodes() && id != c.primary && Met(c, id, trace, acc, a, b)
    requires GoodHashes(c, q) && LastId(q) == a.k && a.k !in acc && LastHash(c, q) == a.hash
    requires |a.preps| < 2 * c.f && |a.comms| <= 2 * c.f
    ensures Met(c, id, trace + [BatchArrives(q)], acc[a.k := q], a, b)
    ensures Clean(c, id, trace) ==> Clean(c, id, trace + [BatchArrives(q)])
  {
    hide Young, After, IsEnd, Preps, Comms, OneVote, Put, Slot, Clash;
    var e := BatchArrives(q);
    P.GoodShaped(c, q);
    YoungUp(c, id, After(c, id, trace));
    YoungStep(c, id, trace, e);
    var s := After(c, id, trace);
    assert Preps(s.hist, a.k) == a.preps && Comms(s.hist, a.k) == a.comms;
    assert !FatalBatch(c, s.node, s.hist, q);
    OneVoteMore(c, trace, e, a.k, a.hash);
    OneVoteMore(c, trace, e, b.k, b.hash);
    var t := After(c, id, trace + [e]);
    YoungUp(c, id, t);
    assert t.hist == s.hist && t.passed == s.passed;
    assert For(c, t.acc, a) && For(c, t.acc, b);
  }

  lemma HeardVote(c: Plain, h: Hist, v: Vote)
    ensures var p, q := Heard(h, PrepArrives(v)), Heard(h, CommitArrives(v));
            && (forall j: nat :: Preps(p, j) == if j == v.txnId then Preps(h, j) + {v.sender} else Preps(h, j))
            && (forall j: nat :: Comms(p, j) == Comms(h, j))
            && (forall j: nat :: Comms(q, j) == if j == v.txnId then Comms(h, j) + {v.sender} else Comms(h, j))
            && (forall j: nat :: Preps(q, j) == Preps(h, j))
  {
  }

  lemma MetPrep(c: Plain, id: nat, trace: seq<Event>, acc: Accepted, a: Votes, b: Votes, r: nat)
    requires id < c.Nodes() && id != c.primary && Met(c, id, trace, acc, a, b)
    requires r < c.Nodes() && r != id && r !in a.preps
    ensures Met(c, id, trace + [PrepArrives(VoteFor(c, a.k, a.hash, r))], acc, a.(preps := a.preps + {r}), b)
    ensures Clean(c, id, trace) && |a.comms| <= 2 * c.f ==> Clean(c, id, trace + [PrepArrives(VoteFor(c, a.k, a.hash, r))])
  {
    hide Young, After, IsEnd, Preps, Comms, OneVote, Heard, VoteFor, GoodVote;
    var v := VoteFor(c, a.k, a.hash, r);
    var e := PrepArrives(v);
    VoteForGood(c, a.k, a.hash, r);
    YoungStep(c, id, trace, e);
    YoungUp(c, id, After(c, id, trace));
    HeardVote(c, After(c, id, trace).hist, v);
    OneVoteMore(c, trace, e, a.k, a.hash);
    OneVoteMore(c, trace, e, b.k, b.hash);
    YoungUp(c, id, After(c, id, trace + [e]));
  }

  lemma CommitHarmless(c: Plain, id: nat, trace: seq<Event>, acc: Accepted, a: Votes, b: Votes, r: nat)
    requires id < c.Nodes() && Met(c, id, trace, acc, a, b) && r < c.Nodes()
    ensures var s := After(c, id, trace); !FatalCommit(c, s.node, s.acc, s.hist, VoteFor(c, a.k, a.hash, r))
  {
    hide Young, After, IsEnd, Preps, Comms, Put, Slot, Clash, VoteFor, GoodVote;
    VoteForGood(c, a.k, a.hash, r);
    assert After(c, id, trace).Up? by { YoungUp(c, id, After(c, id, trace)); }
    IsEndBelow(c, a.k);
    OneDigestNoClash(c, id, trace, a.k, a.hash, VoteFor(c, a.k, a.hash, r));
  }

  lemma YoungUp(c: Plain, id: nat, s: Site)
    requires Young(c, id, s)
    ensures s.Up? && Shaped(c, s.node) && s.node.id == id && s.node.next == 0
  {
  }

  lemma IsEndBelow(c: Plain, k: nat)
    requires IsEnd(c, k)
    ensures k != EMPTY
  {
  }

  lemma MetCommit(c: Plain, id: nat, trace: seq<Event>, acc: Accepted, a: Votes, b: Votes, r: nat)
    requires id < c.Nodes() && id != c.primary && Met(c, id, trace, acc, a, b)
    requires r < c.Nodes() && r != id && r !in a.comms
    ensures Met(c, id, trace + [CommitArrives(VoteFor(c, a.k, a.hash, r))], acc, a.(comms := a.comms + {r}), b)
    ensures Clean(c, id, trace) && (|a.comms| + 1 <= 2 * c.f || 2 * c.f <= |a.preps|)
            ==> Clean(c, id, trace + [CommitArrives(VoteFor(c, a.k, a.hash, r))])
  {
    hide Young, After, IsEnd, Preps, Comms, OneVote, Heard, VoteFor, GoodVote, FatalCommit;
    var v := VoteFor(c, a.k, a.hash, r);
    var e := CommitArrives(v);
    VoteForGood(c, a.k, a.hash, r);
    YoungStep(c, id, trace, e);
    CommitHarmless(c, id, trace, acc, a, b, r);
    YoungUp(c, id, After(c, id, trace));
    HeardVote(c, After(c, id, trace).hist, v);
    OneVoteMore(c, trace, e, a.k, a.hash);
    OneVoteMore(c, trace, e, b.k, b.hash);
    YoungUp(c, id, After(c, id, trace + [e]));
  }

  lemma MetHeard(c: Plain, id: nat, trace: seq<Event>, acc: Accepted, a: Votes, b: Votes)
    requires id < c.Nodes() && Met(c, id, trace, acc, a, b)
    ensures var s := After(c, id, trace);
            && s.Up? && Shaped(c, s.node) && s.node.id == id && s.node.next == 0 && s.acc == acc
            && Preps(s.hist, a.k) == a.preps && Comms(s.hist, a.k) == a.comms && IsEnd(c, a.k)
            && (a.k in acc && 2 * c.f + 1 <= |a.comms| && |a.preps| < 2 * c.f ==> Overtaken(c, s.acc, s.hist, a.k))
  {
    hide After, Preps, Comms, IsEnd;
  }

  lemma SumsOfSets()
    ensures forall a: set<nat> :: a + {} == a && {} + a == a
    ensures forall a: nat, b: nat :: {a} + {b} == {a, b}
    ensures forall a: nat, b: nat, x: nat :: {a, b} + {x} == {a, b, x}
  {
  }

  /** The batch has come and the votes for it have not. */
  lemma FirstBatch(c: Plain, id: nat, q: Batch)
    requires id < c.Nodes() && id != c.primary && GoodHashes(c, q) && LastId(q) < c.ring
    ensures var a := Votes(LastId(q), LastHash(c, q), {}, {}); Met(c, id, [BatchArrives(q)], map[LastId(q) := q], a, a)
    ensures Clean(c, id, [BatchArrives(q)])
  {
    hide Met, Clean;
    P.GoodShaped(c, q);
    var a := Votes(LastId(q), LastHash(c, q), {}, {});
    assert For(c, map[], a);
    MetNothing(c, id, a, a);
    MetBatch(c, id, [], map[], a, a, q);
    assert [] + [BatchArrives(q)] == [BatchArrives(q)];
    assert map[][LastId(q) := q] == map[LastId(q) := q];
  }

  ghost function PrepOf(c: Plain, a: Votes, r: nat): Event { PrepArrives(VoteFor(c, a.k, a.hash, r)) }
  ghost function CommOf(c: Plain, a: Votes, r: nat): Event { CommitArrives(VoteFor(c, a.k, a.hash, r)) }

  /** One backup of four, handed the others' prepares and then everybody's commits. */
  lemma Fill(c: Plain, id: nat, p: nat, q: nat, trace: seq<Event>, acc: Accepted, a: Votes, b: Votes) returns (full: seq<Event>)
    requires c.f == 1 && c.primary == 0 && 1 <= id <= 3 && 1 <= p <= 3 && 1 <= q <= 3 && id != p && id != q && p != q
    requires Met(c, id, trace, acc, a, b) && Clean(c, id, trace) && a.preps == a.comms == {}
    ensures Met(c, id, full, acc, a.(preps := {p, q}, comms := {0, p, q}), b) && Clean(c, id, full)
  {
    hide Met, Clean, VoteFor;
    SumsOfSets();
    assert |{p, q}| == 2 && |{0, p}| == 2;
    MetPrep(c, id, trace, acc, a, b, p);
    var t1, a1 := trace + [PrepOf(c, a, p)], a.(preps := {p});
    MetPrep(c, id, t1, acc, a1, b, q);
    var t2, a2 := t1 + [PrepOf(c, a1, q)], a1.(preps := {p, q});
    MetCommit(c, id, t2, acc, a2, b, 0);
    var t3, a3 := t2 + [CommOf(c, a2, 0)], a2.(comms := {0});
    MetCommit(c, id, t3, acc, a3, b, p);
    var t4, a4 := t3 + [CommOf(c, a3, p)], a3.(comms := {0, p});
    MetCommit(c, id, t4, acc, a4, b, q);
    full := t4 + [CommOf(c, a4, q)];
    assert {0, p} + {q} == {0, p, q};
  }

  /** With both quorums heard and nothing overtaken the batch is queued. */
  lemma MetQueued(c: Plain, id: nat, trace: seq<Event>, acc: Accepted, a: Votes, b: Votes)
    requires id < c.Nodes() && Met(c, id, trace, acc, a, b) && Clean(c, id, trace) && a.k in acc
    ensures After(c, id, trace).Up?
    ensures Queued(c, After(c, id, trace).node.out, a.k) <==> 2 * c.f <= |a.preps| && 2 * c.f + 1 <= |a.comms|
  {
    hide Met, After, Fine, Stored, Queued, IsEnd, Preps, Comms;
    MetHeard(c, id, trace, acc, a, b);
    AlwaysFine(c, id, trace);
    var s := After(c, id, trace);
    FlagsAt(c, s.node, s.acc, s.hist, s.passed, a.k);
  }

  // ------------------------------------------------ four runs

  /** The backup takes the batch, then three commits, then two prepares.  Everything
      has arrived and nothing is executed. */
  lemma CommitsFirstStrand(c: Plain, q: Batch) returns (trace: seq<Event>)
    requires c.f == 1 && c.primary == 0 && GoodHashes(c, q) && LastId(q) < c.ring
    ensures q.index != []
    ensures var s, k := After(c, 1, trace), LastId(q);
            && s.Up? && k in s.acc && Preps(s.hist, k) == {2, 3} && Comms(s.hist, k) == {0, 2, 3}
            && 0 < k && ExecCount(s.node.out, ExecOf(c, k)) == 0
  {
    hide Met, After, Shaped, GoodBatch, IsEnd, Preps, Comms, ExecCount, ExecOf, VoteFor;
    P.GoodShaped(c, q);
    SumsOfSets();
    var acc, a := map[LastId(q) := q], Votes(LastId(q), LastHash(c, q), {}, {});
    FirstBatch(c, 1, q);
    var t0 := [BatchArrives(q)];
    MetCommit(c, 1, t0, acc, a, a, 0);
    var t1, a1 := t0 + [CommOf(c, a, 0)], a.(comms := {0});
    MetCommit(c, 1, t1, acc, a1, a, 2);
    var t2, a2 := t1 + [CommOf(c, a1, 2)], a.(comms := {0, 2});
    MetCommit(c, 1, t2, acc, a2, a, 3);
    var t3, a3 := t2 + [CommOf(c, a2, 3)], a.(comms := {0, 2, 3});
    MetPrep(c, 1, t3, acc, a3, a, 2);
    MetPrep(c, 1, t3 + [PrepOf(c, a3, 2)], acc, a3.(preps := {2}), a, 3);
    trace := t3 + [PrepOf(c, a3, 2)] + [PrepOf(c, a3.(preps := {2}), 3)];
    assert trace == t3 + [PrepOf(c, a, 2), PrepOf(c, a, 3)];
    MetHeard(c, 1, t3, acc, a3, a);
    MetHeard(c, 1, trace, acc, a3.(preps := {2, 3}), a);
    OvertakenStaysStuck(c, 1, t3, [PrepOf(c, a, 2), PrepOf(c, a, 3)], a.k);
    ExecutedExactlyWhen(c, 1, trace, a.k);
  }

  lemma HasFirst(c: Plain, id: nat, trace: seq<Event>, k: nat) returns (q: nat)
    requires id < c.Nodes() && IsEnd(c, k)
    requires var s := After(c, id, trace); s.Up? && s.node.next <= k && 2 * c.f <= |Preps(s.hist, k)|
    ensures FirstTagged(Slot(c, After(c, id, trace).node.prep, k), q, k)
  {
    hide After, Stored, IsEnd, Preps, FirstTagged;
    AlwaysFine(c, id, trace);
    var s := After(c, id, trace);
    FineStored(c, s.node, s.acc, s.hist, s.passed);
    StoredParts(c, s.node, s.acc, s.hist);
    A.RowsHere(c, s.node, k);
    q := ReferenceLive(c, s.node, s.acc, s.hist, k);
  }

  lemma FineStored(c: Plain, n: Node, acc: Accepted, h: Hist, passed: set<nat>)
    requires Fine(c, n, acc, h, passed)
    ensures Stored(c, n, acc, h)
  {
    hide Stored, PassedOk, Flagged;
  }

  /** One commit with another digest: with the batch, both prepares and two commits
      there, it is the third and stops the backup. */
  lemma BadCommitStops(c: Plain, q: Batch, other: Digest) returns (trace: seq<Event>, v: Vote)
    requires c.f == 1 && c.primary == 0 && GoodHashes(c, q) && LastId(q) < c.ring && other != LastHash(c, q)
    ensures v == VoteFor(c, LastId(q), other, 3)
    ensures After(c, 1, trace).Up? && After(c, 1, trace + [CommitArrives(v)]).Down?
    ensures OneVote(c, trace, LastId(q), LastHash(c, q))
  {
    hide Met, After, Shaped, GoodBatch, IsEnd, Preps, Comms, VoteFor, Young, FirstTagged, Slot, OneVote, Uniform;
    P.GoodShaped(c, q);
    SumsOfSets();
    var acc, a := map[LastId(q) := q], Votes(LastId(q), LastHash(c, q), {}, {});
    FirstBatch(c, 1, q);
    var t0 := [BatchArrives(q)];
    MetPrep(c, 1, t0, acc, a, a, 2);
    var t1, a1 := t0 + [PrepOf(c, a, 2)], a.(preps := {2});
    MetPrep(c, 1, t1, acc, a1, a, 3);
    var t2, a2 := t1 + [PrepOf(c, a1, 3)], a.(preps := {2, 3});
    MetCommit(c, 1, t2, acc, a2, a, 0);
    var t3, a3 := t2 + [CommOf(c, a2, 0)], a2.(comms := {0});
    MetCommit(c, 1, t3, acc, a3, a, 2);
    var a4 := a2.(comms := {0, 2});
    trace := t3 + [CommOf(c, a3, 2)];
    v := VoteFor(c, a.k, other, 3);
    MetHeard(c, 1, trace, acc, a4, a);
    VoteForGood(c, a.k, other, 3);
    BadCommitFatal(c, 1, trace, acc, a4, a, v);
  }

  lemma BadCommitFatal(c: Plain, id: nat, trace: seq<Event>, acc: Accepted, a: Votes, b: Votes, v: Vote)
    requires id < c.Nodes() && id != c.primary && Met(c, id, trace, acc, a, b) && a.k in acc
    requires 2 * c.f <= |a.preps| && |a.comms| == 2 * c.f
    requires GoodVote(c, v) && v.txnId == a.k && v.hash != a.hash && v.sender != id && v.sender !in a.comms
    ensures After(c, id, trace).Up? && After(c, id, trace + [CommitArrives(v)]).Down?
    ensures OneVote(c, trace, a.k, a.hash)
  {
    hide After, Shaped, Preps, Comms, Young, Slot, OneVote, BatchStart, IsEnd;
    var s := After(c, id, trace);
    YoungUp(c, id, s);
    YoungStep(c, id, trace, CommitArrives(v));
    assert IsEnd(c, a.k) && a.k != EMPTY by { IsEndBelow(c, a.k); }
    KnownUniform(c, id, trace, a.k, a.hash);
    var q := HasFirst(c, id, trace, a.k);
    assert v.sender < |Slot(c, s.node.comm, a.k)| by { SlotLong(c, s.node, a.k); }
    var row := Put(Slot(c, s.node.comm, a.k), v);
    assert row[v.sender] == v;
    assert Clash(Slot(c, s.node.prep, a.k), row, a.k);
  }

  lemma SlotLong(c: Plain, n: Node, k: nat)
    requires Shaped(c, n)
    ensures |Slot(c, n.prep, k)| == |Slot(c, n.comm, k)| == c.Nodes()
  {
  }

  /** The prepare stored for a sender heard is one that was delivered; a sender not
      heard has none. */
  lemma HeardEntry(c: Plain, id: nat, trace: seq<Event>, k: nat, r: nat)
    requires id < c.Nodes() && IsEnd(c, k) && r < c.Nodes() && r != id
    requires var s := After(c, id, trace); s.Up? && s.node.next <= k
    ensures var s := After(c, id, trace); var row := Slot(c, s.node.prep, k);
            && |row| == c.Nodes()
            && (row[r].txnId == k <==> r in Preps(s.hist, k))
            && (r in Preps(s.hist, k) ==> PrepArrives(row[r]) in trace && row[r].sender == r)
  {
    hide After, Stored, IsEnd, Preps, Inv, Shaped;
    AlwaysFine(c, id, trace);
    AlwaysKnown(c, id, trace);
    IdKept(c, id, trace);
    var s := After(c, id, trace);
    FineStored(c, s.node, s.acc, s.hist, s.passed);
    StoredParts(c, s.node, s.acc, s.hist);
    SlotLong(c, s.node, k);
    StoredRow(c, s.node, s.acc, s.hist, k);
    if r in Preps(s.hist, k) {
      var w := s.node.prep[k % c.ring][r];
      assert KnownPrep(w, s.node.out, trace);
      A.InvSlots(c, s.node, s.acc);
      assert EntryOk(c, w, k % c.ring, r);
      IsEndBelow(c, k);
      if Prepare(w) in s.node.out { SentSelf(c, s.node, s.acc, w); }
    }
  }

  lemma StoredRow(c: Plain, n: Node, acc: Accepted, h: Hist, k: nat)
    requires Stored(c, n, acc, h) && IsEnd(c, k) && n.next <= k
    ensures k % c.ring < |n.prep|
    ensures RowAt(c, n.id, n.prep[k % c.ring], k, Preps(h, k), n.id != c.primary && k in acc)
  {
    hide Inv, Shaped, CommRows, Counted, Installed, HistOk, RowAt, IsEnd;
  }

  lemma SentSelf(c: Plain, n: Node, acc: Accepted, w: Vote)
    requires Inv(c, n, acc) && Prepare(w) in n.out
    ensures w.sender == n.id
  {
    hide StoresOk, SlotsOk, ExecsOk, PreparedOk, LogOk, Shaped, GoodVote;
    P.InvShaped(c, n, acc);
  }

  /** One prepare with another digest in a lower column: all commits agree with the
      batch, and the third of them stops the backup. */
  lemma BadPrepareStops(c: Plain, q: Batch, other: Digest) returns (trace: seq<Event>, v: Vote)
    requires c.f == 1 && c.primary == 0 && GoodHashes(c, q) && LastId(q) < c.ring && other != LastHash(c, q)
    ensures v == VoteFor(c, LastId(q), LastHash(c, q), 3)
    ensures After(c, 2, trace).Up? && After(c, 2, trace + [CommitArrives(v)]).Down?
    ensures forall e :: e in trace && e.CommitArrives? ==> e.vote.hash == LastHash(c, q)
    ensures forall e :: e in trace && e.PrepArrives? && e.vote.sender != 1 ==> e.vote.hash == LastHash(c, q)
  {
    hide Met, After, Shaped, GoodBatch, IsEnd, Preps, Comms, VoteFor, Young, FirstTagged, Slot, OneVote, Uniform;
    P.GoodShaped(c, q);
    SumsOfSets();
    var acc, a := map[LastId(q) := q], Votes(LastId(q), LastHash(c, q), {}, {});
    FirstBatch(c, 2, q);
    var t0 := [BatchArrives(q)];
    MetPrep(c, 2, t0, acc, a, a, 3);
    var t1, a1 := t0 + [PrepOf(c, a, 3)], a.(preps := {3});
    MetCommit(c, 2, t1, acc, a1, a, 0);
    var t2, a2 := t1 + [CommOf(c, a1, 0)], a1.(comms := {0});
    MetCommit(c, 2, t2, acc, a2, a, 1);
    var t3, a3 := t2 + [CommOf(c, a2, 1)], a1.(comms := {0, 1});
    MetHeard(c, 2, t3, acc, a3, a);
    var w := VoteFor(c, a.k, other, 1);
    VoteForGood(c, a.k, other, 1);
    VoteForGood(c, a.k, a.hash, 0);
    VoteForGood(c, a.k, a.hash, 1);
    VoteForGood(c, a.k, a.hash, 3);
    v := VoteFor(c, a.k, a.hash, 3);
    trace := t3 + [PrepArrives(w)];
    assert t3 == [BatchArrives(q), PrepOf(c, a, 3), CommOf(c, a, 0), CommOf(c, a, 1)];
    BadPrepareFatal(c, 2, t3, acc, a3, a, w, v);
  }

  /** The primary's column is empty, the first other column has the odd prepare. */
  lemma BadPrepareFatal(c: Plain, id: nat, trace: seq<Event>, acc: Accepted, a: Votes, b: Votes, w: Vote, v: Vote)
    requires c.primary == 0 && 1 < id < c.Nodes() && Met(c, id, trace, acc, a, b) && a.k in acc
    requires |a.preps| == 2 * c.f - 1 && |a.comms| == 2 * c.f && 0 !in a.preps && 1 !in a.preps
    requires GoodVote(c, w) && w.txnId == a.k && w.view == c.primary && w.hash != a.hash && w.sender == 1
    requires GoodVote(c, v) && v.txnId == a.k && v.view == c.primary && v.hash == a.hash && v.sender != id && v.sender !in a.comms
    requires forall e :: e in trace && e.PrepArrives? ==> e.vote.sender != 1
    ensures After(c, id, trace + [PrepArrives(w)]).Up?
    ensures After(c, id, trace + [PrepArrives(w)] + [CommitArrives(v)]).Down?
  {
    hide After, Shaped, Preps, Comms, Young, Slot, OneVote, BatchStart, IsEnd, Heard;
    var more := trace + [PrepArrives(w)];
    var s, t := After(c, id, trace), After(c, id, more);
    YoungUp(c, id, s);
    YoungStep(c, id, trace, PrepArrives(w));
    YoungUp(c, id, t);
    HeardVote(c, s.hist, w);
    assert |Preps(t.hist, a.k)| == 2 * c.f;
    YoungStep(c, id, more, CommitArrives(v));
    assert IsEnd(c, a.k);
    HeardEntry(c, id, more, a.k, 0);
    HeardEntry(c, id, more, a.k, 1);
    SlotLong(c, t.node, a.k);
    var prep, comm := Slot(c, t.node.prep, a.k), Put(Slot(c, t.node.comm, a.k), v);
    assert PrepArrives(prep[1]) in more && prep[1].sender == 1;
    assert prep[1] == w;
    assert FirstTagged(prep, 1, a.k);
    assert comm[v.sender] == v;
    assert Clash(prep, comm, a.k);
  }

  /** A second batch has come and the votes for it have not. */
  lemma SecondBatch(c: Plain, id: nat, q: Batch, q2: Batch)
    requires id < c.Nodes() && id != c.primary && GoodHashes(c, q) && GoodHashes(c, q2)
    requires LastId(q) < c.ring && LastId(q2) < c.ring && LastId(q) != LastId(q2)
    ensures var a, b := Votes(LastId(q), LastHash(c, q), {}, {}), Votes(LastId(q2), LastHash(c, q2), {}, {});
            && Met(c, id, [BatchArrives(q), BatchArrives(q2)], map[LastId(q) := q, LastId(q2) := q2], b, a)
            && Clean(c, id, [BatchArrives(q), BatchArrives(q2)])
  {
    hide Met, Clean;
    P.GoodShaped(c, q);
    P.GoodShaped(c, q2);
    var a, b := Votes(LastId(q), LastHash(c, q), {}, {}), Votes(LastId(q2), LastHash(c, q2), {}, {});
    assert For(c, map[], a) && For(c, map[], b);
    MetNothing(c, id, a, b);
    MetBatch(c, id, [], map[], a, b, q);
    assert [] + [BatchArrives(q)] == [BatchArrives(q)];
    var acc: Accepted := map[][LastId(q) := q];
    MetSwap(c, id, [BatchArrives(q)], acc, a, b);
    MetBatch(c, id, [BatchArrives(q)], acc, b, a, q2);
    assert [BatchArrives(q)] + [BatchArrives(q2)] == [BatchArrives(q), BatchArrives(q2)];
    assert acc[LastId(q2) := q2] == map[LastId(q) := q, LastId(q2) := q2];
  }

  /** The quorum of the second batch completes first: both EXECUTE messages are
      queued, the second batch's ahead.  Run in that order the first one fails. */
  lemma OutOfOrderStops(c: Plain, q: Batch, q2: Batch) returns (early: seq<Event>, trace: seq<Event>)
    requires c.f == 1 && c.primary == 0 && GoodHashes(c, q) && GoodHashes(c, q2)
    requires LastId(q) == c.batch - 1 && LastId(q2) == 2 * c.batch - 1 && 2 * c.batch <= c.ring
    ensures q.index != [] && q2.index != []
    ensures var s, t := After(c, 1, early), After(c, 1, trace);
            && s.Up? && Queued(c, s.node.out, LastId(q2)) && !Queued(c, s.node.out, LastId(q))
            && t.Up? && Queued(c, t.node.out, LastId(q2)) && Queued(c, t.node.out, LastId(q))
    ensures After(c, 1, trace + [RunExec(ExecOf(c, LastId(q2)))]).Down?
    ensures After(c, 1, trace + [RunExec(ExecOf(c, LastId(q)))]).Up?
  {
    hide Met, Clean, After, Shaped, GoodBatch, IsEnd, Queued, BatchStart;
    P.GoodShaped(c, q);
    P.GoodShaped(c, q2);
    var k, k2 := LastId(q), LastId(q2);
    var acc: Accepted := map[k := q, k2 := q2];
    var a, b := Votes(k, LastHash(c, q), {}, {}), Votes(k2, LastHash(c, q2), {}, {});
    assert |{2, 3}| == 2 && |{0, 2, 3}| == 3;
    SecondBatch(c, 1, q, q2);
    early := Fill(c, 1, 2, 3, [BatchArrives(q), BatchArrives(q2)], acc, b, a);
    var b2 := b.(preps := {2, 3}, comms := {0, 2, 3});
    MetQueued(c, 1, early, acc, b2, a);
    MetSwap(c, 1, early, acc, b2, a);
    MetQueued(c, 1, early, acc, a, b2);
    trace := Fill(c, 1, 2, 3, early, acc, a, b2);
    var a2 := a.(preps := {2, 3}, comms := {0, 2, 3});
    MetQueued(c, 1, trace, acc, a2, b2);
    MetHeard(c, 1, trace, acc, a2, b2);
    MetSwap(c, 1, trace, acc, a2, b2);
    MetQueued(c, 1, trace, acc, b2, a2);
    ExecIndex(c, k);
    ExecIndex(c, k2);
    QueuedMsg(c, After(c, 1, trace).node.out, k);
    QueuedMsg(c, After(c, 1, trace).node.out, k2);
    RunsInOrderOnly(c, 1, trace, ExecOf(c, k));
    RunsInOrderOnly(c, 1, trace, ExecOf(c, k2));
  }

  lemma ExecIndex(c: Plain, k: nat)
    requires IsEnd(c, k)
    ensures 0 < k && ExecOf(c, k).index == k + 1 - c.batch
  {
    EndIsLate(c, k);
  }

  lemma QueuedMsg(c: Plain, out: seq<Msg>, k: nat)
    requires 0 < k && Queued(c, out, k)
    ensures Execute(ExecOf(c, k)) in out
  {
  }
}
