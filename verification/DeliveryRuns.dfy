/** Whole runs of one replica under deliveries in any order, from up to any number of
    senders that vote as they like: exactly when an assertion fails, and, while none
    has failed, exactly when a batch gets queued for execution. */
module DeliveryRuns {
  import opened Arith
  import opened Protocol
  import opened Invariant
  import opened Quorum
  import opened Delivery
  import A = Agreement
  import C = Contents
  import P = Preserve

  /** The batch an event is about. */
  ghost function Subject(c: Plain, e: Event): nat
    requires EventShaped(c, e)
  {
    match e
    case ClientBatch(k, reqs) => c.batch * k + c.batch - 1
    case BatchArrives(b) => LastId(b)
    case PrepArrives(v) => v.txnId
    case CommitArrives(v) => v.txnId
    case _ => 0
  }

  /** A replica with what it has accepted, heard and passed over; or a failed assertion. */
  datatype Site = Up(node: Node, acc: Accepted, hist: Hist, passed: set<nat>) | Down

  /** One delivery; one that breaks the hypotheses is not made. */
  ghost function Deliver(c: Plain, s: Site, e: Event): Site {
    if s.Down? || !Orderly(c, s.node, s.acc, s.hist, e) then s
    else
      var r := Handle(c, s.node, e);
      if r.Crash? then Down
      else
        var acc, h := Grow(c, s.acc, e), Heard(s.hist, e);
        Up(r.node, acc, h, Passed(c, acc, h, s.passed, Subject(c, e)))
  }

  ghost function After(c: Plain, id: nat, trace: seq<Event>): Site
    requires id < c.Nodes()
  {
    if trace == [] then Up(Boot(c, id), map[], Hist(map[], map[]), {})
    else Deliver(c, After(c, id, trace[..|trace| - 1]), trace[|trace| - 1])
  }

  lemma AfterOne(c: Plain, id: nat, trace: seq<Event>, e: Event)
    requires id < c.Nodes()
    ensures After(c, id, trace + [e]) == Deliver(c, After(c, id, trace), e)
  {
    assert (trace + [e])[..|trace|] == trace;
    hide Deliver;
  }

  // ------------------------------------------------ when an assertion fails

  ghost predicate FineSite(c: Plain, s: Site) { s.Up? ==> Fine(c, s.node, s.acc, s.hist, s.passed) }

  /** One delivery fails an assertion exactly when it is fatal; else the replica is as
      it should be. */
  lemma DeliverFine(c: Plain, s: Site, e: Event)
    requires s.Up? && FineSite(c, s)
    ensures FineSite(c, Deliver(c, s, e))
    ensures Deliver(c, s, e).Down? <==> Orderly(c, s.node, s.acc, s.hist, e) && Fatal(c, s.node, s.acc, s.hist, e)
  {
    hide Fine, Shaped, ProcessBatch, ProcessPrep, ProcessCommit, ProcessExecute, ProcessOrder, ProcessClientBatch, MakeBatch,
         FatalBatch, FatalPrep, FatalCommit;
    var n, acc, h, passed := s.node, s.acc, s.hist, s.passed;
    if Orderly(c, n, acc, h, e) {
      NothingAtZero(c, n, acc, h, passed);
      match e
      case ClientBatch(k, reqs) => ClientFine(c, n, acc, h, passed, k, reqs);
      case BatchArrives(b) => BatchFine(c, n, acc, h, passed, b);
      case PrepArrives(v) => PrepFine(c, n, acc, h, passed, v);
      case CommitArrives(v) => CommitFine(c, n, acc, h, passed, v);
      case RunExec(x) => RunFine(c, n, acc, h, passed, x);
      case OrderReady(b) => OrderFine(c, n, acc, h, passed, b);
    }
  }

  lemma NothingAtZero(c: Plain, n: Node, acc: Accepted, h: Hist, passed: set<nat>)
    requires Fine(c, n, acc, h, passed)
    ensures 0 !in acc
  {
    hide Inv, Shaped, PrepRows, CommRows, Counted, Installed, HistOk, Flagged, A.WindowOk;
  }

  lemma BootFine(c: Plain, id: nat)
    requires id < c.Nodes()
    ensures Fine(c, Boot(c, id), map[], Hist(map[], map[]), {})
  {
    BootInv(c, id);
    hide Inv;
    A.InvRows(c, Boot(c, id), map[]);
  }

  lemma {:induction false} AlwaysFine(c: Plain, id: nat, trace: seq<Event>)
    requires id < c.Nodes()
    ensures FineSite(c, After(c, id, trace))
  {
    if trace == [] {
      BootFine(c, id);
    } else {
      hide FineSite, Deliver;
      var s, e := After(c, id, trace[..|trace| - 1]), trace[|trace| - 1];
      AlwaysFine(c, id, trace[..|trace| - 1]);
      if s.Up? {
        DeliverFine(c, s, e);
      } else {
        StaysDown(c, s, e);
      }
    }
  }

  lemma StaysDown(c: Plain, s: Site, e: Event)
    requires s.Down?
    ensures Deliver(c, s, e) == s && FineSite(c, s)
  {
  }

  /** Over every run and for every delivery after it: an assertion fails if and only if
      the delivery is fatal, which can be told from the vote stores and the senders
      heard before it is handled. */
  lemma FailsExactlyWhen(c: Plain, id: nat, trace: seq<Event>, e: Event)
    requires id < c.Nodes() && After(c, id, trace).Up?
    ensures var s := After(c, id, trace);
            After(c, id, trace + [e]).Down? <==> Orderly(c, s.node, s.acc, s.hist, e) && Fatal(c, s.node, s.acc, s.hist, e)
  {
    hide FineSite, Deliver, After, Orderly, Fatal;
    AlwaysFine(c, id, trace);
    AfterOne(c, id, trace, e);
    DeliverFine(c, After(c, id, trace), e);
  }

  /** An EXECUTE that the node has queued fails its assertion if and only if it is not
      that of the next batch. */
  lemma RunsInOrderOnly(c: Plain, id: nat, trace: seq<Event>, x: Exec)
    requires id < c.Nodes()
    requires var s := After(c, id, trace); s.Up? && Execute(x) in s.node.out
    ensures After(c, id, trace + [RunExec(x)]).Down? <==> x.index != After(c, id, trace).node.next
  {
    hide Fine, Deliver, After, Shaped;
    var s := After(c, id, trace);
    AlwaysFine(c, id, trace);
    FineShaped(c, s.node, s.acc, s.hist, s.passed);
    FailsExactlyWhen(c, id, trace, RunExec(x));
  }

  lemma FineShaped(c: Plain, n: Node, acc: Accepted, h: Hist, passed: set<nat>)
    requires Fine(c, n, acc, h, passed)
    ensures Shaped(c, n)
  {
    hide Stored, PassedOk, Flagged;
    StoredParts(c, n, acc, h);
  }

  // ------------------------------------------------ when a batch is queued

  lemma FlagsAt(c: Plain, n: Node, acc: Accepted, h: Hist, passed: set<nat>, k: nat)
    requires Fine(c, n, acc, h, passed) && IsEnd(c, k)
    ensures Stored(c, n, acc, h) && FlagAt(c, Mgr(c, n, k), Queued(c, n.out, k), acc, h, passed, k)
  {
    hide Stored, Queued, IsEnd, FlagAt;
  }

  /** Over every run that no assertion has ended: the counters are the quorum sizes
      less the senders heard, and a batch is queued for execution, once, if and only if
      the batch, 2f prepares and 2f+1 commits are there and it was never overtaken. */
  lemma ExecutedExactlyWhen(c: Plain, id: nat, trace: seq<Event>, k: nat)
    requires id < c.Nodes() && IsEnd(c, k)
    ensures var s := After(c, id, trace);
            s.Up? ==>
            && Mgr(c, s.node, k).prepCnt == 2 * c.f - |Preps(s.hist, k)|
            && Mgr(c, s.node, k).commitCnt == 2 * c.f + 1 - |Comms(s.hist, k)|
            && 0 < k
            && ExecCount(s.node.out, ExecOf(c, k))
               == if k in s.acc && 2 * c.f <= |Preps(s.hist, k)| && 2 * c.f + 1 <= |Comms(s.hist, k)| && k !in s.passed then 1 else 0
  {
    hide Fine, Stored, Inv, After, Queued, IsEnd;
    AlwaysFine(c, id, trace);
    var s := After(c, id, trace);
    if s.Up? {
      FlagsAt(c, s.node, s.acc, s.hist, s.passed, k);
      CountAt(c, s.node, s.acc, s.hist, k);
      StoredParts(c, s.node, s.acc, s.hist);
      QueuedCount(c, s.node, s.acc, k);
    }
  }

  lemma QueuedCount(c: Plain, n: Node, acc: Accepted, k: nat)
    requires Inv(c, n, acc) && IsEnd(c, k)
    ensures 0 < k && ExecCount(n.out, ExecOf(c, k)) == if Queued(c, n.out, k) then 1 else 0
  {
    hide StoresOk, SlotsOk, SentOk, PreparedOk, LogOk, Shaped;
    EndIsLate(c, k);
    P.CountedIsIn(n.out, ExecOf(c, k));
  }

  /** The counters read off the tables: what is left to come is the quorum size less
      the other nodes whose entry in the batch's slot carries its id. */
  lemma CountersCountSlots(c: Plain, id: nat, trace: seq<Event>, k: nat)
    requires id < c.Nodes() && IsEnd(c, k)
    ensures var s := After(c, id, trace);
            s.Up? && s.node.next <= k ==>
              && k % c.ring < |s.node.prep| && k % c.ring < |s.node.comm|
              && Mgr(c, s.node, k).prepCnt == 2 * c.f - |ColsTagged(s.node.prep[k % c.ring], k) - {s.node.id}|
              && Mgr(c, s.node, k).commitCnt == 2 * c.f + 1 - |ColsTagged(s.node.comm[k % c.ring], k) - {s.node.id}|
  {
    hide Inv, After, IsEnd, Shaped, RowAt, Preps, Comms, HistOk, Counted, Installed, A.WindowOk, AcceptedOk, ColsTagged;
    AlwaysFine(c, id, trace);
    var s := After(c, id, trace);
    if s.Up? && s.node.next <= k {
      var n := s.node;
      CountAt(c, n, s.acc, s.hist, k);
      HeardColumns(c, n.id, n.prep[k % c.ring], k, s.hist, Preps(s.hist, k), n.id != c.primary && k in s.acc);
      HeardColumns(c, n.id, n.comm[k % c.ring], k, s.hist, Comms(s.hist, k), TxnOf(c, n.txns, k).prepared);
    }
  }

  lemma HeardColumns(c: Plain, id: nat, row: seq<Vote>, k: nat, h: Hist, heard: set<nat>, own: bool)
    requires HistOk(c, id, h) && (heard == Preps(h, k) || heard == Comms(h, k)) && RowAt(c, id, row, k, heard, own)
    ensures ColsTagged(row, k) - {id} == heard
  {
    NoSelf(c, id, h, k);
    forall r ensures r in ColsTagged(row, k) - {id} <==> r in heard {
    }
  }

  /** The commit counter leaves the own commit out, so f silent nodes stop everything. */
  lemma SilentStall(c: Plain, id: nat, trace: seq<Event>, k: nat, silent: set<nat>)
    requires id < c.Nodes() && IsEnd(c, k)
    requires silent <= NodesBelow(c.Nodes()) - {id} && c.f <= |silent|
    requires var s := After(c, id, trace); s.Up? ==> silent !! Comms(s.hist, k)
    ensures var s := After(c, id, trace); s.Up? ==> 0 < k && ExecCount(s.node.out, ExecOf(c, k)) == 0
  {
    hide After, IsEnd, Fine, Comms;
    ExecutedExactlyWhen(c, id, trace, k);
    var s := After(c, id, trace);
    if s.Up? {
      AlwaysFine(c, id, trace);
      IdKept(c, id, trace);
      FineHist(c, s.node, s.acc, s.hist, s.passed);
      HeardOthers(c, id, s.hist, k);
      NodeCount(c.Nodes());
      SubsetSize(Comms(s.hist, k) + silent, NodesBelow(c.Nodes()) - {id});
      assert |Comms(s.hist, k) + silent| == |Comms(s.hist, k)| + |silent|;
    }
  }

  lemma FineHist(c: Plain, n: Node, acc: Accepted, h: Hist, passed: set<nat>)
    requires Fine(c, n, acc, h, passed)
    ensures HistOk(c, n.id, h)
  {
    hide Stored, PassedOk, Flagged;
    StoredParts(c, n, acc, h);
  }

  lemma HeardOthers(c: Plain, id: nat, h: Hist, k: nat)
    requires HistOk(c, id, h)
    ensures Comms(h, k) <= NodesBelow(c.Nodes()) - {id}
  {
    hide Comms;
  }

  lemma {:induction false} IdKept(c: Plain, id: nat, trace: seq<Event>)
    requires id < c.Nodes()
    ensures After(c, id, trace).Up? ==> After(c, id, trace).node.id == id
  {
    hide Orderly, Handle;
    if trace != [] {
      IdKept(c, id, trace[..|trace| - 1]);
      var s, e := After(c, id, trace[..|trace| - 1]), trace[|trace| - 1];
      if s.Up? && Orderly(c, s.node, s.acc, s.hist, e) {
        OrderlyShaped(c, s.node, s.acc, s.hist, e);
        if Handle(c, s.node, e).Ok? {
          A.HandleAfter(c, s.node, e);
        }
      }
    }
  }

  lemma OrderlyShaped(c: Plain, n: Node, acc: Accepted, h: Hist, e: Event)
    requires Orderly(c, n, acc, h, e)
    ensures Shaped(c, n) && EventShaped(c, e) && Allowed(c, n, acc, e)
  {
    hide Shaped, Allowed;
  }

  /** A batch once overtaken is never queued, whatever comes later. */
  lemma {:induction false} OvertakenStaysStuck(c: Plain, id: nat, trace: seq<Event>, more: seq<Event>, k: nat)
    requires id < c.Nodes() && IsEnd(c, k)
    requires var s := After(c, id, trace); s.Up? && Overtaken(c, s.acc, s.hist, k)
    ensures var s := After(c, id, trace + more); s.Up? ==> k in s.passed && !Queued(c, s.node.out, k)
    decreases |more|
  {
    hide Deliver, Fine, Stored, Queued, IsEnd, Overtaken;
    AlwaysFine(c, id, trace + more);
    var s := After(c, id, trace + more);
    if s.Up? {
      if more == [] {
        assert trace + more == trace;
        FineStuck(c, s.node, s.acc, s.hist, s.passed, k);
      } else {
        var most := more[..|more| - 1];
        assert (trace + more)[..|trace + more| - 1] == trace + most;
        OvertakenStaysStuck(c, id, trace, most, k);
        PassedGrows(c, After(c, id, trace + most), more[|more| - 1]);
      }
      FlagsAt(c, s.node, s.acc, s.hist, s.passed, k);
    }
  }

  lemma FineStuck(c: Plain, n: Node, acc: Accepted, h: Hist, passed: set<nat>, k: nat)
    requires Fine(c, n, acc, h, passed) && Overtaken(c, acc, h, k)
    ensures k in passed
  {
    hide Stored, Flagged, Voted, Overtaken;
  }

  lemma PassedGrows(c: Plain, s: Site, e: Event)
    requires Deliver(c, s, e).Up?
    ensures s.Up? && s.passed <= Deliver(c, s, e).passed
  {
    hide Orderly, Handle;
  }

  // ------------------------------------------------ per-sender order

  /** In every delivered commit's wake, its sender's prepare has come; the primary
      sends none. */
  ghost predicate PreparesFirst(c: Plain, h: Hist) {
    forall k: nat :: Comms(h, k) - {c.primary} <= Preps(h, k)
  }

  ghost predicate InSendOrder(c: Plain, id: nat, trace: seq<Event>)
    requires id < c.Nodes()
  {
    forall i :: 0 <= i <= |trace| ==> After(c, id, trace[..i]).Up? ==> PreparesFirst(c, After(c, id, trace[..i]).hist)
  }

  lemma NeverOvertaken(c: Plain, acc: Accepted, h: Hist, k: nat)
    requires PreparesFirst(c, h)
    ensures !Overtaken(c, acc, h, k)
  {
    SubsetSize(Comms(h, k) - {c.primary}, Preps(h, k));
    if c.primary in Comms(h, k) {
      assert Comms(h, k) == (Comms(h, k) - {c.primary}) + {c.primary};
    } else {
      assert Comms(h, k) == Comms(h, k) - {c.primary};
    }
  }

  lemma {:induction false} NothingPassed(c: Plain, id: nat, trace: seq<Event>)
    requires id < c.Nodes() && InSendOrder(c, id, trace)
    ensures After(c, id, trace).Up? ==> After(c, id, trace).passed == {}
  {
    hide Orderly, Handle, PreparesFirst;
    var s := After(c, id, trace);
    assert trace[..|trace|] == trace;
    if trace != [] && s.Up? {
      var short := trace[..|trace| - 1];
      forall i | 0 <= i <= |short|
        ensures short[..i] == trace[..i]
      {
      }
      NothingPassed(c, id, short);
      forall k: nat ensures !Overtaken(c, s.acc, s.hist, k) {
        NeverOvertaken(c, s.acc, s.hist, k);
      }
    }
  }

  /** No stuck batch: when every sender's prepare comes before its commit, the batch
      is queued exactly once as soon as it, 2f prepares and 2f+1 commits are there. */
  lemma NoStuckBatch(c: Plain, id: nat, trace: seq<Event>, k: nat)
    requires id < c.Nodes() && IsEnd(c, k) && InSendOrder(c, id, trace)
    ensures var s := After(c, id, trace);
            s.Up? ==>
            && 0 < k
            && ExecCount(s.node.out, ExecOf(c, k))
               == if k in s.acc && 2 * c.f <= |Preps(s.hist, k)| && 2 * c.f + 1 <= |Comms(s.hist, k)| then 1 else 0
  {
    hide After, IsEnd, InSendOrder;
    ExecutedExactlyWhen(c, id, trace, k);
    NothingPassed(c, id, trace);
  }

  // ------------------------------------------------ all nodes together

  ghost predicate AllUp(c: Plain, ts: seq<seq<Event>>) {
    |ts| == c.Nodes() && forall r: nat :: r < c.Nodes() ==> After(c, r, ts[r]).Up?
  }

  /** Whatever node p has sent for batch k has come to node r. */
  ghost predicate PassedOn(c: Plain, ts: seq<seq<Event>>, k: nat, p: nat, r: nat)
    requires AllUp(c, ts) && p < c.Nodes() && r < c.Nodes()
  {
    var out, h := After(c, p, ts[p]).node.out, After(c, r, ts[r]).hist;
    && (forall v :: Prepare(v) in out && v.txnId == k ==> p in Preps(h, k))
    && (forall v :: Commit(v) in out && v.txnId == k ==> p in Comms(h, k))
  }

  ghost predicate Reached(c: Plain, ts: seq<seq<Event>>, k: nat, silent: set<nat>)
    requires AllUp(c, ts)
  {
    && (forall r: nat :: r < c.Nodes() && r !in silent ==> k in After(c, r, ts[r]).acc && InSendOrder(c, r, ts[r]))
    && (forall p: nat, r: nat :: p < c.Nodes() && r < c.Nodes() && p != r && p !in silent && r !in silent ==> PassedOn(c, ts, k, p, r))
  }

  lemma VotesSent(c: Plain, id: nat, trace: seq<Event>, k: nat)
    requires id < c.Nodes() && IsEnd(c, k)
    requires var s := After(c, id, trace); s.Up? && k in s.acc
    ensures var s := After(c, id, trace);
            && (id != c.primary ==> exists v :: Prepare(v) in s.node.out && v.txnId == k)
            && (2 * c.f <= |Preps(s.hist, k)| ==> exists v :: Commit(v) in s.node.out && v.txnId == k)
  {
    hide After, Stored, Inv, IsEnd, Preps, DigestAt, Shaped;
    AlwaysFine(c, id, trace);
    IdKept(c, id, trace);
    var s := After(c, id, trace);
    var v := Own(c, s.acc, k, id);
    assert v.txnId == k;
    assert HasPrepareQuorum(c, s.acc, s.hist, k) <==> 2 * c.f <= |Preps(s.hist, k)|;
  }

  lemma Remaining(c: Plain, silent: set<nat>, away: set<nat>)
    requires |silent| < c.f
    ensures 2 * c.f + 2 <= |NodesBelow(c.Nodes()) - silent - away| + |away|
  {
    var all := NodesBelow(c.Nodes());
    NodeCount(c.Nodes());
    SubsetSize(all, (all - silent - away) + (silent + away));
    assert |(all - silent - away) + (silent + away)| == |all - silent - away| + |silent + away|;
    assert |silent + away| <= |silent| + |away| by { UnionSize(silent, away); }
  }

  lemma UnionSize(a: set<nat>, b: set<nat>)
    ensures |a + b| <= |a| + |b|
  {
    assert |a + b| == |a| + |b| - |a * b|;
  }

  lemma EnoughPrepares(c: Plain, ts: seq<seq<Event>>, k: nat, silent: set<nat>, r: nat)
    requires AllUp(c, ts) && IsEnd(c, k) && |silent| < c.f && Reached(c, ts, k, silent) && r < c.Nodes() && r !in silent
    ensures 2 * c.f <= |Preps(After(c, r, ts[r]).hist, k)|
  {
    hide After, IsEnd, Preps, Comms, InSendOrder;
    var q := NodesBelow(c.Nodes()) - silent - {c.primary, r};
    Remaining(c, silent, {c.primary, r});
    forall p | p in q ensures p in Preps(After(c, r, ts[r]).hist, k) {
      VotesSent(c, p, ts[p], k);
      assert PassedOn(c, ts, k, p, r);
    }
    SubsetSize(q, Preps(After(c, r, ts[r]).hist, k));
    assert |{c.primary, r}| <= 2;
  }

  lemma EnoughCommits(c: Plain, ts: seq<seq<Event>>, k: nat, silent: set<nat>, r: nat)
    requires AllUp(c, ts) && IsEnd(c, k) && |silent| < c.f && Reached(c, ts, k, silent) && r < c.Nodes() && r !in silent
    ensures 2 * c.f + 1 <= |Comms(After(c, r, ts[r]).hist, k)|
  {
    hide After, IsEnd, Preps, Comms, InSendOrder;
    var q := NodesBelow(c.Nodes()) - silent - {r};
    Remaining(c, silent, {r});
    forall p | p in q ensures p in Comms(After(c, r, ts[r]).hist, k) {
      EnoughPrepares(c, ts, k, silent, p);
      VotesSent(c, p, ts[p], k);
      assert PassedOn(c, ts, k, p, r);
    }
    SubsetSize(q, Comms(After(c, r, ts[r]).hist, k));
  }

  /** With fewer than f silent nodes: once all others have the batch and each other's
      messages about it, all of them have queued it, exactly once.  With f silent
      nodes none ever does (SilentStall). */
  lemma AllExecute(c: Plain, ts: seq<seq<Event>>, k: nat, silent: set<nat>, r: nat)
    requires AllUp(c, ts) && IsEnd(c, k) && |silent| < c.f && Reached(c, ts, k, silent) && r < c.Nodes() && r !in silent
    ensures 0 < k && ExecCount(After(c, r, ts[r]).node.out, ExecOf(c, k)) == 1
  {
    hide After, IsEnd, Preps, Comms, InSendOrder, PassedOn;
    EnoughPrepares(c, ts, k, silent, r);
    EnoughCommits(c, ts, k, silent, r);
    NoStuckBatch(c, r, ts[r], k);
  }
}
