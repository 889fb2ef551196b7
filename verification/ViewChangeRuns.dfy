/** View change over whole runs of nodes that follow the protocol, any of which may
    stop at any time: no report fails its assertions, a batch committed at one node is
    in the report of one of any 2f others, as long as their slots for it have not been
    taken by a later batch, and the new view keeps the digest it was committed with. */
module ViewChangeRuns {
  import opened Arith
  import opened Protocol
  import opened Invariant
  import opened Quorum
  import C = Contents
  import A = Agreement
  import L = LogSafety
  import P = Preserve
  import V = ViewChange

  // ------------------------------------------------ what a node's tables keep

  /** An entry for batch k or a later one. */
  predicate Since(w: Vote, k: nat) { w.txnId != EMPTY && k <= w.txnId }

  ghost function ColsSince(row: seq<Vote>, k: nat): set<nat> { set r: nat | r < |row| && Since(row[r], k) }

  /** A stored prepare of column r sits in its slot and was sent by node r. */
  ghost predicate PrepKept(outs: A.Outs, c: Config, w: Vote, s: nat, r: nat) {
    w == EmptyVote() || (GoodVote(c, w) && w.txnId % c.ring == s && r < |outs| && Prepare(w) in outs[r])
  }

  ghost predicate PrepsKept(outs: A.Outs, c: Config, prep: A.Slots)
    requires A.Rows(c, prep)
  {
    forall s: nat, r: nat :: s < c.ring && r < c.Nodes() ==> PrepKept(outs, c, prep[s][r], s, r)
  }

  /** For every commit sent, 2f columns still hold that batch or a later one of its slot. */
  ghost predicate CommitsKept(c: Config, prep: A.Slots, out: seq<Msg>)
    requires A.Rows(c, prep)
  {
    forall v :: Commit(v) in out ==> 2 * c.f <= |ColsSince(prep[v.txnId % c.ring], v.txnId)|
  }

  ghost predicate Kept(c: Config, outs: A.Outs, n: Node) {
    A.Rows(c, n.prep) && PrepsKept(outs, c, n.prep) && CommitsKept(c, n.prep, n.out)
  }

  /** No entry gives way to an older one. */
  ghost predicate Rising(c: Config, prep: A.Slots, prep': A.Slots)
    requires A.Rows(c, prep) && A.Rows(c, prep')
  {
    forall s: nat, r: nat :: s < c.ring && r < c.Nodes() && prep[s][r].txnId != EMPTY ==> Since(prep'[s][r], prep[s][r].txnId)
  }

  lemma CommitsRise(c: Config, prep: A.Slots, prep': A.Slots, k: nat)
    requires A.Rows(c, prep) && A.Rows(c, prep') && Rising(c, prep, prep')
    ensures |ColsSince(prep[k % c.ring], k)| <= |ColsSince(prep'[k % c.ring], k)|
  {
    SubsetSize(ColsSince(prep[k % c.ring], k), ColsSince(prep'[k % c.ring], k));
  }

  lemma TaggedSince(row: seq<Vote>, k: nat)
    requires k != EMPTY
    ensures |ColsTagged(row, k)| <= |ColsSince(row, k)|
  {
    SubsetSize(ColsTagged(row, k), ColsSince(row, k));
  }

  /** What a node has sent is for a batch it accepted. */
  lemma SentAccepted(c: Config, n: Node, acc: Accepted, v: Vote)
    requires Inv(c, n, acc) && (Prepare(v) in n.out || Commit(v) in n.out)
    ensures AcceptedOk(c, acc) && GoodVote(c, v) && v.txnId in acc && v.view == c.primary
    ensures BatchShaped(c, acc[v.txnId]) && v.hash == LastHash(c, acc[v.txnId])
  {
    hide StoresOk, SlotsOk, ExecsOk, PreparedOk, LogOk, Shaped;
    P.InvShaped(c, n, acc);
  }

  /** The node's own prepare for a fresh batch covers nothing later. */
  lemma OwnRises(c: Config, n: Node, acc: Accepted, b: Batch, w: Vote)
    requires Inv(c, n, acc) && A.WindowOk(c, n.next, acc) && GoodBatch(c, b) && LastId(b) !in acc
    requires Prepare(w) in n.out && w.txnId % c.ring == LastId(b) % c.ring
    requires LastId(b) < n.next + c.ring
    ensures w.txnId <= LastId(b)
  {
    hide Inv, IsEnd, A.WindowOk, GoodBatch, GoodVote;
    P.GoodShaped(c, b);
    var k := LastId(b);
    SentAccepted(c, n, acc, w);
    A.Ahead(c, n, acc, b);
    InWindow(c, n.next, acc, w.txnId);
    if k < w.txnId {
      A.LiveSlots(c, n.next, k, w.txnId);
    }
  }

  /** One entry never falls: a sender's prepares come in order, and the node's own
      are for live batches. */
  lemma EntryRises(c: Config, outs: A.Outs, n: Node, m: Node, acc: Accepted, e: Event, s: nat, r: nat)
    requires Inv(c, n, acc) && A.WindowOk(c, n.next, acc) && A.Delivers(c, {}, outs, n, acc, e)
    requires n.id < |outs| && outs[n.id] == n.out
    requires A.Rows(c, n.prep) && A.Rows(c, m.prep) && s < c.ring && r < c.Nodes()
    requires PrepKept(outs, c, n.prep[s][r], s, r) && C.PrepFrom(c, n, m, e, s, r)
    ensures n.prep[s][r].txnId != EMPTY ==> Since(m.prep[s][r], n.prep[s][r].txnId)
  {
    hide Inv, Shaped, A.WindowOk, GoodBatch, BatchStart;
    var w, w' := n.prep[s][r], m.prep[s][r];
    if w' != w && w.txnId != EMPTY {
      if e.BatchArrives? {
        OwnRises(c, n, acc, e.batch, w);
        assert LastId(e.batch) != EMPTY by { EndsBelow(c, e.batch); }
      }
    }
  }

  lemma InWindow(c: Config, next: nat, acc: Accepted, k: nat)
    requires A.WindowOk(c, next, acc) && k in acc
    ensures k < next + c.ring
  {
  }

  lemma EntryKept(c: Config, outs: A.Outs, outs': A.Outs, n: Node, m: Node, acc: Accepted, e: Event, s: nat, r: nat)
    requires A.Delivers(c, {}, outs, n, acc, e) && n.id < |outs| && outs[n.id] == n.out
    requires OutsBelow(outs, outs') && outs'[n.id] == m.out
    requires A.Rows(c, n.prep) && A.Rows(c, m.prep) && s < c.ring && r < c.Nodes() && |outs| == c.Nodes()
    requires PrepKept(outs, c, n.prep[s][r], s, r) && C.PrepFrom(c, n, m, e, s, r)
    requires SlotsOk(c, m.prep)
    ensures PrepKept(outs', c, m.prep[s][r], s, r)
  {
    hide Shaped, BatchStart, IsEnd, GoodBatch, PrepKept;
    var w := m.prep[s][r];
    KeptBelow(outs, outs', c, n.prep[s][r], s, r);
    assert EntryOk(c, w, s, r);
    if e.BatchArrives? {
      EndsBelow(c, e.batch);
      OwnPrepKept(outs', c, w, s, r);
    } else if w != n.prep[s][r] {
      assert Prepare(w) in outs[r];
      KeptBelow(outs, outs', c, w, s, r) by { OwnPrepKept(outs, c, w, s, r); }
    }
  }

  ghost predicate OutsBelow(outs: A.Outs, outs': A.Outs) {
    |outs| <= |outs'| && forall i :: 0 <= i < |outs| ==> outs[i] <= outs'[i]
  }

  lemma KeptBelow(outs: A.Outs, outs': A.Outs, c: Config, w: Vote, s: nat, r: nat)
    requires OutsBelow(outs, outs') && PrepKept(outs, c, w, s, r)
    ensures PrepKept(outs', c, w, s, r)
  {
    hide GoodVote;
    if w != EmptyVote() {
      var j :| 0 <= j < |outs[r]| && outs[r][j] == Prepare(w);
      assert outs'[r][j] == Prepare(w);
    }
  }

  lemma OwnPrepKept(outs: A.Outs, c: Config, w: Vote, s: nat, r: nat)
    ensures GoodVote(c, w) && w.txnId % c.ring == s && r < |outs| && Prepare(w) in outs[r] ==> PrepKept(outs, c, w, s, r)
  {
  }

  lemma KeptFollows(c: Config, outs: A.Outs, outs': A.Outs, n: Node, m: Node, acc: Accepted, acc': Accepted, e: Event)
    requires Inv(c, n, acc) && Inv(c, m, acc') && A.WindowOk(c, n.next, acc) && A.Delivers(c, {}, outs, n, acc, e)
    requires n.id < |outs| == c.Nodes() && outs[n.id] == n.out && Kept(c, outs, n)
    requires OutsBelow(outs, outs') && outs'[n.id] == m.out
    requires A.Rows(c, m.prep) && C.VotesFrom(c, n, m, e) && C.CommitsBacked(c, n, m)
    ensures Kept(c, outs', m)
  {
    hide Inv, OutsBelow, A.WindowOk, A.Delivers, C.PrepFrom, C.CommFrom, PrepKept, Since, ColsSince;
    A.InvSlots(c, m, acc');
    forall s: nat, r: nat | s < c.ring && r < c.Nodes()
      ensures PrepKept(outs', c, m.prep[s][r], s, r)
      ensures n.prep[s][r].txnId != EMPTY ==> Since(m.prep[s][r], n.prep[s][r].txnId)
    {
      assert PrepKept(outs, c, n.prep[s][r], s, r);
      assert C.PrepFrom(c, n, m, e, s, r);
      EntryRises(c, outs, n, m, acc, e, s, r);
      EntryKept(c, outs, outs', n, m, acc, e, s, r);
    }
    forall v | Commit(v) in m.out
      ensures 2 * c.f <= |ColsSince(m.prep[v.txnId % c.ring], v.txnId)|
    {
      if Commit(v) in n.out {
        CommitsRise(c, n.prep, m.prep, v.txnId);
      } else {
        SentAccepted(c, m, acc', v);
        TaggedSince(m.prep[v.txnId % c.ring], v.txnId);
      }
    }
  }

  // ------------------------------------------------ over runs

  ghost predicate AllKept(c: Config, s: A.Cluster)
    requires A.ClusterShaped(c, s)
  {
    forall i :: 0 <= i < c.Nodes() ==> Kept(c, A.OutsOf(s), s.nodes[i])
  }

  lemma KeptGrows(c: Config, outs: A.Outs, outs': A.Outs, n: Node)
    requires Kept(c, outs, n) && OutsBelow(outs, outs')
    ensures Kept(c, outs', n)
  {
    hide ColsSince, PrepKept, OutsBelow;
    forall s: nat, r: nat | s < c.ring && r < c.Nodes()
      ensures PrepKept(outs', c, n.prep[s][r], s, r)
    {
      KeptBelow(outs, outs', c, n.prep[s][r], s, r);
    }
  }

  lemma BootKept(c: Config, outs: A.Outs, i: nat)
    requires i < c.Nodes()
    ensures Kept(c, outs, Boot(c, i))
  {
  }

  lemma NextKept(c: Config, s: A.Cluster, a: A.Action)
    requires A.ClusterShaped(c, s) && A.AllGood(c, {}, s) && AllKept(c, s)
    ensures AllKept(c, A.Next(c, {}, s, a))
  {
    hide Kept, A.Good, Handle, Grow, Shaped, A.Delivers, C.VotesFrom, C.CommitsBacked, A.Rows;
    var t := A.Next(c, {}, s, a);
    if t != s {
      DeliversParts(c, A.OutsOf(s), s.nodes[a.node], s.accs[a.node], a.event);
      var n, m, acc := s.nodes[a.node], t.nodes[a.node], s.accs[a.node];
      A.HandleAfter(c, n, a.event);
      var outs, outs' := A.OutsOf(s), A.OutsOf(t);
      forall i | 0 <= i < c.Nodes() ensures outs[i] <= outs'[i] {
      }
      assert Kept(c, outs, n);
      assert A.Good(c, {}, outs, n, acc);
      GoodParts(c, outs, n, acc);
      DeliversParts(c, outs, n, acc, a.event);
      P.HandleInv(c, n, acc, a.event);
      C.HandleContents(c, n, acc, a.event);
      KeptFollows(c, outs, outs', n, m, acc, Grow(c, acc, a.event), a.event);
      forall i | 0 <= i < c.Nodes() ensures Kept(c, outs', t.nodes[i]) {
        if i != a.node {
          assert Kept(c, outs, s.nodes[i]);
          KeptGrows(c, outs, outs', s.nodes[i]);
        }
      }
    }
  }

  lemma GoodParts(c: Config, outs: A.Outs, n: Node, acc: Accepted)
    requires A.Good(c, {}, outs, n, acc)
    ensures Inv(c, n, acc) && A.WindowOk(c, n.next, acc)
  {
    hide Inv, A.CertsOk, A.StoredOk, A.QueuedPrepared, A.OwnPrepare, A.OwnCommit, A.OthersPrepare, A.WindowOk;
  }

  lemma DeliversParts(c: Config, outs: A.Outs, n: Node, acc: Accepted, e: Event)
    requires A.Delivers(c, {}, outs, n, acc, e)
    ensures Allowed(c, n, acc, e) && EventShaped(c, e)
  {
    hide Shaped, Allowed, A.Windowed, A.Genuine;
  }

  lemma {:induction false} AlwaysKept(c: Config, run: seq<A.Action>)
    ensures AllKept(c, A.Run(c, {}, run))
  {
    if run == [] {
      forall i | 0 <= i < c.Nodes() ensures Kept(c, A.OutsOf(A.BootCluster(c)), A.BootCluster(c).nodes[i]) {
        BootKept(c, A.OutsOf(A.BootCluster(c)), i);
      }
    } else {
      hide Kept, A.Next, A.AllGood;
      AlwaysKept(c, run[..|run| - 1]);
      A.RunGoodAlways(c, {}, run[..|run| - 1]);
      NextKept(c, A.Run(c, {}, run[..|run| - 1]), run[|run| - 1]);
    }
  }

  // ------------------------------------------------ breqStore

  function Settings(c: Config): V.Config { V.Settings(c.f, c.batch, c.ring) }

  function Record(c: Config, b: Batch): V.Batch
    requires BatchShaped(c, b)
  {
    V.Batch(LastId(b), b.view, LastHash(c, b))
  }

  /** The batches backup i keeps for its report, by slot: each batch it takes is
      written over what its slot held. */
  ghost function Breqs(c: Config, run: seq<A.Action>, i: nat): (breq: seq<V.Batch>)
    requires i < c.Nodes()
    ensures |breq| == c.ring
  {
    if run == [] then seq(c.ring, _ => V.Batch(EMPTY, 0, ""))
    else
      var s, a := A.Run(c, {}, run[..|run| - 1]), run[|run| - 1];
      var breq := Breqs(c, run[..|run| - 1], i);
      if a.node == i && a.event.BatchArrives? && A.Enabled(c, {}, s, a) && Handle(c, s.nodes[i], a.event).Ok?
      then breq[LastId(a.event.batch) % c.ring := Record(c, a.event.batch)]
      else breq
  }

  ghost predicate BreqsOk(c: Config, breq: seq<V.Batch>, acc: Accepted) {
    && |breq| == c.ring && AcceptedOk(c, acc)
    && (forall s: nat :: s < c.ring && breq[s].last != EMPTY ==>
          breq[s].last in acc && breq[s].last % c.ring == s && BatchShaped(c, acc[breq[s].last]) && breq[s] == Record(c, acc[breq[s].last]))
    && (forall k :: k in acc ==> breq[k % c.ring].last != EMPTY && k <= breq[k % c.ring].last)
    && (forall k :: k in acc ==> acc[k].view == c.primary)
  }

  lemma BreqsTake(c: Config, n: Node, breq: seq<V.Batch>, acc: Accepted, b: Batch)
    requires Inv(c, n, acc) && A.WindowOk(c, n.next, acc) && BreqsOk(c, breq, acc)
    requires GoodBatch(c, b) && LastId(b) !in acc && AcceptedOk(c, acc[LastId(b) := b]) && b.view == c.primary
    ensures BatchShaped(c, b)
    ensures BreqsOk(c, breq[LastId(b) % c.ring := Record(c, b)], acc[LastId(b) := b])
  {
    hide Inv, AcceptedOk, IsEnd;
    P.GoodShaped(c, b);
    A.Ahead(c, n, acc, b);
    var k := LastId(b);
    assert k != EMPTY by { EndsBelow(c, b); }
    forall j | j in acc && j % c.ring == k % c.ring
      ensures j <= k
    {
      if k < j { A.LiveSlots(c, n.next, k, j); }
    }
  }

  lemma EndsBelow(c: Config, b: Batch)
    requires GoodBatch(c, b)
    ensures LastId(b) != EMPTY
  {
  }

  lemma AcceptsView(c: Config, n: Node, b: Batch)
    requires Shaped(c, n) && BatchShaped(c, b) && ProcessBatch(c, n, b).Ok?
    ensures b.view == c.primary
  {
    hide Install, Append, SendPrep, CatchUp;
  }

  lemma {:induction false} AlwaysBreqs(c: Config, run: seq<A.Action>, i: nat)
    requires i < c.Nodes() && i != c.primary
    ensures BreqsOk(c, Breqs(c, run, i), A.Run(c, {}, run).accs[i])
  {
    hide A.Good, ProcessBatch, ProcessPrep, ProcessCommit, ProcessExecute, ProcessOrder, ProcessClientBatch, Shaped, GoodBatch, AcceptedOk, A.Genuine, A.Windowed,
         Inv, A.WindowOk, BreqsOk;
    if run == [] {
      NoBreqs(c);
    } else {
      var s, a := A.Run(c, {}, run[..|run| - 1]), run[|run| - 1];
      AlwaysBreqs(c, run[..|run| - 1], i);
      if A.Enabled(c, {}, s, a) && Handle(c, s.nodes[a.node], a.event).Ok? && a.node == i {
        A.RunGoodAlways(c, {}, run[..|run| - 1]);
        assert A.Good(c, {}, A.OutsOf(s), s.nodes[i], s.accs[i]);
        GoodParts(c, A.OutsOf(s), s.nodes[i], s.accs[i]);
        if a.event.BatchArrives? {
          var b := a.event.batch;
          P.HandleInv(c, s.nodes[i], s.accs[i], a.event);
          P.InvShaped(c, Handle(c, s.nodes[i], a.event).node, Grow(c, s.accs[i], a.event));
          AcceptsView(c, s.nodes[i], b);
          BreqsTake(c, s.nodes[i], Breqs(c, run[..|run| - 1], i), s.accs[i], b);
        }
      }
    }
  }

  lemma NoBreqs(c: Config)
    ensures BreqsOk(c, seq(c.ring, _ => V.Batch(EMPTY, 0, "")), map[])
  {
  }

  // ------------------------------------------------ the tables a report is made from

  function PrepOf(w: Vote): V.Prep { V.Prep(w.endIndex, w.view, w.hash) }

  ghost function PrepTable(c: Config, prep: A.Slots): seq<seq<V.Prep>>
    requires A.Rows(c, prep)
  {
    seq(c.ring, s requires 0 <= s < c.ring => seq(c.Nodes(), r requires 0 <= r < c.Nodes() => PrepOf(prep[s][r])))
  }

  lemma {:induction false} TaggedLike(row: seq<Vote>, row': seq<V.Prep>, k: nat)
    requires |row| == |row'| && forall r :: 0 <= r < |row| ==> (row'[r].endIndex == k <==> row[r].txnId == k)
    ensures |V.Tagged(row', k)| == |Tagged(row, k)|
  {
    if row != [] {
      TaggedLike(row[..|row| - 1], row'[..|row| - 1], k);
    }
  }

  /** The columns of batch k's slot are those of batch k, when no later one is there. */
  lemma TableCount(c: Config, outs: A.Outs, prep: A.Slots, k: nat)
    requires A.Rows(c, prep) && PrepsKept(outs, c, prep) && k != EMPTY
    requires forall r :: 0 <= r < c.Nodes() && prep[k % c.ring][r].txnId != EMPTY ==> prep[k % c.ring][r].txnId <= k
    ensures |V.Tagged(PrepTable(c, prep)[k % c.ring], k)| == |ColsSince(prep[k % c.ring], k)|
  {
    hide IsEnd, BatchStart;
    var row := prep[k % c.ring];
    forall r: nat | r < c.Nodes()
      ensures PrepTable(c, prep)[k % c.ring][r].endIndex == k <==> row[r].txnId == k
      ensures r in ColsSince(row, k) <==> row[r].txnId == k
    {
      assert PrepKept(outs, c, row[r], k % c.ring, r);
    }
    TaggedLike(row, PrepTable(c, prep)[k % c.ring], k);
    TaggedSize(row, k);
    assert ColsTagged(row, k) == ColsSince(row, k);
  }

  // ------------------------------------------------ the theorems

  /** Node r still has its slot for batch k: no later batch has taken it. */
  ghost predicate NotOverwritten(c: Config, run: seq<A.Action>, r: nat, k: nat)
    requires r < c.Nodes()
  {
    var n, last := A.Run(c, {}, run).nodes[r], Breqs(c, run, r)[k % c.ring].last;
    && (last == EMPTY || last <= k)
    && k % c.ring < |n.prep|
    && forall w :: w in n.prep[k % c.ring] && w.txnId != EMPTY ==> w.txnId <= k
  }

  ghost function TablesOf(c: Config, run: seq<A.Action>, r: nat): V.Tables
    requires r < c.Nodes() && A.Rows(c, A.Run(c, {}, run).nodes[r].prep)
  {
    V.Tables(Breqs(c, run, r), PrepTable(c, A.Run(c, {}, run).nodes[r].prep))
  }

  lemma TablesShaped(c: Config, run: seq<A.Action>, r: nat)
    requires r < c.Nodes()
    ensures A.Rows(c, A.Run(c, {}, run).nodes[r].prep)
    ensures V.Shaped(Settings(c), TablesOf(c, run, r).breq, TablesOf(c, run, r).prep)
  {
    hide A.Run;
    assert Shaped(c, A.Run(c, {}, run).nodes[r]);
    C.RowsOf(c, A.Run(c, {}, run).nodes[r]);
  }

  /** A node that sent its commit for k and still has the slot holds the batch. */
  lemma CommitterHolds(c: Config, run: seq<A.Action>, r: nat, v: Vote)
    requires r < c.Nodes() && r != c.primary
    requires Commit(v) in A.Run(c, {}, run).nodes[r].out && NotOverwritten(c, run, r, v.txnId)
    ensures A.Rows(c, A.Run(c, {}, run).nodes[r].prep)
    ensures V.StillHolds(Settings(c), TablesOf(c, run, r), v.txnId, v.hash)
  {
    hide A.Run, Inv, Breqs, A.Rows, PrepTable, ColsSince, AcceptedOk, GoodVote, IsEnd, V.Shaped;
    var s, k := A.Run(c, {}, run), v.txnId;
    var n, acc := s.nodes[r], s.accs[r];
    TablesShaped(c, run, r);
    L.RunInvAlways(c, {}, run);
    AlwaysKept(c, run);
    AlwaysBreqs(c, run, r);
    assert Kept(c, A.OutsOf(s), n);
    assert Inv(c, n, acc);
    SentAccepted(c, n, acc, v);
    P.AcceptedLate(c, acc, k);
    Rowed(c, n.prep, k);
    TableCount(c, A.OutsOf(s), n.prep, k);
    var breq := Breqs(c, run, r);
    assert breq[k % c.ring].last == k;
  }

  lemma Rowed(c: Config, prep: A.Slots, k: nat)
    requires A.Rows(c, prep)
    ensures k % c.ring < |prep| && |prep[k % c.ring]| == c.Nodes()
    ensures forall r :: 0 <= r < c.Nodes() ==> prep[k % c.ring][r] in prep[k % c.ring]
  {
  }

  /** A batch committed at one node, above the stable checkpoint, is reported with the
      digest it was committed with by one of any 2f nodes other than the old primary
      whose slots for it no later batch has taken. */
  lemma CommittedSurvives(c: Config, run: seq<A.Action>, i: nat, k: nat, stable: nat, reporters: set<nat>) returns (r: nat)
    requires i < c.Nodes() && Queued(c, A.Run(c, {}, run).nodes[i].out, k) && stable < k
    requires reporters <= NodesBelow(c.Nodes()) - {c.primary} && 2 * c.f <= |reporters|
    requires forall x :: x in reporters ==> NotOverwritten(c, run, x, k)
    ensures r in reporters && r < c.Nodes() && A.Rows(c, A.Run(c, {}, run).nodes[r].prep)
    ensures var t := TablesOf(c, run, r);
            && V.Shaped(Settings(c), t.breq, t.prep)
            && k in A.Run(c, {}, run).accs[i] && BatchShaped(c, A.Run(c, {}, run).accs[i][k])
            && exists b :: b in V.Report(Settings(c), t.breq, t.prep, stable)
                           && b.last == k && b.hash == LastHash(c, A.Run(c, {}, run).accs[i][k])
  {
    hide A.Run, A.Good, Queued, NotOverwritten, V.Report, V.StillHolds, A.Rows, V.Shaped, TablesOf, LastHash;
    var s := A.Run(c, {}, run);
    A.RunGoodAlways(c, {}, run);
    assert A.Good(c, {}, A.OutsOf(s), s.nodes[i], s.accs[i]);
    A.GoodInv(c, {}, A.OutsOf(s), s.nodes[i], s.accs[i]);
    var q := A.CertificateOf(c, {}, s, i, k);
    Overlap(q, reporters, c.Nodes());
    r := NotAllIn(q * reporters, {});
    var v: Vote :| v.txnId == k && v.hash == LastHash(c, s.accs[i][k]) && Commit(v) in s.nodes[r].out;
    CommitterHolds(c, run, r, v);
    TablesShaped(c, run, r);
    L.RunInvAlways(c, {}, run);
    SentAccepted(c, s.nodes[r], s.accs[r], v);
    P.AcceptedLate(c, s.accs[r], k);
    V.HeldIsReported(Settings(c), TablesOf(c, run, r), stable, k, v.hash);
  }

  /** No slot has been taken while the primary has not made the batch a ring later. */
  lemma NotLapped(c: Config, run: seq<A.Action>, r: nat, k: nat)
    requires r < c.Nodes() && r != c.primary
    requires forall j :: j in A.Run(c, {}, run).accs[c.primary] ==> j < k + c.ring
    ensures NotOverwritten(c, run, r, k)
  {
    hide A.Run, Inv, Breqs, AcceptedOk, GoodVote, IsEnd, A.Rows, CommitsKept;
    var s := A.Run(c, {}, run);
    var n := s.nodes[r];
    TablesShaped(c, run, r);
    L.RunInvAlways(c, {}, run);
    AlwaysKept(c, run);
    AlwaysBreqs(c, run, r);
    assert Kept(c, A.OutsOf(s), n);
    Rowed(c, n.prep, k);
    forall j | 0 <= j < c.Nodes() && n.prep[k % c.ring][j].txnId != EMPTY
      ensures n.prep[k % c.ring][j].txnId <= k
    {
      var w := n.prep[k % c.ring][j];
      assert PrepKept(A.OutsOf(s), c, w, k % c.ring, j);
      assert Prepare(w) in s.nodes[j].out;
      assert Inv(c, s.nodes[j], s.accs[j]);
      SentAccepted(c, s.nodes[j], s.accs[j], w);
      L.FollowsAlways(c, {}, run, j);
      if k < w.txnId { SameSlot(k, w.txnId, c.ring); }
    }
    L.FollowsAlways(c, {}, run, r);
    var j := Breqs(c, run, r)[k % c.ring].last;
    if j != EMPTY && k < j { SameSlot(k, j, c.ring); }
  }

  /** So a committed batch is reported as long as the primary has not made the batch
      one ring later. */
  lemma SurvivesUntilLapped(c: Config, run: seq<A.Action>, i: nat, k: nat, stable: nat, reporters: set<nat>) returns (r: nat)
    requires i < c.Nodes() && Queued(c, A.Run(c, {}, run).nodes[i].out, k) && stable < k
    requires reporters <= NodesBelow(c.Nodes()) - {c.primary} && 2 * c.f <= |reporters|
    requires forall j :: j in A.Run(c, {}, run).accs[c.primary] ==> j < k + c.ring
    ensures r in reporters && r < c.Nodes() && A.Rows(c, A.Run(c, {}, run).nodes[r].prep)
    ensures var t := TablesOf(c, run, r);
            && V.Shaped(Settings(c), t.breq, t.prep)
            && k in A.Run(c, {}, run).accs[i] && BatchShaped(c, A.Run(c, {}, run).accs[i][k])
            && exists b :: b in V.Report(Settings(c), t.breq, t.prep, stable)
                           && b.last == k && b.hash == LastHash(c, A.Run(c, {}, run).accs[i][k])
  {
    hide A.Run, Queued, NotOverwritten, V.Report, A.Rows, V.Shaped, TablesOf, LastHash;
    forall x | x in reporters ensures NotOverwritten(c, run, x, k) {
      NotLapped(c, run, x, k);
    }
    r := CommittedSurvives(c, run, i, k, stable, reporters);
  }

  /** And no report fails an assertion: a stored prepare of a stored batch agrees with it. */
  lemma ReportsNeverFail(c: Config, run: seq<A.Action>, r: nat, stable: nat, slot: nat)
    requires r < c.Nodes() && r != c.primary && slot < c.ring
    ensures A.Rows(c, A.Run(c, {}, run).nodes[r].prep)
    ensures V.Shaped(Settings(c), TablesOf(c, run, r).breq, TablesOf(c, run, r).prep)
    ensures V.Agrees(Settings(c), TablesOf(c, run, r).breq, TablesOf(c, run, r).prep, stable, slot)
  {
    hide A.Run, Inv, Breqs, AcceptedOk, IsEnd, CommitsKept, V.Shaped, BatchStart;
    var s := A.Run(c, {}, run);
    var n := s.nodes[r];
    TablesShaped(c, run, r);
    L.RunInvAlways(c, {}, run);
    AlwaysKept(c, run);
    AlwaysBreqs(c, run, r);
    assert Kept(c, A.OutsOf(s), n);
    var t := TablesOf(c, run, r);
    var b := t.breq[slot];
    L.FollowsAlways(c, {}, run, r);
    if stable < b.last < EMPTY {
      forall j: nat | j < c.Nodes() && t.prep[b.last % c.ring][j].endIndex == b.last
        ensures t.prep[b.last % c.ring][j].view == b.view && t.prep[b.last % c.ring][j].hash == b.hash
      {
        var w := n.prep[b.last % c.ring][j];
        assert PrepKept(A.OutsOf(s), c, w, b.last % c.ring, j);
        assert Prepare(w) in s.nodes[j].out;
        assert Inv(c, s.nodes[j], s.accs[j]);
        SentAccepted(c, s.nodes[j], s.accs[j], w);
        L.FollowsAlways(c, {}, run, j);
      }
    }
  }

  // ------------------------------------------------ what the new view chooses

  /** A reported batch as the new primary numbers it. */
  function ItemOf(c: Config, b: V.Batch): V.Item {
    V.Item(if c.batch <= b.last + 1 then b.last + 1 - c.batch else 0, b.view, b.hash)
  }

  ghost function ItemsOf(c: Config, run: seq<A.Action>, r: nat, stable: nat): seq<V.Item>
    requires r < c.Nodes()
  {
    TablesShaped(c, run, r);
    var t := TablesOf(c, run, r);
    var bs := V.Report(Settings(c), t.breq, t.prep, stable);
    seq(|bs|, i requires 0 <= i < |bs| => ItemOf(c, bs[i]))
  }

  ghost predicate Reporters(c: Config, rs: seq<nat>) {
    forall j :: 0 <= j < |rs| ==> rs[j] < c.Nodes() && rs[j] != c.primary
  }

  ghost function Messages(c: Config, run: seq<A.Action>, rs: seq<nat>, stable: nat): seq<seq<V.Item>>
    requires Reporters(c, rs)
  {
    seq(|rs|, j requires 0 <= j < |rs| => ItemsOf(c, run, rs[j], stable))
  }

  lemma {:induction false} FlatFrom(messages: seq<seq<V.Item>>, x: V.Item) returns (j: nat)
    requires x in V.Flat(messages)
    ensures j < |messages| && x in messages[j]
  {
    var n := |messages| - 1;
    if x in messages[n] {
      j := n;
    } else {
      j := FlatFrom(messages[..n], x);
    }
  }

  /** The item stands for a batch of the primary above the checkpoint, with its digest. */
  ghost predicate LeadItem(c: Config, lead: Accepted, stable: nat, x: V.Item) {
    var k := x.first + c.batch - 1;
    && k in lead && stable < k && IsEnd(c, k)
    && BatchShaped(c, lead[k]) && x.hash == LastHash(c, lead[k]) && x.view == c.primary
  }

  /** A reported batch is one the reporter accepted, so the primary's of that index. */
  lemma ItemSound(c: Config, run: seq<A.Action>, r: nat, stable: nat, x: V.Item)
    requires r < c.Nodes() && r != c.primary && x in ItemsOf(c, run, r, stable)
    ensures LeadItem(c, A.Run(c, {}, run).accs[c.primary], stable, x)
  {
    hide A.Run, Breqs, AcceptedOk, V.Shaped, V.Report, PrepTable, IsEnd;
    TablesShaped(c, run, r);
    var t := TablesOf(c, run, r);
    var bs := V.Report(Settings(c), t.breq, t.prep, stable);
    var j :| 0 <= j < |bs| && x == ItemOf(c, bs[j]);
    var i := ReportSound(Settings(c), t, stable, bs[j]);
    AlwaysBreqs(c, run, r);
    L.FollowsAlways(c, {}, run, r);
    P.AcceptedLate(c, A.Run(c, {}, run).accs[r], bs[j].last);
  }

  lemma ReportSound(c: V.Config, t: V.Tables, stable: nat, b: V.Batch) returns (i: nat)
    requires V.Shaped(c, t.breq, t.prep) && b in V.Report(c, t.breq, t.prep, stable)
    ensures i < c.ring && b == t.breq[i] && stable < b.last < EMPTY
  {
    hide V.Scan, V.Picked;
    var st := (stable + 1) % c.ring;
    if b in V.Scan(c, t.breq, t.prep, stable, st, c.ring) {
      V.ScanSound(c, t.breq, t.prep, stable, st, c.ring, b);
    } else {
      V.ScanSound(c, t.breq, t.prep, stable, 0, st, b);
    }
    i :| 0 <= i < c.ring && V.Picked(c, t.breq, t.prep, stable, i) == [b];
    PickedLive(c, t, stable, i, b);
  }

  lemma PickedLive(c: V.Config, t: V.Tables, stable: nat, i: nat, b: V.Batch)
    requires V.Shaped(c, t.breq, t.prep) && i < c.ring && V.Picked(c, t.breq, t.prep, stable, i) == [b]
    ensures b == t.breq[i] && stable < b.last < EMPTY
  {
    hide V.Tagged;
  }

  lemma FirstBetween(c: Config, stable: nat, maxS: nat, k: nat)
    requires IsEnd(c, k) && stable < k <= maxS
    ensures c.batch <= k + 1 && V.Between(Settings(c), stable, maxS, k + 1 - c.batch)
  {
    EndIsLate(c, k);
    var q := (k + 1) / c.batch;
    assert k + 1 == c.batch * q;
    assert c.batch * (q - 1) == c.batch * q - c.batch;
    DivUnique(k + 1 - c.batch, c.batch, q - 1, 0);
  }

  /** The committed batch is among the items sent to the new primary. */
  lemma CommittedSent(c: Config, run: seq<A.Action>, i: nat, k: nat, stable: nat, rs: seq<nat>) returns (x: V.Item)
    requires i < c.Nodes() && Queued(c, A.Run(c, {}, run).nodes[i].out, k) && stable < k
    requires Reporters(c, rs) && 2 * c.f <= |set r | r in rs| && forall j :: 0 <= j < |rs| ==> NotOverwritten(c, run, rs[j], k)
    ensures x in V.Flat(Messages(c, run, rs, stable)) && x.first == if c.batch <= k + 1 then k + 1 - c.batch else 0
  {
    hide A.Run, Queued, NotOverwritten, V.Report, V.Shaped, TablesOf, LastHash, V.Flat;
    var reporters := set r | r in rs;
    forall x | x in reporters ensures x < c.Nodes() && x != c.primary && NotOverwritten(c, run, x, k) {
      var j :| 0 <= j < |rs| && rs[j] == x;
    }
    var r := CommittedSurvives(c, run, i, k, stable, reporters);
    var t := TablesOf(c, run, r);
    TablesShaped(c, run, r);
    var bs := V.Report(Settings(c), t.breq, t.prep, stable);
    var n :| 0 <= n < |bs| && bs[n].last == k;
    var j :| 0 <= j < |rs| && rs[j] == r;
    x := ItemOf(c, bs[n]);
    V.FlatHas(Messages(c, run, rs, stable), j, n);
  }

  /** From one view to the next: for every batch committed at some node above the
      checkpoint, both the new primary's choice from the reports of any 2f backups and
      the backups' check of it find the batch with the digest it was committed with. */
  lemma CommittedIsChosen(c: Config, run: seq<A.Action>, i: nat, k: nat, stable: nat, maxS: nat, rs: seq<nat>)
    requires i < c.Nodes() && Queued(c, A.Run(c, {}, run).nodes[i].out, k)
    requires (stable + 1) % c.batch == 0 && (maxS + 1) % c.batch == 0 && stable < k <= maxS < V.UINT
    requires Reporters(c, rs) && 2 * c.f <= |set r | r in rs| && forall j :: 0 <= j < |rs| ==> NotOverwritten(c, run, rs[j], k)
    requires forall x :: x in V.Flat(Messages(c, run, rs, stable)) ==> x.first + c.batch - 1 <= maxS
    ensures k in A.Run(c, {}, run).accs[i] && BatchShaped(c, A.Run(c, {}, run).accs[i][k]) && c.batch <= k + 1
    ensures var items, p := V.Flat(Messages(c, run, rs, stable)), V.Pos(Settings(c), stable, k + 1 - c.batch);
            var a, b := V.FirstMax(Settings(c), stable, items, p), V.LastMax(Settings(c), stable, items, p);
            && p < V.Slots(Settings(c), stable, maxS)
            && a.Some? && a.value.first == k + 1 - c.batch && a.value.hash == LastHash(c, A.Run(c, {}, run).accs[i][k])
            && b.Some? && b.value.first == k + 1 - c.batch && b.value.hash == LastHash(c, A.Run(c, {}, run).accs[i][k])
  {
    hide A.Run, A.Good, Queued, NotOverwritten, V.Flat, V.FirstMax, V.LastMax, V.Pos, V.Slots, V.Between, Messages, IsEnd, Inv, AcceptedOk;
    var s := A.Run(c, {}, run);
    var items := V.Flat(Messages(c, run, rs, stable));
    var x := CommittedSent(c, run, i, k, stable, rs);
    L.RunInvAlways(c, {}, run);
    CommittedAccepted(c, run, i, k);
    FirstBetween(c, stable, maxS, k);
    V.PosCounts(Settings(c), stable, maxS, k + 1 - c.batch);
    var p := V.Pos(Settings(c), stable, k + 1 - c.batch);
    V.MaxOf(Settings(c), stable, items, p);
    ChosenSound(c, run, k, stable, maxS, rs, V.FirstMax(Settings(c), stable, items, p).value);
    ChosenSound(c, run, k, stable, maxS, rs, V.LastMax(Settings(c), stable, items, p).value);
    L.FollowsAlways(c, {}, run, i);
  }

  lemma CommittedAccepted(c: Config, run: seq<A.Action>, i: nat, k: nat)
    requires i < c.Nodes() && Queued(c, A.Run(c, {}, run).nodes[i].out, k)
    ensures k in A.Run(c, {}, run).accs[i] && BatchShaped(c, A.Run(c, {}, run).accs[i][k]) && IsEnd(c, k)
  {
    hide A.Run, Inv, Queued, IsEnd, AcceptedOk;
    L.RunInvAlways(c, {}, run);
    var n, acc := A.Run(c, {}, run).nodes[i], A.Run(c, {}, run).accs[i];
    assert Inv(c, n, acc);
    if k !in acc { P.NotYetQueued(c, n, acc, k); }
    P.InvShaped(c, n, acc);
    P.AcceptedLate(c, acc, k);
    assert BatchShaped(c, acc[k]) by { AcceptedShaped(c, acc, k); }
  }

  lemma AcceptedShaped(c: Config, acc: Accepted, k: nat)
    requires AcceptedOk(c, acc) && k in acc
    ensures BatchShaped(c, acc[k])
  {
  }

  /** An item with the number of batch k is the primary's batch k. */
  lemma ChosenSound(c: Config, run: seq<A.Action>, k: nat, stable: nat, maxS: nat, rs: seq<nat>, y: V.Item)
    requires (stable + 1) % c.batch == 0 && (maxS + 1) % c.batch == 0 && stable < k <= maxS < V.UINT && IsEnd(c, k) && c.batch <= k + 1
    requires Reporters(c, rs) && y in V.Flat(Messages(c, run, rs, stable)) && y.first + c.batch - 1 <= maxS
    requires V.Pos(Settings(c), stable, y.first) == V.Pos(Settings(c), stable, k + 1 - c.batch)
    ensures y.first == k + 1 - c.batch
    ensures var lead := A.Run(c, {}, run).accs[c.primary];
            k in lead && BatchShaped(c, lead[k]) && y.hash == LastHash(c, lead[k])
  {
    hide A.Run, V.Flat, V.Pos, V.Between, ItemsOf, IsEnd;
    var j := FlatFrom(Messages(c, run, rs, stable), y);
    ItemSound(c, run, rs[j], stable, y);
    FirstBetween(c, stable, maxS, k);
    FirstBetween(c, stable, maxS, y.first + c.batch - 1);
    V.PosCounts(Settings(c), stable, maxS, k + 1 - c.batch);
    V.PosCounts(Settings(c), stable, maxS, y.first);
  }
}
