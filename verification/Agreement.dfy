/** Agreement over every run of 3f+1 nodes of which at most f are faulty: two
    correct nodes that queue the EXECUTE of one batch accepted it with the same
    last digest.  Faulty nodes, the primary among them, may send any well-formed
    vote or batch to anyone at any time. */
module Agreement {
  import opened Arith
  import opened Protocol
  import opened Invariant
  import opened Quorum
  import P = Preserve
  import R = Replica

  // ------------------------------------------------ what one node keeps, given what the others sent

  type Outs = seq<seq<Msg>>
  type Slots = seq<seq<Vote>>

  ghost predicate Rows(c: Config, slots: Slots) {
    |slots| == c.ring && forall s :: 0 <= s < c.ring ==> |slots[s]| == c.Nodes()
  }

  /** Node r has sent m; the sender id reads its own queue out. */
  ghost predicate SentBy(outs: Outs, id: nat, out: seq<Msg>, r: nat, m: Msg) {
    if r == id then m in out else r < |outs| && m in outs[r]
  }

  /** Stored commits of correct nodes were sent by them. */
  ghost predicate StoredOk(c: Config, faulty: set<nat>, outs: Outs, id: nat, out: seq<Msg>, comm: Slots)
    requires Rows(c, comm)
  {
    forall s, r :: 0 <= s < c.ring && 0 <= r < c.Nodes() && r !in faulty && comm[s][r].txnId != EMPTY
                   ==> SentBy(outs, id, out, r, Commit(comm[s][r]))
  }

  /** Accepted batches end within one ring of the next index to execute. */
  ghost predicate WindowOk(c: Config, next: nat, acc: Accepted) {
    forall k :: k in acc ==> k < next + c.ring
  }

  ghost predicate QueuedPrepared(c: Config, out: seq<Msg>, txns: map<nat, Txn>) {
    forall k: nat :: Queued(c, out, k) ==> TxnOf(c, txns, k).prepared
  }

  /** A backup still holds its own prepare of a batch it has not executed. */
  ghost predicate OwnPrepare(c: Config, id: nat, prep: Slots, next: nat, acc: Accepted)
    requires Rows(c, prep) && id < c.Nodes()
  {
    id != c.primary ==> forall k :: k in acc && next <= k ==> prep[k % c.ring][id].txnId == k
  }

  /** A prepared node still holds its own commit of a batch it has not executed. */
  ghost predicate OwnCommit(c: Config, id: nat, comm: Slots, txns: map<nat, Txn>, next: nat)
    requires Rows(c, comm) && id < c.Nodes()
  {
    forall k: nat :: TxnOf(c, txns, k).prepared && next <= k ==> comm[k % c.ring][id].txnId == k
  }

  ghost predicate CorrectPrepare(c: Config, faulty: set<nat>, prep: Slots, k: nat)
    requires Rows(c, prep)
  {
    exists r: nat :: r < c.Nodes() && r !in faulty && prep[k % c.ring][r].txnId == k
  }

  /** A prepared primary still holds some correct node's prepare. */
  ghost predicate OthersPrepare(c: Config, faulty: set<nat>, id: nat, prep: Slots, txns: map<nat, Txn>, next: nat)
    requires Rows(c, prep)
  {
    id == c.primary ==>
      forall k: nat :: TxnOf(c, txns, k).prepared && next <= k ==> CorrectPrepare(c, faulty, prep, k)
  }

  ghost predicate Vouches(outs: Outs, id: nat, out: seq<Msg>, r: nat, k: nat, d: Digest) {
    exists v: Vote :: v.txnId == k && v.hash == d && SentBy(outs, id, out, r, Commit(v))
  }

  /** 2f+1 nodes whose correct members all sent a commit for batch k with digest d. */
  ghost predicate Certificate(c: Config, faulty: set<nat>, outs: Outs, id: nat, out: seq<Msg>, k: nat, d: Digest, q: set<nat>) {
    && q <= NodesBelow(c.Nodes())
    && 2 * c.f + 1 <= |q|
    && forall r :: r in q && r !in faulty ==> Vouches(outs, id, out, r, k, d)
  }

  ghost predicate Certified(c: Config, faulty: set<nat>, outs: Outs, id: nat, out: seq<Msg>, k: nat, d: Digest) {
    exists q: set<nat> :: Certificate(c, faulty, outs, id, out, k, d, q)
  }

  ghost predicate CertsOk(c: Config, faulty: set<nat>, outs: Outs, id: nat, out: seq<Msg>, acc: Accepted)
    requires AcceptedOk(c, acc)
  {
    forall k: nat :: Queued(c, out, k) && k in acc ==> Certified(c, faulty, outs, id, out, k, LastHash(c, acc[k]))
  }

  ghost predicate Good(c: Config, faulty: set<nat>, outs: Outs, n: Node, acc: Accepted) {
    && Inv(c, n, acc)
    && Rows(c, n.prep)
    && Rows(c, n.comm)
    && n.id < c.Nodes()
    && AcceptedOk(c, acc)
    && StoredOk(c, faulty, outs, n.id, n.out, n.comm)
    && WindowOk(c, n.next, acc)
    && QueuedPrepared(c, n.out, n.txns)
    && OwnPrepare(c, n.id, n.prep, n.next, acc)
    && OwnCommit(c, n.id, n.comm, n.txns, n.next)
    && OthersPrepare(c, faulty, n.id, n.prep, n.txns, n.next)
    && CertsOk(c, faulty, outs, n.id, n.out, acc)
  }

  // ------------------------------------------------ deliveries

  /** Live indices fit in one ring window. */
  ghost predicate Windowed(c: Config, next: nat, e: Event) {
    match e
    case ClientBatch(k, reqs) => c.batch * k + c.batch - 1 < next + c.ring
    case BatchArrives(b) => b.index != [] && LastId(b) < next + c.ring
    case PrepArrives(v) => v.endIndex < next + c.ring
    case CommitArrives(v) => v.endIndex < next + c.ring
    case _ => true
  }

  /** Authenticated senders, and per-sender order: a correct node's prepare never
      lands on a later prepare of the same node in the same slot. */
  ghost predicate Genuine(c: Config, faulty: set<nat>, outs: Outs, n: Node, e: Event)
    requires Shaped(c, n) && EventShaped(c, e)
  {
    match e
    case BatchArrives(b) => c.primary in faulty || SentBy(outs, n.id, n.out, c.primary, Announce(b))
    case PrepArrives(v) =>
      && v.sender != n.id
      && (v.sender !in faulty ==>
            && SentBy(outs, n.id, n.out, v.sender, Prepare(v))
            && var w := n.prep[v.endIndex % c.ring][v.sender];
               w.txnId == EMPTY || w.txnId <= v.txnId)
    case CommitArrives(v) =>
      v.sender != n.id && (v.sender !in faulty ==> SentBy(outs, n.id, n.out, v.sender, Commit(v)))
    case _ => true
  }

  ghost predicate Delivers(c: Config, faulty: set<nat>, outs: Outs, n: Node, acc: Accepted, e: Event) {
    && Shaped(c, n)
    && Allowed(c, n, acc, e)
    && EventShaped(c, e)
    && Windowed(c, n.next, e)
    && Genuine(c, faulty, outs, n, e)
  }

  // ------------------------------------------------ small steps

  lemma InvRows(c: Config, n: Node, acc: Accepted)
    requires Inv(c, n, acc)
    ensures Rows(c, n.prep) && Rows(c, n.comm) && n.id < c.Nodes() && AcceptedOk(c, acc) && Shaped(c, n)
  {
    hide StoresOk, SlotsOk, SentOk, ExecsOk, PreparedOk, LogOk;
    P.InvShaped(c, n, acc);
  }

  /** Two live batches never share a slot. */
  lemma LiveSlots(c: Config, next: nat, j: nat, k: nat)
    requires next <= j < next + c.ring && next <= k < next + c.ring
    requires j % c.ring == k % c.ring
    ensures j == k
  {
    if j < k { SlotsDiffer(j, k, c.ring); }
    if k < j { SlotsDiffer(k, j, c.ring); }
  }

  /** A slot that holds a live id holds nothing older that the window admits after it. */
  lemma LaterIsSame(c: Config, next: nat, k: nat, j: nat)
    requires next <= k <= j < next + c.ring && j % c.ring == k % c.ring
    ensures j == k
  {
    LiveSlots(c, next, j, k);
  }

  /** A remote prepare stored. */
  lemma PutPrepGood(c: Config, faulty: set<nat>, outs: Outs, n: Node, acc: Accepted, v: Vote)
    requires Good(c, faulty, outs, n, acc) && Shaped(c, n) && GoodVote(c, v) && Windowed(c, n.next, PrepArrives(v))
    requires Genuine(c, faulty, outs, n, PrepArrives(v))
    ensures Good(c, faulty, outs, PutPrep(c, n, v), acc)
  {
    hide Inv, CertsOk, StoredOk, WindowOk, QueuedPrepared, OwnCommit, Shaped, AcceptedOk, IsEnd, BatchStart;
    var m := PutPrep(c, n, v);
    P.PutPrepInv(c, n, acc, v);
    InvRows(c, m, acc);
    forall k: nat | n.id == c.primary && TxnOf(c, n.txns, k).prepared && n.next <= k
      ensures CorrectPrepare(c, faulty, m.prep, k)
    {
      P.PreparedImpliesAccepted(c, n, acc, k);
      P.AcceptedLate(c, acc, k);
      var r: nat :| r < c.Nodes() && r !in faulty && n.prep[k % c.ring][r].txnId == k;
      if v.endIndex % c.ring == k % c.ring && v.sender == r && k <= v.txnId {
        LaterIsSame(c, n.next, k, v.txnId);
      }
      assert m.prep[k % c.ring][r].txnId == k;
    }
  }

  /** A remote commit stored. */
  lemma PutCommGood(c: Config, faulty: set<nat>, outs: Outs, n: Node, acc: Accepted, v: Vote)
    requires Good(c, faulty, outs, n, acc) && Shaped(c, n) && GoodVote(c, v)
    requires Genuine(c, faulty, outs, n, CommitArrives(v))
    ensures Good(c, faulty, outs, PutComm(c, n, v), acc)
  {
    hide Inv, CertsOk, WindowOk, QueuedPrepared, OwnPrepare, OthersPrepare, Shaped, AcceptedOk, IsEnd, BatchStart;
    var m := PutComm(c, n, v);
    P.PutCommInv(c, n, acc, v);
    InvRows(c, m, acc);
  }

  /** A manager whose prepared flag does not rise. */
  lemma SetMgrGood(c: Config, faulty: set<nat>, outs: Outs, n: Node, acc: Accepted, id: nat, t: Txn)
    requires Good(c, faulty, outs, n, acc)
    requires t.query == Mgr(c, n, id).query && t.commitCnt <= Mgr(c, n, id).commitCnt && t.prepared == Mgr(c, n, id).prepared
    ensures Good(c, faulty, outs, SetMgr(n, id, t), acc)
  {
    hide Inv, CertsOk, WindowOk, StoredOk, OwnPrepare, Rows, AcceptedOk, CorrectPrepare, Queued;
    var m := SetMgr(n, id, t);
    P.PreparedImpliesAccepted(c, n, acc, id);
    P.SetMgrInv(c, n, acc, id, t);
    assert forall k: nat :: TxnOf(c, m.txns, k).prepared == TxnOf(c, n.txns, k).prepared;
  }

  // ------------------------------------------------ accepting a batch

  lemma SentGrows(outs: Outs, id: nat, out: seq<Msg>, out': seq<Msg>, r: nat, m: Msg)
    requires out <= out' && SentBy(outs, id, out, r, m)
    ensures SentBy(outs, id, out', r, m)
  {
  }

  lemma CertificateGrows(c: Config, faulty: set<nat>, outs: Outs, id: nat, out: seq<Msg>, out': seq<Msg>, k: nat, d: Digest)
    requires out <= out' && Certified(c, faulty, outs, id, out, k, d)
    ensures Certified(c, faulty, outs, id, out', k, d)
  {
    var q :| Certificate(c, faulty, outs, id, out, k, d, q);
    forall r | r in q && r !in faulty
      ensures Vouches(outs, id, out', r, k, d)
    {
      var v: Vote :| v.txnId == k && v.hash == d && SentBy(outs, id, out, r, Commit(v));
      SentGrows(outs, id, out, out', r, Commit(v));
    }
    assert Certificate(c, faulty, outs, id, out', k, d, q);
  }

  /** Queueing anything but an EXECUTE keeps what was sent before. */
  lemma EmitCerts(c: Config, faulty: set<nat>, outs: Outs, id: nat, out: seq<Msg>, acc: Accepted, m: Msg)
    requires AcceptedOk(c, acc) && CertsOk(c, faulty, outs, id, out, acc) && !m.Execute?
    ensures CertsOk(c, faulty, outs, id, out + [m], acc)
  {
    forall k: nat | Queued(c, out + [m], k) && k in acc
      ensures Certified(c, faulty, outs, id, out + [m], k, LastHash(c, acc[k]))
    {
      assert Queued(c, out, k);
      CertificateGrows(c, faulty, outs, id, out, out + [m], k, LastHash(c, acc[k]));
    }
  }

  lemma EmitStored(c: Config, faulty: set<nat>, outs: Outs, id: nat, out: seq<Msg>, comm: Slots, m: Msg)
    requires Rows(c, comm) && StoredOk(c, faulty, outs, id, out, comm)
    ensures StoredOk(c, faulty, outs, id, out + [m], comm)
  {
    forall s, r | 0 <= s < c.ring && 0 <= r < c.Nodes() && r !in faulty && comm[s][r].txnId != EMPTY
      ensures SentBy(outs, id, out + [m], r, Commit(comm[s][r]))
    {
      SentGrows(outs, id, out, out + [m], r, Commit(comm[s][r]));
    }
  }

  /** A message that is neither a vote nor an EXECUTE. */
  lemma EmitGood(c: Config, faulty: set<nat>, outs: Outs, n: Node, acc: Accepted, m: Msg)
    requires Good(c, faulty, outs, n, acc) && !m.Execute? && SentOk(c, n.id, [m], acc)
    ensures Good(c, faulty, outs, Emit(n, m), acc)
  {
    hide Inv, CertsOk, StoredOk, WindowOk, OwnPrepare, OwnCommit, OthersPrepare, Rows, AcceptedOk, SentOk;
    P.EmitInv(c, n, acc, m);
    EmitCerts(c, faulty, outs, n.id, n.out, acc, m);
    EmitStored(c, faulty, outs, n.id, n.out, n.comm, m);
  }

  /** The certificates of batches accepted earlier survive a new batch. */
  lemma TakeCerts(c: Config, faulty: set<nat>, outs: Outs, n: Node, acc: Accepted, b: Batch)
    requires Inv(c, n, acc) && b.index != [] && LastId(b) !in acc
    requires AcceptedOk(c, acc) && AcceptedOk(c, acc[LastId(b) := b]) && CertsOk(c, faulty, outs, n.id, n.out, acc)
    ensures CertsOk(c, faulty, outs, n.id, n.out, acc[LastId(b) := b])
  {
    hide Inv, Certified, Queued, AcceptedOk;
    P.NotYetQueued(c, n, acc, LastId(b));
  }

  /** A batch taken in at the primary, or at a backup that then stores its own prepare. */
  lemma TakeGood(c: Config, faulty: set<nat>, outs: Outs, n: Node, acc: Accepted, b: Batch, check: bool)
    requires Good(c, faulty, outs, n, acc) && Shaped(c, n) && GoodBatch(c, b) && LastId(b) !in acc
    requires LastId(b) < n.next + c.ring
    requires forall i :: 0 <= i < c.batch ==> b.hash[i] == DigestOf(b.reqs[i].req)
    requires Install(c, n, b, c.batch, check).Ok?
    ensures var m, acc' := Append(c, Install(c, n, b, c.batch, check).node, b, c.batch), acc[LastId(b) := b];
            && Inv(c, m, acc')
            && m == n.(pre := m.pre, cqry := m.cqry, txns := m.txns)
            && AcceptedOk(c, acc')
            && WindowOk(c, m.next, acc')
            && QueuedPrepared(c, m.out, m.txns)
            && OwnCommit(c, m.id, m.comm, m.txns, m.next)
            && OthersPrepare(c, faulty, m.id, m.prep, m.txns, m.next)
            && CertsOk(c, faulty, outs, m.id, m.out, acc')
            && !Mgr(c, m, LastId(b)).prepared
            && !Queued(c, m.out, LastId(b))
            && n.next <= LastId(b)
  {
    hide Inv, CertsOk, StoredOk, Rows, Shaped, AcceptedOk, GoodBatch, CorrectPrepare, Queued, Install, Append, OwnPrepare;
    P.GoodShaped(c, b);
    P.TakeInv(c, n, acc, b, check);
    var m, acc' := Append(c, Install(c, n, b, c.batch, check).node, b, c.batch), acc[LastId(b) := b];
    InvRows(c, m, acc');
    TakeCerts(c, faulty, outs, n, acc, b);
    P.PreparedImpliesAccepted(c, n, acc, LastId(b));
    P.NotYetQueued(c, n, acc, LastId(b));
    assert n.next <= LastId(b) by { Ahead(c, n, acc, b); }
    assert forall k: nat :: TxnOf(c, m.txns, k).prepared == TxnOf(c, n.txns, k).prepared by {
      PreparedSame(c, n, m);
    }
  }

  lemma Ahead(c: Config, n: Node, acc: Accepted, b: Batch)
    requires Inv(c, n, acc) && GoodBatch(c, b) && LastId(b) !in acc
    ensures n.next <= LastId(b)
  {
    hide StoresOk, SlotsOk, SentOk, ExecsOk, PreparedOk, LogOk, Shaped;
    P.FreshAhead(c, n, acc, b);
  }

  lemma PreparedSame(c: Config, n: Node, m: Node)
    requires P.CountersSame(c, n, m)
    ensures forall k: nat :: TxnOf(c, m.txns, k).prepared == TxnOf(c, n.txns, k).prepared
  {
    forall k: nat ensures TxnOf(c, m.txns, k).prepared == TxnOf(c, n.txns, k).prepared {
      assert Mgr(c, n, k).prepared == Mgr(c, m, k).prepared;
    }
  }

  /** A backup's own prepare for a batch it has just taken in. */
  lemma SendPrepGood(c: Config, faulty: set<nat>, outs: Outs, n: Node, acc0: Accepted, b: Batch)
    requires b.index != [] && Shaped(c, n) && n.next <= LastId(b) && LastId(b) !in acc0
    requires var acc := acc0[LastId(b) := b];
             && Inv(c, n, acc) && AcceptedOk(c, acc) && Rows(c, n.prep) && Rows(c, n.comm)
             && WindowOk(c, n.next, acc) && QueuedPrepared(c, n.out, n.txns)
             && StoredOk(c, faulty, outs, n.id, n.out, n.comm)
             && OwnPrepare(c, n.id, n.prep, n.next, acc0)
             && OwnCommit(c, n.id, n.comm, n.txns, n.next)
             && CertsOk(c, faulty, outs, n.id, n.out, acc)
    requires SendPrep(c, n, LastId(b)).Ok?
    ensures Good(c, faulty, outs, SendPrep(c, n, LastId(b)).node, acc0[LastId(b) := b])
  {
    hide Inv, CertsOk, StoredOk, QueuedPrepared, Shaped, AcceptedOk, GoodVote, BatchStart, Queued;
    var k, acc := LastId(b), acc0[LastId(b) := b];
    var v := OwnVote(c, n, k);
    P.OwnVoteCast(c, n, acc, k);
    P.SendPrepInv(c, n, acc, k);
    var m := SendPrep(c, n, k).node;
    InvRows(c, m, acc);
    EmitCerts(c, faulty, outs, n.id, n.out, acc, Prepare(v));
    EmitStored(c, faulty, outs, n.id, n.out, n.comm, Prepare(v));
    forall j | j in acc && n.next <= j
      ensures m.prep[j % c.ring][n.id].txnId == j
    {
      if j != k && j % c.ring == k % c.ring {
        LiveSlots(c, n.next, j, k);
      }
    }
    DownPrepared(c, n.txns, m.txns);
    assert QueuedPrepared(c, m.out, m.txns) by {
      EmitQueued(c, n.out, n.txns, Prepare(v));
      SamePrepared(c, m.out, n.txns, m.txns);
    }
  }

  lemma DownPrepared(c: Config, txns: map<nat, Txn>, txns': map<nat, Txn>)
    requires P.CountedDown(c, txns, txns')
    ensures forall k: nat :: TxnOf(c, txns', k).prepared == TxnOf(c, txns, k).prepared
  {
  }

  lemma SamePrepared(c: Config, out: seq<Msg>, txns: map<nat, Txn>, txns': map<nat, Txn>)
    requires QueuedPrepared(c, out, txns)
    requires forall k: nat :: TxnOf(c, txns, k).prepared ==> TxnOf(c, txns', k).prepared
    ensures QueuedPrepared(c, out, txns')
  {
    hide Queued, TxnOf;
  }

  lemma EmitQueued(c: Config, out: seq<Msg>, txns: map<nat, Txn>, m: Msg)
    requires QueuedPrepared(c, out, txns) && !m.Execute?
    ensures QueuedPrepared(c, out + [m], txns)
  {
    forall k: nat | Queued(c, out + [m], k)
      ensures TxnOf(c, txns, k).prepared
    {
      assert Queued(c, out, k);
    }
  }

  // ------------------------------------------------ becoming prepared

  /** prepared set and the own commit stored and sent, for a live accepted batch. */
  lemma CommitGood(c: Config, faulty: set<nat>, outs: Outs, n: Node, acc: Accepted, k: nat)
    requires Good(c, faulty, outs, n, acc) && Shaped(c, n) && k in acc && n.next <= k
    requires n.id == c.primary ==> CorrectPrepare(c, faulty, n.prep, k)
    requires SendCommit(c, MarkPrepared(c, n, k), k).Ok?
    ensures Good(c, faulty, outs, SendCommit(c, MarkPrepared(c, n, k), k).node, acc)
  {
    hide Inv, CertsOk, StoredOk, OwnPrepare, Shaped, AcceptedOk, GoodVote, BatchStart, Queued, CorrectPrepare;
    var q := MarkPrepared(c, n, k);
    P.SetMgrInv(c, n, acc, k, Mgr(c, n, k).(prepared := true));
    InvRows(c, q, acc);
    P.OwnVoteCast(c, q, acc, k);
    P.SendCommitInv(c, q, acc, k);
    var v := OwnVote(c, q, k);
    var m := SendCommit(c, q, k).node;
    InvRows(c, m, acc);
    EmitCerts(c, faulty, outs, n.id, n.out, acc, Commit(v));
    EmitStored(c, faulty, outs, n.id, n.out, n.comm, Commit(v));
    StoreOwn(c, faulty, outs, n.id, m.out, n.comm, v);
    forall j: nat | TxnOf(c, m.txns, j).prepared && n.next <= j
      ensures m.comm[j % c.ring][n.id].txnId == j
    {
      P.PreparedImpliesAccepted(c, m, acc, j);
      if j != k && j % c.ring == k % c.ring {
        LiveSlots(c, n.next, j, k);
      }
    }
    DownPrepared(c, q.txns, m.txns);
    assert QueuedPrepared(c, m.out, m.txns) by {
      EmitQueued(c, n.out, n.txns, Commit(v));
      SamePrepared(c, m.out, n.txns, m.txns);
    }
  }

  lemma StoreOwn(c: Config, faulty: set<nat>, outs: Outs, id: nat, out: seq<Msg>, comm: Slots, v: Vote)
    requires Rows(c, comm) && id < c.Nodes() && StoredOk(c, faulty, outs, id, out, comm) && v.sender == id && Commit(v) in out
    ensures var s := v.endIndex % c.ring;
            Rows(c, comm[s := comm[s][id := v]]) && StoredOk(c, faulty, outs, id, out, comm[s := comm[s][id := v]])
  {
  }

  // ------------------------------------------------ becoming committed

  /** A batch not yet queued for execution is not executed either. */
  lemma NotQueuedLive(c: Config, n: Node, acc: Accepted, k: nat)
    requires Inv(c, n, acc) && IsEnd(c, k) && !Queued(c, n.out, k)
    ensures n.next <= k
  {
    hide StoresOk, SlotsOk, SentOk, ExecsOk, PreparedOk, Shaped, Queued, IsEnd;
  }

  /** An entry's index is that of batch k exactly when its id is k. */
  lemma IndexIsTag(c: Config, slots: Slots, s: nat, r: nat, k: nat)
    requires SlotsOk(c, slots) && s < c.ring && r < c.Nodes() && IsEnd(c, k)
    ensures slots[s][r].index == BatchStart(c, k) <==> slots[s][r].txnId == k
  {
    EndIsLate(c, k);
    assert EntryOk(c, slots[s][r], s, r);
    if slots[s][r].txnId != EMPTY {
      EndIsLate(c, slots[s][r].endIndex);
    }
  }

  lemma InvSlots(c: Config, n: Node, acc: Accepted)
    requires Inv(c, n, acc)
    ensures SlotsOk(c, n.prep) && SlotsOk(c, n.comm) && SentOk(c, n.id, n.out, acc)
  {
    hide StoresOk, SlotsOk, SentOk, ExecsOk, PreparedOk, LogOk, Shaped;
  }

  /** Some stored prepare carries the id of a live prepared batch. */
  lemma HasReference(c: Config, faulty: set<nat>, outs: Outs, n: Node, acc: Accepted, k: nat) returns (r: nat)
    requires Good(c, faulty, outs, n, acc) && Mgr(c, n, k).prepared && n.next <= k && k in acc
    ensures r < c.Nodes() && n.prep[k % c.ring][r].txnId == k
  {
    hide Inv, CertsOk, StoredOk, WindowOk, QueuedPrepared, OwnCommit, AcceptedOk;
    if n.id == c.primary {
      assert CorrectPrepare(c, faulty, n.prep, k);
      r :| r < c.Nodes() && r !in faulty && n.prep[k % c.ring][r].txnId == k;
    } else {
      r := n.id;
    }
  }

  lemma OwnStored(c: Config, faulty: set<nat>, outs: Outs, n: Node, acc: Accepted, k: nat)
    requires Good(c, faulty, outs, n, acc) && n.id !in faulty && Mgr(c, n, k).prepared && n.next <= k && k in acc
    ensures var w := n.comm[k % c.ring][n.id];
            w.txnId == k && w.hash == LastHash(c, acc[k])
  {
    hide Inv, CertsOk, WindowOk, QueuedPrepared, OwnPrepare, OthersPrepare, IsEnd, GoodVote;
    InvSlots(c, n, acc);
    P.AcceptedLate(c, acc, k);
    var w := n.comm[k % c.ring][n.id];
    assert w.txnId == k;
    assert SentBy(outs, n.id, n.out, n.id, Commit(w));
  }

  /** The reference prepare of a live prepared batch is one for that batch. */
  lemma ReferenceIndex(c: Config, faulty: set<nat>, outs: Outs, n: Node, acc: Accepted, k: nat)
    requires Good(c, faulty, outs, n, acc) && Mgr(c, n, k).prepared && n.next <= k && k in acc && IsEnd(c, k)
    ensures n.prep[k % c.ring] != [] && FirstWithIndex(n.prep[k % c.ring], BatchStart(c, k)).index == BatchStart(c, k)
  {
    hide Inv, CertsOk, StoredOk, WindowOk, QueuedPrepared, OwnPrepare, OwnCommit, OthersPrepare, IsEnd, BatchStart, AcceptedOk;
    InvSlots(c, n, acc);
    var r0 := HasReference(c, faulty, outs, n, acc, k);
    IndexIsTag(c, n.prep, k % c.ring, r0, k);
    FirstIndexFinds(n.prep[k % c.ring], BatchStart(c, k), r0);
  }

  lemma VouchesFor(c: Config, faulty: set<nat>, outs: Outs, n: Node, acc: Accepted, k: nat, r: nat, d: Digest)
    requires Good(c, faulty, outs, n, acc) && IsEnd(c, k) && r < c.Nodes() && r !in faulty
    requires n.comm[k % c.ring][r].index == BatchStart(c, k) && n.comm[k % c.ring][r].hash == d
    ensures Vouches(outs, n.id, n.out, r, k, d)
  {
    hide Inv, CertsOk, WindowOk, QueuedPrepared, OwnPrepare, OwnCommit, OthersPrepare, BatchStart, AcceptedOk;
    InvSlots(c, n, acc);
    IndexIsTag(c, n.comm, k % c.ring, r, k);
    assert SentBy(outs, n.id, n.out, r, Commit(n.comm[k % c.ring][r]));
  }

  /** When every commit with the batch's index agrees with one reference vote. */
  lemma CertifyFrom(c: Config, faulty: set<nat>, outs: Outs, n: Node, acc: Accepted, k: nat, p: Vote)
    requires Good(c, faulty, outs, n, acc) && n.id !in faulty && IsEnd(c, k) && n.next <= k && k in acc && Mgr(c, n, k).prepared
    requires p.index == BatchStart(c, k)
    requires forall v :: v in WithIndex(n.comm[k % c.ring], p.index) ==> SameBatch(p, v)
    requires 2 * c.f + 1 <= |WithIndex(n.comm[k % c.ring], p.index)|
    ensures Certified(c, faulty, outs, n.id, n.out, k, LastHash(c, acc[k]))
  {
    hide Inv, CertsOk, StoredOk, WindowOk, QueuedPrepared, OwnPrepare, OwnCommit, OthersPrepare, IsEnd, BatchStart, WithIndex;
    var s := k % c.ring;
    var crow := n.comm[s];
    var d := LastHash(c, acc[k]);
    InvSlots(c, n, acc);
    IndexedSize(crow, p.index);
    IndexedEntries(crow, p.index);
    OwnStored(c, faulty, outs, n, acc, k);
    IndexIsTag(c, n.comm, s, n.id, k);
    assert crow[n.id] in WithIndex(crow, p.index);
    var q := ColsIndexed(crow, p.index);
    forall r | r in q && r !in faulty
      ensures Vouches(outs, n.id, n.out, r, k, d)
    {
      assert crow[r] in WithIndex(crow, p.index);
      VouchesFor(c, faulty, outs, n, acc, k, r, d);
    }
    assert Certificate(c, faulty, outs, n.id, n.out, k, d, q);
  }

  /** What committed_local found: matching commits from 2f+1 nodes, the own one among them. */
  lemma Certify(c: Config, faulty: set<nat>, outs: Outs, n: Node, acc: Accepted, k: nat, msg: Vote)
    requires Good(c, faulty, outs, n, acc) && Shaped(c, n) && n.id !in faulty && IsEnd(c, k) && n.next <= k
    requires msg.txnId == k && msg.index == BatchStart(c, k)
    requires CommittedVerdict(c, n, k, msg) == Yes
    ensures k in acc && Certified(c, faulty, outs, n.id, n.out, k, LastHash(c, acc[k]))
  {
    hide Inv, Good, IsEnd, BatchStart, Shaped, WithIndex, FirstWithIndex, Certified, SameBatch;
    GoodInv(c, faulty, outs, n, acc);
    P.PreparedImpliesAccepted(c, n, acc, k);
    ReferenceIndex(c, faulty, outs, n, acc, k);
    CertifyFrom(c, faulty, outs, n, acc, k, FirstWithIndex(n.prep[k % c.ring], msg.index));
  }

  lemma GoodInv(c: Config, faulty: set<nat>, outs: Outs, n: Node, acc: Accepted)
    requires Good(c, faulty, outs, n, acc)
    ensures Inv(c, n, acc) && AcceptedOk(c, acc) && Rows(c, n.prep) && Rows(c, n.comm)
    ensures forall k :: k in acc ==> BatchShaped(c, acc[k])
  {
    hide Inv, CertsOk, StoredOk, WindowOk, QueuedPrepared, OwnPrepare, OwnCommit, OthersPrepare;
  }

  lemma ExecuteCerts(c: Config, faulty: set<nat>, outs: Outs, id: nat, out: seq<Msg>, acc: Accepted, k: nat)
    requires AcceptedOk(c, acc) && CertsOk(c, faulty, outs, id, out, acc) && 0 < k && k in acc
    requires Certified(c, faulty, outs, id, out, k, LastHash(c, acc[k]))
    ensures CertsOk(c, faulty, outs, id, out + [Execute(ExecOf(c, k))], acc)
  {
    hide Certified, BatchStart, GoodBatch;
    var out' := out + [Execute(ExecOf(c, k))];
    forall j: nat | Queued(c, out', j) && j in acc
      ensures BatchShaped(c, acc[j]) && Certified(c, faulty, outs, id, out', j, LastHash(c, acc[j]))
    {
      P.GoodShaped(c, acc[j]);
      assert j == k || Queued(c, out, j);
      CertificateGrows(c, faulty, outs, id, out, out', j, LastHash(c, acc[j]));
    }
  }

  lemma ExecuteGood(c: Config, faulty: set<nat>, outs: Outs, n: Node, acc: Accepted, k: nat, msg: Vote)
    requires Good(c, faulty, outs, n, acc) && Shaped(c, n) && n.id !in faulty && IsEnd(c, k)
    requires Mgr(c, n, k).commitCnt <= 0 && !Queued(c, n.out, k)
    requires msg.txnId == k && msg.index == BatchStart(c, k)
    requires TryExecute(c, n, k, msg).Ok?
    ensures Good(c, faulty, outs, TryExecute(c, n, k, msg).node, acc)
  {
    hide Inv, CertsOk, StoredOk, WindowOk, OwnPrepare, OwnCommit, OthersPrepare, Rows, AcceptedOk, Shaped, IsEnd, BatchStart, CommittedVerdict, ExecFor, Certified;
    P.TryExecuteInv(c, n, acc, k, msg);
    if CommittedVerdict(c, n, k, msg) == Yes {
      NotQueuedLive(c, n, acc, k);
      Certify(c, faulty, outs, n, acc, k, msg);
      P.CommittedNeedsPrepared(c, n, k, msg);
      P.ExecForIsExecOf(c, n, acc, k);
      ExecuteCerts(c, faulty, outs, n.id, n.out, acc, k);
      var t := Mgr(c, n, k).(committed := true);
      SetMgrGood(c, faulty, outs, n, acc, k, t);
      var m := SetMgr(n, k, t);
      EmitStored(c, faulty, outs, n.id, n.out, n.comm, Execute(ExecOf(c, k)));
      forall j: nat | Queued(c, n.out + [Execute(ExecOf(c, k))], j)
        ensures TxnOf(c, m.txns, j).prepared
      {
        assert j == k || Queued(c, n.out, j);
      }
    }
  }

  // ------------------------------------------------ the handlers

  lemma RowsHere(c: Config, n: Node, k: nat)
    requires Shaped(c, n)
    ensures k % c.ring < |n.comm| && n.comm[k % c.ring] != [] && k % c.ring < |n.prep| && n.prep[k % c.ring] != []
  {
  }

  /** The commit CatchUp passes on is one for its own batch. */
  lemma CatchUpMessage(c: Config, faulty: set<nat>, outs: Outs, n: Node, acc: Accepted, k: nat)
    requires Good(c, faulty, outs, n, acc) && Shaped(c, n) && IsEnd(c, k) && n.next <= k && Mgr(c, n, k).prepared
    ensures var w := FirstWithTxn(n.comm[k % c.ring], k); w.txnId == k && w.index == BatchStart(c, k)
  {
    hide Inv, CertsOk, StoredOk, WindowOk, QueuedPrepared, OwnPrepare, OthersPrepare, BatchStart, Shaped, AcceptedOk, IsEnd;
    InvSlots(c, n, acc);
    var row := n.comm[k % c.ring];
    FirstTxnFinds(row, k, n.id);
    var w := FirstWithTxn(row, k);
    var r: nat :| r < c.Nodes() && row[r] == w;
    IndexIsTag(c, n.comm, k % c.ring, r, k);
  }

  lemma CatchUpGood(c: Config, faulty: set<nat>, outs: Outs, n: Node, acc: Accepted, k: nat)
    requires Good(c, faulty, outs, n, acc) && Shaped(c, n) && n.id !in faulty && n.id != c.primary
    requires IsEnd(c, k) && k in acc && n.next <= k && !Queued(c, n.out, k) && CatchUp(c, n, k).Ok?
    ensures Good(c, faulty, outs, CatchUp(c, n, k).node, acc)
  {
    hide Good, Inv, PreparedVerdict, CommittedVerdict, TryExecute, IsEnd, Shaped, BatchStart, SendCommit, FirstWithTxn;
    GoodInv(c, faulty, outs, n, acc);
    if Mgr(c, n, k).prepCnt <= 0 && PreparedVerdict(c, n, k) == Yes {
      var q := MarkPrepared(c, n, k);
      CommitGood(c, faulty, outs, n, acc, k);
      P.SetMgrInv(c, n, acc, k, Mgr(c, n, k).(prepared := true));
      P.SendCommitInv(c, q, acc, k);
      var r := SendCommit(c, q, k).node;
      RowsHere(c, r, k);
      if Mgr(c, r, k).commitCnt <= 0 {
        CatchUpMessage(c, faulty, outs, r, acc, k);
        ExecuteGood(c, faulty, outs, r, acc, k, FirstWithTxn(r.comm[k % c.ring], k));
      }
    }
  }

  lemma BatchGood(c: Config, faulty: set<nat>, outs: Outs, n: Node, acc: Accepted, b: Batch)
    requires Good(c, faulty, outs, n, acc) && n.id !in faulty && Delivers(c, faulty, outs, n, acc, BatchArrives(b))
    requires ProcessBatch(c, n, b).Ok?
    ensures Good(c, faulty, outs, ProcessBatch(c, n, b).node, acc[LastId(b) := b])
  {
    hide Inv, CertsOk, StoredOk, WindowOk, QueuedPrepared, OwnCommit, OwnPrepare, OthersPrepare, CatchUp, SendPrep, IsEnd, Accept, GoodBatch,
         Install, Append, Shaped, Rows, AcceptedOk, Queued;
    P.GoodShaped(c, b);
    P.AcceptIsTake(c, n, b);
    TakeGood(c, faulty, outs, n, acc, b, true);
    var a, acc' := Accept(c, n, b).node, acc[LastId(b) := b];
    InvRows(c, a, acc');
    SendPrepGood(c, faulty, outs, a, acc, b);
    P.SendPrepInv(c, a, acc', LastId(b));
    CatchUpGood(c, faulty, outs, SendPrep(c, a, LastId(b)).node, acc', LastId(b));
  }

  /** 2f tagged prepares include one from a correct node. */
  lemma PreparedHasCorrect(c: Config, faulty: set<nat>, n: Node, k: nat)
    requires Shaped(c, n) && Rows(c, n.prep) && |faulty| <= c.f
    requires PreparedVerdict(c, n, k) == Yes && !Mgr(c, n, k).prepared
    ensures CorrectPrepare(c, faulty, n.prep, k)
  {
    hide Tagged, HasPres, HasQueries;
    var row := n.prep[k % c.ring];
    TaggedSize(row, k);
    var r := NotAllIn(ColsTagged(row, k), faulty);
    assert row[r].txnId == k;
  }

  lemma UnpreparedLive(c: Config, faulty: set<nat>, outs: Outs, n: Node, acc: Accepted, k: nat)
    requires Good(c, faulty, outs, n, acc) && IsEnd(c, k) && !Mgr(c, n, k).prepared
    ensures n.next <= k
  {
    hide Inv, CertsOk, StoredOk, WindowOk, OwnCommit, OwnPrepare, OthersPrepare, Rows, AcceptedOk, IsEnd, Queued;
    NotQueuedLive(c, n, acc, k);
  }

  lemma PrepGood(c: Config, faulty: set<nat>, outs: Outs, n: Node, acc: Accepted, v: Vote)
    requires Good(c, faulty, outs, n, acc) && |faulty| <= c.f && Delivers(c, faulty, outs, n, acc, PrepArrives(v))
    requires ProcessPrep(c, n, v).Ok?
    ensures Good(c, faulty, outs, ProcessPrep(c, n, v).node, acc)
  {
    hide Good, Inv, PutPrep, SendCommit, IsEnd, Shaped, BatchStart, PreparedVerdict, Genuine;
    var k := v.txnId;
    var t := Mgr(c, n, k);
    PutPrepGood(c, faulty, outs, n, acc, v);
    var p := PutPrep(c, n, v);
    GoodInv(c, faulty, outs, n, acc);
    P.PutPrepInv(c, n, acc, v);
    SetMgrGood(c, faulty, outs, p, acc, k, t.(prepCnt := t.prepCnt - 1));
    var m := SetMgr(p, k, t.(prepCnt := t.prepCnt - 1));
    GoodInv(c, faulty, outs, m, acc);
    InvRows(c, m, acc);
    if v.view == c.primary && !(c.views && k < n.next) && t.prepCnt == 1 && !t.prepared && PreparedVerdict(c, m, k) == Yes {
      P.PreparedMeansAccepted(c, m, acc, k);
      UnpreparedLive(c, faulty, outs, m, acc, k);
      PreparedHasCorrect(c, faulty, m, k);
      CommitGood(c, faulty, outs, m, acc, k);
    }
  }

  lemma CommitVoteGood(c: Config, faulty: set<nat>, outs: Outs, n: Node, acc: Accepted, v: Vote)
    requires Good(c, faulty, outs, n, acc) && n.id !in faulty && Delivers(c, faulty, outs, n, acc, CommitArrives(v))
    requires ProcessCommit(c, n, v).Ok?
    ensures Good(c, faulty, outs, ProcessCommit(c, n, v).node, acc)
  {
    hide Good, Inv, PutComm, TryExecute, IsEnd, Shaped, BatchStart, Genuine, FailsOnPurpose;
    var k := v.txnId;
    var t := Mgr(c, n, k);
    PutCommGood(c, faulty, outs, n, acc, v);
    var p := PutComm(c, n, v);
    GoodInv(c, faulty, outs, n, acc);
    P.PutCommInv(c, n, acc, v);
    SetMgrGood(c, faulty, outs, p, acc, k, t.(commitCnt := t.commitCnt - 1));
    var m := SetMgr(p, k, t.(commitCnt := t.commitCnt - 1));
    GoodInv(c, faulty, outs, m, acc);
    InvRows(c, m, acc);
    if v.view == c.primary && !(c.views && v.index < n.next) && t.commitCnt == 1 && !t.committed && !FailsOnPurpose(c, m, v) {
      P.NotYetQueued(c, n, acc, k);
      ExecuteGood(c, faulty, outs, m, acc, k, v);
    }
  }

  lemma EmitBookkeeping(c: Config, faulty: set<nat>, outs: Outs, n: Node, acc: Accepted, s: nat, x: nat, e: nat)
    requires Good(c, faulty, outs, n, acc) && s < |n.batchSet| == c.ring
    ensures Good(c, faulty, outs, n.(batchSet := n.batchSet[s := x]), acc)
    ensures Good(c, faulty, outs, n.(expected := e), acc)
  {
    hide StoresOk, SlotsOk, SentOk, ExecsOk, PreparedOk, LogOk, CertsOk, StoredOk, WindowOk, QueuedPrepared, OwnPrepare, OwnCommit, OthersPrepare;
  }

  lemma ClientGood(c: Config, faulty: set<nat>, outs: Outs, n: Node, acc: Accepted, k: nat, reqs: seq<Request>)
    requires Good(c, faulty, outs, n, acc) && Delivers(c, faulty, outs, n, acc, ClientBatch(k, reqs))
    ensures Good(c, faulty, outs, ProcessClientBatch(c, n, k, reqs), acc[c.batch * k + c.batch - 1 := MakeBatch(c, k, reqs)])
  {
    hide Inv, CertsOk, StoredOk, WindowOk, QueuedPrepared, OwnCommit, OthersPrepare, GoodBatch, Install, Append, Shaped, Rows, AcceptedOk, Queued;
    var b := MakeBatch(c, k, reqs);
    MakeBatchGood(c, k, reqs);
    P.GoodShaped(c, b);
    InstallNeverCrashes(c, n, b, c.batch);
    TakeGood(c, faulty, outs, n, acc, b, false);
    var m, acc' := Append(c, Install(c, n, b, c.batch, false).node, b, c.batch), acc[LastId(b) := b];
    InvRows(c, m, acc');
    assert Good(c, faulty, outs, m, acc');
    BatchSetLength(c, m);
    BatchSetLength(c, n);
    EmitBookkeeping(c, faulty, outs, m, acc', k % c.ring, c.batch * k, 0);
    EmitGood(c, faulty, outs, m.(batchSet := m.batchSet[k % c.ring := c.batch * k]), acc', Order(b));
  }

  lemma BatchSetLength(c: Config, n: Node)
    requires Shaped(c, n)
    ensures |n.batchSet| == c.ring
  {
  }

  lemma OrderGood(c: Config, faulty: set<nat>, outs: Outs, n: Node, acc: Accepted, b: Batch)
    requires Good(c, faulty, outs, n, acc) && Shaped(c, n) && Order(b) in n.out
    ensures Good(c, faulty, outs, ProcessOrder(c, n, b), acc)
  {
    hide Good, Inv;
    GoodInv(c, faulty, outs, n, acc);
    if b.txnId == n.expected {
      InvSlots(c, n, acc);
      EmitGood(c, faulty, outs, n, acc, Announce(b));
      EmitBookkeeping(c, faulty, outs, Emit(n, Announce(b)), acc, 0, 0, c.batch + b.txnId);
    }
  }

  /** Executing a batch only shrinks the set of live batches. */
  lemma AdvanceGood(c: Config, faulty: set<nat>, outs: Outs, n: Node, acc: Accepted, m: Node)
    requires Good(c, faulty, outs, n, acc) && Inv(c, m, acc) && n.next <= m.next
    requires m == n.(next := m.next, log := m.log, txns := m.txns)
    requires forall k: nat :: TxnOf(c, m.txns, k).prepared ==> TxnOf(c, n.txns, k).prepared
    requires forall k: nat :: Queued(c, n.out, k) ==> TxnOf(c, m.txns, k).prepared
    ensures Good(c, faulty, outs, m, acc)
  {
    hide Inv, CertsOk, StoredOk, CorrectPrepare, AcceptedOk, Queued;
  }

  lemma RunGood(c: Config, faulty: set<nat>, outs: Outs, n: Node, acc: Accepted, x: Exec)
    requires Good(c, faulty, outs, n, acc) && Shaped(c, n) && Execute(x) in n.out && ProcessExecute(c, n, x).Ok?
    ensures Good(c, faulty, outs, ProcessExecute(c, n, x).node, acc)
  {
    hide Good, Inv, Shaped, RunRange, IsEnd, ExecLength, Sub64, Without, SentOk;
    GoodInv(c, faulty, outs, n, acc);
    var k := x.txnId + 1;
    P.RunExecBatch(c, n, acc, x);
    P.RunBatchInv(c, n, acc, k);
    var m := n.(next := k + 1, log := n.log + RunRange(c, n, x.index, c.batch));
    GoodQueued(c, faulty, outs, n, acc);
    AdvanceGood(c, faulty, outs, n, acc, m);
    if (k + 1) % c.chkpt == 0 {
      CheckpointSent(c, n.id, acc, Sub64(m.next, 5), Sub64(m.next, c.chkpt));
      EmitGood(c, faulty, outs, m, acc, Checkpoint(Sub64(m.next, 5), Sub64(m.next, c.chkpt), n.id));
    } else if Mgr(c, n, k).commitCnt == c.f - 1 {
      P.ReleaseInv(c, m, acc, BatchStart(c, k));
      ReleaseKeeps(c, m, acc, BatchStart(c, k));
      AdvanceGood(c, faulty, outs, m, acc, m.(txns := Without(m.txns, BatchStart(c, k), c.batch - 5)));
    }
  }

  lemma CheckpointSent(c: Config, id: nat, acc: Accepted, i: nat, b: nat)
    requires AcceptedOk(c, acc)
    ensures SentOk(c, id, [Checkpoint(i, b, id)], acc)
  {
  }

  lemma GoodQueued(c: Config, faulty: set<nat>, outs: Outs, n: Node, acc: Accepted)
    requires Good(c, faulty, outs, n, acc)
    ensures QueuedPrepared(c, n.out, n.txns)
  {
    hide Inv, CertsOk, StoredOk, WindowOk, OwnPrepare, OwnCommit, OthersPrepare, QueuedPrepared;
  }

  lemma ReleaseKeeps(c: Config, n: Node, acc: Accepted, lo: nat)
    requires Inv(c, n, acc) && AcceptedOk(c, acc) && QueuedPrepared(c, n.out, n.txns)
    ensures var txns := Without(n.txns, lo, c.batch - 5);
            && (forall k: nat :: TxnOf(c, txns, k).prepared ==> TxnOf(c, n.txns, k).prepared)
            && (forall k: nat :: Queued(c, n.out, k) ==> TxnOf(c, txns, k).prepared)
  {
    hide StoresOk, SlotsOk, SentOk, PreparedOk, LogOk, Shaped, AcceptedOk, IsEnd, BatchStart, ExecCount;
    var txns := Without(n.txns, lo, c.batch - 5);
    forall k: nat | Queued(c, n.out, k)
      ensures TxnOf(c, txns, k).prepared
    {
      P.AcceptedLate(c, acc, k);
    }
  }

  lemma HandleGood(c: Config, faulty: set<nat>, outs: Outs, n: Node, acc: Accepted, e: Event)
    requires Good(c, faulty, outs, n, acc) && n.id !in faulty && |faulty| <= c.f
    requires Delivers(c, faulty, outs, n, acc, e) && Handle(c, n, e).Ok?
    ensures Good(c, faulty, outs, Handle(c, n, e).node, Grow(c, acc, e))
  {
    hide Good, ProcessBatch, ProcessPrep, ProcessCommit, ProcessExecute, ProcessOrder, ProcessClientBatch, GoodBatch, MakeBatch, Genuine, Windowed, Shaped;
    match e
    case ClientBatch(k, reqs) => ClientGood(c, faulty, outs, n, acc, k, reqs);
    case BatchArrives(b) => BatchGood(c, faulty, outs, n, acc, b);
    case PrepArrives(v) => PrepGood(c, faulty, outs, n, acc, v);
    case CommitArrives(v) => CommitVoteGood(c, faulty, outs, n, acc, v);
    case RunExec(x) => RunGood(c, faulty, outs, n, acc, x);
    case OrderReady(b) => OrderGood(c, faulty, outs, n, acc, b);
  }

  // ------------------------------------------------ handlers only add to what was sent

  ghost predicate After(n: Node, m: Node) { m.id == n.id && n.out <= m.out }

  lemma TryExecuteAfter(c: Config, n: Node, id: nat, msg: Vote)
    requires Shaped(c, n)
    ensures var r := TryExecute(c, n, id, msg); r.Ok? ==> After(n, r.node)
  {
    hide CommittedVerdict, ExecFor;
  }

  lemma BatchAfter(c: Config, n: Node, b: Batch)
    requires Shaped(c, n) && BatchShaped(c, b)
    ensures var r := ProcessBatch(c, n, b); r.Ok? ==> After(n, r.node)
  {
    hide PreparedVerdict, Install, Append, TryExecute, OwnVote, FirstWithTxn, Shaped, TxnOf;
    R.InstallOnlyStores(c, n, b, c.batch, true);
    if Accept(c, n, b).Ok? {
      R.AppendKeeps(c, Install(c, n, b, c.batch, true).node, b, c.batch);
      var p := SendPrep(c, Accept(c, n, b).node, LastId(b));
      if p.Ok? {
        var q := SendCommit(c, MarkPrepared(c, p.node, LastId(b)), LastId(b));
        if q.Ok? {
          RowsHere(c, q.node, LastId(b));
          TryExecuteAfter(c, q.node, LastId(b), FirstWithTxn(q.node.comm[LastId(b) % c.ring], LastId(b)));
        }
      }
    }
  }

  lemma VotesAfter(c: Config, n: Node, v: Vote)
    requires Shaped(c, n) && v.sender < c.Nodes()
    ensures var r := ProcessPrep(c, n, v); r.Ok? ==> After(n, r.node)
    ensures var r := ProcessCommit(c, n, v); r.Ok? ==> After(n, r.node)
  {
    hide PreparedVerdict, TryExecute, OwnVote, TxnOf;
    var t := Mgr(c, n, v.txnId);
    TryExecuteAfter(c, SetMgr(PutComm(c, n, v), v.txnId, t.(commitCnt := t.commitCnt - 1)), v.txnId, v);
  }

  lemma HandleAfter(c: Config, n: Node, e: Event)
    requires Shaped(c, n) && EventShaped(c, e)
    ensures var r := Handle(c, n, e); r.Ok? ==> After(n, r.node)
  {
    hide ProcessBatch, ProcessPrep, ProcessCommit, RunRange, Without, TxnOf, Install, Append, MakeBatch, Shaped, ExecLength;
    match e
    case ClientBatch(k, reqs) =>
      var b := MakeBatch(c, k, reqs);
      InstallNeverCrashes(c, n, b, c.batch);
      R.InstallOnlyStores(c, n, b, c.batch, false);
      R.AppendKeeps(c, Install(c, n, b, c.batch, false).node, b, c.batch);
    case BatchArrives(b) => BatchAfter(c, n, b);
    case PrepArrives(v) => VotesAfter(c, n, v);
    case CommitArrives(v) => VotesAfter(c, n, v);
    case _ =>
  }

  // ------------------------------------------------ runs of the whole cluster

  datatype Cluster = Cluster(nodes: seq<Node>, accs: seq<Accepted>)

  datatype Action = Action(node: nat, event: Event)

  ghost predicate ClusterShaped(c: Config, s: Cluster) {
    && |s.nodes| == |s.accs| == c.Nodes()
    && forall i :: 0 <= i < c.Nodes() ==> s.nodes[i].id == i && Shaped(c, s.nodes[i])
  }

  ghost function BootCluster(c: Config): (s: Cluster)
    ensures ClusterShaped(c, s)
  {
    Cluster(seq(c.Nodes(), i requires 0 <= i < c.Nodes() => Boot(c, i)), seq(c.Nodes(), _ => map[]))
  }

  ghost function OutsOf(s: Cluster): Outs { seq(|s.nodes|, i requires 0 <= i < |s.nodes| => s.nodes[i].out) }

  ghost predicate Enabled(c: Config, faulty: set<nat>, s: Cluster, a: Action)
    requires ClusterShaped(c, s)
  {
    && a.node < c.Nodes()
    && a.node !in faulty
    && Delivers(c, faulty, OutsOf(s), s.nodes[a.node], s.accs[a.node], a.event)
  }

  /** One step of a correct node; a step that is not enabled, or whose assertion
      fails, is not taken. */
  ghost function Next(c: Config, faulty: set<nat>, s: Cluster, a: Action): (t: Cluster)
    requires ClusterShaped(c, s)
    ensures ClusterShaped(c, t)
  {
    if !Enabled(c, faulty, s, a) then s
    else
      var r := Handle(c, s.nodes[a.node], a.event);
      if r.Crash? then s
      else
        HandleAfter(c, s.nodes[a.node], a.event);
        Cluster(s.nodes[a.node := r.node], s.accs[a.node := Grow(c, s.accs[a.node], a.event)])
  }

  ghost function Run(c: Config, faulty: set<nat>, run: seq<Action>): (s: Cluster)
    ensures ClusterShaped(c, s)
  {
    if run == [] then BootCluster(c)
    else Next(c, faulty, Run(c, faulty, run[..|run| - 1]), run[|run| - 1])
  }

  ghost predicate AllGood(c: Config, faulty: set<nat>, s: Cluster)
    requires ClusterShaped(c, s)
  {
    forall i :: 0 <= i < c.Nodes() && i !in faulty ==> Good(c, faulty, OutsOf(s), s.nodes[i], s.accs[i])
  }

  /** What the others sent since cannot hurt. */
  lemma OutsGrow(c: Config, faulty: set<nat>, outs: Outs, outs': Outs, n: Node, acc: Accepted)
    requires Good(c, faulty, outs, n, acc)
    requires |outs| <= |outs'| && forall r :: 0 <= r < |outs| && r != n.id ==> outs[r] <= outs'[r]
    ensures Good(c, faulty, outs', n, acc)
  {
    hide Inv, WindowOk, QueuedPrepared, OwnPrepare, OwnCommit, OthersPrepare, AcceptedOk, Queued;
    forall r, m | SentBy(outs, n.id, n.out, r, m)
      ensures SentBy(outs', n.id, n.out, r, m)
    {
    }
    GoodInv(c, faulty, outs, n, acc);
    forall k: nat | Queued(c, n.out, k) && k in acc
      ensures Certified(c, faulty, outs', n.id, n.out, k, LastHash(c, acc[k]))
    {
      var d := LastHash(c, acc[k]);
      var q :| Certificate(c, faulty, outs, n.id, n.out, k, d, q);
      assert Certificate(c, faulty, outs', n.id, n.out, k, d, q);
    }
  }

  lemma BootGood(c: Config, faulty: set<nat>, outs: Outs, id: nat)
    requires id < c.Nodes()
    ensures Good(c, faulty, outs, Boot(c, id), map[])
  {
    BootInv(c, id);
    hide Inv;
    InvRows(c, Boot(c, id), map[]);
  }

  lemma NextGood(c: Config, faulty: set<nat>, s: Cluster, a: Action)
    requires ClusterShaped(c, s) && AllGood(c, faulty, s) && |faulty| <= c.f
    ensures AllGood(c, faulty, Next(c, faulty, s, a))
  {
    hide Good, Handle, Grow, Shaped, Allowed, Windowed, Genuine;
    var t := Next(c, faulty, s, a);
    if Enabled(c, faulty, s, a) && Handle(c, s.nodes[a.node], a.event).Ok? {
      HandleGood(c, faulty, OutsOf(s), s.nodes[a.node], s.accs[a.node], a.event);
      HandleAfter(c, s.nodes[a.node], a.event);
      forall i | 0 <= i < c.Nodes() && i !in faulty
        ensures Good(c, faulty, OutsOf(t), t.nodes[i], t.accs[i])
      {
        OutsGrow(c, faulty, OutsOf(s), OutsOf(t), t.nodes[i], t.accs[i]);
      }
    }
  }

  lemma {:induction false} RunGoodAlways(c: Config, faulty: set<nat>, run: seq<Action>)
    requires |faulty| <= c.f
    ensures AllGood(c, faulty, Run(c, faulty, run))
  {
    if run == [] {
      forall i | 0 <= i < c.Nodes() && i !in faulty
        ensures Good(c, faulty, OutsOf(BootCluster(c)), BootCluster(c).nodes[i], BootCluster(c).accs[i])
      {
        BootGood(c, faulty, OutsOf(BootCluster(c)), i);
      }
    } else {
      hide Good, Next;
      RunGoodAlways(c, faulty, run[..|run| - 1]);
      NextGood(c, faulty, Run(c, faulty, run[..|run| - 1]), run[|run| - 1]);
    }
  }

  // ------------------------------------------------ the theorem

  /** All commits a correct node ever sends for one batch carry its one digest. */
  lemma OneDigest(c: Config, n: Node, acc: Accepted, v: Vote)
    requires Inv(c, n, acc) && AcceptedOk(c, acc) && Commit(v) in n.out
    ensures v.txnId in acc && v.hash == LastHash(c, acc[v.txnId])
  {
    hide StoresOk, SlotsOk, ExecsOk, PreparedOk, LogOk, Shaped, GoodVote;
    InvSlots(c, n, acc);
  }

  lemma CertificateOf(c: Config, faulty: set<nat>, s: Cluster, i: nat, k: nat) returns (q: set<nat>)
    requires ClusterShaped(c, s) && AllGood(c, faulty, s)
    requires i < c.Nodes() && i !in faulty && Queued(c, s.nodes[i].out, k)
    ensures AcceptedOk(c, s.accs[i]) && k in s.accs[i]
    ensures q <= NodesBelow(c.Nodes()) && 2 * c.f + 1 <= |q|
    ensures forall r :: r in q && r !in faulty && r < c.Nodes() ==>
              exists v: Vote :: v.txnId == k && v.hash == LastHash(c, s.accs[i][k]) && Commit(v) in s.nodes[r].out
  {
    hide Inv, StoredOk, WindowOk, QueuedPrepared, OwnPrepare, OwnCommit, OthersPrepare, Shaped, AcceptedOk, Queued, Rows;
    var n, acc := s.nodes[i], s.accs[i];
    assert Good(c, faulty, OutsOf(s), n, acc);
    GoodInv(c, faulty, OutsOf(s), n, acc);
    if k !in acc {
      P.NotYetQueued(c, n, acc, k);
    }
    assert Certified(c, faulty, OutsOf(s), n.id, n.out, k, LastHash(c, acc[k]));
    q :| Certificate(c, faulty, OutsOf(s), n.id, n.out, k, LastHash(c, acc[k]), q);
    forall r | r in q && r !in faulty && r < c.Nodes()
      ensures exists v: Vote :: v.txnId == k && v.hash == LastHash(c, acc[k]) && Commit(v) in s.nodes[r].out
    {
      assert Vouches(OutsOf(s), n.id, n.out, r, k, LastHash(c, acc[k]));
      var v: Vote :| v.txnId == k && v.hash == LastHash(c, acc[k]) && SentBy(OutsOf(s), n.id, n.out, r, Commit(v));
      assert Commit(v) in s.nodes[r].out;
    }
  }

  /** Over every run with at most f faulty nodes, two correct nodes that have queued
      the EXECUTE of the same batch accepted it with the same last digest. */
  lemma Agreement(c: Config, faulty: set<nat>, run: seq<Action>, i: nat, j: nat, k: nat)
    requires |faulty| <= c.f
    requires i < c.Nodes() && i !in faulty && j < c.Nodes() && j !in faulty
    requires var s := Run(c, faulty, run);
             Queued(c, s.nodes[i].out, k) && Queued(c, s.nodes[j].out, k)
    ensures var s := Run(c, faulty, run);
            && k in s.accs[i] && k in s.accs[j]
            && BatchShaped(c, s.accs[i][k]) && BatchShaped(c, s.accs[j][k])
            && LastHash(c, s.accs[i][k]) == LastHash(c, s.accs[j][k])
  {
    hide Good, Shaped, Queued, Run;
    var s := Run(c, faulty, run);
    RunGoodAlways(c, faulty, run);
    var a := CertificateOf(c, faulty, s, i, k);
    var b := CertificateOf(c, faulty, s, j, k);
    var r := CorrectInBoth(a, b, faulty, c.f);
    var v: Vote :| v.txnId == k && v.hash == LastHash(c, s.accs[i][k]) && Commit(v) in s.nodes[r].out;
    var w: Vote :| w.txnId == k && w.hash == LastHash(c, s.accs[j][k]) && Commit(w) in s.nodes[r].out;
    GoodInv(c, faulty, OutsOf(s), s.nodes[r], s.accs[r]);
    OneDigest(c, s.nodes[r], s.accs[r], v);
    OneDigest(c, s.nodes[r], s.accs[r], w);
  }
}
