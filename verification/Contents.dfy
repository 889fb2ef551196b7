/** Where the entries of the vote stores come from: each was delivered, or is the
    node's own vote, which it also sent; and what a node has when it sends a commit. */
module Contents {
  import opened Arith
  import opened Protocol
  import opened Invariant
  import opened Quorum
  import A = Agreement
  import P = Preserve
  import R = Replica

  /** Entry by entry: as before, the prepare delivered, or the own prepare for the
      batch delivered. */
  ghost predicate PrepFrom(c: Config, n: Node, m: Node, e: Event, s: nat, r: nat)
    requires A.Rows(c, n.prep) && A.Rows(c, m.prep) && s < c.ring && r < c.Nodes()
  {
    var w := m.prep[s][r];
    || w == n.prep[s][r]
    || (e == PrepArrives(w) && r == w.sender && s == w.endIndex % c.ring)
    || (e.BatchArrives? && e.batch.index != [] && r == n.id && s == LastId(e.batch) % c.ring && w.txnId == LastId(e.batch)
        && Prepare(w) in m.out)
  }

  ghost predicate CommFrom(c: Config, n: Node, m: Node, e: Event, s: nat, r: nat)
    requires A.Rows(c, n.comm) && A.Rows(c, m.comm) && s < c.ring && r < c.Nodes()
  {
    var w := m.comm[s][r];
    || w == n.comm[s][r]
    || (e == CommitArrives(w) && r == w.sender && s == w.endIndex % c.ring)
    || (r == n.id && Commit(w) in m.out)
  }

  ghost predicate VotesFrom(c: Config, n: Node, m: Node, e: Event) {
    && A.Rows(c, n.prep) && A.Rows(c, m.prep) && A.Rows(c, n.comm) && A.Rows(c, m.comm)
    && (forall s: nat, r: nat :: s < c.ring && r < c.Nodes() ==> PrepFrom(c, n, m, e, s, r))
    && (forall s: nat, r: nat :: s < c.ring && r < c.Nodes() ==> CommFrom(c, n, m, e, s, r))
  }

  /** A commit is sent only over 2f stored prepares of the batch. */
  ghost predicate Backed(c: Config, prep: A.Slots, k: nat)
    requires A.Rows(c, prep)
  {
    2 * c.f <= |ColsTagged(prep[k % c.ring], k)|
  }

  ghost predicate CommitsBacked(c: Config, n: Node, m: Node)
    requires A.Rows(c, m.prep)
  {
    forall v :: Commit(v) in m.out && Commit(v) !in n.out ==> Backed(c, m.prep, v.txnId)
  }

  // ------------------------------------------------ the votes a node sends itself

  lemma SendPrepContents(c: Config, n: Node, acc: Accepted, id: nat)
    requires Inv(c, n, acc) && id in acc && SendPrep(c, n, id).Ok?
    ensures A.Rows(c, n.prep) && n.id < c.Nodes()
    ensures var m, w := SendPrep(c, n, id).node, OwnVote(c, n, id);
            && w.txnId == id && m.comm == n.comm && m.id == n.id
            && m.prep == n.prep[id % c.ring := n.prep[id % c.ring][n.id := w]]
            && m.out == n.out + [Prepare(w)]
  {
    hide Inv, Shaped, Cast, CountOwnPrep;
    P.OwnVoteCast(c, n, acc, id);
    A.InvRows(c, n, acc);
    CastIsGood(c, n.id, acc, OwnVote(c, n, id));
    P.PutPrepInv(c, n, acc, OwnVote(c, n, id));
    P.CountOwnPrepInv(c, PutPrep(c, n, OwnVote(c, n, id)), acc, id);
  }

  lemma CastIsGood(c: Config, id: nat, acc: Accepted, v: Vote)
    requires AcceptedOk(c, acc) && Cast(c, id, acc, v)
    ensures GoodVote(c, v)
  {
  }

  lemma SendCommitContents(c: Config, n: Node, id: nat)
    requires Shaped(c, n) && SendCommit(c, n, id).Ok?
    ensures var m, w := SendCommit(c, n, id).node, OwnVote(c, n, id);
            && w.txnId == id && m.prep == n.prep && m.id == n.id
            && A.Rows(c, n.comm) && n.id < c.Nodes()
            && m.comm == n.comm[w.endIndex % c.ring := n.comm[w.endIndex % c.ring][n.id := w]]
            && m.out == n.out + [Commit(w)]
  {
  }

  lemma TryExecuteContents(c: Config, n: Node, id: nat, msg: Vote)
    requires Shaped(c, n) && TryExecute(c, n, id, msg).Ok?
    ensures var m := TryExecute(c, n, id, msg).node;
            && m.prep == n.prep && m.comm == n.comm && m.id == n.id && n.out <= m.out
            && forall v :: Commit(v) in m.out ==> Commit(v) in n.out
  {
    hide CommittedVerdict, ExecFor;
  }

  /** The own vote in a row it may enter. */
  lemma OwnComm(c: Config, n: Node, m: Node, e: Event, w: Vote)
    requires A.Rows(c, n.prep) && A.Rows(c, n.comm) && n.id < c.Nodes()
    requires m.prep == n.prep && Commit(w) in m.out
    requires m.comm == n.comm[w.endIndex % c.ring := n.comm[w.endIndex % c.ring][n.id := w]]
    ensures VotesFrom(c, n, m, e)
  {
  }

  lemma Composed(c: Config, n: Node, p: Node, m: Node, e: Event)
    requires VotesFrom(c, n, p, e) && VotesFrom(c, p, m, e) && p.id == n.id && p.out <= m.out
    ensures VotesFrom(c, n, m, e)
  {
    forall s: nat, r: nat | s < c.ring && r < c.Nodes()
      ensures PrepFrom(c, n, m, e, s, r) && CommFrom(c, n, m, e, s, r)
    {
      assert PrepFrom(c, n, p, e, s, r) && PrepFrom(c, p, m, e, s, r);
      assert CommFrom(c, n, p, e, s, r) && CommFrom(c, p, m, e, s, r);
    }
  }

  lemma Unchanged(c: Config, n: Node, m: Node, e: Event)
    requires A.Rows(c, n.prep) && A.Rows(c, n.comm) && m.prep == n.prep && m.comm == n.comm
    ensures VotesFrom(c, n, m, e)
  {
  }

  lemma PreparedBacked(c: Config, n: Node, id: nat)
    requires Shaped(c, n) && PreparedVerdict(c, n, id) == Yes && !Mgr(c, n, id).prepared
    ensures A.Rows(c, n.prep) && Backed(c, n.prep, id)
  {
    hide Tagged, HasPres, HasQueries;
    TaggedSize(n.prep[id % c.ring], id);
  }

  /** Becoming prepared over 2f stored prepares. */
  lemma CommitContents(c: Config, n: Node, id: nat, e: Event)
    requires Shaped(c, n) && PreparedVerdict(c, n, id) == Yes && !Mgr(c, n, id).prepared
    requires SendCommit(c, MarkPrepared(c, n, id), id).Ok?
    ensures var m := SendCommit(c, MarkPrepared(c, n, id), id).node;
            && VotesFrom(c, n, m, e) && CommitsBacked(c, n, m) && m.prep == n.prep && m.id == n.id && n.out <= m.out
            && Shaped(c, m)
  {
    hide PreparedVerdict, OwnVote, SendCommit, VotesFrom, Shaped;
    PreparedBacked(c, n, id);
    var q := MarkPrepared(c, n, id);
    SendCommitContents(c, q, id);
    OwnComm(c, n, SendCommit(c, q, id).node, e, OwnVote(c, q, id));
  }

  lemma CatchUpContents(c: Config, n: Node, id: nat, e: Event)
    requires Shaped(c, n) && CatchUp(c, n, id).Ok? && !Mgr(c, n, id).prepared
    ensures var m := CatchUp(c, n, id).node;
            && VotesFrom(c, n, m, e) && CommitsBacked(c, n, m) && m.prep == n.prep && m.id == n.id && n.out <= m.out
  {
    hide PreparedVerdict, SendCommit, MarkPrepared, TryExecute, VotesFrom, Shaped, FirstWithTxn, Backed, A.Rows;
    RowsOf(c, n);
    Unchanged(c, n, n, e);
    if Mgr(c, n, id).prepCnt <= 0 && PreparedVerdict(c, n, id) == Yes {
      CommitContents(c, n, id, e);
      var p := SendCommit(c, MarkPrepared(c, n, id), id).node;
      if Mgr(c, p, id).commitCnt <= 0 {
        A.RowsHere(c, p, id);
        var w := FirstWithTxn(p.comm[id % c.ring], id);
        TryExecuteContents(c, p, id, w);
        RowsOf(c, p);
        Unchanged(c, p, TryExecute(c, p, id, w).node, e);
        Composed(c, n, p, TryExecute(c, p, id, w).node, e);
      }
    }
  }

  lemma RowsOf(c: Config, n: Node)
    requires Shaped(c, n)
    ensures A.Rows(c, n.prep) && A.Rows(c, n.comm) && n.id < c.Nodes()
  {
  }

  // ------------------------------------------------ the handlers

  lemma BatchContents(c: Config, n: Node, acc: Accepted, b: Batch)
    requires Inv(c, n, acc) && Allowed(c, n, acc, BatchArrives(b)) && BatchShaped(c, b) && ProcessBatch(c, n, b).Ok?
    ensures A.Rows(c, ProcessBatch(c, n, b).node.prep)
    ensures var m := ProcessBatch(c, n, b).node; VotesFrom(c, n, m, BatchArrives(b)) && CommitsBacked(c, n, m)
  {
    hide Inv, CatchUp, SendPrep, IsEnd, Accept, GoodBatch, Install, Append, Shaped, A.Rows, AcceptedOk, VotesFrom, Backed, OwnVote;
    var e, k, acc' := BatchArrives(b), LastId(b), acc[LastId(b) := b];
    P.GoodShaped(c, b);
    P.InvShaped(c, n, acc);
    P.AcceptIsTake(c, n, b);
    P.TakeInv(c, n, acc, b, true);
    P.PreparedImpliesAccepted(c, n, acc, k);
    var a := Accept(c, n, b).node;
    P.InvShaped(c, a, acc');
    SendPrepContents(c, a, acc', k);
    P.SendPrepInv(c, a, acc', k);
    var p := SendPrep(c, a, k).node;
    RowsOf(c, n);
    RowsOf(c, p);
    OwnPrep(c, n, p, b, OwnVote(c, a, k));
    assert !Mgr(c, p, k).prepared;
    CatchUpContents(c, p, k, e);
    Composed(c, n, p, CatchUp(c, p, k).node, e);
  }

  lemma OwnPrep(c: Config, n: Node, m: Node, b: Batch, w: Vote)
    requires A.Rows(c, n.prep) && A.Rows(c, n.comm) && n.id < c.Nodes() && b.index != [] && w.txnId == LastId(b)
    requires m.comm == n.comm && Prepare(w) in m.out
    requires m.prep == n.prep[LastId(b) % c.ring := n.prep[LastId(b) % c.ring][n.id := w]]
    ensures VotesFrom(c, n, m, BatchArrives(b))
  {
  }

  lemma PrepContents(c: Config, n: Node, acc: Accepted, v: Vote)
    requires Inv(c, n, acc) && GoodVote(c, v) && ProcessPrep(c, n, v).Ok?
    ensures A.Rows(c, ProcessPrep(c, n, v).node.prep)
    ensures var m := ProcessPrep(c, n, v).node; VotesFrom(c, n, m, PrepArrives(v)) && CommitsBacked(c, n, m)
  {
    hide Inv, SendCommit, IsEnd, Shaped, A.Rows, VotesFrom, Backed, PreparedVerdict, MarkPrepared, PutPrep;
    var e, k := PrepArrives(v), v.txnId;
    P.InvShaped(c, n, acc);
    RowsOf(c, n);
    var t := Mgr(c, n, k);
    var p := SetMgr(PutPrep(c, n, v), k, t.(prepCnt := t.prepCnt - 1));
    Unchanged(c, n, n, e);
    StoredPrep(c, n, v);
    P.PutPrepInvKeeps(c, n, v);
    StoredFrom(c, n, p, PutPrep(c, n, v), e);
    MgrShaped(c, PutPrep(c, n, v), p);
    RowsOf(c, p);
    if PreparedVerdict(c, p, k) == Yes && !Mgr(c, p, k).prepared && SendCommit(c, MarkPrepared(c, p, k), k).Ok? {
      CommitContents(c, p, k, e);
      Composed(c, n, p, SendCommit(c, MarkPrepared(c, p, k), k).node, e);
      RowsOf(c, SendCommit(c, MarkPrepared(c, p, k), k).node);
    }
  }

  lemma MgrShaped(c: Config, n: Node, m: Node)
    requires Shaped(c, n) && m == n.(txns := m.txns)
    ensures Shaped(c, m)
  {
  }

  lemma StoredPrep(c: Config, n: Node, v: Vote)
    requires Shaped(c, n) && v.sender < c.Nodes()
    ensures VotesFrom(c, n, PutPrep(c, n, v), PrepArrives(v)) && Shaped(c, PutPrep(c, n, v))
  {
  }

  lemma StoredComm(c: Config, n: Node, v: Vote)
    requires Shaped(c, n) && v.sender < c.Nodes()
    ensures VotesFrom(c, n, PutComm(c, n, v), CommitArrives(v)) && Shaped(c, PutComm(c, n, v))
  {
  }

  lemma StoredFrom(c: Config, n: Node, m: Node, p: Node, e: Event)
    requires VotesFrom(c, n, p, e) && m.prep == p.prep && m.comm == p.comm && m.out == p.out
    ensures VotesFrom(c, n, m, e)
  {
    forall s: nat, r: nat | s < c.ring && r < c.Nodes()
      ensures PrepFrom(c, n, m, e, s, r) && CommFrom(c, n, m, e, s, r)
    {
      assert PrepFrom(c, n, p, e, s, r) && CommFrom(c, n, p, e, s, r);
    }
  }

  lemma CommContents(c: Config, n: Node, acc: Accepted, v: Vote)
    requires Inv(c, n, acc) && GoodVote(c, v) && ProcessCommit(c, n, v).Ok?
    ensures A.Rows(c, ProcessCommit(c, n, v).node.prep)
    ensures var m := ProcessCommit(c, n, v).node; VotesFrom(c, n, m, CommitArrives(v)) && CommitsBacked(c, n, m)
  {
    hide Inv, TryExecute, IsEnd, Shaped, A.Rows, VotesFrom, Backed, PutComm, FailsOnPurpose;
    var e, k := CommitArrives(v), v.txnId;
    P.InvShaped(c, n, acc);
    RowsOf(c, n);
    var t := Mgr(c, n, k);
    var p := SetMgr(PutComm(c, n, v), k, t.(commitCnt := t.commitCnt - 1));
    Unchanged(c, n, n, e);
    StoredComm(c, n, v);
    P.PutCommInvKeeps(c, n, v);
    StoredFrom(c, n, p, PutComm(c, n, v), e);
    MgrShaped(c, PutComm(c, n, v), p);
    RowsOf(c, p);
    if TryExecute(c, p, k, v).Ok? {
      TryExecuteContents(c, p, k, v);
      Unchanged(c, p, TryExecute(c, p, k, v).node, e);
      Composed(c, n, p, TryExecute(c, p, k, v).node, e);
    }
  }

  lemma OtherContents(c: Config, n: Node, e: Event)
    requires Shaped(c, n) && EventShaped(c, e) && Handle(c, n, e).Ok?
    requires e.ClientBatch? || e.OrderReady? || e.RunExec?
    ensures A.Rows(c, n.prep)
    ensures var m := Handle(c, n, e).node; m.prep == n.prep && m.comm == n.comm && CommitsBacked(c, n, m)
  {
    hide RunRange, Without, Install, Append, MakeBatch, ExecLength, Sub64;
    if e.ClientBatch? {
      var b := MakeBatch(c, e.k, e.reqs);
      InstallNeverCrashes(c, n, b, c.batch);
      R.InstallOnlyStores(c, n, b, c.batch, false);
      R.AppendKeeps(c, Install(c, n, b, c.batch, false).node, b, c.batch);
    }
  }

  /** For every event: stored votes are old, delivered or the node's own, and each
      commit it sends is for a batch with 2f stored prepares. */
  lemma HandleContents(c: Config, n: Node, acc: Accepted, e: Event)
    requires Inv(c, n, acc) && Allowed(c, n, acc, e) && EventShaped(c, e) && Handle(c, n, e).Ok?
    ensures A.Rows(c, Handle(c, n, e).node.prep)
    ensures var m := Handle(c, n, e).node; VotesFrom(c, n, m, e) && CommitsBacked(c, n, m)
  {
    hide Inv, ProcessBatch, ProcessPrep, ProcessCommit, ProcessExecute, ProcessOrder, ProcessClientBatch, GoodBatch, MakeBatch, VotesFrom,
         CommitsBacked, GoodVote, A.Rows;
    P.InvShaped(c, n, acc);
    RowsOf(c, n);
    match e
    case BatchArrives(b) => BatchContents(c, n, acc, b);
    case PrepArrives(v) => PrepContents(c, n, acc, v);
    case CommitArrives(v) => CommContents(c, n, acc, v);
    case _ => OtherContents(c, n, e); Unchanged(c, n, Handle(c, n, e).node, e);
  }
}
