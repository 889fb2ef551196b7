/** Every handler keeps the replica invariant; hence over any run a replica queues
    the EXECUTE of a batch at most once. */
module Preserve {
  import opened Arith
  import opened Protocol
  import opened Invariant
  import R = Replica

  // ------------------------------------------------ counting EXECUTE messages

  lemma {:induction false} CountedIsIn(out: seq<Msg>, x: Exec)
    ensures 0 < ExecCount(out, x) <==> Execute(x) in out
  {
    if out != [] {
      CountedIsIn(out[..|out| - 1], x);
      assert out == out[..|out| - 1] + [out[|out| - 1]];
    }
  }

  lemma CountEmit(out: seq<Msg>, m: Msg, x: Exec)
    ensures ExecCount(out + [m], x) == ExecCount(out, x) + if m == Execute(x) then 1 else 0
  {
    assert (out + [m])[..|out|] == out;
  }

  // ------------------------------------------------ alignment

  /** A batch that is not over yet has not begun. */
  lemma BatchAhead(c: Config, next: nat, k: nat)
    requires next % c.batch == 0 && IsEnd(c, k) && next <= k
    ensures next <= k + 1 - c.batch
  {
    var p, q := next / c.batch, (k + 1) / c.batch;
    assert next == c.batch * p && k + 1 == c.batch * q;
    MulMono(c.batch, q, p);
    MulMono(c.batch, p + 1, q);
  }

  lemma EndOfEnd(c: Config, k: nat)
    requires IsEnd(c, k)
    ensures EndOf(c, k) == k && k % c.batch == c.batch - 1
  {
    EndIsLate(c, k);
    EndOfMember(c, k, k);
  }

  lemma AcceptedLate(c: Config, acc: Accepted, k: nat)
    requires AcceptedOk(c, acc) && k in acc
    ensures c.batch - 1 <= k < EMPTY && IsEnd(c, k)
  {
    EndIsLate(c, k);
  }

  // ------------------------------------------------ accepting a batch

  lemma {:induction false} LogOfExtends(c: Config, acc: Accepted, acc': Accepted, m: nat)
    requires Extends(c, acc, acc')
    requires forall id :: 0 <= id < m && Holds(c, acc', id) ==> Holds(c, acc, id)
    ensures LogOf(c, acc', m) == LogOf(c, acc, m)
  {
    if 0 < m {
      LogOfExtends(c, acc, acc', m - 1);
    }
  }

  /** A replica that has not accepted a batch has not run past its beginning. */
  lemma FreshAhead(c: Config, n: Node, acc: Accepted, b: Batch)
    requires Inv(c, n, acc) && GoodBatch(c, b) && LastId(b) !in acc
    ensures n.next <= b.index[0] && b.index[0] + c.batch == LastId(b) + 1
  {
    hide StoresOk, SlotsOk, SentOk, PreparedOk, Shaped;
    EndIsLate(c, LastId(b));
    if n.next <= LastId(b) {
      BatchAhead(c, n.next, LastId(b));
    }
  }

  ghost predicate CountersSame(c: Config, n: Node, m: Node) {
    forall id ::
      var t, t' := Mgr(c, n, id), Mgr(c, m, id);
      t'.prepCnt == t.prepCnt && t'.commitCnt == t.commitCnt && t'.prepared == t.prepared && t'.committed == t.committed
  }

  /** The managers of batch b gained its requests, and nothing else. */
  ghost predicate Gained(c: Config, txns: map<nat, Txn>, txns': map<nat, Txn>, b: Batch)
    requires GoodBatch(c, b)
  {
    forall id: nat ::
      var t, t' := TxnOf(c, txns, id), TxnOf(c, txns', id);
      if b.index[0] <= id < b.index[0] + c.batch
      then t' == t.(query := t.query + [b.reqs[id - b.index[0]].req])
      else t' == t
  }

  lemma AppendGained(c: Config, n: Node, b: Batch)
    requires GoodBatch(c, b)
    ensures Gained(c, n.txns, Append(c, n, b, c.batch).txns, b)
  {
    var after := Append(c, n, b, c.batch).txns;
    forall id: nat
      ensures var t, t' := TxnOf(c, n.txns, id), TxnOf(c, after, id);
              if b.index[0] <= id < b.index[0] + c.batch
              then t' == t.(query := t.query + [b.reqs[id - b.index[0]].req])
              else t' == t
    {
      AppendEffect(c, n, b, c.batch, id);
    }
  }

  lemma GainedSame(c: Config, n: Node, m: Node, b: Batch)
    requires GoodBatch(c, b) && Gained(c, n.txns, m.txns, b)
    ensures CountersSame(c, n, m)
  {
    hide GoodBatch;
  }

  lemma QueriesGrow(c: Config, txns: map<nat, Txn>, txns': map<nat, Txn>, next: nat, acc: Accepted, b: Batch, id: nat)
    requires AcceptedOk(c, acc) && GoodBatch(c, b) && LastId(b) !in acc && Gained(c, txns, txns', b)
    requires AcceptedOk(c, acc[LastId(b) := b])
    requires Holds(c, acc, id) && next <= id ==> TxnOf(c, txns, id).query == [ReqAt(c, acc, id)]
    requires !Holds(c, acc, id) ==> TxnOf(c, txns, id).query == []
    ensures var acc' := acc[LastId(b) := b];
            && (Holds(c, acc', id) && next <= id ==> TxnOf(c, txns', id).query == [ReqAt(c, acc', id)])
            && (!Holds(c, acc', id) ==> TxnOf(c, txns', id).query == [])
  {
    var acc' := acc[LastId(b) := b];
    EndIsLate(c, LastId(b));
    if b.index[0] <= id <= LastId(b) {
      EndOfMember(c, LastId(b), id);
      assert b.index[id - b.index[0]] == id;
    } else if Holds(c, acc', id) && !Holds(c, acc, id) {
      GrowOnlyBatch(c, acc, b, id);
    }
  }

  lemma LogGrows(c: Config, n: Node, acc: Accepted, b: Batch, m: Node)
    requires Inv(c, n, acc) && GoodBatch(c, b) && LastId(b) !in acc
    requires AcceptedOk(c, acc[LastId(b) := b]) && Extends(c, acc, acc[LastId(b) := b])
    requires Gained(c, n.txns, m.txns, b)
    ensures LogOk(c, m.txns, n.log, n.next, n.out, acc[LastId(b) := b])
  {
    hide StoresOk, SlotsOk, SentOk, ExecsOk, PreparedOk, Shaped, Gained, GoodBatch, AcceptedOk, Holds, ReqAt;
    GoodShaped(c, b);
    var acc' := acc[LastId(b) := b];
    FreshAhead(c, n, acc, b);
    forall id
      ensures Holds(c, acc', id) && n.next <= id ==> TxnOf(c, m.txns, id).query == [ReqAt(c, acc', id)]
      ensures !Holds(c, acc', id) ==> TxnOf(c, m.txns, id).query == []
    {
      QueriesGrow(c, n.txns, m.txns, n.next, acc, b, id);
    }
    forall id: nat | Holds(c, acc', id) && !Holds(c, acc, id)
      ensures n.next <= id
    {
      GrowOnlyBatch(c, acc, b, id);
    }
    LogOfExtends(c, acc, acc', n.next);
  }

  lemma ExecsGrow(c: Config, n: Node, m: Node, acc: Accepted, b: Batch)
    requires AcceptedOk(c, acc) && ExecsOk(c, n.txns, n.out, acc) && PreparedOk(c, n.txns, acc) && SentOk(c, n.id, n.out, acc)
    requires b.index != [] && LastId(b) !in acc && CountersSame(c, n, m) && AcceptedOk(c, acc[LastId(b) := b])
    ensures ExecsOk(c, m.txns, n.out, acc[LastId(b) := b]) && PreparedOk(c, m.txns, acc[LastId(b) := b])
    ensures SentOk(c, n.id, n.out, acc[LastId(b) := b])
  {
    forall k ensures
      var t, t' := TxnOf(c, n.txns, k), TxnOf(c, m.txns, k);
      t'.commitCnt == t.commitCnt && t'.prepared == t.prepared
    {
      assert Mgr(c, n, k) == TxnOf(c, n.txns, k);
    }
  }

  /** The state after a batch is taken in. */
  lemma TakeInv(c: Config, n: Node, acc: Accepted, b: Batch, check: bool)
    requires Inv(c, n, acc) && GoodBatch(c, b) && LastId(b) !in acc
    requires forall i :: 0 <= i < c.batch ==> b.hash[i] == DigestOf(b.reqs[i].req)
    requires Install(c, n, b, c.batch, check).Ok?
    ensures var m := Append(c, Install(c, n, b, c.batch, check).node, b, c.batch);
            && Inv(c, m, acc[LastId(b) := b])
            && m == n.(pre := m.pre, cqry := m.cqry, txns := m.txns)
            && CountersSame(c, n, m)
  {
    hide StoresOk, SlotsOk, SentOk, ExecsOk, PreparedOk, LogOk, Gained, CountersSame, GoodBatch, Contains, Extends;
    GoodShaped(c, b);
    var acc' := acc[LastId(b) := b];
    var s := Install(c, n, b, c.batch, check).node;
    var m := Append(c, s, b, c.batch);
    InvShaped(c, n, acc);
    GrowExtends(c, acc, b);
    GrowContains(c, acc, b);
    assert AcceptedOk(c, acc') by { ExtendsOk(c, acc, acc'); }
    StoresGrow(c, n.pre, n.cqry, acc, acc');
    InstallStoresOk(c, n, b, c.batch, check, acc');
    R.InstallOnlyStores(c, n, b, c.batch, check);
    R.AppendKeeps(c, s, b, c.batch);
    R.AppendOfStores(c, s, n, b, c.batch);
    AppendGained(c, n, b);
    GainedSame(c, n, m, b);
    LogGrows(c, n, acc, b, m);
    ExecsGrow(c, n, m, acc, b);
  }

  lemma GoodShaped(c: Config, b: Batch)
    requires GoodBatch(c, b)
    ensures BatchShaped(c, b) && b.index != [] && IsEnd(c, LastId(b))
  {
  }

  lemma ExtendsOk(c: Config, acc: Accepted, acc': Accepted)
    requires Extends(c, acc, acc')
    ensures AcceptedOk(c, acc')
  {
  }

  /** Each id of an accepted batch finds its entry in both stores. */
  lemma AcceptIsTake(c: Config, n: Node, b: Batch)
    requires Shaped(c, n) && GoodBatch(c, b) && Accept(c, n, b).Ok?
    ensures forall i :: 0 <= i < c.batch ==> b.hash[i] == DigestOf(b.reqs[i].req)
    ensures Install(c, n, b, c.batch, true).Ok?
    ensures Accept(c, n, b).node == Append(c, Install(c, n, b, c.batch, true).node, b, c.batch)
  {
    hide Install, Append, Shaped;
  }

  // ------------------------------------------------ small state changes

  lemma PutPrepInv(c: Config, n: Node, acc: Accepted, v: Vote)
    requires Inv(c, n, acc) && GoodVote(c, v)
    ensures Inv(c, PutPrep(c, n, v), acc)
    ensures PutPrep(c, n, v) == n.(prep := PutPrep(c, n, v).prep)
  {
  }

  lemma PutCommInv(c: Config, n: Node, acc: Accepted, v: Vote)
    requires Inv(c, n, acc) && GoodVote(c, v)
    ensures Inv(c, PutComm(c, n, v), acc)
    ensures PutComm(c, n, v) == n.(comm := PutComm(c, n, v).comm)
  {
  }

  lemma PutPrepInvKeeps(c: Config, n: Node, v: Vote)
    requires Shaped(c, n) && v.sender < c.Nodes()
    ensures PutPrep(c, n, v) == n.(prep := PutPrep(c, n, v).prep)
  {
  }

  lemma PutCommInvKeeps(c: Config, n: Node, v: Vote)
    requires Shaped(c, n) && v.sender < c.Nodes()
    ensures PutComm(c, n, v) == n.(comm := PutComm(c, n, v).comm)
  {
  }

  lemma InvShaped(c: Config, n: Node, acc: Accepted)
    requires Inv(c, n, acc)
    ensures Shaped(c, n) && AcceptedOk(c, acc)
  {
  }

  /** Until its commit counter runs out, or its batch arrives, nothing is queued. */
  lemma NotYetQueued(c: Config, n: Node, acc: Accepted, k: nat)
    requires Inv(c, n, acc) && (0 < Mgr(c, n, k).commitCnt || k !in acc)
    ensures !Queued(c, n.out, k)
  {
    hide StoresOk, SlotsOk, SentOk, PreparedOk, LogOk, Shaped;
  }

  /** A manager may count down, and a manager of an accepted batch may be marked. */
  lemma SetMgrInv(c: Config, n: Node, acc: Accepted, id: nat, t: Txn)
    requires Inv(c, n, acc)
    requires t.query == Mgr(c, n, id).query && t.commitCnt <= Mgr(c, n, id).commitCnt
    requires t.prepared ==> id in acc
    ensures Inv(c, SetMgr(n, id, t), acc)
  {
    hide StoresOk, SlotsOk, SentOk, Holds, ReqAt, LogOf, Queued, AcceptedOk, ExecCount;
    InvShaped(c, n, acc);
    var txns := SetMgr(n, id, t).txns;
    forall k: nat
      ensures var u, v := TxnOf(c, n.txns, k), TxnOf(c, txns, k);
              v.query == u.query && v.commitCnt <= u.commitCnt && (v.prepared ==> u.prepared || k in acc)
    {
    }
  }

  lemma EmitInv(c: Config, n: Node, acc: Accepted, m: Msg)
    requires Inv(c, n, acc) && !m.Execute?
    requires SentOk(c, n.id, [m], acc)
    ensures Inv(c, Emit(n, m), acc)
  {
    assert m in [m];
    forall x ensures ExecCount(n.out + [m], x) == ExecCount(n.out, x) {
      CountEmit(n.out, m, x);
    }
  }

  lemma OwnVoteCast(c: Config, n: Node, acc: Accepted, id: nat)
    requires Inv(c, n, acc) && id in acc && n.pre[id % c.ring].txnId == id
    ensures Cast(c, n.id, acc, OwnVote(c, n, id)) && OwnVote(c, n, id).endIndex == id
  {
    EndOfEnd(c, id);
    assert PreOk(c, n.pre[id % c.ring], id % c.ring, acc);
  }

  lemma SendPrepInv(c: Config, n: Node, acc: Accepted, id: nat)
    requires Inv(c, n, acc) && id in acc && SendPrep(c, n, id).Ok?
    ensures var m := SendPrep(c, n, id).node;
            && Inv(c, m, acc) && m == n.(prep := m.prep, txns := m.txns, out := m.out)
            && CountedDown(c, n.txns, m.txns) && (!c.views ==> m.txns == n.txns)
            && !Queued(c, m.out, id) == !Queued(c, n.out, id)
  {
    hide Inv, Shaped, IsEnd, CountedDown;
    InvShaped(c, n, acc);
    OwnVoteCast(c, n, acc, id);
    var v := OwnVote(c, n, id);
    PutPrepInv(c, n, acc, v);
    var p := PutPrep(c, n, v);
    CountOwnPrepInv(c, p, acc, id);
    CastSent(c, n.id, acc, v);
    EmitInv(c, CountOwnPrep(c, p, id), acc, Prepare(v));
  }

  lemma CastSent(c: Config, id: nat, acc: Accepted, v: Vote)
    requires AcceptedOk(c, acc) && Cast(c, id, acc, v)
    ensures SentOk(c, id, [Prepare(v)], acc) && SentOk(c, id, [Commit(v)], acc)
  {
    hide Cast;
  }

  /** Own votes only count down. */
  ghost predicate CountedDown(c: Config, txns: map<nat, Txn>, txns': map<nat, Txn>) {
    forall k: nat ::
      var t, t' := TxnOf(c, txns, k), TxnOf(c, txns', k);
      t' == t.(prepCnt := t'.prepCnt, commitCnt := t'.commitCnt) && t'.commitCnt <= t.commitCnt
  }

  lemma CountOwnPrepInv(c: Config, n: Node, acc: Accepted, id: nat)
    requires Inv(c, n, acc)
    ensures var m := CountOwnPrep(c, n, id);
            && Inv(c, m, acc) && m == n.(txns := m.txns) && CountedDown(c, n.txns, m.txns) && (!c.views ==> m == n)
  {
    hide Inv;
    var t := Mgr(c, n, id);
    PreparedImpliesAccepted(c, n, acc, id);
    SetMgrInv(c, n, acc, id, t.(prepCnt := t.prepCnt - 1));
  }

  lemma CountOwnCommitInv(c: Config, n: Node, acc: Accepted, id: nat)
    requires Inv(c, n, acc)
    ensures var m := CountOwnCommit(c, n, id);
            && Inv(c, m, acc) && m == n.(txns := m.txns) && CountedDown(c, n.txns, m.txns) && (!c.views ==> m == n)
  {
    hide Inv;
    var t := Mgr(c, n, id);
    PreparedImpliesAccepted(c, n, acc, id);
    SetMgrInv(c, n, acc, id, t.(commitCnt := t.commitCnt - 1));
  }

  lemma SendCommitInv(c: Config, n: Node, acc: Accepted, id: nat)
    requires Inv(c, n, acc) && id in acc && SendCommit(c, n, id).Ok?
    ensures var m := SendCommit(c, n, id).node;
            && Inv(c, m, acc) && m == n.(comm := m.comm, txns := m.txns, out := m.out)
            && CountedDown(c, n.txns, m.txns) && (!c.views ==> m.txns == n.txns)
            && !Queued(c, m.out, id) == !Queued(c, n.out, id)
  {
    hide Inv, Shaped, IsEnd, CountedDown;
    InvShaped(c, n, acc);
    OwnVoteCast(c, n, acc, id);
    var v := OwnVote(c, n, id);
    PutCommInv(c, n, acc, v);
    var p := PutComm(c, n, v);
    CountOwnCommitInv(c, p, acc, id);
    CastSent(c, n.id, acc, v);
    EmitInv(c, CountOwnCommit(c, p, id), acc, Commit(v));
  }

  lemma {:induction false} TaggedMembers(slot: seq<Vote>, id: nat)
    ensures forall k :: 0 <= k < |Tagged(slot, id)| ==> Tagged(slot, id)[k] in slot && Tagged(slot, id)[k].txnId == id
  {
    if slot != [] {
      TaggedMembers(slot[..|slot| - 1], id);
      assert forall v :: v in slot[..|slot| - 1] ==> v in slot;
    }
  }

  /** A replica is prepared only for a batch it has accepted. */
  lemma PreparedMeansAccepted(c: Config, n: Node, acc: Accepted, id: nat)
    requires Inv(c, n, acc) && IsEnd(c, id) && PreparedVerdict(c, n, id) == Yes
    ensures id in acc
  {
    if !Mgr(c, n, id).prepared {
      var s := id % c.ring;
      var t := Tagged(n.prep[s], id);
      TaggedMembers(n.prep[s], id);
      assert t[0] in n.prep[s];
      var r :| 0 <= r < c.Nodes() && n.prep[s][r] == t[0];
      assert EntryOk(c, n.prep[s][r], s, r);
      EndIsLate(c, id);
      assert t[0].index <= id <= t[0].endIndex;
      assert n.cqry[id % c.ring].txnId == id;
      assert QueryOk(c, n.cqry[id % c.ring], id % c.ring, acc);
      EndOfEnd(c, id);
    }
  }

  lemma PreparedImpliesAccepted(c: Config, n: Node, acc: Accepted, id: nat)
    requires Inv(c, n, acc)
    ensures Mgr(c, n, id).prepared ==> id in acc
  {
    hide StoresOk, SlotsOk, SentOk, ExecsOk, LogOk, Shaped;
  }

  /** A batch found committed is accepted, and its EXECUTE message is the one its id gives. */
  lemma ExecForIsExecOf(c: Config, n: Node, acc: Accepted, id: nat)
    requires Inv(c, n, acc) && IsEnd(c, id) && 0 < id && n.pre[(id - 1) % c.ring].txnId == id - 1
    ensures ExecFor(c, n, id) == ExecOf(c, id)
  {
    hide SlotsOk, SentOk, ExecsOk, PreparedOk, LogOk, Shaped;
    assert PreOk(c, n.pre[(id - 1) % c.ring], (id - 1) % c.ring, acc);
  }

  lemma EmitExecInv(c: Config, n: Node, acc: Accepted, id: nat)
    requires Inv(c, n, acc) && id in acc && 0 < id && Mgr(c, n, id).commitCnt <= 0 && !Queued(c, n.out, id)
    ensures Inv(c, Emit(n, Execute(ExecOf(c, id))), acc)
  {
    hide StoresOk, SlotsOk, PreparedOk, BatchStart;
    var x := ExecOf(c, id);
    CountedIsIn(n.out, x);
    forall y ensures ExecCount(n.out + [Execute(x)], y) <= 1 {
      CountEmit(n.out, Execute(x), y);
    }
    assert forall k: nat :: Queued(c, n.out, k) ==> Queued(c, n.out + [Execute(x)], k);
  }

  lemma CommittedNeedsPrepared(c: Config, n: Node, id: nat, msg: Vote)
    requires Shaped(c, n)
    ensures CommittedVerdict(c, n, id, msg) == Yes ==> Mgr(c, n, id).prepared
  {
    hide WithIndex, FirstWithIndex;
  }

  lemma TryExecuteInv(c: Config, n: Node, acc: Accepted, id: nat, msg: Vote)
    requires Inv(c, n, acc) && IsEnd(c, id) && TryExecute(c, n, id, msg).Ok?
    requires Mgr(c, n, id).commitCnt <= 0 && !Queued(c, n.out, id)
    ensures Inv(c, TryExecute(c, n, id, msg).node, acc)
  {
    hide Inv, Shaped, IsEnd, ExecFor, CommittedVerdict;
    InvShaped(c, n, acc);
    CommittedNeedsPrepared(c, n, id, msg);
    if CommittedVerdict(c, n, id, msg) == Yes {
      PreparedImpliesAccepted(c, n, acc, id);
      SetMgrInv(c, n, acc, id, Mgr(c, n, id).(committed := true));
      var m := SetMgr(n, id, Mgr(c, n, id).(committed := true));
      InvShaped(c, m, acc);
      ExecForIsExecOf(c, n, acc, id);
      EmitExecInv(c, m, acc, id);
    }
  }

  // ------------------------------------------------ the handlers

  /** CatchUp, run while nothing is queued for the batch. */
  lemma CatchUpInv(c: Config, n: Node, acc: Accepted, k: nat)
    requires Inv(c, n, acc) && IsEnd(c, k) && k in acc && !Queued(c, n.out, k) && CatchUp(c, n, k).Ok?
    ensures Inv(c, CatchUp(c, n, k).node, acc)
  {
    hide Inv, Shaped, PreparedVerdict, CommittedVerdict, SendCommit, TryExecute, IsEnd, TxnOf;
    InvShaped(c, n, acc);
    if Mgr(c, n, k).prepCnt <= 0 && PreparedVerdict(c, n, k) == Yes {
      var q := MarkPrepared(c, n, k);
      SetMgrInv(c, n, acc, k, Mgr(c, n, k).(prepared := true));
      SendCommitInv(c, q, acc, k);
      var r := SendCommit(c, q, k).node;
      InvShaped(c, r, acc);
      if Mgr(c, r, k).commitCnt <= 0 {
        TryExecuteInv(c, r, acc, k, FirstWithTxn(r.comm[k % c.ring], k));
      }
    }
  }

  lemma BatchArrivesInv(c: Config, n: Node, acc: Accepted, b: Batch)
    requires Inv(c, n, acc) && Allowed(c, n, acc, BatchArrives(b)) && ProcessBatch(c, n, b).Ok?
    ensures Inv(c, ProcessBatch(c, n, b).node, acc[LastId(b) := b])
  {
    hide Inv, Shaped, CatchUp, SendPrep, IsEnd, Accept, GoodBatch, Install, Append, CountersSame, AcceptedOk;
    GoodShaped(c, b);
    var k, acc' := LastId(b), acc[LastId(b) := b];
    InvShaped(c, n, acc);
    NotYetQueued(c, n, acc, k);
    AcceptIsTake(c, n, b);
    TakeInv(c, n, acc, b, true);
    var a := Accept(c, n, b).node;
    SendPrepInv(c, a, acc', k);
    CatchUpInv(c, SendPrep(c, a, k).node, acc', k);
  }

  lemma PrepArrivesInv(c: Config, n: Node, acc: Accepted, v: Vote)
    requires Inv(c, n, acc) && GoodVote(c, v) && ProcessPrep(c, n, v).Ok?
    ensures Inv(c, ProcessPrep(c, n, v).node, acc)
  {
    hide Inv, Shaped, PreparedVerdict, PutPrep, SendCommit, IsEnd, TxnOf;
    InvShaped(c, n, acc);
    var t := Mgr(c, n, v.txnId);
    PutPrepInv(c, n, acc, v);
    PreparedImpliesAccepted(c, n, acc, v.txnId);
    var p := PutPrep(c, n, v);
    SetMgrInv(c, p, acc, v.txnId, t.(prepCnt := t.prepCnt - 1));
    var m := SetMgr(p, v.txnId, t.(prepCnt := t.prepCnt - 1));
    InvShaped(c, m, acc);
    if v.view == c.primary && !(c.views && v.txnId < n.next) && t.prepCnt == 1 && !t.prepared
       && PreparedVerdict(c, m, v.txnId) == Yes {
      PreparedMeansAccepted(c, m, acc, v.txnId);
      SetMgrInv(c, m, acc, v.txnId, Mgr(c, m, v.txnId).(prepared := true));
      SendCommitInv(c, MarkPrepared(c, m, v.txnId), acc, v.txnId);
    }
  }

  lemma CommitArrivesInv(c: Config, n: Node, acc: Accepted, v: Vote)
    requires Inv(c, n, acc) && GoodVote(c, v) && ProcessCommit(c, n, v).Ok?
    ensures Inv(c, ProcessCommit(c, n, v).node, acc)
  {
    hide Inv, Shaped, PutComm, TryExecute, IsEnd, FailsOnPurpose;
    InvShaped(c, n, acc);
    var t := Mgr(c, n, v.txnId);
    PutCommInv(c, n, acc, v);
    PreparedImpliesAccepted(c, n, acc, v.txnId);
    var p := PutComm(c, n, v);
    SetMgrInv(c, p, acc, v.txnId, t.(commitCnt := t.commitCnt - 1));
    var m := SetMgr(p, v.txnId, t.(commitCnt := t.commitCnt - 1));
    InvShaped(c, m, acc);
    if v.view == c.primary && !(c.views && v.index < n.next) && t.commitCnt == 1 && !t.committed {
      NotYetQueued(c, n, acc, v.txnId);
      TryExecuteInv(c, m, acc, v.txnId, v);
    }
  }

  lemma BatchSetInv(c: Config, n: Node, acc: Accepted, s: nat, x: nat)
    requires Inv(c, n, acc) && s < c.ring
    ensures Inv(c, n.(batchSet := n.batchSet[s := x]), acc)
  {
    hide StoresOk, SlotsOk, SentOk, ExecsOk, PreparedOk, LogOk;
  }

  lemma ClientBatchInv(c: Config, n: Node, acc: Accepted, k: nat, reqs: seq<Request>)
    requires Inv(c, n, acc) && Allowed(c, n, acc, ClientBatch(k, reqs))
    ensures Inv(c, ProcessClientBatch(c, n, k, reqs), acc[c.batch * k + c.batch - 1 := MakeBatch(c, k, reqs)])
  {
    hide Inv, Shaped, AcceptedOk, GoodBatch, CountersSame, Install, Append;
    var b := MakeBatch(c, k, reqs);
    InvShaped(c, n, acc);
    MakeBatchGood(c, k, reqs);
    GoodShaped(c, b);
    InstallNeverCrashes(c, n, b, c.batch);
    TakeInv(c, n, acc, b, false);
    var m := Append(c, Install(c, n, b, c.batch, false).node, b, c.batch);
    InvShaped(c, m, acc[LastId(b) := b]);
    BatchSetInv(c, m, acc[LastId(b) := b], k % c.ring, c.batch * k);
    EmitInv(c, m.(batchSet := m.batchSet[k % c.ring := c.batch * k]), acc[LastId(b) := b], Order(b));
  }

  lemma {:induction false} RunRangeIsLog(c: Config, n: Node, acc: Accepted, lo: nat, len: nat)
    requires AcceptedOk(c, acc)
    requires forall id :: lo <= id < lo + len ==> Holds(c, acc, id) && Mgr(c, n, id).query == [ReqAt(c, acc, id)]
    ensures LogOf(c, acc, lo) + RunRange(c, n, lo, len) == LogOf(c, acc, lo + len)
  {
    if 0 < len {
      RunRangeIsLog(c, n, acc, lo, len - 1);
      assert LogOf(c, acc, lo) + RunRange(c, n, lo, len)
          == LogOf(c, acc, lo) + RunRange(c, n, lo, len - 1) + [ReqAt(c, acc, lo + len - 1)];
    }
  }

  lemma NextEnds(c: Config, next: nat, k: nat, j: nat)
    requires next % c.batch == 0 && IsEnd(c, k) && next == k + 1 - c.batch && IsEnd(c, j) && j < k + 1
    ensures j < next || j == k
  {
    if next <= j {
      BatchAhead(c, next, j);
    }
  }

  /** The EXECUTE message at hand is that of the next batch. */
  lemma RunExecBatch(c: Config, n: Node, acc: Accepted, x: Exec)
    requires Inv(c, n, acc) && Execute(x) in n.out && x.index == n.next
    ensures var k := x.txnId + 1;
            k in acc && IsEnd(c, k) && n.next + c.batch == k + 1 && ExecLength(x) == c.batch && Queued(c, n.out, k)
  {
    hide StoresOk, SlotsOk, SentOk, PreparedOk, LogOk, Shaped, AcceptedOk, IsEnd, BatchStart, TxnOf, ExecCount;
    InvShaped(c, n, acc);
    AcceptedLate(c, acc, x.txnId + 1);
    EndIsLate(c, x.txnId + 1);
  }

  lemma IsEndMod(c: Config, k: nat)
    requires IsEnd(c, k)
    ensures (k + 1) % c.batch == 0
  {
  }

  lemma RunBatchInv(c: Config, n: Node, acc: Accepted, k: nat)
    requires Inv(c, n, acc) && k in acc && IsEnd(c, k) && n.next + c.batch == k + 1 && Queued(c, n.out, k)
    ensures Inv(c, n.(next := k + 1, log := n.log + RunRange(c, n, n.next, c.batch)), acc)
  {
    hide StoresOk, SlotsOk, SentOk, ExecsOk, PreparedOk, Queued, BatchStart, AcceptedOk, ReqAt, IsEnd, EndOf;
    InvShaped(c, n, acc);
    forall id | n.next <= id < n.next + c.batch
      ensures Holds(c, acc, id)
    {
      EndOfMember(c, k, id);
    }
    AcceptedLate(c, acc, k);
    assert (k + 1) % c.batch == 0 by { IsEndMod(c, k); }
    RunRangeIsLog(c, n, acc, n.next, c.batch);
    forall j: nat | IsEnd(c, j) && j < k + 1
      ensures Queued(c, n.out, j)
    {
      NextEnds(c, n.next, k, j);
    }
    assert LogOk(c, n.txns, n.log + RunRange(c, n, n.next, c.batch), k + 1, n.out, acc);
  }

  lemma RunExecInv(c: Config, n: Node, acc: Accepted, x: Exec)
    requires Inv(c, n, acc) && Execute(x) in n.out && ProcessExecute(c, n, x).Ok?
    ensures Inv(c, ProcessExecute(c, n, x).node, acc)
    ensures ProcessExecute(c, n, x).node.next == n.next + c.batch == x.txnId + 2
  {
    hide Inv, Shaped, RunRange, IsEnd, ExecLength, Sub64, Without;
    var k := x.txnId + 1;
    RunExecBatch(c, n, acc, x);
    RunBatchInv(c, n, acc, k);
    InvShaped(c, n, acc);
    var m := n.(next := k + 1, log := n.log + RunRange(c, n, x.index, c.batch));
    if (k + 1) % c.chkpt == 0 {
      EmitInv(c, m, acc, Checkpoint(Sub64(m.next, 5), Sub64(m.next, c.chkpt), n.id));
    } else if Mgr(c, n, k).commitCnt == c.f - 1 {
      ReleaseInv(c, m, acc, BatchStart(c, k));
    }
  }

  /** Releasing managers of the first batch after it has run is harmless. */
  lemma ReleaseInv(c: Config, n: Node, acc: Accepted, lo: nat)
    requires Inv(c, n, acc) && c.batch <= n.next
    ensures Inv(c, n.(txns := Without(n.txns, lo, c.batch - 5)), acc)
  {
    hide StoresOk, SlotsOk, SentOk, Holds, ReqAt, BatchStart, AcceptedOk, IsEnd;
    InvShaped(c, n, acc);
    var txns := Without(n.txns, lo, c.batch - 5);
    forall id: nat
      ensures TxnOf(c, txns, id) == TxnOf(c, n.txns, id) || (id < c.batch - 5 && TxnOf(c, txns, id) == NewTxn(c))
    {
    }
    forall k | k in acc ensures c.batch - 1 <= k {
      AcceptedLate(c, acc, k);
    }
  }

  lemma OrderReadyInv(c: Config, n: Node, acc: Accepted, b: Batch)
    requires Inv(c, n, acc) && Order(b) in n.out
    ensures Inv(c, ProcessOrder(c, n, b), acc)
  {
    hide StoresOk, SlotsOk, ExecsOk, PreparedOk, LogOk;
    if b.txnId == n.expected {
      EmitInv(c, n, acc, Announce(b));
    }
  }

  /** Every event a replica can meet keeps its invariant. */
  lemma HandleInv(c: Config, n: Node, acc: Accepted, e: Event)
    requires Inv(c, n, acc) && Allowed(c, n, acc, e) && EventShaped(c, e) && Handle(c, n, e).Ok?
    ensures Inv(c, Handle(c, n, e).node, Grow(c, acc, e))
  {
    hide Inv, ProcessBatch, ProcessPrep, ProcessCommit, ProcessExecute, ProcessOrder, ProcessClientBatch, GoodBatch, MakeBatch;
    match e
    case ClientBatch(k, reqs) => ClientBatchInv(c, n, acc, k, reqs);
    case BatchArrives(b) => BatchArrivesInv(c, n, acc, b);
    case PrepArrives(v) => PrepArrivesInv(c, n, acc, v);
    case CommitArrives(v) => CommitArrivesInv(c, n, acc, v);
    case RunExec(x) => RunExecInv(c, n, acc, x);
    case OrderReady(b) => OrderReadyInv(c, n, acc, b);
  }
}
