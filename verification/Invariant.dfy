/** What every handler keeps at one replica, whatever order messages arrive in and
    however often they are repeated. */
module Invariant {
  import opened Arith
  import opened Protocol
  import R = Replica

  // ------------------------------------------------ well-formed messages

  predicate IsEnd(c: Config, id: nat) { (id + 1) % c.batch == 0 && id < EMPTY }

  /** The last id of the batch that id belongs to. */
  function EndOf(c: Config, id: nat): nat { c.batch * (id / c.batch) + c.batch - 1 }

  ghost predicate GoodBatch(c: Config, b: Batch) {
    && R.Consecutive(c, b)
    && IsEnd(c, LastId(b))
    && forall i :: 0 <= i < c.batch ==> b.reqs[i].txnId == b.index[i]
  }

  predicate GoodVote(c: Config, v: Vote) {
    && v.sender < c.Nodes()
    && v.txnId == v.endIndex
    && IsEnd(c, v.endIndex)
    && v.index == BatchStart(c, v.endIndex)
  }

  lemma EndIsLate(c: Config, id: nat)
    requires IsEnd(c, id)
    ensures c.batch <= id + 1 && BatchStart(c, id) == id + 1 - c.batch
  {
  }

  lemma EndOfMember(c: Config, k: nat, id: nat)
    requires IsEnd(c, k) && k + 1 - c.batch <= id <= k
    ensures EndOf(c, id) == k && id % c.batch == id - (k + 1 - c.batch)
  {
    var q := (k + 1) / c.batch;
    assert k + 1 == c.batch * q;
    assert 1 <= q;
    assert id == c.batch * (q - 1) + (id - (k + 1 - c.batch));
    DivUnique(id, c.batch, q - 1, id - (k + 1 - c.batch));
  }

  lemma EndOfIsEnd(c: Config, id: nat)
    ensures (EndOf(c, id) + 1) % c.batch == 0 && id <= EndOf(c, id) < id + c.batch
  {
    DivUnique(EndOf(c, id) + 1, c.batch, id / c.batch + 1, 0);
  }

  // ------------------------------------------------ the batches a replica has accepted

  /** Accepted batches by last id; at most one per index is a hypothesis on runs. */
  type Accepted = map<nat, Batch>

  ghost predicate AcceptedOk(c: Config, acc: Accepted) {
    forall k :: k in acc ==>
      && GoodBatch(c, acc[k])
      && LastId(acc[k]) == k
      && forall i :: 0 <= i < c.batch ==> acc[k].hash[i] == DigestOf(acc[k].reqs[i].req)
  }

  predicate Holds(c: Config, acc: Accepted, id: nat) { EndOf(c, id) in acc }

  function ReqAt(c: Config, acc: Accepted, id: nat): Request
    requires AcceptedOk(c, acc) && Holds(c, acc, id)
  {
    acc[EndOf(c, id)].reqs[id % c.batch].req
  }

  function LastHash(c: Config, b: Batch): Digest
    requires BatchShaped(c, b)
  {
    b.hash[c.batch - 1]
  }

  // ------------------------------------------------ the parts of the invariant

  ghost predicate PreOk(c: Config, p: Pre, s: nat, acc: Accepted)
    requires AcceptedOk(c, acc)
  {
    if p.txnId == EMPTY then p.index == EMPTY
    else
      && p.txnId % c.ring == s
      && Holds(c, acc, p.txnId)
      && p == Pre(p.txnId, p.txnId, DigestOf(ReqAt(c, acc, p.txnId)), ReqAt(c, acc, p.txnId))
  }

  ghost predicate QueryOk(c: Config, q: Query, s: nat, acc: Accepted)
    requires AcceptedOk(c, acc)
  {
    q.txnId == EMPTY ||
    (q.txnId % c.ring == s && Holds(c, acc, q.txnId) && q.req == ReqAt(c, acc, q.txnId))
  }

  ghost predicate StoresOk(c: Config, pre: seq<Pre>, cqry: seq<Query>, acc: Accepted) {
    && |pre| == |cqry| == c.ring
    && AcceptedOk(c, acc)
    && (forall s :: 0 <= s < c.ring ==> PreOk(c, pre[s], s, acc))
    && (forall s :: 0 <= s < c.ring ==> QueryOk(c, cqry[s], s, acc))
  }

  predicate EntryOk(c: Config, v: Vote, s: nat, r: nat) {
    || (v.txnId == EMPTY && v.index == EMPTY)
    || (GoodVote(c, v) && v.endIndex % c.ring == s && v.sender == r)
  }

  ghost predicate SlotsOk(c: Config, slots: seq<seq<Vote>>) {
    && |slots| == c.ring
    && (forall s :: 0 <= s < c.ring ==> |slots[s]| == c.Nodes())
    && (forall s, r :: 0 <= s < c.ring && 0 <= r < c.Nodes() ==> EntryOk(c, slots[s][r], s, r))
  }

  /** A vote this replica may cast: its own, for an accepted batch, with that
      batch's last digest. */
  ghost predicate Cast(c: Config, id: nat, acc: Accepted, v: Vote)
    requires AcceptedOk(c, acc)
  {
    GoodVote(c, v) && v.sender == id && v.txnId in acc && v.hash == LastHash(c, acc[v.txnId]) && v.view == c.primary
  }

  ghost predicate SentOk(c: Config, id: nat, out: seq<Msg>, acc: Accepted)
    requires AcceptedOk(c, acc)
  {
    forall m :: m in out ==>
      match m
      case Prepare(v) => Cast(c, id, acc, v)
      case Commit(v) => Cast(c, id, acc, v)
      case Order(b) => b.index != [] && LastId(b) in acc && b == acc[LastId(b)]
      case Announce(b) => b.index != [] && LastId(b) in acc && b == acc[LastId(b)]
      case _ => true
  }

  function ExecOf(c: Config, k: nat): Exec
    requires 0 < k
  {
    Exec(k - 1, BatchStart(c, k), k - 1)
  }

  function ExecCount(out: seq<Msg>, x: Exec): nat {
    if out == [] then 0
    else ExecCount(out[..|out| - 1], x) + if out[|out| - 1] == Execute(x) then 1 else 0
  }

  /** The EXECUTE message of batch k has been queued. */
  predicate Queued(c: Config, out: seq<Msg>, k: nat) { 0 < k && Execute(ExecOf(c, k)) in out }

  ghost predicate ExecsOk(c: Config, txns: map<nat, Txn>, out: seq<Msg>, acc: Accepted) {
    && (forall x :: Execute(x) in out ==>
          && x.txnId + 1 in acc
          && x == ExecOf(c, x.txnId + 1)
          && TxnOf(c, txns, x.txnId + 1).commitCnt <= 0)
    && (forall x :: ExecCount(out, x) <= 1)
  }

  ghost predicate PreparedOk(c: Config, txns: map<nat, Txn>, acc: Accepted) {
    forall k :: TxnOf(c, txns, k).prepared ==> k in acc
  }

  /** The requests of ids 0..m-1 of the accepted batches. */
  ghost function LogOf(c: Config, acc: Accepted, m: nat): seq<Request>
    requires AcceptedOk(c, acc)
  {
    if m == 0 then []
    else LogOf(c, acc, m - 1) + if Holds(c, acc, m - 1) then [ReqAt(c, acc, m - 1)] else []
  }

  ghost predicate LogOk(c: Config, txns: map<nat, Txn>, log: seq<Request>, next: nat, out: seq<Msg>, acc: Accepted)
    requires AcceptedOk(c, acc)
  {
    && next % c.batch == 0
    && next <= EMPTY
    && (forall k: nat :: IsEnd(c, k) && k < next ==> Queued(c, out, k))
    && (forall id :: next <= id && Holds(c, acc, id) ==> TxnOf(c, txns, id).query == [ReqAt(c, acc, id)])
    && (forall id :: !Holds(c, acc, id) ==> TxnOf(c, txns, id).query == [])
    && log == LogOf(c, acc, next)
  }

  ghost predicate Inv(c: Config, n: Node, acc: Accepted) {
    && Shaped(c, n)
    && StoresOk(c, n.pre, n.cqry, acc)
    && SlotsOk(c, n.prep)
    && SlotsOk(c, n.comm)
    && SentOk(c, n.id, n.out, acc)
    && ExecsOk(c, n.txns, n.out, acc)
    && PreparedOk(c, n.txns, acc)
    && LogOk(c, n.txns, n.log, n.next, n.out, acc)
  }

  // ------------------------------------------------ events a replica meets

  /** Well-formed messages, and no second batch for an index already accepted. */
  ghost predicate Allowed(c: Config, n: Node, acc: Accepted, e: Event) {
    match e
    case ClientBatch(k, reqs) =>
      n.id == c.primary && |reqs| == c.batch && c.batch * k + c.batch - 1 < EMPTY && c.batch * k + c.batch - 1 !in acc
    case OrderReady(b) => n.id == c.primary && Order(b) in n.out
    case BatchArrives(b) => n.id != c.primary && GoodBatch(c, b) && LastId(b) !in acc
    case PrepArrives(v) => GoodVote(c, v)
    case CommitArrives(v) => GoodVote(c, v)
    case RunExec(x) => Execute(x) in n.out
  }

  ghost function Grow(c: Config, acc: Accepted, e: Event): Accepted
    requires EventShaped(c, e)
  {
    match e
    case ClientBatch(k, reqs) => acc[c.batch * k + c.batch - 1 := MakeBatch(c, k, reqs)]
    case BatchArrives(b) => acc[LastId(b) := b]
    case _ => acc
  }

  // ------------------------------------------------ the start

  lemma BootInv(c: Config, id: nat)
    requires id < c.Nodes()
    ensures Inv(c, Boot(c, id), map[])
  {
  }

  // ------------------------------------------------ accepting a batch

  lemma MakeBatchGood(c: Config, k: nat, reqs: seq<Request>)
    requires |reqs| == c.batch && c.batch * k + c.batch - 1 < EMPTY
    ensures GoodBatch(c, MakeBatch(c, k, reqs)) && LastId(MakeBatch(c, k, reqs)) == c.batch * k + c.batch - 1
  {
    DivUnique(c.batch * k + c.batch, c.batch, k + 1, 0);
  }

  ghost predicate Extends(c: Config, acc: Accepted, acc': Accepted) {
    && AcceptedOk(c, acc)
    && AcceptedOk(c, acc')
    && (forall id :: Holds(c, acc, id) ==> Holds(c, acc', id) && ReqAt(c, acc', id) == ReqAt(c, acc, id))
  }

  /** acc holds batch b, id by id. */
  ghost predicate Contains(c: Config, acc: Accepted, b: Batch) {
    && GoodBatch(c, b)
    && AcceptedOk(c, acc)
    && (forall i :: 0 <= i < c.batch ==> b.hash[i] == DigestOf(b.reqs[i].req))
    && (forall i :: 0 <= i < c.batch ==> Holds(c, acc, b.index[i]) && ReqAt(c, acc, b.index[i]) == b.reqs[i].req)
  }

  lemma GrowExtends(c: Config, acc: Accepted, b: Batch)
    requires AcceptedOk(c, acc) && GoodBatch(c, b) && LastId(b) !in acc
    requires forall i :: 0 <= i < c.batch ==> b.hash[i] == DigestOf(b.reqs[i].req)
    ensures Extends(c, acc, acc[LastId(b) := b])
  {
  }

  lemma GrowContains(c: Config, acc: Accepted, b: Batch)
    requires AcceptedOk(c, acc) && GoodBatch(c, b)
    requires forall i :: 0 <= i < c.batch ==> b.hash[i] == DigestOf(b.reqs[i].req)
    ensures Contains(c, acc[LastId(b) := b], b)
  {
    EndIsLate(c, LastId(b));
    assert AcceptedOk(c, acc[LastId(b) := b]);
    forall i | 0 <= i < c.batch
      ensures EndOf(c, b.index[i]) == LastId(b) && b.index[i] % c.batch == i
    {
      EndOfMember(c, LastId(b), b.index[i]);
    }
  }

  lemma GrowOnlyBatch(c: Config, acc: Accepted, b: Batch, id: nat)
    requires GoodBatch(c, b) && Holds(c, acc[LastId(b) := b], id) && !Holds(c, acc, id)
    ensures b.index[0] <= id <= LastId(b)
  {
    EndOfIsEnd(c, id);
  }

  lemma {:induction false} InstallStoresOk(c: Config, n: Node, b: Batch, k: nat, check: bool, acc: Accepted)
    requires Shaped(c, n) && k <= c.batch && Contains(c, acc, b) && StoresOk(c, n.pre, n.cqry, acc)
    ensures var r := Install(c, n, b, k, check); r.Ok? ==> StoresOk(c, r.node.pre, r.node.cqry, acc)
  {
    if 0 < k {
      InstallStoresOk(c, n, b, k - 1, check, acc);
      assert b.index[k - 1] < EMPTY;
    }
  }

  lemma StoresGrow(c: Config, pre: seq<Pre>, cqry: seq<Query>, acc: Accepted, acc': Accepted)
    requires StoresOk(c, pre, cqry, acc) && Extends(c, acc, acc')
    ensures StoresOk(c, pre, cqry, acc')
  {
  }

  /** What appending the first k requests does to each manager. */
  lemma {:induction false} AppendEffect(c: Config, n: Node, b: Batch, k: nat, id: nat)
    requires GoodBatch(c, b) && k <= c.batch
    ensures var t, t' := Mgr(c, n, id), Mgr(c, Append(c, n, b, k), id);
            if b.index[0] <= id < b.index[0] + k
            then t' == t.(query := t.query + [b.reqs[id - b.index[0]].req])
            else t' == t
  {
    if 0 < k {
      AppendEffect(c, n, b, k - 1, id);
    }
  }
}
