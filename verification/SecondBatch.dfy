/** What becomes of a second batch for an index already accepted, which the protocol
    rules out and the program does not: exactly when it is taken, and what it breaks. */
module SecondBatch {
  import opened Arith
  import opened Protocol
  import opened Invariant
  import D = Delivery
  import T = DeliveryRuns
  import X = DeliveryExamples
  import P = Preserve
  import R = Replica

  ghost predicate HashesFit(c: Config, b: Batch) {
    BatchShaped(c, b) && b.view == c.primary && forall i :: 0 <= i < c.batch ==> b.hash[i] == DigestOf(b.reqs[i].req)
  }

  /** No entry of b has the hash held at its place. */
  ghost predicate AllDiffer(c: Config, b: Batch, held: Batch) {
    |b.hash| == |held.hash| == c.batch && forall i :: 0 <= i < c.batch ==> b.hash[i] != held.hash[i]
  }

  lemma HeldEntry(c: Config, n: Node, acc: Accepted, k: nat, i: nat)
    requires Inv(c, n, acc) && k in acc && i < c.batch
    requires |n.pre| == c.ring && c.batch <= k + 1 && HasPres(c, n, k + 1 - c.batch, k)
    ensures |acc[k].hash| == c.batch
    ensures var p := n.pre[(k + 1 - c.batch + i) % c.ring]; p.index == k + 1 - c.batch + i && p.hash == acc[k].hash[i]
  {
    hide SlotsOk, SentOk, ExecsOk, PreparedOk, LogOk, Shaped;
    P.AcceptedLate(c, acc, k);
    var x := k + 1 - c.batch + i;
    EndOfMember(c, k, x);
    assert n.pre[x % c.ring].txnId == x;
    assert PreOk(c, n.pre[x % c.ring], x % c.ring, acc);
  }

  /** The slot of entry k is as it was when the first k entries have been written. */
  lemma {:induction false} NotYetWritten(c: Config, n: Node, b: Batch, k: nat, i: nat)
    requires Shaped(c, n) && R.Consecutive(c, b) && k <= i < c.batch && Install(c, n, b, k, true).Ok?
    ensures Install(c, n, b, k, true).node.pre[b.index[i] % c.ring] == n.pre[b.index[i] % c.ring]
  {
    if 0 < k {
      NotYetWritten(c, n, b, k - 1, i);
      SlotsDiffer(b.index[k - 1], b.index[i], c.ring);
    }
  }

  lemma {:induction false} InstallOver(c: Config, n: Node, b: Batch, k: nat, held: Batch)
    requires Shaped(c, n) && R.Consecutive(c, b) && k <= c.batch && |held.hash| == c.batch
    requires forall i :: 0 <= i < c.batch ==>
               n.pre[b.index[i] % c.ring].index == b.index[i] && n.pre[b.index[i] % c.ring].hash == held.hash[i]
    ensures Install(c, n, b, k, true).Ok? <==> forall i :: 0 <= i < k ==> b.hash[i] != held.hash[i]
  {
    if 0 < k {
      InstallOver(c, n, b, k - 1, held);
      if Install(c, n, b, k - 1, true).Ok? {
        NotYetWritten(c, n, b, k - 1, k - 1);
      }
    }
  }

  /** A second batch for an index whose entries are still stored is accepted if and
      only if its hashes and view fit and each hash differs from the one held. */
  lemma TakenExactlyWhen(c: Config, n: Node, acc: Accepted, b: Batch)
    requires Inv(c, n, acc) && Shaped(c, n) && GoodBatch(c, b) && LastId(b) in acc
    requires |n.pre| == c.ring && c.batch <= LastId(b) + 1 && HasPres(c, n, LastId(b) + 1 - c.batch, LastId(b))
    ensures Accept(c, n, b).Ok? <==> HashesFit(c, b) && AllDiffer(c, b, acc[LastId(b)])
  {
    hide Inv, Shaped, Install, Append, GoodBatch;
    P.GoodShaped(c, b);
    var k, held := LastId(b), acc[LastId(b)];
    EndIsLate(c, k);
    HeldEntry(c, n, acc, k, 0);
    forall i | 0 <= i < c.batch
      ensures b.index[i] == k + 1 - c.batch + i
      ensures n.pre[b.index[i] % c.ring].index == b.index[i] && n.pre[b.index[i] % c.ring].hash == held.hash[i]
    {
      IndexAt(c, b, i);
      HeldEntry(c, n, acc, k, i);
    }
    assert R.Consecutive(c, b) by { Consecutive(c, b); }
    InstallOver(c, n, b, c.batch, held);
  }

  lemma Consecutive(c: Config, b: Batch)
    requires GoodBatch(c, b)
    ensures R.Consecutive(c, b)
  {
  }

  lemma IndexAt(c: Config, b: Batch, i: nat)
    requires GoodBatch(c, b) && i < c.batch
    ensures b.index != [] && c.batch <= LastId(b) + 1 && b.index[i] == LastId(b) + 1 - c.batch + i
  {
    EndIsLate(c, LastId(b));
  }

  /** Each manager of the batch then has two requests to run. */
  lemma TwoRequests(c: Config, n: Node, acc: Accepted, b: Batch, i: nat)
    requires Inv(c, n, acc) && Shaped(c, n) && GoodBatch(c, b) && LastId(b) in acc && n.next <= LastId(b) && i < c.batch
    requires Accept(c, n, b).Ok?
    ensures c.batch <= LastId(b) + 1
    ensures |acc[LastId(b)].reqs| == |b.reqs| == c.batch
    ensures Mgr(c, Accept(c, n, b).node, LastId(b) + 1 - c.batch + i).query == [acc[LastId(b)].reqs[i].req, b.reqs[i].req]
  {
    hide Inv, Shaped, Install, AcceptedOk;
    var k := LastId(b);
    IndexAt(c, b, 0);
    var x := k + 1 - c.batch + i;
    OneRequest(c, n, acc, k, i);
    P.AcceptIsTake(c, n, b);
    R.InstallOnlyStores(c, n, b, c.batch, true);
    AppendEffect(c, Install(c, n, b, c.batch, true).node, b, c.batch, x);
  }

  lemma OneRequest(c: Config, n: Node, acc: Accepted, k: nat, i: nat)
    requires Inv(c, n, acc) && k in acc && n.next <= k && i < c.batch
    ensures c.batch <= k + 1 && |acc[k].reqs| == c.batch
    ensures Mgr(c, n, k + 1 - c.batch + i).query == [acc[k].reqs[i].req]
  {
    hide StoresOk, SlotsOk, SentOk, ExecsOk, PreparedOk, Shaped, LogOf, Queued;
    P.InvShaped(c, n, acc);
    P.AcceptedLate(c, acc, k);
    EndIsLate(c, k);
    P.BatchAhead(c, n.next, k);
    EndOfMember(c, k, k + 1 - c.batch + i);
  }

  /** No set of accepted batches explains a manager with two requests. */
  lemma Overfull(c: Config, n: Node, k: nat, acc: Accepted)
    requires n.next <= k && |Mgr(c, n, k).query| == 2
    ensures !Inv(c, n, acc)
  {
    hide StoresOk, SlotsOk, SentOk, ExecsOk, PreparedOk, Shaped, Queued, LogOf, AcceptedOk, ReqAt;
  }

  /** So the node is out of the invariant, whatever batches it is said to have accepted. */
  lemma SecondBatchBreaks(c: Config, n: Node, acc: Accepted, b: Batch, acc': Accepted)
    requires Inv(c, n, acc) && Shaped(c, n) && GoodBatch(c, b) && LastId(b) in acc && n.next <= LastId(b)
    requires Accept(c, n, b).Ok?
    ensures !Inv(c, Accept(c, n, b).node, acc')
  {
    hide Inv, Shaped, Accept, GoodBatch;
    P.GoodShaped(c, b);
    TwoRequests(c, n, acc, b, c.batch - 1);
    AcceptNext(c, n, b);
    Overfull(c, Accept(c, n, b).node, LastId(b), acc');
  }

  lemma AcceptNext(c: Config, n: Node, b: Batch)
    requires Shaped(c, n) && BatchShaped(c, b) && Accept(c, n, b).Ok?
    ensures Accept(c, n, b).node.next == n.next
  {
    hide Install, Append;
    R.InstallOnlyStores(c, n, b, c.batch, true);
    R.AppendKeeps(c, Install(c, n, b, c.batch, true).node, b, c.batch);
  }

  lemma {:induction false} RunsBoth(c: Config, n: Node, acc: Accepted, b: Batch, len: nat)
    requires Inv(c, n, acc) && Shaped(c, n) && GoodBatch(c, b) && LastId(b) in acc && n.next <= LastId(b)
    requires Accept(c, n, b).Ok? && len <= c.batch
    ensures c.batch <= LastId(b) + 1
    ensures |RunRange(c, Accept(c, n, b).node, LastId(b) + 1 - c.batch, len)| == 2 * len
  {
    hide Inv, Shaped, Accept, AcceptedOk, GoodBatch;
    P.GoodShaped(c, b);
    IndexAt(c, b, 0);
    if 0 < len {
      RunsBoth(c, n, acc, b, len - 1);
      TwoRequests(c, n, acc, b, len - 1);
    }
  }

  /** Short of prepares, the handler ends with the node's own. */
  lemma TakenQuietly(c: D.Plain, n: Node, b: Batch)
    requires Shaped(c, n) && BatchShaped(c, b) && Accept(c, n, b).Ok? && n.id != c.primary && GoodBatch(c, b)
    requires 0 < Mgr(c, n, LastId(b)).prepCnt
    ensures var a, r := Accept(c, n, b).node, ProcessBatch(c, n, b); r.Ok? && r.node.txns == a.txns && r.node.next == a.next
  {
    hide Install, Append, PreparedVerdict;
    P.AcceptIsTake(c, n, b);
    R.InstallOnlyStores(c, n, b, c.batch, true);
    var s := Install(c, n, b, c.batch, true).node;
    R.AppendKeeps(c, s, b, c.batch);
    R.InstalledQuery(c, n, b, c.batch, c.batch - 1, true);
    AppendEffect(c, s, b, c.batch, LastId(b));
  }

  lemma {:induction false} SameRange(c: Config, n: Node, m: Node, lo: nat, len: nat)
    requires m.txns == n.txns
    ensures RunRange(c, m, lo, len) == RunRange(c, n, lo, len)
  {
    if 0 < len { SameRange(c, n, m, lo, len - 1); }
  }

  /** The second of two batches for the first index: taken by a new backup that holds
      the other, which puts it out of the invariant and makes it run both. */
  lemma TwoBatchRun(c: D.Plain, id: nat, q: Batch, q2: Batch, acc': Accepted)
    requires id < c.Nodes() && id != c.primary
    requires GoodBatch(c, q) && GoodBatch(c, q2) && HashesFit(c, q) && HashesFit(c, q2)
    requires LastId(q) == LastId(q2) < c.ring && AllDiffer(c, q2, q)
    ensures var r := ProcessBatch(c, Boot(c, id), q);
            && r.Ok? && Inv(c, r.node, map[LastId(q) := q])
            && ProcessBatch(c, r.node, q2).Ok? && !Inv(c, ProcessBatch(c, r.node, q2).node, acc')
    ensures c.batch <= LastId(q) + 1
    ensures var m := ProcessBatch(c, ProcessBatch(c, Boot(c, id), q).node, q2).node;
            |RunRange(c, m, LastId(q) + 1 - c.batch, c.batch)| == 2 * c.batch
  {
    hide Inv, Shaped, Accept, GoodBatch, ProcessBatch, RunRange, HashesFit, AllDiffer;
    P.GoodShaped(c, q);
    P.GoodShaped(c, q2);
    IndexAt(c, q, 0);
    var k := LastId(q);
    FirstTaken(c, id, q);
    var n := ProcessBatch(c, Boot(c, id), q).node;
    P.InvShaped(c, n, map[k := q]);
    TakenExactlyWhen(c, n, map[k := q], q2);
    TakenQuietly(c, n, q2);
    var a, m := Accept(c, n, q2).node, ProcessBatch(c, n, q2).node;
    TwoRequests(c, n, map[k := q], q2, c.batch - 1);
    AcceptNext(c, n, q2);
    Overfull(c, m, k, acc');
    RunsBoth(c, n, map[k := q], q2, c.batch);
    SameRange(c, a, m, k + 1 - c.batch, c.batch);
  }

  lemma FirstTaken(c: D.Plain, id: nat, q: Batch)
    requires id < c.Nodes() && id != c.primary && GoodBatch(c, q) && HashesFit(c, q) && LastId(q) < c.ring
    ensures var r := ProcessBatch(c, Boot(c, id), q);
            && r.Ok? && Inv(c, r.node, map[LastId(q) := q]) && r.node.next == 0
            && |r.node.pre| == c.ring && c.batch <= LastId(q) + 1 && HasPres(c, r.node, LastId(q) + 1 - c.batch, LastId(q))
            && r.node.id == id && Mgr(c, r.node, LastId(q)).prepCnt == 2 * c.f
  {
    hide Inv, Shaped, GoodBatch, ProcessBatch, D.Fine, D.Stored, HasPres, HasQueries, X.Met, T.Deliver, IsEnd;
    P.GoodShaped(c, q);
    var a := X.Votes(LastId(q), LastHash(c, q), {}, {});
    X.FirstBatch(c, id, q);
    X.MetHeard(c, id, [BatchArrives(q)], map[LastId(q) := q], a, a);
    T.AlwaysFine(c, id, [BatchArrives(q)]);
    T.AfterOne(c, id, [], BatchArrives(q));
    assert [] + [BatchArrives(q)] == [BatchArrives(q)];
    var s := T.After(c, id, [BatchArrives(q)]);
    DeliveredFirst(c, id, q, s);
    X.FineStored(c, s.node, s.acc, s.hist, s.passed);
    D.StoredParts(c, s.node, s.acc, s.hist);
    D.LiveInstalled(c, s.node, s.acc, LastId(q));
    D.CountAt(c, s.node, s.acc, s.hist, LastId(q));
  }

  lemma DeliveredFirst(c: D.Plain, id: nat, q: Batch, s: T.Site)
    requires id < c.Nodes() && GoodBatch(c, q) && s.Up? && s.acc == map[LastId(q) := q]
    requires s == T.Deliver(c, T.After(c, id, []), BatchArrives(q))
    ensures ProcessBatch(c, Boot(c, id), q) == Ok(s.node)
  {
    hide ProcessBatch, D.Orderly, Boot;
    assert LastId(q) in s.acc;
  }
}
