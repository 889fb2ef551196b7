/** The primary's gate: a batch whose turn has not come goes back to the queue, so
    batches leave in order whatever order they are taken up in, and a queue that holds
    them all drains. */
module OrderedBroadcast {
  import opened Arith
  import opened Protocol
  import opened Invariant
  import A = Agreement
  import L = LogSafety

  // ------------------------------------------------ every run

  /** The batches announced so far, in order. */
  ghost function Announced(out: seq<Msg>): seq<Batch> {
    if out == [] then []
    else
      var short := Announced(out[..|out| - 1]);
      if out[|out| - 1].Announce? then short + [out[|out| - 1].batch] else short
  }

  /** The checkpoint messages sent so far, in order. */
  ghost function Checkpoints(out: seq<Msg>): seq<Msg> {
    if out == [] then []
    else
      var short := Checkpoints(out[..|out| - 1]);
      if out[|out| - 1].Checkpoint? then short + [out[|out| - 1]] else short
  }

  lemma SentSnoc(out: seq<Msg>, m: Msg)
    ensures Announced(out + [m]) == Announced(out) + if m.Announce? then [m.batch] else []
    ensures Checkpoints(out + [m]) == Checkpoints(out) + if m.Checkpoint? then [m] else []
  {
    assert (out + [m])[..|out|] == out;
  }

  /** Announcements carry the numbers of batches 0, 1, 2, ..., and the gate waits for the next. */
  ghost predicate InTurn(c: Config, n: Node) {
    var sent := Announced(n.out);
    && n.expected == c.batch * |sent| + c.batch - 3
    && forall i :: 0 <= i < |sent| ==> sent[i].txnId == c.batch * i + c.batch - 3
  }

  /** Nothing announced, and the gate unmoved. */
  ghost predicate Quiet(n: Node, m: Node) { m.expected == n.expected && Announced(m.out) == Announced(n.out) }

  /** And no checkpoint sent, and nothing executed. */
  ghost predicate Silent(n: Node, m: Node) {
    Quiet(n, m) && Checkpoints(m.out) == Checkpoints(n.out) && m.next == n.next && m.id == n.id
  }

  lemma VotesSilent(c: Config, n: Node, id: nat)
    requires Shaped(c, n)
    ensures SendPrep(c, n, id).Ok? ==> Silent(n, SendPrep(c, n, id).node)
    ensures SendCommit(c, n, id).Ok? ==> Silent(n, SendCommit(c, n, id).node)
  {
    SentSnoc(n.out, Prepare(OwnVote(c, n, id)));
    SentSnoc(n.out, Commit(OwnVote(c, n, id)));
    hide Announced, Checkpoints;
  }

  lemma TryExecuteSilent(c: Config, n: Node, id: nat, msg: Vote)
    requires Shaped(c, n)
    ensures TryExecute(c, n, id, msg).Ok? ==> Silent(n, TryExecute(c, n, id, msg).node)
  {
    hide CommittedVerdict, Announced, Checkpoints;
    if 0 < id { SentSnoc(n.out, Execute(ExecFor(c, n, id))); }
  }

  lemma CatchUpSilent(c: Config, n: Node, id: nat)
    requires Shaped(c, n)
    ensures CatchUp(c, n, id).Ok? ==> Silent(n, CatchUp(c, n, id).node)
  {
    hide PreparedVerdict, SendCommit, TryExecute, Announced, Checkpoints, Shaped;
    assert Shaped(c, MarkPrepared(c, n, id)) && Silent(n, MarkPrepared(c, n, id)) by { MarkSilent(c, n, id); }
    VotesSilent(c, MarkPrepared(c, n, id), id);
    var r := SendCommit(c, MarkPrepared(c, n, id), id);
    if r.Ok? {
      A.RowsHere(c, r.node, id);
      TryExecuteSilent(c, r.node, id, FirstWithTxn(r.node.comm[id % c.ring], id));
    }
  }

  lemma MarkSilent(c: Config, n: Node, id: nat)
    requires Shaped(c, n)
    ensures Shaped(c, MarkPrepared(c, n, id)) && Silent(n, MarkPrepared(c, n, id))
  {
  }

  lemma AcceptSilent(c: Config, n: Node, b: Batch, check: bool)
    requires Shaped(c, n) && BatchShaped(c, b)
    ensures Accept(c, n, b).Ok? ==> Silent(n, Accept(c, n, b).node)
    ensures var r := Install(c, n, b, c.batch, check); r.Ok? ==> Silent(n, Append(c, r.node, b, c.batch))
  {
    hide Install, Append, Announced, Checkpoints;
    A.R.InstallOnlyStores(c, n, b, c.batch, true);
    A.R.InstallOnlyStores(c, n, b, c.batch, check);
    if Install(c, n, b, c.batch, true).Ok? {
      A.R.AppendKeeps(c, Install(c, n, b, c.batch, true).node, b, c.batch);
    }
    if Install(c, n, b, c.batch, check).Ok? {
      A.R.AppendKeeps(c, Install(c, n, b, c.batch, check).node, b, c.batch);
    }
  }

  lemma BatchSilent(c: Config, n: Node, b: Batch)
    requires Shaped(c, n) && BatchShaped(c, b)
    ensures ProcessBatch(c, n, b).Ok? ==> Silent(n, ProcessBatch(c, n, b).node)
  {
    hide Accept, SendPrep, CatchUp, Announced, Checkpoints, Shaped;
    AcceptSilent(c, n, b, true);
    var a := Accept(c, n, b);
    if a.Ok? {
      VotesSilent(c, a.node, LastId(b));
      var p := SendPrep(c, a.node, LastId(b));
      if p.Ok? {
        CatchUpSilent(c, p.node, LastId(b));
        assert ProcessBatch(c, n, b) == CatchUp(c, p.node, LastId(b));
      }
    }
  }

  lemma PrepSilent(c: Config, n: Node, v: Vote)
    requires Shaped(c, n) && v.sender < c.Nodes()
    ensures ProcessPrep(c, n, v).Ok? ==> Silent(n, ProcessPrep(c, n, v).node)
  {
    hide PreparedVerdict, SendCommit, Announced, Checkpoints, PutPrep;
    var t := Mgr(c, n, v.txnId);
    A.P.PutPrepInvKeeps(c, n, v);
    var m := SetMgr(PutPrep(c, n, v), v.txnId, t.(prepCnt := t.prepCnt - 1));
    MarkSilent(c, m, v.txnId);
    VotesSilent(c, MarkPrepared(c, m, v.txnId), v.txnId);
  }

  lemma CommitSilent(c: Config, n: Node, v: Vote)
    requires Shaped(c, n) && v.sender < c.Nodes()
    ensures ProcessCommit(c, n, v).Ok? ==> Silent(n, ProcessCommit(c, n, v).node)
  {
    hide TryExecute, Announced, Checkpoints, PutComm;
    var t := Mgr(c, n, v.txnId);
    A.P.PutCommInvKeeps(c, n, v);
    var m := SetMgr(PutComm(c, n, v), v.txnId, t.(commitCnt := t.commitCnt - 1));
    TryExecuteSilent(c, m, v.txnId, v);
  }

  lemma ExecQuiet(c: Config, n: Node, x: Exec)
    ensures ProcessExecute(c, n, x).Ok? ==> Quiet(n, ProcessExecute(c, n, x).node)
  {
    hide Announced, Checkpoints, RunRange, Sub64, Without, ExecLength;
    var next := x.index + ExecLength(x);
    SentSnoc(n.out, Checkpoint(Sub64(next, 5), Sub64(next, c.chkpt), n.id));
  }

  lemma ClientSilent(c: Config, n: Node, k: nat, reqs: seq<Request>)
    requires Shaped(c, n) && |reqs| == c.batch
    ensures Silent(n, ProcessClientBatch(c, n, k, reqs))
  {
    hide Announced, Checkpoints, Install, Append;
    var b := MakeBatch(c, k, reqs);
    InstallNeverCrashes(c, n, b, c.batch);
    AcceptSilent(c, n, b, false);
    SentSnoc(Append(c, Install(c, n, b, c.batch, false).node, b, c.batch).out, Order(b));
  }

  lemma OrderInTurn(c: Config, n: Node, b: Batch)
    requires InTurn(c, n)
    ensures InTurn(c, ProcessOrder(c, n, b))
  {
    SentSnoc(n.out, Announce(b));
    hide Announced, Checkpoints;
    assert c.batch * (|Announced(n.out)| + 1) == c.batch * |Announced(n.out)| + c.batch;
  }

  lemma SilentInTurn(c: Config, n: Node, m: Node)
    requires InTurn(c, n) && Quiet(n, m)
    ensures InTurn(c, m)
  {
  }

  lemma HandleInTurn(c: Config, n: Node, e: Event)
    requires Shaped(c, n) && EventShaped(c, e) && InTurn(c, n) && Handle(c, n, e).Ok?
    ensures InTurn(c, Handle(c, n, e).node)
  {
    hide InTurn, Quiet, ProcessBatch, ProcessPrep, ProcessCommit, ProcessExecute, ProcessOrder, ProcessClientBatch;
    match e
    case ClientBatch(k, reqs) => ClientSilent(c, n, k, reqs); SilentInTurn(c, n, Handle(c, n, e).node);
    case BatchArrives(b) => BatchSilent(c, n, b); SilentInTurn(c, n, Handle(c, n, e).node);
    case PrepArrives(v) => PrepSilent(c, n, v); SilentInTurn(c, n, Handle(c, n, e).node);
    case CommitArrives(v) => CommitSilent(c, n, v); SilentInTurn(c, n, Handle(c, n, e).node);
    case RunExec(x) => ExecQuiet(c, n, x); SilentInTurn(c, n, Handle(c, n, e).node);
    case OrderReady(b) => OrderInTurn(c, n, b);
  }

  /** Over every run, in whatever order the primary's threads take batches up and
      however often one comes back: the i-th announcement is that of batch i. */
  lemma {:induction false} AnnouncedInOrder(c: Config, faulty: set<nat>, run: seq<A.Action>, n: nat)
    requires n < c.Nodes()
    ensures InTurn(c, A.Run(c, faulty, run).nodes[n])
  {
    hide InTurn, Handle, Shaped;
    if run == [] {
      BootInTurn(c, n);
    } else {
      var s, a := A.Run(c, faulty, run[..|run| - 1]), run[|run| - 1];
      AnnouncedInOrder(c, faulty, run[..|run| - 1], n);
      if A.Enabled(c, faulty, s, a) && Handle(c, s.nodes[a.node], a.event).Ok? && a.node == n {
        HandleInTurn(c, s.nodes[n], a.event);
      }
    }
  }

  lemma BootInTurn(c: Config, n: nat)
    requires n < c.Nodes()
    ensures InTurn(c, Boot(c, n))
  {
  }

  // ------------------------------------------------ what is announced

  /** Batch b is what the primary built from a set of requests handed to it in the run. */
  ghost predicate BuiltFrom(c: Config, run: seq<A.Action>, b: Batch, j: nat, reqs: seq<Request>) {
    |reqs| == c.batch && A.Action(c.primary, ClientBatch(j, reqs)) in run && b == MakeBatch(c, j, reqs)
  }

  ghost predicate Built(c: Config, run: seq<A.Action>, b: Batch) {
    exists j: nat, reqs: seq<Request> :: BuiltFrom(c, run, b, j, reqs)
  }

  ghost predicate AllBuilt(c: Config, run: seq<A.Action>, acc: map<nat, Batch>) {
    forall k :: k in acc ==> Built(c, run, acc[k])
  }

  lemma BuiltMore(c: Config, run: seq<A.Action>, a: A.Action, acc: map<nat, Batch>)
    requires AllBuilt(c, run, acc)
    ensures AllBuilt(c, run + [a], acc)
  {
    hide MakeBatch;
    forall k | k in acc ensures Built(c, run + [a], acc[k]) {
      var j: nat, reqs: seq<Request> :| BuiltFrom(c, run, acc[k], j, reqs);
      assert BuiltFrom(c, run + [a], acc[k], j, reqs);
    }
  }

  lemma {:induction false} AcceptedBuilt(c: Config, faulty: set<nat>, run: seq<A.Action>)
    ensures AllBuilt(c, run, A.Run(c, faulty, run).accs[c.primary])
  {
    hide Handle, Shaped, Built;
    if run != [] {
      var short, a := run[..|run| - 1], run[|run| - 1];
      var s := A.Run(c, faulty, short);
      AcceptedBuilt(c, faulty, short);
      assert run == short + [a];
      BuiltMore(c, short, a, s.accs[c.primary]);
      if A.Enabled(c, faulty, s, a) && Handle(c, s.nodes[a.node], a.event).Ok? && a.node == c.primary && a.event.ClientBatch? {
        assert Built(c, run, MakeBatch(c, a.event.k, a.event.reqs)) by { BuiltLast(c, run, a.event.k, a.event.reqs); }
      }
    }
  }

  lemma BuiltLast(c: Config, run: seq<A.Action>, j: nat, reqs: seq<Request>)
    requires run != [] && run[|run| - 1] == A.Action(c.primary, ClientBatch(j, reqs)) && |reqs| == c.batch
    ensures Built(c, run, MakeBatch(c, j, reqs))
  {
    hide MakeBatch;
    assert BuiltFrom(c, run, MakeBatch(c, j, reqs), j, reqs);
  }

  lemma {:induction false} AnnouncedIn(out: seq<Msg>, i: nat)
    requires i < |Announced(out)|
    ensures Announce(Announced(out)[i]) in out
  {
    if out != [] && i < |Announced(out[..|out| - 1])| {
      AnnouncedIn(out[..|out| - 1], i);
    }
  }

  /** Over every run with a correct primary, the i-th batch announced is what it built
      from the i-th set of requests handed to it: the ids iB .. iB+B-1 in order. */
  lemma AnnouncedContents(c: Config, faulty: set<nat>, run: seq<A.Action>, i: nat) returns (reqs: seq<Request>)
    requires c.primary !in faulty
    requires i < |Announced(A.Run(c, faulty, run).nodes[c.primary].out)|
    ensures |reqs| == c.batch && A.Action(c.primary, ClientBatch(i, reqs)) in run
    ensures var b := Announced(A.Run(c, faulty, run).nodes[c.primary].out)[i];
            && b.txnId == c.batch * i + c.batch - 3 && b.view == c.primary
            && |b.index| == |b.hash| == |b.reqs| == c.batch
            && forall x :: 0 <= x < c.batch ==>
                 b.index[x] == c.batch * i + x && b.reqs[x] == Query(c.batch * i + x, reqs[x]) && b.hash[x] == DigestOf(reqs[x])
  {
    hide A.Run, Announced, Checkpoints, Inv, Shaped, Built;
    var s := A.Run(c, faulty, run);
    var n, acc := s.nodes[c.primary], s.accs[c.primary];
    AnnouncedInOrder(c, faulty, run, c.primary);
    var b := Announced(n.out)[i];
    AnnouncedIn(n.out, i);
    L.RunInvAlways(c, faulty, run);
    L.AnnouncedIsAccepted(c, n, acc, b);
    AcceptedBuilt(c, faulty, run);
    var j: nat;
    j, reqs := BuiltOf(c, run, b);
    SameNumber(c.batch, i, j);
  }

  lemma BuiltOf(c: Config, run: seq<A.Action>, b: Batch) returns (j: nat, reqs: seq<Request>)
    requires Built(c, run, b)
    ensures BuiltFrom(c, run, b, j, reqs)
  {
    hide BuiltFrom;
    j, reqs :| BuiltFrom(c, run, b, j, reqs);
  }

  lemma SameNumber(batch: nat, i: nat, j: nat)
    requires 5 < batch
    ensures batch * i + batch - 3 == batch * j + batch - 3 ==> i == j
  {
    if i < j { MulMono(batch, i + 1, j); assert batch * (i + 1) == batch * i + batch; }
    if j < i { MulMono(batch, j + 1, i); assert batch * (j + 1) == batch * j + batch; }
  }

  /** What was sent stays sent. */
  lemma StaysSent(out: seq<Msg>, out': seq<Msg>, m: Msg)
    requires out <= out' && m in out
    ensures m in out'
  {
    var i :| 0 <= i < |out| && out[i] == m;
    assert out'[i] == m;
  }

  lemma ClientOrders(c: Config, n: Node, k: nat, reqs: seq<Request>)
    requires Shaped(c, n) && |reqs| == c.batch
    ensures Order(MakeBatch(c, k, reqs)) in ProcessClientBatch(c, n, k, reqs).out
  {
    hide Install, Append, MakeBatch;
    InstallNeverCrashes(c, n, MakeBatch(c, k, reqs), c.batch);
  }

  /** Over every run, each batch a correct primary has made stands in its own queue, for
      the gate to let out. */
  lemma {:induction false} EachIsQueued(c: Config, faulty: set<nat>, run: seq<A.Action>, k: nat)
    requires c.primary !in faulty && k in A.Run(c, faulty, run).accs[c.primary]
    ensures Order(A.Run(c, faulty, run).accs[c.primary][k]) in A.Run(c, faulty, run).nodes[c.primary].out
  {
    hide Handle, Shaped, MakeBatch, ProcessClientBatch;
    if run != [] {
      var s, a := A.Run(c, faulty, run[..|run| - 1]), run[|run| - 1];
      var t := A.Run(c, faulty, run);
      if k in s.accs[c.primary] {
        EachIsQueued(c, faulty, run[..|run| - 1], k);
      }
      if A.Enabled(c, faulty, s, a) && Handle(c, s.nodes[a.node], a.event).Ok? && a.node == c.primary {
        A.HandleAfter(c, s.nodes[a.node], a.event);
        if a.event.ClientBatch? { QueuedNow(c, s.nodes[a.node], a.event.k, a.event.reqs); }
        if k in s.accs[c.primary] {
          StaysSent(s.nodes[c.primary].out, t.nodes[c.primary].out, Order(s.accs[c.primary][k]));
        }
      }
    }
  }

  lemma QueuedNow(c: Config, n: Node, k: nat, reqs: seq<Request>)
    requires Shaped(c, n) && |reqs| == c.batch
    ensures Handle(c, n, ClientBatch(k, reqs)) == Ok(ProcessClientBatch(c, n, k, reqs))
    ensures Order(MakeBatch(c, k, reqs)) in ProcessClientBatch(c, n, k, reqs).out
  {
    ClientOrders(c, n, k, reqs);
    hide ProcessClientBatch;
  }

  // ------------------------------------------------ draining the queue

  /** The ids of BATCH_REQ messages number from .. from+count-1. */
  function Ids(batch: nat, from: nat, count: nat): (s: seq<nat>)
    requires 5 < batch
    ensures |s| == count
    decreases count
  {
    if count == 0 then [] else [batch * from + batch - 3] + Ids(batch, from + 1, count - 1)
  }

  lemma {:induction false} IdsAt(batch: nat, from: nat, count: nat, i: nat)
    requires 5 < batch && i < count
    ensures Ids(batch, from, count)[i] == batch * (from + i) + batch - 3
    decreases i
  {
    if 0 < i {
      IdsAt(batch, from + 1, count - 1, i - 1);
    }
  }

  /** The queue holds the rest of the batches, so the next one is in it. */
  lemma {:induction false} NextIsThere(queue: seq<nat>, rest: seq<nat>)
    requires multiset(queue) == multiset(rest)
    ensures |queue| == |rest|
    ensures rest != [] ==> rest[0] in queue
    ensures queue != [] ==> multiset(queue[1..] + [queue[0]]) == multiset(rest)
    ensures queue != [] && queue[0] == rest[0] ==> multiset(queue[1..]) == multiset(rest[1..])
  {
    assert |multiset(queue)| == |multiset(rest)|;
    if rest != [] {
      assert rest[0] in multiset(rest);
      HeadOff(queue);
      HeadOff(rest);
    }
  }

  lemma HeadOff(s: seq<nat>)
    requires s != []
    ensures multiset(s[1..]) == multiset(s) - multiset{s[0]}
    ensures multiset(s[1..] + [s[0]]) == multiset(s)
  {
    assert s == [s[0]] + s[1..];
  }

  class Gate {
    const batch: nat
    var expected: nat
    var queue: seq<nat>
    var sent: seq<nat>

    constructor (batch: nat, queue: seq<nat>)
      requires 5 < batch
      ensures this.batch == batch && this.queue == queue && expected == batch - 3 && sent == []
    {
      this.batch := batch;
      this.queue := queue;
      expected := batch - 3;
      sent := [];
    }

    /** One turn of the dispatch loop. */
    method Dispatch()
      requires queue != []
      modifies this
      ensures if old(queue)[0] == old(expected)
              then queue == old(queue)[1..] && sent == old(sent) + [old(expected)] && expected == batch + old(expected)
              else queue == old(queue)[1..] + [old(queue)[0]] && sent == old(sent) && expected == old(expected)
    {
      var m := queue[0];
      queue := queue[1..];
      if m != expected {
        queue := queue + [m];
      } else {
        sent := sent + [m];
        expected := batch + m;
      }
    }

    /** A queue that holds batches 0..m-1 in any order empties, and they leave in order. */
    method Drain(m: nat)
      requires 5 < batch && expected == batch - 3 && sent == []
      requires multiset(queue) == multiset(Ids(batch, 0, m))
      modifies this
      ensures queue == [] && sent == Ids(batch, 0, m)
    {
      ghost var k := 0;
      assert [] + Ids(batch, 0, m) == Ids(batch, 0, m);
      while queue != []
        invariant Draining(batch, k, m, queue, sent, expected)
        decreases m - k, if expected in queue then Place(queue, expected) else 0
      {
        TurnDrains(batch, k, m, queue, sent, expected);
        if queue[0] == expected {
          k := k + 1;
        }
        Dispatch();
      }
      NextIsThere(queue, Ids(batch, k, m - k));
      assert sent + [] == sent;
    }
  }

  /** k batches are out, in order; the queue holds the others. */
  ghost predicate Draining(batch: nat, k: nat, m: nat, queue: seq<nat>, sent: seq<nat>, expected: nat) {
    && 5 < batch && k <= m
    && expected == batch * k + batch - 3
    && multiset(queue) == multiset(Ids(batch, k, m - k))
    && sent + Ids(batch, k, m - k) == Ids(batch, 0, m)
  }

  lemma NextFirst(batch: nat, k: nat, m: nat, queue: seq<nat>, sent: seq<nat>, expected: nat)
    requires Draining(batch, k, m, queue, sent, expected) && queue != []
    ensures k < m && expected in queue
    ensures var rest := Ids(batch, k, m - k); rest[0] == expected && rest[1..] == Ids(batch, k + 1, m - k - 1)
  {
    NextIsThere(queue, Ids(batch, k, m - k));
  }

  lemma TurnRotates(batch: nat, k: nat, m: nat, queue: seq<nat>, sent: seq<nat>, expected: nat)
    requires Draining(batch, k, m, queue, sent, expected) && queue != [] && queue[0] != expected
    ensures Draining(batch, k, m, queue[1..] + [queue[0]], sent, expected)
  {
    NextIsThere(queue, Ids(batch, k, m - k));
  }

  lemma TurnSends(batch: nat, k: nat, m: nat, queue: seq<nat>, sent: seq<nat>, expected: nat)
    requires Draining(batch, k, m, queue, sent, expected) && queue != [] && queue[0] == expected
    ensures k < m && Draining(batch, k + 1, m, queue[1..], sent + [expected], batch + expected)
  {
    var rest := Ids(batch, k, m - k);
    NextIsThere(queue, rest);
    NextFirst(batch, k, m, queue, sent, expected);
    NextNumber(batch, k);
    hide Ids;
    assert rest == [expected] + rest[1..];
    assert sent + rest == sent + [expected] + rest[1..];
  }

  /** One turn of the loop keeps the picture, and brings the next batch nearer or sends it. */
  lemma TurnDrains(batch: nat, k: nat, m: nat, queue: seq<nat>, sent: seq<nat>, expected: nat)
    requires Draining(batch, k, m, queue, sent, expected) && queue != []
    ensures k < m && expected in queue
    ensures queue[0] == expected ==> Draining(batch, k + 1, m, queue[1..], sent + [expected], batch + expected)
    ensures queue[0] != expected ==>
              && Draining(batch, k, m, queue[1..] + [queue[0]], sent, expected)
              && expected in queue[1..] + [queue[0]] && Place(queue[1..] + [queue[0]], expected) < Place(queue, expected)
  {
    NextFirst(batch, k, m, queue, sent, expected);
    hide Draining, Place;
    if queue[0] == expected {
      TurnSends(batch, k, m, queue, sent, expected);
    } else {
      TurnRotates(batch, k, m, queue, sent, expected);
      PlaceRotates(queue, expected);
    }
  }

  lemma NextNumber(batch: nat, k: nat)
    ensures batch * (k + 1) == batch * k + batch
  {
  }

  /** Where x first stands in the queue. */
  ghost function Place(queue: seq<nat>, x: nat): nat
    requires x in queue
  {
    if queue[0] == x then 0 else 1 + Place(queue[1..], x)
  }

  lemma PlaceRotates(queue: seq<nat>, x: nat)
    requires x in queue && queue[0] != x
    ensures x in queue[1..] + [queue[0]] && Place(queue[1..] + [queue[0]], x) < Place(queue, x)
  {
    PlacePrefix(queue[1..], [queue[0]], x);
  }

  lemma {:induction false} PlacePrefix(queue: seq<nat>, more: seq<nat>, x: nat)
    requires x in queue
    ensures x in queue + more && Place(queue + more, x) == Place(queue, x)
  {
    if queue[0] != x {
      assert (queue + more)[1..] == queue[1..] + more;
      PlacePrefix(queue[1..], more, x);
    }
  }
}
