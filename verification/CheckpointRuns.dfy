/** The checkpoint messages a correct node sends over a whole run: one for each common
    multiple of batch size and interval it has executed up to, each naming its interval,
    in increasing order; and they are votes the checkpoint log counts on. */
module CheckpointRuns {
  import opened Arith
  import opened Protocol
  import opened Invariant
  import A = Agreement
  import K = Checkpoint
  import L = LogSafety
  import O = OrderedBroadcast
  import P = Preserve

  /** Execution up to q ends a batch and an interval. */
  predicate Due(c: Config, next: nat, q: nat) { 0 < q <= next && q % c.batch == 0 && q % c.chkpt == 0 }

  /** How many of these checkpoint messages are for q. */
  ghost function CountAt(ms: seq<Msg>, q: nat): nat {
    if ms == [] then 0
    else
      var m := ms[|ms| - 1];
      CountAt(ms[..|ms| - 1], q) + if m.Checkpoint? && m.index + 5 == q then 1 else 0
  }

  lemma CountSnoc(ms: seq<Msg>, m: Msg, q: nat)
    ensures CountAt(ms + [m], q) == CountAt(ms, q) + if m.Checkpoint? && m.index + 5 == q then 1 else 0
  {
    assert (ms + [m])[..|ms|] == ms;
  }

  /** A message for the interval that ends at its index plus 5. */
  ghost predicate Proper(c: Config, id: nat, next: nat, m: Msg) {
    && m.Checkpoint? && m.sender == id
    && Due(c, next, m.index + 5) && m.index + 5 == m.begIndex + c.chkpt
  }

  ghost predicate Rising(ms: seq<Msg>) {
    forall x, y :: 0 <= x < y < |ms| && ms[x].Checkpoint? && ms[y].Checkpoint? ==> ms[x].index < ms[y].index
  }

  ghost predicate Told(c: Config, n: Node) {
    var ms := O.Checkpoints(n.out);
    && (forall x :: 0 <= x < |ms| ==> Proper(c, n.id, n.next, ms[x]))
    && Rising(ms)
    && forall q: nat :: CountAt(ms, q) == if Due(c, n.next, q) then 1 else 0
  }

  // ------------------------------------------------ one step

  lemma SilentTold(c: Config, n: Node, m: Node)
    requires Told(c, n) && O.Silent(n, m)
    ensures Told(c, m)
  {
    hide Due, O.Announced;
  }

  lemma OrderSilent(c: Config, n: Node, b: Batch)
    ensures var m := ProcessOrder(c, n, b); O.Checkpoints(m.out) == O.Checkpoints(n.out) && m.next == n.next && m.id == n.id
  {
    O.SentSnoc(n.out, Announce(b));
    hide O.Announced, O.Checkpoints;
  }

  lemma OrderTold(c: Config, n: Node, b: Batch)
    requires Told(c, n)
    ensures Told(c, ProcessOrder(c, n, b))
  {
    hide ProcessOrder, Due;
    OrderSilent(c, n, b);
  }

  /** Between one execution and the next only the batch's own end can be due. */
  lemma DueStep(c: Config, next: nat, q: nat)
    requires next % c.batch == 0
    ensures Due(c, next + c.batch, q) <==> Due(c, next, q) || (q == next + c.batch && q % c.chkpt == 0)
  {
    var p := next / c.batch;
    assert next == c.batch * p && next + c.batch == c.batch * (p + 1);
    DivUnique(next + c.batch, c.batch, p + 1, 0);
    if next < q <= next + c.batch && q % c.batch == 0 {
      SameSlot(next, q, c.batch);
    }
  }

  /** What an execution sends, and when. */
  lemma RunSends(c: Config, n: Node, acc: Accepted, x: Exec)
    requires Inv(c, n, acc) && Execute(x) in n.out && ProcessExecute(c, n, x).Ok?
    ensures var m := ProcessExecute(c, n, x).node;
            && m.next == n.next + c.batch && n.next % c.batch == 0 && m.id == n.id
            && O.Checkpoints(m.out) == O.Checkpoints(n.out)
                 + if m.next % c.chkpt == 0 then [Checkpoint(Sub64(m.next, 5), Sub64(m.next, c.chkpt), n.id)] else []
  {
    hide Inv, RunRange, Without, ExecLength, Sub64, O.Announced, O.Checkpoints;
    P.RunExecInv(c, n, acc, x);
    L.LogShape(c, n, acc);
    var m := ProcessExecute(c, n, x).node;
    O.SentSnoc(n.out, Checkpoint(Sub64(m.next, 5), Sub64(m.next, c.chkpt), n.id));
  }

  lemma RunTold(c: Config, n: Node, acc: Accepted, x: Exec)
    requires Told(c, n) && Inv(c, n, acc) && Execute(x) in n.out && ProcessExecute(c, n, x).Ok?
    ensures Told(c, ProcessExecute(c, n, x).node)
  {
    hide Inv, ProcessExecute, O.Announced, O.Checkpoints, CountAt;
    RunSends(c, n, acc, x);
    var m := ProcessExecute(c, n, x).node;
    Lengthened(c, n, m);
  }

  lemma Lengthened(c: Config, n: Node, m: Node)
    requires Told(c, n) && m.id == n.id && m.next == n.next + c.batch && n.next % c.batch == 0
    requires O.Checkpoints(m.out) == O.Checkpoints(n.out)
               + if m.next % c.chkpt == 0 then [Checkpoint(Sub64(m.next, 5), Sub64(m.next, c.chkpt), n.id)] else []
    ensures Told(c, m)
  {
    hide O.Announced, O.Checkpoints, CountAt;
    var ms := O.Checkpoints(n.out);
    var sent := Checkpoint(Sub64(m.next, 5), Sub64(m.next, c.chkpt), n.id);
    forall q: nat
      ensures Due(c, m.next, q) <==> Due(c, n.next, q) || (q == m.next && q % c.chkpt == 0)
      ensures CountAt(ms + [sent], q) == CountAt(ms, q) + if sent.index + 5 == q then 1 else 0
    {
      DueStep(c, n.next, q);
      CountSnoc(ms, sent, q);
    }
    if m.next % c.chkpt == 0 {
      Multiple(c.chkpt, m.next);
      assert sent.index + 5 == m.next == sent.begIndex + c.chkpt;
      assert Due(c, m.next, m.next);
      assert O.Checkpoints(m.out) == ms + [sent];
      assert forall x :: 0 <= x < |ms| ==> Proper(c, n.id, n.next, ms[x]);
    } else {
      assert O.Checkpoints(m.out) == ms;
    }
  }

  lemma Multiple(d: nat, x: nat)
    requires 0 < d && 0 < x && x % d == 0
    ensures d <= x
  {
  }

  lemma HandleTold(c: Config, n: Node, acc: Accepted, e: Event)
    requires Told(c, n) && Inv(c, n, acc) && Allowed(c, n, acc, e) && EventShaped(c, e) && Handle(c, n, e).Ok?
    ensures Told(c, Handle(c, n, e).node)
  {
    hide Told, Inv, O.Silent, ProcessBatch, ProcessPrep, ProcessCommit, ProcessExecute, ProcessOrder, ProcessClientBatch, GoodBatch, GoodVote;
    P.InvShaped(c, n, acc);
    match e
    case ClientBatch(k, reqs) => O.ClientSilent(c, n, k, reqs); SilentTold(c, n, Handle(c, n, e).node);
    case BatchArrives(b) => O.BatchSilent(c, n, b); SilentTold(c, n, Handle(c, n, e).node);
    case PrepArrives(v) => O.PrepSilent(c, n, v); SilentTold(c, n, Handle(c, n, e).node);
    case CommitArrives(v) => O.CommitSilent(c, n, v); SilentTold(c, n, Handle(c, n, e).node);
    case OrderReady(b) => OrderTold(c, n, b);
    case RunExec(x) => RunTold(c, n, acc, x);
  }

  // ------------------------------------------------ over runs

  lemma BootTold(c: Config, id: nat)
    requires id < c.Nodes()
    ensures Told(c, Boot(c, id))
  {
  }

  lemma {:induction false} AlwaysTold(c: Config, faulty: set<nat>, run: seq<A.Action>, i: nat)
    requires i < c.Nodes() && i !in faulty
    ensures Told(c, A.Run(c, faulty, run).nodes[i])
  {
    hide Told, Inv, Handle, Grow, Shaped, Allowed, A.Windowed, A.Genuine;
    if run == [] {
      BootTold(c, i);
    } else {
      var s, a := A.Run(c, faulty, run[..|run| - 1]), run[|run| - 1];
      AlwaysTold(c, faulty, run[..|run| - 1], i);
      L.RunInvAlways(c, faulty, run[..|run| - 1]);
      if A.Enabled(c, faulty, s, a) && Handle(c, s.nodes[a.node], a.event).Ok? && a.node == i {
        HandleTold(c, s.nodes[i], s.accs[i], a.event);
      }
    }
  }

  lemma {:induction false} ListedAre(out: seq<Msg>)
    ensures forall m :: m in O.Checkpoints(out) <==> m in out && m.Checkpoint?
  {
    if out != [] {
      ListedAre(out[..|out| - 1]);
      assert out == out[..|out| - 1] + [out[|out| - 1]];
    }
  }

  /** Over every run, each checkpoint message a correct node has sent is its own, names
      the last id but four of an interval it has executed and the interval's first id. */
  lemma CheckpointsAreDue(c: Config, faulty: set<nat>, run: seq<A.Action>, i: nat, index: nat, beg: nat, sender: nat)
    requires i < c.Nodes() && i !in faulty
    requires Checkpoint(index, beg, sender) in A.Run(c, faulty, run).nodes[i].out
    ensures sender == i
    ensures (index + 5) % c.chkpt == 0 && (index + 5) % c.batch == 0 && index + 5 == beg + c.chkpt
    ensures index + 5 <= A.Run(c, faulty, run).nodes[i].next
  {
    hide A.Run, O.Checkpoints, CountAt;
    AlwaysTold(c, faulty, run, i);
    ListedAre(A.Run(c, faulty, run).nodes[i].out);
  }

  /** And exactly one has been sent for each end of an interval among the batches it
      has executed, none for any other index. */
  lemma OneCheckpointEach(c: Config, faulty: set<nat>, run: seq<A.Action>, i: nat, q: nat)
    requires i < c.Nodes() && i !in faulty
    ensures var n := A.Run(c, faulty, run).nodes[i];
            CountAt(O.Checkpoints(n.out), q) == if 0 < q <= n.next && q % c.batch == 0 && q % c.chkpt == 0 then 1 else 0
    ensures forall m :: m in O.Checkpoints(A.Run(c, faulty, run).nodes[i].out)
                        <==> m in A.Run(c, faulty, run).nodes[i].out && m.Checkpoint?
  {
    hide A.Run, O.Checkpoints, CountAt;
    AlwaysTold(c, faulty, run, i);
    ListedAre(A.Run(c, faulty, run).nodes[i].out);
  }

  // ------------------------------------------------ what the receivers make of them

  function VoteOf(m: Msg): K.Vote
    requires m.Checkpoint?
  {
    K.Vote(m.index, m.begIndex, m.sender)
  }

  function VotesOf(ms: seq<Msg>): seq<K.Vote>
    requires forall x :: 0 <= x < |ms| ==> ms[x].Checkpoint?
  {
    seq(|ms|, x requires 0 <= x < |ms| => VoteOf(ms[x]))
  }

  /** Taken in the order sent, a correct node's checkpoints are what the checkpoint log
      of any other node expects of one sender, as long as indices fit in 32 bits. */
  lemma ReceivedInOrder(c: Config, faulty: set<nat>, run: seq<A.Action>, i: nat, self: nat)
    requires i < c.Nodes() && i !in faulty && self < c.Nodes() && self != i && 5 < c.chkpt
    requires A.Run(c, faulty, run).nodes[i].next < K.WRAP
    ensures var ms := O.Checkpoints(A.Run(c, faulty, run).nodes[i].out);
            && (forall x :: 0 <= x < |ms| ==> ms[x].Checkpoint?)
            && K.GoodTrace(K.Settings(c.f, c.chkpt), self, VotesOf(ms))
  {
    hide A.Run, O.Checkpoints, CountAt;
    AlwaysTold(c, faulty, run, i);
  }
}
