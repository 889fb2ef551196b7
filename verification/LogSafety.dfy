/** With a correct primary, every correct node executes a prefix of the primary's
    numbered batches, however many backups are faulty; and over every run no node
    queues one batch twice. */
module LogSafety {
  import opened Arith
  import opened Protocol
  import opened Invariant
  import opened Agreement
  import P = Preserve

  // ------------------------------------------------ the replica invariant over runs

  ghost predicate AllInv(c: Config, faulty: set<nat>, s: Cluster)
    requires ClusterShaped(c, s)
  {
    forall i :: 0 <= i < c.Nodes() && i !in faulty ==> Inv(c, s.nodes[i], s.accs[i])
  }

  lemma {:induction false} RunInvAlways(c: Config, faulty: set<nat>, run: seq<Action>)
    ensures AllInv(c, faulty, Run(c, faulty, run))
  {
    hide Inv, Handle, Grow, Shaped, Allowed, Windowed, Genuine;
    if run == [] {
      forall i | 0 <= i < c.Nodes()
        ensures Inv(c, BootCluster(c).nodes[i], BootCluster(c).accs[i])
      {
        BootInv(c, i);
      }
    } else {
      var s, a := Run(c, faulty, run[..|run| - 1]), run[|run| - 1];
      RunInvAlways(c, faulty, run[..|run| - 1]);
      if Enabled(c, faulty, s, a) && Handle(c, s.nodes[a.node], a.event).Ok? {
        P.HandleInv(c, s.nodes[a.node], s.accs[a.node], a.event);
      }
    }
  }

  /** Whatever is delivered in whatever order, and however often, a correct node
      queues the EXECUTE of a batch at most once, and only for a batch it accepted. */
  lemma QueuedAtMostOnce(c: Config, faulty: set<nat>, run: seq<Action>, i: nat, x: Exec)
    requires i < c.Nodes() && i !in faulty
    ensures var s := Run(c, faulty, run);
            && ExecCount(s.nodes[i].out, x) <= 1
            && (Execute(x) in s.nodes[i].out ==> x.txnId + 1 in s.accs[i] && x == ExecOf(c, x.txnId + 1))
  {
    hide StoresOk, SlotsOk, SentOk, PreparedOk, LogOk, Shaped, Run;
    RunInvAlways(c, faulty, run);
    var s := Run(c, faulty, run);
    assert Inv(c, s.nodes[i], s.accs[i]);
  }

  // ------------------------------------------------ backups follow the primary

  ghost predicate Follows(acc: Accepted, lead: Accepted) {
    forall k :: k in acc ==> k in lead && acc[k] == lead[k]
  }

  lemma AnnouncedIsAccepted(c: Config, n: Node, acc: Accepted, b: Batch)
    requires Inv(c, n, acc) && Announce(b) in n.out
    ensures b.index != [] && LastId(b) in acc && b == acc[LastId(b)]
  {
    hide StoresOk, SlotsOk, ExecsOk, PreparedOk, LogOk, Shaped;
  }

  lemma {:induction false} FollowsAlways(c: Config, faulty: set<nat>, run: seq<Action>, i: nat)
    requires c.primary !in faulty && i < c.Nodes() && i !in faulty
    ensures Follows(Run(c, faulty, run).accs[i], Run(c, faulty, run).accs[c.primary])
  {
    hide Inv, Handle, Shaped, Windowed, GoodBatch;
    if run != [] {
      var s, a := Run(c, faulty, run[..|run| - 1]), run[|run| - 1];
      FollowsAlways(c, faulty, run[..|run| - 1], i);
      RunInvAlways(c, faulty, run[..|run| - 1]);
      if Enabled(c, faulty, s, a) && a.event.BatchArrives? {
        AnnouncedIsAccepted(c, s.nodes[c.primary], s.accs[c.primary], a.event.batch);
      }
    }
  }

  // ------------------------------------------------ logs

  /** The requests of the primary's batches 0..m-1, in order. */
  ghost function Numbered(c: Config, lead: Accepted, m: nat): seq<Request> {
    if m == 0 then []
    else Numbered(c, lead, m - 1) + if c.batch * m - 1 in lead then Requests(lead[c.batch * m - 1].reqs) else []
  }

  function Requests(qs: seq<Query>): seq<Request> { seq(|qs|, i requires 0 <= i < |qs| => qs[i].req) }

  /** The part of a log that one accepted batch contributes. */
  lemma {:induction false} LogOfBatch(c: Config, acc: Accepted, k: nat, len: nat)
    requires AcceptedOk(c, acc) && k in acc && len <= c.batch
    ensures c.batch <= k + 1
    ensures LogOf(c, acc, k + 1 - c.batch + len) == LogOf(c, acc, k + 1 - c.batch) + Requests(acc[k].reqs)[..len]
  {
    EndIsLate(c, k);
    if 0 < len {
      LogOfBatch(c, acc, k, len - 1);
      var id := k + 1 - c.batch + len - 1;
      EndOfMember(c, k, id);
      assert Requests(acc[k].reqs)[..len] == Requests(acc[k].reqs)[..len - 1] + [ReqAt(c, acc, id)];
    }
  }

  lemma NumberedStep(c: Config, acc: Accepted, lead: Accepted, m: nat, lo: nat)
    requires AcceptedOk(c, acc) && Follows(acc, lead) && 0 < m
    requires lo + c.batch == c.batch * m && lo + c.batch - 1 in acc
    requires LogOf(c, acc, lo) == Numbered(c, lead, m - 1)
    ensures LogOf(c, acc, lo + c.batch) == Numbered(c, lead, m)
    ensures |Numbered(c, lead, m)| == |Numbered(c, lead, m - 1)| + c.batch
  {
    hide LogOf, ReqAt, IsEnd;
    var k := lo + c.batch - 1;
    LogOfBatch(c, acc, k, c.batch);
    assert BatchShaped(c, acc[k]);
    assert Requests(acc[k].reqs)[..c.batch] == Requests(acc[k].reqs);
  }

  lemma {:induction false} LogIsNumbered(c: Config, acc: Accepted, lead: Accepted, m: nat)
    requires AcceptedOk(c, acc) && Follows(acc, lead)
    requires forall q: nat :: 1 <= q <= m ==> c.batch * q - 1 in acc
    ensures LogOf(c, acc, c.batch * m) == Numbered(c, lead, m)
    ensures |Numbered(c, lead, m)| == c.batch * m
  {
    hide AcceptedOk, Follows;
    if 0 < m {
      LogIsNumbered(c, acc, lead, m - 1);
      assert c.batch * m == c.batch * (m - 1) + c.batch;
      NumberedStep(c, acc, lead, m, c.batch * (m - 1));
    }
  }

  lemma {:induction false} NumberedPrefix(c: Config, lead: Accepted, m: nat, m': nat)
    requires m <= m'
    ensures Numbered(c, lead, m) <= Numbered(c, lead, m')
  {
    if m < m' {
      NumberedPrefix(c, lead, m, m' - 1);
    }
  }

  /** Everything below the next index has been accepted. */
  lemma BelowNextAccepted(c: Config, n: Node, acc: Accepted, q: nat)
    requires Inv(c, n, acc) && 1 <= q <= n.next / c.batch
    ensures c.batch * q - 1 in acc
  {
    hide StoresOk, SlotsOk, SentOk, PreparedOk, Shaped, Holds, ReqAt, BatchStart;
    var k := c.batch * q - 1;
    MulMono(c.batch, q, n.next / c.batch);
    DivUnique(k + 1, c.batch, q, 0);
    MulMono(c.batch, 1, q);
    assert IsEnd(c, k) && k < n.next;
    assert Queued(c, n.out, k);
  }

  lemma LogShape(c: Config, n: Node, acc: Accepted)
    requires Inv(c, n, acc)
    ensures AcceptedOk(c, acc) && n.next % c.batch == 0 && n.log == LogOf(c, acc, n.next)
  {
    hide StoresOk, SlotsOk, SentOk, ExecsOk, PreparedOk, Shaped, Holds, ReqAt;
    P.InvShaped(c, n, acc);
  }

  /** A correct node's log is the primary's batches up to the node's next index. */
  lemma LogFollowsPrimary(c: Config, faulty: set<nat>, run: seq<Action>, i: nat)
    requires c.primary !in faulty && i < c.Nodes() && i !in faulty
    ensures var s := Run(c, faulty, run);
            && s.nodes[i].log == Numbered(c, s.accs[c.primary], s.nodes[i].next / c.batch)
            && |s.nodes[i].log| == s.nodes[i].next
  {
    hide Inv, Run, AcceptedOk, Shaped, Numbered, LogOf, Follows;
    var s := Run(c, faulty, run);
    RunInvAlways(c, faulty, run);
    FollowsAlways(c, faulty, run, i);
    var n, acc := s.nodes[i], s.accs[i];
    LogShape(c, n, acc);
    assert c.batch * (n.next / c.batch) == n.next;
    forall q: nat | 1 <= q <= n.next / c.batch
      ensures c.batch * q - 1 in acc
    {
      BelowNextAccepted(c, n, acc, q);
    }
    LogIsNumbered(c, acc, s.accs[c.primary], n.next / c.batch);
  }

  /** Any two correct nodes' logs are prefix-comparable. */
  lemma LogsComparable(c: Config, faulty: set<nat>, run: seq<Action>, i: nat, j: nat)
    requires c.primary !in faulty && i < c.Nodes() && i !in faulty && j < c.Nodes() && j !in faulty
    requires Run(c, faulty, run).nodes[i].next <= Run(c, faulty, run).nodes[j].next
    ensures Run(c, faulty, run).nodes[i].log <= Run(c, faulty, run).nodes[j].log
  {
    hide Run, Numbered, Shaped;
    var s := Run(c, faulty, run);
    LogFollowsPrimary(c, faulty, run, i);
    LogFollowsPrimary(c, faulty, run, j);
    var m, m' := s.nodes[i].next / c.batch, s.nodes[j].next / c.batch;
    DivMono(s.nodes[i].next, s.nodes[j].next, c.batch);
    NumberedPrefix(c, s.accs[c.primary], m, m');
  }

  lemma DivMono(x: nat, y: nat, d: nat)
    requires 0 < d && x <= y
    ensures x / d <= y / d
  {
    MulMono(d, y / d + 1, x / d);
  }
}
