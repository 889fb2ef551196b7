/** What agreement on the last digest is worth when the primary may lie: correct nodes
    execute the same last request of every batch, and their logs are comparable exactly
    when the batches they accepted have equal hashes before the last. */
module LogAgreement {
  import opened Arith
  import opened Protocol
  import opened Invariant
  import A = Agreement
  import L = LogSafety
  import P = Preserve

  // ------------------------------------------------ a log read id by id

  lemma {:induction false} LogOfAt(c: Config, acc: Accepted, m: nat, id: nat)
    requires AcceptedOk(c, acc) && (forall x: nat :: x < m ==> Holds(c, acc, x)) && id < m
    ensures |LogOf(c, acc, m)| == m && LogOf(c, acc, m)[id] == ReqAt(c, acc, id)
  {
    hide AcceptedOk, Holds, ReqAt;
    if id < m - 1 {
      LogOfAt(c, acc, m - 1, id);
    } else if 0 < id {
      LogOfAt(c, acc, m - 1, id - 1);
    }
  }

  lemma EndBelow(c: Config, next: nat, id: nat)
    requires next % c.batch == 0 && id < next
    ensures EndOf(c, id) < next && 1 <= id / c.batch + 1 <= next / c.batch && c.batch * (id / c.batch + 1) - 1 == EndOf(c, id)
  {
    var p, q := id / c.batch, next / c.batch;
    assert next == c.batch * q && c.batch * p <= id;
    MulMono(c.batch, q, p);
    MulMono(c.batch, p + 1, q);
    assert c.batch * (p + 1) == c.batch * p + c.batch;
  }

  lemma LogAt(c: Config, n: Node, acc: Accepted)
    requires Inv(c, n, acc)
    ensures AcceptedOk(c, acc) && n.next % c.batch == 0 && |n.log| == n.next
    ensures forall id: nat :: id < n.next ==> Holds(c, acc, id) && n.log[id] == ReqAt(c, acc, id)
  {
    hide Inv, AcceptedOk, ReqAt, LogOf, EndOf;
    L.LogShape(c, n, acc);
    forall id: nat | id < n.next ensures Holds(c, acc, id) {
      EndBelow(c, n.next, id);
      L.BelowNextAccepted(c, n, acc, id / c.batch + 1);
    }
    if n.next == 0 {
      assert LogOf(c, acc, 0) == [] by { EmptyLog(c, acc); }
    } else {
      LogOfAt(c, acc, n.next, 0);
    }
    forall id: nat | id < n.next ensures n.log[id] == ReqAt(c, acc, id) {
      LogOfAt(c, acc, n.next, id);
    }
  }

  lemma EmptyLog(c: Config, acc: Accepted)
    requires AcceptedOk(c, acc)
    ensures LogOf(c, acc, 0) == []
  {
  }

  /** The text executed at id is the hash its batch gives for it. */
  lemma TextAt(c: Config, acc: Accepted, k: nat, id: nat)
    requires AcceptedOk(c, acc) && k in acc && IsEnd(c, k) && k + 1 - c.batch <= id <= k
    ensures Holds(c, acc, id) && |acc[k].hash| == |acc[k].reqs| == c.batch && c.batch <= k + 1
    ensures ReqAt(c, acc, id).text == acc[k].hash[id - (k + 1 - c.batch)]
    ensures ReqAt(c, acc, id) == acc[k].reqs[id - (k + 1 - c.batch)].req
  {
    EndIsLate(c, k);
    EndOfMember(c, k, id);
  }

  // ------------------------------------------------ two nodes

  function Texts(log: seq<Request>): seq<string> { seq(|log|, i requires 0 <= i < |log| => log[i].text) }

  /** One is a prefix of the other. */
  predicate Comparable<T(==)>(a: seq<T>, b: seq<T>) { a <= b || b <= a }

  function Min(a: nat, b: nat): nat { if a <= b then a else b }

  /** The two nodes' batches k have equal hashes before the last. */
  ghost predicate SameFirsts(c: Config, a: Accepted, b: Accepted, k: nat) {
    && k in a && k in b && |a[k].hash| == |b[k].hash| == c.batch
    && forall x :: 0 <= x < c.batch - 1 ==> a[k].hash[x] == b[k].hash[x]
  }

  /** And the same clients to answer. */
  ghost predicate SameClients(c: Config, a: Accepted, b: Accepted, k: nat) {
    && k in a && k in b && |a[k].reqs| == |b[k].reqs| == c.batch
    && forall x :: 0 <= x < c.batch ==> a[k].reqs[x].req.client == b[k].reqs[x].req.client
  }

  lemma SharedQueued(c: Config, n: Node, acc: Accepted, k: nat)
    requires Inv(c, n, acc) && IsEnd(c, k) && k < n.next
    ensures Queued(c, n.out, k)
  {
    hide StoresOk, SlotsOk, SentOk, ExecsOk, PreparedOk, Shaped, Holds, ReqAt, IsEnd, Queued;
  }

  /** Every executed batch has the same last hash at both nodes. */
  lemma SharedLast(c: Config, faulty: set<nat>, run: seq<A.Action>, i: nat, j: nat, k: nat)
    requires |faulty| <= c.f && i < c.Nodes() && i !in faulty && j < c.Nodes() && j !in faulty && IsEnd(c, k)
    requires var s := A.Run(c, faulty, run); k < s.nodes[i].next && k < s.nodes[j].next
    ensures var s := A.Run(c, faulty, run);
            && k in s.accs[i] && k in s.accs[j] && |s.accs[i][k].hash| == |s.accs[j][k].hash| == c.batch
            && s.accs[i][k].hash[c.batch - 1] == s.accs[j][k].hash[c.batch - 1]
  {
    hide A.Run, Inv, IsEnd, Queued;
    var s := A.Run(c, faulty, run);
    L.RunInvAlways(c, faulty, run);
    SharedQueued(c, s.nodes[i], s.accs[i], k);
    SharedQueued(c, s.nodes[j], s.accs[j], k);
    A.Agreement(c, faulty, run, i, j, k);
  }

  /** Whoever lies, two correct nodes execute the same text at the end of every batch. */
  lemma SameLastRequests(c: Config, faulty: set<nat>, run: seq<A.Action>, i: nat, j: nat, id: nat)
    requires |faulty| <= c.f && i < c.Nodes() && i !in faulty && j < c.Nodes() && j !in faulty
    requires var s := A.Run(c, faulty, run); id < |s.nodes[i].log| && id < |s.nodes[j].log| && (id + 1) % c.batch == 0
    ensures var s := A.Run(c, faulty, run); s.nodes[i].log[id].text == s.nodes[j].log[id].text
  {
    hide A.Run, Inv, ReqAt, AcceptedOk, Holds;
    var s := A.Run(c, faulty, run);
    L.RunInvAlways(c, faulty, run);
    LogAt(c, s.nodes[i], s.accs[i]);
    LogAt(c, s.nodes[j], s.accs[j]);
    assert IsEnd(c, id) by { NextBelow(c, s.nodes[i], s.accs[i]); }
    SharedLast(c, faulty, run, i, j, id);
    TextAt(c, s.accs[i], id, id);
    TextAt(c, s.accs[j], id, id);
  }

  lemma NextBelow(c: Config, n: Node, acc: Accepted)
    requires Inv(c, n, acc)
    ensures n.next <= EMPTY
  {
    hide StoresOk, SlotsOk, SentOk, ExecsOk, PreparedOk, Shaped, Holds, ReqAt, IsEnd, Queued;
  }

  /** Position by position below both lengths. */
  lemma ComparableAt<T>(a: seq<T>, b: seq<T>)
    ensures Comparable(a, b) <==> forall x :: 0 <= x < |a| && x < |b| ==> a[x] == b[x]
  {
    if |a| <= |b| && forall x :: 0 <= x < |a| && x < |b| ==> a[x] == b[x] {
      assert a == b[..|a|];
    }
    if |b| <= |a| && forall x :: 0 <= x < |a| && x < |b| ==> a[x] == b[x] {
      assert b == a[..|b|];
    }
  }

  ghost predicate BatchesAgree(c: Config, a: Accepted, b: Accepted, below: nat) {
    forall k: nat :: IsEnd(c, k) && k < below ==> SameFirsts(c, a, b, k)
  }

  ghost predicate ClientsAgree(c: Config, a: Accepted, b: Accepted, below: nat) {
    forall k: nat :: IsEnd(c, k) && k < below ==> SameClients(c, a, b, k)
  }

  lemma TextsFromBatches(c: Config, faulty: set<nat>, run: seq<A.Action>, i: nat, j: nat, id: nat)
    requires |faulty| <= c.f && i < c.Nodes() && i !in faulty && j < c.Nodes() && j !in faulty
    requires var s := A.Run(c, faulty, run); id < |s.nodes[i].log| && id < |s.nodes[j].log|
    requires var s := A.Run(c, faulty, run); BatchesAgree(c, s.accs[i], s.accs[j], Min(s.nodes[i].next, s.nodes[j].next))
    ensures var s := A.Run(c, faulty, run);
            && s.nodes[i].log[id].text == s.nodes[j].log[id].text
            && (ClientsAgree(c, s.accs[i], s.accs[j], Min(s.nodes[i].next, s.nodes[j].next)) ==> s.nodes[i].log[id] == s.nodes[j].log[id])
  {
    hide A.Run, Inv, ReqAt, AcceptedOk, Holds;
    var s := A.Run(c, faulty, run);
    L.RunInvAlways(c, faulty, run);
    LogAt(c, s.nodes[i], s.accs[i]);
    LogAt(c, s.nodes[j], s.accs[j]);
    var k := EndOf(c, id);
    EndBelow(c, s.nodes[i].next, id);
    EndBelow(c, s.nodes[j].next, id);
    EndOfIsEnd(c, id);
    assert IsEnd(c, k) by { NextBelow(c, s.nodes[i], s.accs[i]); }
    SharedLast(c, faulty, run, i, j, k);
    assert SameFirsts(c, s.accs[i], s.accs[j], k);
    TextAt(c, s.accs[i], k, id);
    TextAt(c, s.accs[j], k, id);
  }

  lemma BatchesFromTexts(c: Config, faulty: set<nat>, run: seq<A.Action>, i: nat, j: nat, k: nat)
    requires |faulty| <= c.f && i < c.Nodes() && i !in faulty && j < c.Nodes() && j !in faulty && IsEnd(c, k)
    requires var s := A.Run(c, faulty, run); k < s.nodes[i].next && k < s.nodes[j].next
    requires var s := A.Run(c, faulty, run); Comparable(Texts(s.nodes[i].log), Texts(s.nodes[j].log))
    ensures var s := A.Run(c, faulty, run);
            && SameFirsts(c, s.accs[i], s.accs[j], k)
            && (Comparable(s.nodes[i].log, s.nodes[j].log) ==> SameClients(c, s.accs[i], s.accs[j], k))
  {
    hide A.Run, Inv, ReqAt, AcceptedOk, Holds, IsEnd, Comparable;
    var s := A.Run(c, faulty, run);
    var li, lj := s.nodes[i].log, s.nodes[j].log;
    L.RunInvAlways(c, faulty, run);
    LogAt(c, s.nodes[i], s.accs[i]);
    LogAt(c, s.nodes[j], s.accs[j]);
    SharedLast(c, faulty, run, i, j, k);
    ComparableAt(Texts(li), Texts(lj));
    ComparableAt(li, lj);
    TextAt(c, s.accs[i], k, k);
    TextAt(c, s.accs[j], k, k);
    forall x | 0 <= x < c.batch
      ensures s.accs[i][k].hash[x] == s.accs[j][k].hash[x]
      ensures Comparable(li, lj) ==> s.accs[i][k].reqs[x].req == s.accs[j][k].reqs[x].req
    {
      var id := k + 1 - c.batch + x;
      TextAt(c, s.accs[i], k, id);
      TextAt(c, s.accs[j], k, id);
      assert Texts(li)[id] == Texts(lj)[id];
    }
  }

  /** Over every run with at most f faulty nodes, the primary possibly among them, the
      texts two correct nodes execute are comparable if and only if the batches they
      accepted have equal hashes before the last, for every batch both have executed;
      and their logs, if and only if the clients to answer are the same too. */
  lemma ComparableExactlyWhen(c: Config, faulty: set<nat>, run: seq<A.Action>, i: nat, j: nat)
    requires |faulty| <= c.f && i < c.Nodes() && i !in faulty && j < c.Nodes() && j !in faulty
    ensures var s := A.Run(c, faulty, run);
            var below := Min(s.nodes[i].next, s.nodes[j].next);
            && (Comparable(Texts(s.nodes[i].log), Texts(s.nodes[j].log)) <==> BatchesAgree(c, s.accs[i], s.accs[j], below))
            && (Comparable(s.nodes[i].log, s.nodes[j].log) <==>
                  BatchesAgree(c, s.accs[i], s.accs[j], below) && ClientsAgree(c, s.accs[i], s.accs[j], below))
  {
    hide A.Run, Inv, IsEnd, Comparable, SameFirsts, SameClients;
    var s := A.Run(c, faulty, run);
    var li, lj := s.nodes[i].log, s.nodes[j].log;
    var below := Min(s.nodes[i].next, s.nodes[j].next);
    ComparableAt(li, lj);
    ComparableAt(Texts(li), Texts(lj));
    if BatchesAgree(c, s.accs[i], s.accs[j], below) {
      forall id | 0 <= id < |li| && id < |lj|
        ensures li[id].text == lj[id].text && (ClientsAgree(c, s.accs[i], s.accs[j], below) ==> li[id] == lj[id])
      {
        TextsFromBatches(c, faulty, run, i, j, id);
      }
    }
    if Comparable(Texts(li), Texts(lj)) {
      forall k: nat | IsEnd(c, k) && k < below
        ensures SameFirsts(c, s.accs[i], s.accs[j], k)
        ensures Comparable(li, lj) ==> SameClients(c, s.accs[i], s.accs[j], k)
      {
        BatchesFromTexts(c, faulty, run, i, j, k);
      }
    }
  }
}
