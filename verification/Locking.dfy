/** Locks on transaction managers and the primary's gate, over every interleaving of
    the workers: one holder at most, no message lost or doubled, the primary's batches
    in turn, and no deadlock, since the only handler that waits wants a manager whose
    holders never wait. */
module Locking {
  import opened Arith

  /** Polite messages give way when their manager is taken, as prepares, commits,
      checkpoints and executes do; Insist takes its manager inside the handler and
      asserts that it is free, as the batch handlers do; Turn is the primary's own
      batch, which goes back to the queue until the gate expects it and then insists;
      Exec(k) is the execute of the batch that ends at k and starts on k-1. */
  datatype Msg = Polite(id: nat) | Insist(id: nat) | Turn(id: nat) | Exec(k: nat)

  datatype Thread =
    | Idle
    | Working(msg: Msg, id: nat)
    | Waiting(msg: Msg, want: nat)
    | Closing(msg: Msg, got: nat)

  /** taken are the managers with txn_ready == 0; done the messages finished; expected
      is the gate's expectedBatchCount. */
  datatype State = State(taken: set<nat>, threads: seq<Thread>, queue: seq<Msg>, done: multiset<Msg>, expected: nat)

  datatype Step =
    | Take(t: nat, i: nat)
    | Acquire(t: nat)
    | Drop(t: nat)
    | Finish(t: nat, sent: seq<Msg>)

  datatype Outcome = Ran(s: State) | Abort

  predicate Sound(batch: nat, m: Msg) { m.Exec? ==> 0 < m.k && 0 < batch && (m.k + 1) % batch == 0 }

  predicate Possible(batch: nat, s: State, a: Step) {
    a.t < |s.threads| &&
    var t := s.threads[a.t];
    match a
    case Take(_, i) => t.Idle? && i < |s.queue|
    case Acquire(_) => t.Waiting?
    case Drop(_) => t.Closing?
    case Finish(_, sent) => t.Working? && forall j :: 0 <= j < |sent| ==> Sound(batch, sent[j])
  }

  function Without(q: seq<Msg>, i: nat): seq<Msg>
    requires i < |q|
  {
    q[..i] + q[i + 1..]
  }

  function Lock(m: Msg): nat {
    match m
    case Polite(id) => id
    case Insist(id) => id
    case Turn(id) => id
    case Exec(k) => if 0 < k then k - 1 else 0
  }

  /** The primary's batch whose turn has not come. */
  predicate Early(s: State, m: Msg) { m.Turn? && m.id != s.expected }

  /** A worker takes a message from the queue: the gate, then compare-and-swap on its
      manager. */
  function Start(s: State, t: nat, i: nat): Outcome
    requires t < |s.threads| && i < |s.queue|
  {
    var m := s.queue[i];
    if Early(s, m) then Ran(s.(queue := Without(s.queue, i) + [m]))
    else if Lock(m) in s.taken then
      if m.Insist? || m.Turn? then Abort else Ran(s.(queue := Without(s.queue, i) + [m]))
    else
      var thread := if m.Exec? then Waiting(m, m.k) else Working(m, Lock(m));
      Ran(s.(taken := s.taken + {Lock(m)}, threads := s.threads[t := thread], queue := Without(s.queue, i)))
  }

  function Next(batch: nat, s: State, a: Step): Outcome
    requires Possible(batch, s, a)
  {
    var t := s.threads[a.t];
    match a
    case Take(n, i) => Start(s, n, i)
    case Acquire(n) =>
      if t.want in s.taken then Ran(s)
      else Ran(s.(taken := s.taken + {t.want}, threads := s.threads[n := Closing(t.msg, t.want)]))
    case Drop(n) => Ran(s.(taken := s.taken - {t.got}, threads := s.threads[n := Working(t.msg, Lock(t.msg))]))
    case Finish(n, sent) =>
      Ran(s.(taken := s.taken - {t.id}, threads := s.threads[n := Idle], queue := s.queue + sent,
             done := s.done + multiset{t.msg}, expected := if t.msg.Turn? then batch + t.msg.id else s.expected))
  }

  /** What a worker holds. */
  function Held(t: Thread): set<nat> {
    match t
    case Idle => {}
    case Working(_, id) => {id}
    case Waiting(m, _) => {Lock(m)}
    case Closing(m, got) => {Lock(m), got}
  }

  ghost predicate ThreadOk(batch: nat, t: Thread) {
    match t
    case Idle => true
    case Working(m, id) => Sound(batch, m) && id == Lock(m)
    case Waiting(m, want) => m.Exec? && Sound(batch, m) && want == m.k
    case Closing(m, got) => m.Exec? && Sound(batch, m) && got == m.k
  }

  /** Every taken manager has exactly one holder, and the batch at work is the one the
      gate expects. */
  ghost predicate Inv(batch: nat, s: State) {
    && (forall i :: 0 <= i < |s.threads| && s.threads[i].Working? ==> !Early(s, s.threads[i].msg))
    && (forall i :: 0 <= i < |s.threads| ==> ThreadOk(batch, s.threads[i]))
    && (forall i :: 0 <= i < |s.queue| ==> Sound(batch, s.queue[i]))
    && (forall i, j, x :: 0 <= i < |s.threads| && 0 <= j < |s.threads| && x in Held(s.threads[i]) && x in Held(s.threads[j]) ==> i == j)
    && (forall i, x :: 0 <= i < |s.threads| && x in Held(s.threads[i]) ==> x in s.taken)
    && (forall x :: x in s.taken ==> exists i :: 0 <= i < |s.threads| && x in Held(s.threads[i]))
  }

  // ------------------------------------------------ the invariant holds

  /** One worker's holding changes from old to fresh, and the flags with it. */
  lemma SwapThread(batch: nat, s: State, s': State, n: nat, t: Thread)
    requires Inv(batch, s) && n < |s.threads| && ThreadOk(batch, t)
    requires s'.threads == s.threads[n := t]
    requires s'.taken == (s.taken - Held(s.threads[n])) + Held(t)
    requires Held(t) * s.taken <= Held(s.threads[n])
    requires forall i :: 0 <= i < |s'.queue| ==> Sound(batch, s'.queue[i])
    requires forall i :: 0 <= i < |s'.threads| && s'.threads[i].Working? ==> !Early(s', s'.threads[i].msg)
    ensures Inv(batch, s')
  {
    forall i, x | 0 <= i < |s.threads| && i != n && x in Held(s.threads[i])
      ensures x !in Held(t) && x !in Held(s.threads[n])
    {
      assert x in s.taken;
    }
    forall x | x in s'.taken
      ensures exists i :: 0 <= i < |s'.threads| && x in Held(s'.threads[i])
    {
      if x in Held(t) {
        assert s'.threads[n] == t;
      } else {
        var i :| 0 <= i < |s.threads| && x in Held(s.threads[i]);
        assert s'.threads[i] == s.threads[i];
      }
    }
  }

  lemma StepKeeps(batch: nat, s: State, a: Step)
    requires 1 < batch && Inv(batch, s) && Possible(batch, s, a) && Next(batch, s, a).Ran?
    ensures Inv(batch, Next(batch, s, a).s)
  {
    var s' := Next(batch, s, a).s;
    var t := s.threads[a.t];
    match a
    case Take(n, i) =>
      var m := s.queue[i];
      if Lock(m) !in s.taken && !Early(s, m) {
        SwapThread(batch, s, s', n, if m.Exec? then Waiting(m, m.k) else Working(m, Lock(m)));
      }
    case Acquire(n) =>
      if t.want !in s.taken {
        assert (s.taken - {Lock(t.msg)}) + {Lock(t.msg), t.want} == s.taken + {t.want};
        SwapThread(batch, s, s', n, Closing(t.msg, t.want));
      }
    case Drop(n) =>
      assert Lock(t.msg) in Held(t);
      assert (s.taken - Held(t)) + {Lock(t.msg)} == s.taken - {t.got};
      SwapThread(batch, s, s', n, Working(t.msg, Lock(t.msg)));
    case Finish(n, sent) =>
      assert (s.taken - {t.id}) + {} == s.taken - {t.id};
      forall i | 0 <= i < |s.threads| && i != n && s.threads[i].Working?
        ensures !Early(s', s.threads[i].msg)
      {
        assert ThreadOk(batch, s.threads[i]) && ThreadOk(batch, t);
        assert t.id in Held(t);
      }
      SwapThread(batch, s, s', n, Idle);
  }

  /** The gate moves only when a batch of the primary is done, which is the one it
      expected, and then by one batch. */
  lemma GateMovesInTurn(batch: nat, s: State, a: Step)
    requires Inv(batch, s) && Possible(batch, s, a) && Next(batch, s, a).Ran?
    ensures var s' := Next(batch, s, a).s;
            s'.expected == if a.Finish? && s.threads[a.t].msg.Turn? then s.expected + batch else s.expected
  {
    if a.Finish? {
      assert !Early(s, s.threads[a.t].msg);
    }
  }

  // ------------------------------------------------ conservation

  function InHand(t: Thread, m: Msg): nat { if !t.Idle? && t.msg == m then 1 else 0 }

  ghost function InHands(ts: seq<Thread>, m: Msg): nat {
    if ts == [] then 0 else InHands(ts[..|ts| - 1], m) + InHand(ts[|ts| - 1], m)
  }

  /** How often message m is there: waiting, in some worker's hands, or finished. */
  ghost function Copies(s: State, m: Msg): nat { multiset(s.queue)[m] + InHands(s.threads, m) + s.done[m] }

  lemma {:induction false} InHandsSwap(ts: seq<Thread>, n: nat, t: Thread, m: Msg)
    requires n < |ts|
    ensures InHands(ts[n := t], m) + InHand(ts[n], m) == InHands(ts, m) + InHand(t, m)
  {
    if n < |ts| - 1 {
      var short := ts[..|ts| - 1];
      InHandsSwap(short, n, t, m);
      assert ts[n := t][..|ts| - 1] == short[n := t];
    } else {
      assert ts[n := t][..n] == ts[..n];
    }
  }

  lemma QueueParts(q: seq<Msg>, i: nat, m: Msg)
    requires i < |q|
    ensures multiset(Without(q, i))[m] + (if q[i] == m then 1 else 0) == multiset(q)[m]
    ensures multiset(Without(q, i) + [q[i]])[m] == multiset(q)[m]
  {
    assert q == q[..i] + [q[i]] + q[i + 1..];
  }

  /** A step adds the messages a finishing handler sends, and otherwise none is lost
      or doubled; a message put back is back. */
  lemma {:induction false} StepConserves(batch: nat, s: State, a: Step, m: Msg)
    requires Possible(batch, s, a) && Next(batch, s, a).Ran?
    ensures Copies(Next(batch, s, a).s, m) == Copies(s, m) + if a.Finish? then multiset(a.sent)[m] else 0
  {
    HandsAfter(batch, s, a, m);
    QueueAfter(batch, s, a, m);
    hide InHands, Next, Possible;
  }

  /** What one worker's step does to what is in hand or finished. */
  lemma {:induction false} HandsAfter(batch: nat, s: State, a: Step, m: Msg)
    requires Possible(batch, s, a) && Next(batch, s, a).Ran?
    ensures var s' := Next(batch, s, a).s;
            && a.t < |s'.threads| == |s.threads|
            && InHands(s'.threads, m) + InHand(s.threads[a.t], m) == InHands(s.threads, m) + InHand(s'.threads[a.t], m)
  {
    hide InHands, Without;
    var s' := Next(batch, s, a).s;
    InHandsSwap(s.threads, a.t, s'.threads[a.t], m);
    assert s.threads[a.t := s'.threads[a.t]] == s'.threads;
  }

  /** And to the queue, with what it takes from there or hands over. */
  lemma {:induction false} QueueAfter(batch: nat, s: State, a: Step, m: Msg)
    requires Possible(batch, s, a) && Next(batch, s, a).Ran? && a.t < |Next(batch, s, a).s.threads|
    ensures var s' := Next(batch, s, a).s;
            multiset(s'.queue)[m] + s'.done[m] + InHand(s'.threads[a.t], m)
            == multiset(s.queue)[m] + s.done[m] + InHand(s.threads[a.t], m) + if a.Finish? then multiset(a.sent)[m] else 0
  {
    hide Without;
    match a
    case Take(n, i) => QueueParts(s.queue, i, m);
    case Finish(n, sent) => assert multiset(s.queue + sent)[m] == multiset(s.queue)[m] + multiset(sent)[m];
    case _ =>
  }

  // ------------------------------------------------ no deadlock

  /** Managers that end a batch are never held by a worker that waits. */
  lemma WaitersHoldOther(batch: nat, s: State, i: nat, j: nat)
    requires 1 < batch && Inv(batch, s) && i < |s.threads| && j < |s.threads|
    requires s.threads[i].Waiting? && s.threads[j].Waiting?
    ensures s.threads[i].want !in Held(s.threads[j])
  {
    assert ThreadOk(batch, s.threads[i]) && ThreadOk(batch, s.threads[j]);
    var k, l := s.threads[i].want, s.threads[j].want;
    if k == l - 1 {
      SlotsDiffer(k + 1, l + 1, batch);
    }
  }

  /** A step that changes who holds what. */
  predicate Real(batch: nat, s: State, a: Step) {
    && Possible(batch, s, a)
    && match a
       case Take(_, i) => Lock(s.queue[i]) !in s.taken && !Early(s, s.queue[i])
       case Acquire(t) => s.threads[t].want !in s.taken
       case _ => true
  }

  /** While any worker is not idle, some worker can take a real step. */
  lemma NoDeadlock(batch: nat, s: State, n: nat) returns (a: Step)
    requires 1 < batch && Inv(batch, s) && n < |s.threads| && !s.threads[n].Idle?
    ensures !a.Take? && Real(batch, s, a) && Next(batch, s, a).Ran?
  {
    if i :| 0 <= i < |s.threads| && s.threads[i].Working? {
      a := Finish(i, []);
    } else if i :| 0 <= i < |s.threads| && s.threads[i].Closing? {
      a := Drop(i);
    } else {
      a := Acquire(n);
      forall j | 0 <= j < |s.threads| ensures s.threads[n].want !in Held(s.threads[j]) {
        if s.threads[j].Waiting? {
          WaitersHoldOther(batch, s, n, j);
        }
      }
    }
  }

  function Rank(t: Thread): nat { match t case Idle => 0 case Working(_, _) => 1 case Closing(_, _) => 2 case Waiting(_, _) => 3 }

  ghost function Ranks(ts: seq<Thread>): nat { if ts == [] then 0 else Ranks(ts[..|ts| - 1]) + Rank(ts[|ts| - 1]) }

  lemma {:induction false} RanksSwap(ts: seq<Thread>, n: nat, t: Thread)
    requires n < |ts|
    ensures Ranks(ts[n := t]) + Rank(ts[n]) == Ranks(ts) + Rank(t)
  {
    if n < |ts| - 1 {
      var short := ts[..|ts| - 1];
      RanksSwap(short, n, t);
      assert ts[n := t][..|ts| - 1] == short[n := t];
    } else {
      assert ts[n := t][..n] == ts[..n];
    }
  }

  ghost function Work(s: State): nat { 4 * |s.queue| + Ranks(s.threads) }

  /** Real steps use the work up; the others leave it, and every worker, as it was. */
  lemma StepProgress(batch: nat, s: State, a: Step)
    requires Possible(batch, s, a) && Next(batch, s, a).Ran?
    ensures var s' := Next(batch, s, a).s;
            if Real(batch, s, a) then Work(s') < Work(s) + if a.Finish? then 4 * |a.sent| else 0
            else Work(s') == Work(s) && s'.threads == s.threads && s'.taken == s.taken && s'.expected == s.expected
  {
    var s' := Next(batch, s, a).s;
    RanksSwap(s.threads, a.t, s'.threads[a.t]);
    assert s'.threads == s.threads[a.t := s'.threads[a.t]];
  }

  // ------------------------------------------------ runs

  ghost function Run(batch: nat, s: State, steps: seq<Step>): Outcome {
    if steps == [] then Ran(s)
    else
      var r := Run(batch, s, steps[..|steps| - 1]);
      var a := steps[|steps| - 1];
      if r.Abort? then Abort else if Possible(batch, r.s, a) then Next(batch, r.s, a) else r
  }

  /** How often message m was sent in a run. */
  ghost function SentIn(batch: nat, s: State, steps: seq<Step>, m: Msg): nat {
    if steps == [] then 0
    else
      var r, a := Run(batch, s, steps[..|steps| - 1]), steps[|steps| - 1];
      SentIn(batch, s, steps[..|steps| - 1], m)
      + if r.Ran? && Possible(batch, r.s, a) && a.Finish? then multiset(a.sent)[m] else 0
  }

  ghost predicate AtRest(batch: nat, s: State) {
    && s.taken == {}
    && (forall i :: 0 <= i < |s.threads| ==> s.threads[i].Idle?)
    && (forall i :: 0 <= i < |s.queue| ==> Sound(batch, s.queue[i]))
  }

  /** Over every run from rest, no two workers ever hold the same manager, and the
      messages are those at first and those sent since, each once. */
  lemma {:induction false} RunsKeepOrder(batch: nat, s: State, steps: seq<Step>, m: Msg)
    requires 1 < batch && AtRest(batch, s)
    ensures var r := Run(batch, s, steps);
            r.Ran? ==> Inv(batch, r.s) && Copies(r.s, m) == Copies(s, m) + SentIn(batch, s, steps, m)
  {
    if steps != [] {
      hide Inv, Next, Possible, Copies, AtRest;
      RunsKeepOrder(batch, s, steps[..|steps| - 1], m);
      var r, a := Run(batch, s, steps[..|steps| - 1]), steps[|steps| - 1];
      if r.Ran? && Possible(batch, r.s, a) && Next(batch, r.s, a).Ran? {
        StepKeeps(batch, r.s, a);
        StepConserves(batch, r.s, a, m);
      }
    }
  }

  // ------------------------------------------------ an execute waits for both managers

  /** In the last steps of the run, step i is the one in which worker t got the manager
      of k while it was free, and t has taken up nothing since. */
  ghost predicate GotAt(batch: nat, s: State, steps: seq<Step>, t: nat, k: nat, i: nat) {
    && i < |steps| && steps[i] == Acquire(t)
    && (var r := Run(batch, s, steps[..i]);
        && r.Ran? && Possible(batch, r.s, steps[i]) && k !in r.s.taken
        && r.s.threads[t] == Waiting(Exec(k), k))
    && forall j :: i < j < |steps| && steps[j].Take? && steps[j].t == t ==> !Taken(batch, s, steps, j)
  }

  /** Step j was carried out and its message left the queue. */
  ghost predicate Taken(batch: nat, s: State, steps: seq<Step>, j: nat)
    requires j < |steps|
  {
    var r := Run(batch, s, steps[..j]);
    r.Ran? && Possible(batch, r.s, steps[j]) && Real(batch, r.s, steps[j])
  }

  ghost predicate Got(batch: nat, s: State, steps: seq<Step>, t: nat, k: nat) {
    exists i: nat :: GotAt(batch, s, steps, t, k, i)
  }

  lemma GotLater(batch: nat, s: State, steps: seq<Step>, a: Step, t: nat, k: nat)
    requires Got(batch, s, steps, t, k)
    requires a.Take? && a.t == t ==> !Taken(batch, s, steps + [a], |steps|)
    ensures Got(batch, s, steps + [a], t, k)
  {
    hide Run, Possible, Real;
    var i: nat :| GotAt(batch, s, steps, t, k, i);
    var more := steps + [a];
    forall j | 0 <= j <= |steps| ensures more[..j] == steps[..j] {
    }
    assert GotAt(batch, s, more, t, k, i);
  }

  lemma GotNow(batch: nat, s: State, steps: seq<Step>, t: nat, k: nat)
    requires var r := Run(batch, s, steps);
             r.Ran? && Possible(batch, r.s, Acquire(t)) && k !in r.s.taken && r.s.threads[t] == Waiting(Exec(k), k)
    ensures Got(batch, s, steps + [Acquire(t)], t, k)
  {
    hide Run, Possible;
    assert (steps + [Acquire(t)])[..|steps|] == steps;
    assert GotAt(batch, s, steps + [Acquire(t)], t, k, |steps|);
  }

  /** Whoever works on an execute, or still holds its second manager, got that manager. */
  ghost predicate Served(batch: nat, s: State, steps: seq<Step>, t: nat, th: Thread) {
    (th.Working? || th.Closing?) && th.msg.Exec? ==> Got(batch, s, steps, t, th.msg.k)
  }

  lemma ServedStep(batch: nat, s: State, steps: seq<Step>, a: Step, t: nat)
    requires var r := Run(batch, s, steps);
             && r.Ran? && Inv(batch, r.s) && Possible(batch, r.s, a) && Next(batch, r.s, a).Ran?
             && t < |r.s.threads| && Served(batch, s, steps, t, r.s.threads[t])
    ensures var s' := Next(batch, Run(batch, s, steps).s, a).s;
            t < |s'.threads| && Served(batch, s, steps + [a], t, s'.threads[t])
  {
    hide Run, Got, Inv;
    var q := Run(batch, s, steps).s;
    var th, th' := q.threads[t], Next(batch, q, a).s.threads[t];
    assert ThreadOk(batch, th) by { HasThread(batch, q, t); }
    if (th'.Working? || th'.Closing?) && th'.msg.Exec? {
      if th == th' || a.Drop? {
        assert (steps + [a])[..|steps|] == steps;
        GotLater(batch, s, steps, a, t, th'.msg.k);
      } else {
        GotNow(batch, s, steps, t, th'.msg.k);
      }
    }
  }

  lemma HasThread(batch: nat, s: State, t: nat)
    requires Inv(batch, s) && t < |s.threads|
    ensures ThreadOk(batch, s.threads[t])
  {
  }

  lemma {:induction false} AlwaysServed(batch: nat, s: State, steps: seq<Step>, t: nat)
    requires 1 < batch && AtRest(batch, s)
    ensures var r := Run(batch, s, steps); r.Ran? && t < |r.s.threads| ==> Served(batch, s, steps, t, r.s.threads[t])
  {
    if steps != [] {
      hide Inv, Next, Possible, AtRest, Served, Copies;
      var short, a := steps[..|steps| - 1], steps[|steps| - 1];
      AlwaysServed(batch, s, short, t);
      RunsKeepOrder(batch, s, short, Polite(0));
      assert steps == short + [a];
      var r := Run(batch, s, short);
      if r.Ran? && t < |r.s.threads| {
        if Possible(batch, r.s, a) {
          if Next(batch, r.s, a).Ran? { ServedStep(batch, s, short, a, t); }
        } else {
          ServedSkip(batch, s, short, a, t);
        }
      } else if r.Ran? && Possible(batch, r.s, a) && Next(batch, r.s, a).Ran? {
        SameWorkers(batch, r.s, a);
      }
    }
  }

  lemma SameWorkers(batch: nat, s: State, a: Step)
    requires Possible(batch, s, a) && Next(batch, s, a).Ran?
    ensures |Next(batch, s, a).s.threads| == |s.threads|
  {
  }

  lemma ServedSkip(batch: nat, s: State, steps: seq<Step>, a: Step, t: nat)
    requires var r := Run(batch, s, steps);
             r.Ran? && !Possible(batch, r.s, a) && t < |r.s.threads| && Served(batch, s, steps, t, r.s.threads[t])
    ensures Served(batch, s, steps + [a], t, Run(batch, s, steps).s.threads[t])
  {
    hide Run, Got, Possible;
    var th := Run(batch, s, steps).s.threads[t];
    assert (steps + [a])[..|steps|] == steps;
    if (th.Working? || th.Closing?) && th.msg.Exec? {
      GotLater(batch, s, steps, a, t, th.msg.k);
    }
  }

  /** Over every run from rest: a worker that finishes the execute of batch k has, since
      it took that up, got the manager of k at a moment when no worker held it. */
  lemma ExecuteWaited(batch: nat, s: State, steps: seq<Step>, t: nat, sent: seq<Msg>, k: nat)
    requires 1 < batch && AtRest(batch, s)
    requires var r := Run(batch, s, steps);
             r.Ran? && Possible(batch, r.s, Finish(t, sent)) && r.s.threads[t].msg == Exec(k)
    ensures exists i: nat :: GotAt(batch, s, steps, t, k, i)
    ensures forall i: nat :: GotAt(batch, s, steps, t, k, i) ==>
              var q := Run(batch, s, steps[..i]).s; forall w :: 0 <= w < |q.threads| ==> k !in Held(q.threads[w])
  {
    AlwaysServed(batch, s, steps, t);
    forall i: nat | GotAt(batch, s, steps, t, k, i)
      ensures var q := Run(batch, s, steps[..i]).s; forall w :: 0 <= w < |q.threads| ==> k !in Held(q.threads[w])
    {
      RunsKeepOrder(batch, s, steps[..i], Polite(0));
    }
  }

  /** The one way to fail: a batch handler that insists on a manager some vote's
      handler holds at the moment. */
  lemma AbortsExactlyWhen(batch: nat, s: State, a: Step)
    requires Inv(batch, s) && Possible(batch, s, a)
    ensures Next(batch, s, a).Abort? <==>
              a.Take? && (s.queue[a.i].Insist? || (s.queue[a.i].Turn? && s.queue[a.i].id == s.expected))
              && exists j :: 0 <= j < |s.threads| && s.queue[a.i].id in Held(s.threads[j])
  {
  }

  /** It happens: two workers, a prepare of batch k and then the batch itself. */
  lemma BatchMeetsVote(batch: nat, k: nat, expected: nat)
    requires 1 < batch
    ensures var s := State({}, [Idle, Idle], [Polite(k), Insist(k)], multiset{}, expected);
            AtRest(batch, s) && Run(batch, s, [Take(0, 0), Take(1, 0)]).Abort?
  {
    var s := State({}, [Idle, Idle], [Polite(k), Insist(k)], multiset{}, expected);
    assert [Take(0, 0), Take(1, 0)][..1] == [Take(0, 0)] && [Take(0, 0)][..0] == [];
    assert Without(s.queue, 0) == [Insist(k)];
    assert Run(batch, s, [Take(0, 0)]) == Ran(State({k}, [Working(Polite(k), k), Idle], [Insist(k)], multiset{}, expected));
  }
}
