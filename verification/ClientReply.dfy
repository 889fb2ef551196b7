/** The client's reply store: a batch is reported done exactly once, at its (2f+1)-th
    reply, although success wipes the slot and late replies still come in. */
module ClientReply {
  import opened Quorum

  const EMPTY: nat := 0xFFFF_FFFF_FFFF_FFFF

  datatype Settings = Settings(f: nat, ring: nat) {
    predicate Valid() { 1 <= f && 0 < ring }
    function Nodes(): nat { 3 * f + 1 }
  }

  type Config = c: Settings | c.Valid() witness Settings(1, 200)

  /** body is the list of indices and client timestamps, the same in every honest reply. */
  datatype Reply = Reply(txnId: nat, body: seq<nat>, sender: nat)

  datatype Answer = Done | NotYet | Abort

  type Store = seq<seq<Reply>>

  ghost predicate Shaped(c: Config, store: Store) {
    |store| == c.ring && forall s :: 0 <= s < c.ring ==> |store[s]| == c.Nodes()
  }

  // ------------------------------------------------ validate on values

  function Carriers(row: seq<Reply>, id: nat): set<nat> { set r: nat | r < |row| && row[r].txnId == id }

  function Wiped(row: seq<Reply>): (w: seq<Reply>)
    ensures |w| == |row|
  {
    seq(|row|, r requires 0 <= r < |row| => row[r].(txnId := EMPTY))
  }

  predicate Disagrees(row: seq<Reply>, m: Reply) {
    exists r :: 0 <= r < |row| && row[r].txnId == m.txnId && row[r].body != m.body
  }

  function Validate(c: Config, store: Store, m: Reply): (r: (Store, Answer))
    requires Shaped(c, store) && m.sender < c.Nodes()
    ensures Shaped(c, r.0)
  {
    var s := m.txnId % c.ring;
    var row := store[s];
    if Disagrees(row, m) then (store, Abort)
    else if |Carriers(row, m.txnId)| + 1 < 2 * c.f + 1 then (store[s := row[m.sender := m]], NotYet)
    else (store[s := Wiped(row[m.sender := m])], Done)
  }

  class Client {
    const c: Config
    var store: Store

    constructor (c: Config)
      ensures this.c == c && Shaped(c, store) && store == Blank(c)
    {
      this.c := c;
      store := Blank(c);
    }

    /** Replies stored for the same batch; all unless one of them differs. */
    method CountSame(m: Reply) returns (k: nat, same: bool)
      requires Shaped(c, store)
      ensures same <==> !Disagrees(store[m.txnId % c.ring], m)
      ensures same ==> k == |Carriers(store[m.txnId % c.ring], m.txnId)|
    {
      var row := store[m.txnId % c.ring];
      k := 0;
      var i := 0;
      ghost var seen: set<nat> := {};
      while i < c.Nodes()
        invariant 0 <= i <= c.Nodes()
        invariant k == |seen| && seen == set r: nat | r < i && row[r].txnId == m.txnId
        invariant forall r :: 0 <= r < i && row[r].txnId == m.txnId ==> row[r].body == m.body
      {
        if row[i].txnId == m.txnId {
          k := k + 1;
          seen := seen + {i};
          if m.body != row[i].body {
            return k, false;
          }
        }
        i := i + 1;
      }
      assert seen == Carriers(row, m.txnId);
      same := true;
    }

    method WipeSlot(s: nat)
      requires Shaped(c, store) && s < c.ring
      modifies `store
      ensures store == old(store)[s := Wiped(old(store)[s])]
    {
      ghost var full := store;
      var i := 0;
      while i < c.Nodes()
        invariant 0 <= i <= c.Nodes() && |store| == c.ring && |store[s]| == c.Nodes()
        invariant store == full[s := store[s]]
        invariant forall r :: 0 <= r < i ==> store[s][r] == full[s][r].(txnId := EMPTY)
        invariant forall r :: i <= r < c.Nodes() ==> store[s][r] == full[s][r]
      {
        store := store[s := store[s][i := store[s][i].(txnId := EMPTY)]];
        i := i + 1;
      }
      assert store[s] == Wiped(full[s]);
      assert store == full[s := Wiped(full[s])];
    }

    /** ClientResponseMessage::validate. */
    method Check(m: Reply) returns (answer: Answer)
      requires Shaped(c, store) && m.sender < c.Nodes()
      modifies `store
      ensures (store, answer) == Validate(c, old(store), m)
    {
      hide Disagrees, Carriers, Wiped;
      ghost var before := store;
      var s := m.txnId % c.ring;
      var k, same := CountSame(m);
      if !same {
        return Abort;
      }
      store := store[s := store[s][m.sender := m]];
      k := k + 1;
      if k < 2 * c.f + 1 {
        return NotYet;
      }
      WipeSlot(s);
      assert store == before[s := Wiped(before[s][m.sender := m])];
      return Done;
    }
  }

  function Blank(c: Config): (s: Store)
    ensures Shaped(c, s)
  {
    seq(c.ring, _ => seq(c.Nodes(), _ => Reply(EMPTY, [], 0)))
  }

  // ------------------------------------------------ runs

  type Bodies = nat -> seq<nat>

  /** The servers whose reply for id is among these. */
  ghost function Repliers(trace: seq<Reply>, id: nat): set<nat> { set m | m in trace && m.txnId == id :: m.sender }

  ghost predicate Complete(c: Config, trace: seq<Reply>, id: nat) { 2 * c.f + 1 <= |Repliers(trace, id)| }

  /** Honest bodies; every server answers the ids of a slot once and in order; and no
      id is answered before every earlier one of its slot that is ever answered has
      its 2f+1 replies. */
  ghost predicate GoodTrace(c: Config, b: Bodies, trace: seq<Reply>) {
    && (forall i :: 0 <= i < |trace| ==> trace[i].sender < c.Nodes() && trace[i].txnId < EMPTY && trace[i].body == b(trace[i].txnId))
    && (forall i, j :: 0 <= i < j < |trace| && trace[i].sender == trace[j].sender && trace[i].txnId % c.ring == trace[j].txnId % c.ring
          ==> trace[i].txnId < trace[j].txnId)
    && (forall i, j :: 0 <= i < |trace| && 0 <= j < |trace| && trace[i].txnId % c.ring == trace[j].txnId % c.ring
                       && trace[i].txnId < trace[j].txnId
          ==> Complete(c, trace[..j], trace[i].txnId))
  }

  ghost function StoreAfter(c: Config, trace: seq<Reply>): (s: Store)
    requires forall i :: 0 <= i < |trace| ==> trace[i].sender < c.Nodes()
    ensures Shaped(c, s)
  {
    if trace == [] then Blank(c)
    else Validate(c, StoreAfter(c, trace[..|trace| - 1]), trace[|trace| - 1]).0
  }

  /** An open id's slot shows exactly its repliers; a finished one's at most the late ones. */
  ghost predicate Shown(c: Config, b: Bodies, trace: seq<Reply>, row: seq<Reply>, id: nat) {
    var shown := Carriers(row, id);
    && shown <= Repliers(trace, id)
    && (if Complete(c, trace, id) then |shown| + 2 * c.f + 1 <= |Repliers(trace, id)| else shown == Repliers(trace, id))
    && forall r :: r in shown ==> row[r].body == b(id)
  }

  ghost predicate AllShown(c: Config, b: Bodies, trace: seq<Reply>, store: Store)
    requires Shaped(c, store)
  {
    forall id: nat :: id < EMPTY ==> Shown(c, b, trace, store[id % c.ring], id)
  }

  lemma RepliersSnoc(trace: seq<Reply>, m: Reply)
    ensures forall id :: Repliers(trace + [m], id) == Repliers(trace, id) + if m.txnId == id then {m.sender} else {}
  {
    forall id ensures Repliers(trace + [m], id) == Repliers(trace, id) + if m.txnId == id then {m.sender} else {} {
    }
  }

  lemma RepliersAreNodes(c: Config, trace: seq<Reply>, id: nat)
    requires forall i :: 0 <= i < |trace| ==> trace[i].sender < c.Nodes()
    ensures Repliers(trace, id) <= NodesBelow(c.Nodes()) && |Repliers(trace, id)| <= c.Nodes()
  {
    NodeCount(c.Nodes());
    SubsetSize(Repliers(trace, id), NodesBelow(c.Nodes()));
  }

  /** What the hypotheses say about the next reply: it is its sender's first for that
      id, and every other id of its slot that has begun is finished, unless this one is. */
  ghost predicate Timely(c: Config, trace: seq<Reply>, m: Reply) {
    && m.sender !in Repliers(trace, m.txnId)
    && (forall u :: u in trace && u.txnId % c.ring == m.txnId % c.ring && u.txnId < m.txnId ==> Complete(c, trace, u.txnId))
    && (forall u :: u in trace && u.txnId % c.ring == m.txnId % c.ring && m.txnId < u.txnId ==>
          u.sender != m.sender && Complete(c, trace, m.txnId))
  }

  lemma MoreRepliers(c: Config, short: seq<Reply>, trace: seq<Reply>, id: nat)
    requires short <= trace && Complete(c, short, id)
    ensures Complete(c, trace, id)
  {
    forall m | m in short ensures m in trace {
    }
    SubsetSize(Repliers(short, id), Repliers(trace, id));
  }

  lemma TraceTimely(c: Config, b: Bodies, all: seq<Reply>, j: nat)
    requires GoodTrace(c, b, all) && j < |all|
    ensures Timely(c, all[..j], all[j])
  {
    var trace, m := all[..j], all[j];
    forall u | u in trace && u.txnId % c.ring == m.txnId % c.ring
      ensures u.sender == m.sender ==> u.txnId < m.txnId
      ensures u.txnId < m.txnId ==> Complete(c, trace, u.txnId)
      ensures m.txnId < u.txnId ==> Complete(c, trace, m.txnId)
    {
      var i :| 0 <= i < |trace| && trace[i] == u;
      assert all[i] == u;
      if m.txnId < u.txnId {
        assert Complete(c, all[..i], m.txnId);
        MoreRepliers(c, all[..i], trace, m.txnId);
      }
    }
  }

  // ------------------------------------------------ one reply

  lemma CarriersAfterPut(row: seq<Reply>, m: Reply, id: nat)
    requires m.sender < |row|
    ensures id != m.txnId ==> Carriers(row[m.sender := m], id) == Carriers(row, id) - {m.sender}
    ensures id == m.txnId ==> Carriers(row[m.sender := m], id) == Carriers(row, id) + {m.sender}
    ensures id < EMPTY ==> Carriers(Wiped(row), id) == {}
  {
  }

  lemma OtherDone(c: Config, trace: seq<Reply>, m: Reply, id: nat, r: nat)
    requires Timely(c, trace, m) && id != m.txnId && id % c.ring == m.txnId % c.ring && r in Repliers(trace, id)
    ensures r == m.sender || !Complete(c, trace, m.txnId) ==> Complete(c, trace, id)
  {
    var u :| u in trace && u.txnId == id && u.sender == r;
  }

  /** Another id of the slot, when the sender's column is overwritten. */
  lemma OthersAfterPut(c: Config, b: Bodies, trace: seq<Reply>, row: seq<Reply>, m: Reply, id: nat)
    requires m.sender < |row| && Timely(c, trace, m) && id % c.ring == m.txnId % c.ring
    requires id != m.txnId && id < EMPTY && Shown(c, b, trace, row, id)
    ensures Shown(c, b, trace + [m], row[m.sender := m], id)
  {
    hide Carriers, Repliers, Timely;
    RepliersSnoc(trace, m);
    CarriersAfterPut(row, m, id);
    CarriersBound(row, id);
    CarriersBound(row[m.sender := m], id);
    SubsetSize(Carriers(row, id) - {m.sender}, Carriers(row, id));
    if m.sender in Carriers(row, id) {
      OtherDone(c, trace, m, id, m.sender);
    }
  }

  lemma CarriersBound(row: seq<Reply>, id: nat)
    ensures forall r :: r in Carriers(row, id) ==> r < |row|
  {
  }

  /** Another id of the slot, when the slot is wiped. */
  lemma OthersAfterWipe(c: Config, b: Bodies, trace: seq<Reply>, row: seq<Reply>, m: Reply, id: nat)
    requires m.sender < |row| && Timely(c, trace, m) && !Complete(c, trace, m.txnId) && id % c.ring == m.txnId % c.ring
    requires id != m.txnId && id < EMPTY && Shown(c, b, trace, row, id)
    ensures Shown(c, b, trace + [m], Wiped(row[m.sender := m]), id)
  {
    hide Carriers, Repliers, Timely;
    RepliersSnoc(trace, m);
    CarriersAfterPut(row[m.sender := m], m, id);
    if Repliers(trace, id) != {} {
      var r :| r in Repliers(trace, id);
      OtherDone(c, trace, m, id, r);
    }
  }

  lemma NoAbort(c: Config, b: Bodies, trace: seq<Reply>, row: seq<Reply>, m: Reply)
    requires Shown(c, b, trace, row, m.txnId) && m.body == b(m.txnId)
    ensures !Disagrees(row, m)
  {
    forall r | 0 <= r < |row| && row[r].txnId == m.txnId ensures row[r].body == m.body {
      assert r in Carriers(row, m.txnId);
    }
  }

  /** The id itself: k reaches 2f+1 exactly when this is the (2f+1)-th replier. */
  lemma OwnAfter(c: Config, b: Bodies, trace: seq<Reply>, row: seq<Reply>, m: Reply)
    requires m.sender < |row| && m.txnId < EMPTY && m.body == b(m.txnId)
    requires m.sender !in Repliers(trace, m.txnId) && Shown(c, b, trace, row, m.txnId)
    requires |Repliers(trace, m.txnId)| < c.Nodes()
    ensures |Carriers(row, m.txnId)| + 1 < 2 * c.f + 1 <==> |Repliers(trace, m.txnId)| != 2 * c.f
    ensures var row' := if |Repliers(trace, m.txnId)| == 2 * c.f then Wiped(row[m.sender := m]) else row[m.sender := m];
            Shown(c, b, trace + [m], row', m.txnId)
  {
    hide Carriers, Repliers;
    RepliersSnoc(trace, m);
    CarriersAfterPut(row, m, m.txnId);
    CarriersAfterPut(row[m.sender := m], m, m.txnId);
    CarriersBound(row, m.txnId);
    var before := Repliers(trace, m.txnId);
    assert |before + {m.sender}| == |before| + 1;
    assert m.sender !in Carriers(row, m.txnId);
    assert |Carriers(row, m.txnId) + {m.sender}| == |Carriers(row, m.txnId)| + 1;
  }

  /** One more reply: the answer, and the picture kept. */
  lemma Step(c: Config, b: Bodies, trace: seq<Reply>, store: Store, m: Reply)
    requires Shaped(c, store) && AllShown(c, b, trace, store) && Timely(c, trace, m)
    requires m.sender < c.Nodes() && m.txnId < EMPTY && m.body == b(m.txnId)
    requires |Repliers(trace, m.txnId)| < c.Nodes()
    ensures AllShown(c, b, trace + [m], Validate(c, store, m).0)
    ensures Validate(c, store, m).1 == if |Repliers(trace, m.txnId)| == 2 * c.f then Done else NotYet
  {
    hide Shown, Carriers, Wiped, Repliers, Timely, Disagrees;
    assert m.sender !in Repliers(trace, m.txnId) by { TimelyFirst(c, trace, m); }
    var row := store[m.txnId % c.ring];
    NoAbort(c, b, trace, row, m);
    OwnAfter(c, b, trace, row, m);
    forall id: nat | id < EMPTY
      ensures Shown(c, b, trace + [m], Validate(c, store, m).0[id % c.ring], id)
    {
      if id % c.ring != m.txnId % c.ring {
        Elsewhere(c, b, trace, store[id % c.ring], m, id);
      } else if id != m.txnId {
        if |Repliers(trace, m.txnId)| == 2 * c.f {
          OthersAfterWipe(c, b, trace, row, m, id);
        } else {
          OthersAfterPut(c, b, trace, row, m, id);
        }
      }
    }
  }

  lemma TimelyFirst(c: Config, trace: seq<Reply>, m: Reply)
    requires Timely(c, trace, m)
    ensures m.sender !in Repliers(trace, m.txnId)
  {
  }

  lemma Elsewhere(c: Config, b: Bodies, trace: seq<Reply>, row: seq<Reply>, m: Reply, id: nat)
    requires id != m.txnId && Shown(c, b, trace, row, id)
    ensures Shown(c, b, trace + [m], row, id)
  {
    RepliersSnoc(trace, m);
    hide Repliers, Carriers;
  }

  lemma {:induction false} AlwaysShown(c: Config, b: Bodies, all: seq<Reply>, j: nat)
    requires GoodTrace(c, b, all) && j <= |all|
    ensures AllShown(c, b, all[..j], StoreAfter(c, all[..j]))
  {
    if j == 0 {
      assert all[..0] == [];
      forall id: nat | id < EMPTY ensures Shown(c, b, [], Blank(c)[id % c.ring], id) {
        assert Carriers(Blank(c)[id % c.ring], id) == {};
        assert Repliers([], id) == {};
      }
    } else {
      hide AllShown;
      AlwaysShown(c, b, all, j - 1);
      AnswerAt(c, b, all, j - 1);
    }
  }

  lemma AnswerAt(c: Config, b: Bodies, all: seq<Reply>, j: nat)
    requires GoodTrace(c, b, all) && j < |all|
    requires AllShown(c, b, all[..j], StoreAfter(c, all[..j]))
    ensures AllShown(c, b, all[..j + 1], StoreAfter(c, all[..j + 1]))
    ensures Validate(c, StoreAfter(c, all[..j]), all[j]).1
         == if |Repliers(all[..j], all[j].txnId)| == 2 * c.f then Done else NotYet
    ensures all[j].sender !in Repliers(all[..j], all[j].txnId)
  {
    hide AllShown, Validate, Repliers, Timely;
    TraceTimely(c, b, all, j);
    var trace, m := all[..j], all[j];
    TimelyFirst(c, trace, m);
    TraceParts(c, b, all);
    hide GoodTrace;
    assert all[..j + 1] == trace + [m] && (trace + [m])[..j] == trace;
    RepliersAreNodes(c, trace + [m], m.txnId);
    RepliersSnoc(trace, m);
    Step(c, b, trace, StoreAfter(c, trace), m);
  }

  lemma TraceParts(c: Config, b: Bodies, all: seq<Reply>)
    requires GoodTrace(c, b, all)
    ensures forall i :: 0 <= i < |all| ==> all[i].sender < c.Nodes() && all[i].txnId < EMPTY && all[i].body == b(all[i].txnId)
  {
  }

  // ------------------------------------------------ the theorem

  /** validate never fails an assertion, and answers true for a reply if and only if
      it is the (2f+1)-th server's for its batch. */
  lemma AcceptsAtQuorum(c: Config, b: Bodies, all: seq<Reply>, j: nat)
    requires GoodTrace(c, b, all) && j < |all|
    ensures var answer := Validate(c, StoreAfter(c, all[..j]), all[j]).1;
            && answer != Abort
            && (answer == Done <==> |Repliers(all[..j + 1], all[j].txnId)| == 2 * c.f + 1)
  {
    AlwaysShown(c, b, all, j);
    AnswerAt(c, b, all, j);
    assert all[..j + 1] == all[..j] + [all[j]];
    RepliersSnoc(all[..j], all[j]);
  }

  /** Hence at most one reply of a batch is answered true. */
  lemma AcceptsOnce(c: Config, b: Bodies, all: seq<Reply>, i: nat, j: nat)
    requires GoodTrace(c, b, all) && i < j < |all| && all[i].txnId == all[j].txnId
    requires Validate(c, StoreAfter(c, all[..i]), all[i]).1 == Done
    ensures Validate(c, StoreAfter(c, all[..j]), all[j]).1 == NotYet
  {
    AcceptsAtQuorum(c, b, all, i);
    AlwaysShown(c, b, all, j);
    AnswerAt(c, b, all, j);
    assert all[..i + 1] <= all[..j];
    MoreRepliers(c, all[..i + 1], all[..j], all[j].txnId);
  }

  lemma NobodyYet(id: nat)
    ensures Repliers([], id) == {}
  {
  }

  /** And one is, once 2f+1 servers have answered. */
  lemma {:induction false} AcceptsEventually(c: Config, b: Bodies, all: seq<Reply>, id: nat, n: nat) returns (j: nat)
    requires GoodTrace(c, b, all) && n <= |all| && Complete(c, all[..n], id)
    ensures j < n && all[j].txnId == id && Validate(c, StoreAfter(c, all[..j]), all[j]).1 == Done
  {
    hide Validate, Repliers, GoodTrace;
    NobodyYet(id);
    assert all[..0] == [];
    assert all[..n] == all[..n - 1] + [all[n - 1]];
    RepliersSnoc(all[..n - 1], all[n - 1]);
    assert (n - 1) + 1 == n;
    if Complete(c, all[..n - 1], id) {
      j := AcceptsEventually(c, b, all, id, n - 1);
    } else {
      j := n - 1;
      AcceptsAtQuorum(c, b, all, j);
    }
  }

  // ------------------------------------------------ replies of any body, from anyone, at any time

  predicate Fits(c: Config, m: Reply) { m.sender < c.Nodes() && m.txnId < EMPTY }

  ghost predicate Sane(c: Config, trace: seq<Reply>) { forall i :: 0 <= i < |trace| ==> Fits(c, trace[i]) }

  /** What validate answered to the j-th reply. */
  ghost function AnswerTo(c: Config, trace: seq<Reply>, j: nat): Answer
    requires Sane(c, trace) && j < |trace|
  {
    Validate(c, StoreAfter(c, trace[..j]), trace[j]).1
  }

  /** No assertion has failed so far. */
  ghost predicate Alive(c: Config, trace: seq<Reply>) {
    Sane(c, trace) && forall j :: 0 <= j < |trace| ==> AnswerTo(c, trace, j) != Abort
  }

  predicate SameSlot(c: Config, u: Reply, w: Reply) { u.txnId % c.ring == w.txnId % c.ring }

  /** Reply i still stands: no reply of its sender for that slot has come since, and
      none for that slot, itself included, was answered true. */
  ghost predicate Standing(c: Config, trace: seq<Reply>, i: nat)
    requires Sane(c, trace)
  {
    && i < |trace|
    && (forall j :: i < j < |trace| && SameSlot(c, trace[i], trace[j]) ==> trace[j].sender != trace[i].sender)
    && (forall j :: i <= j < |trace| && SameSlot(c, trace[i], trace[j]) ==> AnswerTo(c, trace, j) != Done)
  }

  /** The table shows exactly the replies that stand. */
  ghost predicate ShowsStanding(c: Config, trace: seq<Reply>, store: Store)
    requires Sane(c, trace) && Shaped(c, store)
  {
    && (forall i: nat :: i < |trace| && Standing(c, trace, i) ==> store[trace[i].txnId % c.ring][trace[i].sender] == trace[i])
    && (forall s: nat, r: nat :: s < c.ring && r < c.Nodes() && store[s][r].txnId < EMPTY ==> ShowsOne(c, trace, store[s][r], s, r))
  }

  ghost predicate ShowsOne(c: Config, trace: seq<Reply>, u: Reply, s: nat, r: nat)
    requires Sane(c, trace)
  {
    u.txnId % c.ring == s && u.sender == r && exists i: nat :: i < |trace| && Standing(c, trace, i) && trace[i] == u
  }

  lemma AnswersKept(c: Config, trace: seq<Reply>, m: Reply)
    requires Sane(c, trace) && Fits(c, m)
    ensures Sane(c, trace + [m])
    ensures forall j :: 0 <= j < |trace| ==> AnswerTo(c, trace + [m], j) == AnswerTo(c, trace, j)
    ensures AnswerTo(c, trace + [m], |trace|) == Validate(c, StoreAfter(c, trace), m).1
    ensures StoreAfter(c, trace + [m]) == Validate(c, StoreAfter(c, trace), m).0
  {
    var all := trace + [m];
    hide Validate;
    forall i | 0 <= i < |trace| ensures all[i] == trace[i] {
    }
    assert all[..|trace|] == trace;
    forall j | 0 <= j < |trace| ensures AnswerTo(c, all, j) == AnswerTo(c, trace, j) {
      assert all[..j] == trace[..j];
    }
  }

  /** How one more reply changes what stands. */
  lemma StandingSnoc(c: Config, trace: seq<Reply>, m: Reply, i: nat)
    requires Sane(c, trace) && Fits(c, m)
    ensures Sane(c, trace + [m])
    ensures var done := Validate(c, StoreAfter(c, trace), m).1 == Done;
            Standing(c, trace + [m], i) <==>
              if i < |trace| then Standing(c, trace, i) && (SameSlot(c, trace[i], m) ==> trace[i].sender != m.sender && !done)
              else i == |trace| && !done
  {
    hide Validate, AnswerTo;
    AnswersKept(c, trace, m);
    var all := trace + [m];
    if i < |trace| {
      assert all[i] == trace[i] && all[|trace|] == m;
      forall j | i <= j < |trace| ensures all[j] == trace[j] {
      }
    }
  }

  lemma StandsFrom(c: Config, trace: seq<Reply>, m: Reply, u: Reply, s: nat, r: nat)
    requires Sane(c, trace) && Fits(c, m) && ShowsOne(c, trace, u, s, r)
    requires u.txnId % c.ring == m.txnId % c.ring ==> u.sender != m.sender && Validate(c, StoreAfter(c, trace), m).1 != Done
    ensures Sane(c, trace + [m]) && ShowsOne(c, trace + [m], u, s, r)
  {
    hide Validate, Standing, StoreAfter, Sane;
    var i: nat :| i < |trace| && Standing(c, trace, i) && trace[i] == u;
    AnswersKept(c, trace, m);
    StandingSnoc(c, trace, m, i);
    assert (trace + [m])[i] == u;
  }

  lemma ShowsNext(c: Config, trace: seq<Reply>, m: Reply)
    requires Sane(c, trace) && Fits(c, m) && ShowsStanding(c, trace, StoreAfter(c, trace))
    requires Validate(c, StoreAfter(c, trace), m).1 != Abort
    ensures Sane(c, trace + [m]) && Shaped(c, Validate(c, StoreAfter(c, trace), m).0)
    ensures ShowsStanding(c, trace + [m], Validate(c, StoreAfter(c, trace), m).0)
  {
    hide Standing, ShowsOne, Disagrees, Carriers, StoreAfter;
    AnswersKept(c, trace, m);
    var all, store := trace + [m], StoreAfter(c, trace);
    var store' := Validate(c, store, m).0;
    assert all[|trace|] == m;
    forall i: nat | i < |all| && Standing(c, all, i)
      ensures store'[all[i].txnId % c.ring][all[i].sender] == all[i]
    {
      StandingSnoc(c, trace, m, i);
    }
    forall s: nat, r: nat | s < c.ring && r < c.Nodes() && store'[s][r].txnId < EMPTY
      ensures ShowsOne(c, all, store'[s][r], s, r)
    {
      if s == m.txnId % c.ring && r == m.sender {
        StandingSnoc(c, trace, m, |trace|);
        OneShown(c, all, m, |trace|, s, r);
      } else {
        OneIs(c, trace, store[s][r], s, r);
        StandsFrom(c, trace, m, store[s][r], s, r);
      }
    }
  }

  lemma OneShown(c: Config, trace: seq<Reply>, u: Reply, i: nat, s: nat, r: nat)
    requires Sane(c, trace) && Standing(c, trace, i) && i < |trace| && trace[i] == u && u.txnId % c.ring == s && u.sender == r
    ensures ShowsOne(c, trace, u, s, r)
  {
    hide Standing;
  }

  lemma OneIs(c: Config, trace: seq<Reply>, u: Reply, s: nat, r: nat)
    requires Sane(c, trace) && ShowsOne(c, trace, u, s, r)
    ensures u.txnId % c.ring == s && u.sender == r
  {
    hide Standing;
  }

  lemma ShorterAlive(c: Config, short: seq<Reply>, m: Reply)
    requires Alive(c, short + [m])
    ensures Alive(c, short) && Fits(c, m) && Validate(c, StoreAfter(c, short), m).1 != Abort
  {
    hide Validate, StoreAfter;
    var all := short + [m];
    assert all[|short|] == m;
    forall i | 0 <= i < |short| ensures Fits(c, short[i]) {
      assert all[i] == short[i];
    }
    hide AnswerTo;
    AnswersKept(c, short, m);
    assert AnswerTo(c, all, |short|) != Abort;
  }

  lemma {:induction false} AlwaysStanding(c: Config, trace: seq<Reply>)
    requires Alive(c, trace)
    ensures ShowsStanding(c, trace, StoreAfter(c, trace))
  {
    if trace != [] {
      hide Validate, ShowsStanding;
      var short, m := trace[..|trace| - 1], trace[|trace| - 1];
      assert trace == short + [m];
      ShorterAlive(c, short, m);
      AnswersKept(c, short, m);
      AlwaysStanding(c, short);
      ShowsNext(c, short, m);
    }
  }

  /** The senders whose reply for id stands. */
  ghost function StandingFor(c: Config, trace: seq<Reply>, id: nat): set<nat>
    requires Sane(c, trace)
  {
    set i: nat | i < |trace| && Standing(c, trace, i) && trace[i].txnId == id :: trace[i].sender
  }

  lemma CarriersStand(c: Config, trace: seq<Reply>, id: nat)
    requires Alive(c, trace) && id < EMPTY
    ensures Carriers(StoreAfter(c, trace)[id % c.ring], id) == StandingFor(c, trace, id)
  {
    hide StoreAfter, Standing;
    AlwaysStanding(c, trace);
    var row := StoreAfter(c, trace)[id % c.ring];
    forall r: nat ensures r in Carriers(row, id) <==> r in StandingFor(c, trace, id) {
      if r in Carriers(row, id) {
        assert ShowsOne(c, trace, row[r], id % c.ring, r);
        var i: nat :| i < |trace| && Standing(c, trace, i) && trace[i] == row[r];
      }
    }
  }

  /** Over every run of replies with bodies of any kind, from any senders and in any
      order: validate fails exactly when some reply for that id still stands with
      another body; and it answers true exactly when none does and 2f senders' stand. */
  lemma AnswersExactly(c: Config, trace: seq<Reply>, m: Reply)
    requires Alive(c, trace) && m.sender < c.Nodes() && m.txnId < EMPTY
    ensures var answer := Validate(c, StoreAfter(c, trace), m).1;
            && (answer == Abort <==> exists i: nat :: i < |trace| && Standing(c, trace, i) && trace[i].txnId == m.txnId && trace[i].body != m.body)
            && (answer == Done <==> answer != Abort && 2 * c.f <= |StandingFor(c, trace, m.txnId)|)
  {
    hide StoreAfter, Standing;
    AlwaysStanding(c, trace);
    CarriersStand(c, trace, m.txnId);
    var row := StoreAfter(c, trace)[m.txnId % c.ring];
    if r :| 0 <= r < |row| && row[r].txnId == m.txnId && row[r].body != m.body {
      assert ShowsOne(c, trace, row[r], m.txnId % c.ring, r);
    }
    if i: nat :| i < |trace| && Standing(c, trace, i) && trace[i].txnId == m.txnId && trace[i].body != m.body {
      assert row[trace[i].sender] == trace[i];
    }
  }

  /** The senders that have sent exactly this reply. */
  ghost function Agreeing(trace: seq<Reply>, m: Reply): set<nat> {
    set u | u in trace && u.txnId == m.txnId && u.body == m.body :: u.sender
  }

  lemma StandersAgree(c: Config, trace: seq<Reply>, m: Reply)
    requires Alive(c, trace) && m.sender < c.Nodes() && m.txnId < EMPTY
    requires Validate(c, StoreAfter(c, trace), m).1 == Done
    ensures StandingFor(c, trace, m.txnId) + {m.sender} <= Agreeing(trace + [m], m)
    ensures 2 * c.f <= |StandingFor(c, trace, m.txnId)|
  {
    hide Validate, StoreAfter, Standing;
    AnswersExactly(c, trace, m);
    forall i: nat | i < |trace| && Standing(c, trace, i) && trace[i].txnId == m.txnId
      ensures trace[i].sender in Agreeing(trace + [m], m)
    {
      assert trace[i] in trace + [m];
    }
    assert m in trace + [m];
  }

  /** So a batch reported done has 2f+1 servers behind it, all with the same reply, if
      the last one to answer had not answered before; a repeat counts twice. */
  lemma DoneHasQuorum(c: Config, trace: seq<Reply>, m: Reply)
    requires Alive(c, trace) && m.sender < c.Nodes() && m.txnId < EMPTY
    requires Validate(c, StoreAfter(c, trace), m).1 == Done
    ensures 2 * c.f <= |Agreeing(trace + [m], m)|
    ensures m.sender !in StandingFor(c, trace, m.txnId) ==> 2 * c.f + 1 <= |Agreeing(trace + [m], m)|
    ensures 2 * c.f + 1 <= |StandingFor(c, trace, m.txnId) + {m.sender}| <==> m.sender !in StandingFor(c, trace, m.txnId)
  {
    hide Validate, StoreAfter, Standing;
    var standers := StandingFor(c, trace, m.txnId);
    StandersAgree(c, trace, m);
    AtMost(c, trace, m.txnId);
    SubsetSize(standers + {m.sender}, Agreeing(trace + [m], m));
    if m.sender in standers {
      assert standers + {m.sender} == standers;
    } else {
      assert |standers + {m.sender}| == |standers| + 1;
    }
  }

  lemma FewStep(c: Config, store: Store, m: Reply, id: nat)
    requires Shaped(c, store) && Fits(c, m) && id < EMPTY && |Carriers(store[id % c.ring], id)| <= 2 * c.f
    ensures |Carriers(Validate(c, store, m).0[id % c.ring], id)| <= 2 * c.f
  {
    hide Carriers, Wiped, Disagrees;
    var row := store[m.txnId % c.ring];
    CarriersAfterPut(row, m, id);
    CarriersAfterPut(row[m.sender := m], m, id);
    SubsetSize(Carriers(row, id) - {m.sender}, Carriers(row, id));
    OneMore(Carriers(row, id), m.sender);
  }

  /** No more than 2f replies for one id ever stand. */
  lemma {:induction false} FewCarriers(c: Config, trace: seq<Reply>, id: nat)
    requires Alive(c, trace) && id < EMPTY
    ensures |Carriers(StoreAfter(c, trace)[id % c.ring], id)| <= 2 * c.f
  {
    hide Carriers, Validate;
    if trace == [] {
      assert Carriers(Blank(c)[id % c.ring], id) == {} by { NoneBlank(c, id); }
    } else {
      var short, m := trace[..|trace| - 1], trace[|trace| - 1];
      assert trace == short + [m];
      ShorterAlive(c, short, m);
      AnswersKept(c, short, m);
      FewCarriers(c, short, id);
      FewStep(c, StoreAfter(c, short), m, id);
    }
  }

  lemma NoneBlank(c: Config, id: nat)
    requires id < EMPTY
    ensures Carriers(Blank(c)[id % c.ring], id) == {}
  {
  }

  lemma OneMore(a: set<nat>, x: nat)
    ensures |a + {x}| <= |a| + 1
  {
    if x in a { assert a + {x} == a; }
  }

  lemma AtMost(c: Config, trace: seq<Reply>, id: nat)
    requires Alive(c, trace) && id < EMPTY
    ensures |StandingFor(c, trace, id)| <= 2 * c.f
  {
    hide StoreAfter, Standing, Carriers;
    FewCarriers(c, trace, id);
    CarriersStand(c, trace, id);
  }

  /** Two servers are enough if one of them answers twice: with f = 1 its repeat is
      taken for the third reply. */
  lemma RepeatCountsTwice(c: Config, id: nat, body: seq<nat>)
    requires c.f == 1 && id < EMPTY
    ensures var trace := [Reply(id, body, 0), Reply(id, body, 1)];
            && Alive(c, trace)
            && Validate(c, StoreAfter(c, trace), Reply(id, body, 1)).1 == Done
            && Agreeing(trace + [Reply(id, body, 1)], Reply(id, body, 1)) == {0, 1}
  {
    var u, w := Reply(id, body, 0), Reply(id, body, 1);
    assert [u, w][..1] == [u] && [u][..0] == [] && [u, w][..0] == [];
    var s := id % c.ring;
    var first := Blank(c)[s := Blank(c)[s][0 := u]];
    assert Carriers(Blank(c)[s], id) == {};
    assert Carriers(first[s], id) == {0};
    var second := first[s := first[s][1 := w]];
    assert StoreAfter(c, [u]) == first;
    assert StoreAfter(c, [u, w]) == second;
    assert Carriers(second[s], id) == {0, 1};
    assert |{0, 1}| == 2;
  }
}
