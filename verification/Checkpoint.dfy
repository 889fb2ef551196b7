/** The checkpoint log: votes counted per index, the stable checkpoint set, older
    votes thrown away.  The stable checkpoint is at every moment the highest one that
    2f other nodes vouched for, although late votes re-enter the log. */
module Checkpoint {
  import opened Quorum

  datatype Settings = Settings(f: nat, chkpt: nat) {
    predicate Valid() { 1 <= f && 5 < chkpt }
    function Nodes(): nat { 3 * f + 1 }
  }

  type Config = c: Settings | c.Valid() witness Settings(1, 600)

  datatype Vote = Vote(index: nat, begIndex: nat, sender: nat)

  /** g_last_stable_chkpt is a uint32_t. */
  const WRAP: nat := 0x1_0000_0000

  // ------------------------------------------------ the handler on values

  /** Logged votes for the same checkpoint. */
  function Matching(log: seq<Vote>, v: Vote): nat {
    if log == [] then 0
    else Matching(log[1..], v) + if log[0].index == v.index && log[0].begIndex == v.begIndex then 1 else 0
  }

  function Kept(log: seq<Vote>, stable: nat): seq<Vote> {
    if log == [] then []
    else
      var short := log[..|log| - 1];
      if log[|log| - 1].index + 4 < stable then Kept(short, stable) else Kept(short, stable) + [log[|log| - 1]]
  }

  datatype State = State(log: seq<Vote>, stable: nat)

  function Added(s: State, v: Vote): seq<Vote> { if v in s.log then s.log else s.log + [v] }

  function Process(c: Config, s: State, v: Vote): State {
    if v.index == s.stable then s
    else
      var log := Added(s, v);
      if Matching(log, v) < 2 * c.f then State(log, s.stable)
      else State(Kept(log, (v.index + 4) % WRAP), (v.index + 4) % WRAP)
  }

  // ------------------------------------------------ the handler in place

  class Log {
    const c: Config
    var log: seq<Vote>
    var stable: nat

    ghost function Now(): State
      reads this
    {
      State(log, stable)
    }

    constructor (c: Config)
      ensures this.c == c && Now() == State([], 0)
    {
      this.c := c;
      log := [];
      stable := 0;
    }

    /** addAndValidate: counts from the back, refuses a second copy, appends. */
    method AddAndValidate(v: Vote) returns (ok: bool)
      modifies `log
      ensures if v.index == stable then !ok && log == old(log)
              else log == Added(old(Now()), v) && (ok <==> 2 * c.f <= Matching(log, v))
    {
      if v.index == stable {
        return false;
      }
      var k, add := 0, true;
      var i := |log| - 1;
      while 0 <= i
        invariant -1 <= i < |log| && log == old(log)
        invariant k == Matching(log[i + 1..], v) && (add <==> v !in log[i + 1..])
      {
        assert log[i..][1..] == log[i + 1..];
        if log[i].index == v.index {
          if log[i].begIndex == v.begIndex {
            if log[i].sender == v.sender {
              add := false;
            }
            k := k + 1;
          }
        }
        i := i - 1;
      }
      assert log[0..] == log;
      if add {
        MatchingSnoc(log, v, v);
        log := log + [v];
        k := k + 1;
      }
      return 2 * c.f <= k;
    }

    /** process_pbft_chkpt_msg: on success moves the stable checkpoint and erases older votes. */
    method Handle(v: Vote)
      modifies this
      ensures Now() == Process(c, old(Now()), v)
    {
      var ok := AddAndValidate(v);
      if !ok {
        return;
      }
      stable := (v.index + 4) % WRAP;
      var kept := [];
      var i := 0;
      while i < |log|
        invariant 0 <= i <= |log| && stable == (v.index + 4) % WRAP && log == Added(old(Now()), v)
        invariant kept == Kept(log[..i], stable)
      {
        assert log[..i + 1][..i] == log[..i];
        if !(log[i].index + 4 < stable) {
          kept := kept + [log[i]];
        }
        i := i + 1;
      }
      assert log[..i] == log;
      log := kept;
    }
  }

  lemma {:induction false} MatchingSnoc(log: seq<Vote>, w: Vote, v: Vote)
    ensures Matching(log + [w], v) == Matching(log, v) + if w.index == v.index && w.begIndex == v.begIndex then 1 else 0
  {
    if log != [] {
      assert (log + [w])[1..] == log[1..] + [w];
      MatchingSnoc(log[1..], w, v);
    }
  }

  /** Counted are the places of the log with the same index and the same beginning. */
  lemma {:induction false} MatchingPlaces(log: seq<Vote>, v: Vote)
    ensures Matching(log, v) == |set i: nat | i < |log| && log[i].index == v.index && log[i].begIndex == v.begIndex|
    decreases |log|
  {
    if log != [] {
      var short, n := log[..|log| - 1], |log| - 1;
      MatchingPlaces(short, v);
      MatchingSnoc(short, log[n], v);
      assert log == short + [log[n]];
      var before := set i: nat | i < |short| && short[i].index == v.index && short[i].begIndex == v.begIndex;
      var all := set i: nat | i < |log| && log[i].index == v.index && log[i].begIndex == v.begIndex;
      assert all == if log[n].index == v.index && log[n].begIndex == v.begIndex then before + {n} else before;
    }
  }

  // ------------------------------------------------ votes as sets of senders

  ghost predicate GoodVote(c: Config, self: nat, v: Vote) {
    && v.sender < c.Nodes() && v.sender != self
    && (v.index + 5) % c.chkpt == 0 && v.index + 5 == v.begIndex + c.chkpt
    && v.index + 4 < WRAP
  }

  /** Authentic remote votes on checkpoint indices, each sender's in order; a sender may
      repeat a vote. */
  ghost predicate GoodTrace(c: Config, self: nat, votes: seq<Vote>) {
    && self < c.Nodes()
    && (forall i :: 0 <= i < |votes| ==> GoodVote(c, self, votes[i]))
    && (forall i, j :: 0 <= i < j < |votes| && votes[i].sender == votes[j].sender ==> votes[i].index <= votes[j].index)
  }

  ghost function Senders(votes: seq<Vote>, index: nat): set<nat> {
    set v | v in votes && v.index == index :: v.sender
  }

  ghost function StateAfter(c: Config, votes: seq<Vote>): State {
    if votes == [] then State([], 0) else Process(c, StateAfter(c, votes[..|votes| - 1]), votes[|votes| - 1])
  }

  /** A log of distinct good votes counts senders. */
  ghost predicate Distinct(log: seq<Vote>) { forall i, j :: 0 <= i < j < |log| ==> log[i] != log[j] }

  lemma {:induction false} MatchingCounts(c: Config, self: nat, log: seq<Vote>, v: Vote)
    requires Distinct(log) && (forall i :: 0 <= i < |log| ==> GoodVote(c, self, log[i])) && GoodVote(c, self, v)
    ensures Matching(log, v) == |Senders(log, v.index)|
  {
    if log == [] {
      assert Senders(log, v.index) == {};
    } else {
      var w, rest := log[0], log[1..];
      MatchingCounts(c, self, rest, v);
      assert log == [w] + rest;
      if w.index == v.index {
        assert Senders(log, v.index) == Senders(rest, v.index) + {w.sender};
        forall u | u in rest && u.index == v.index
          ensures u.sender != w.sender
        {
          var i :| 0 <= i < |rest| && rest[i] == u;
          assert log[i + 1] == u && GoodVote(c, self, u) && GoodVote(c, self, log[0]);
          assert log[0] != log[i + 1];
        }
      } else {
        assert Senders(log, v.index) == Senders(rest, v.index);
      }
    }
  }

  lemma {:induction false} KeptIs(log: seq<Vote>, stable: nat)
    ensures forall v :: v in Kept(log, stable) <==> v in log && stable <= v.index + 4
    ensures Distinct(log) ==> Distinct(Kept(log, stable))
  {
    if log != [] {
      var short, last := log[..|log| - 1], log[|log| - 1];
      KeptIs(short, stable);
      assert log == short + [last];
      if Distinct(log) {
        assert last !in short;
        assert last !in Kept(short, stable);
      }
    }
  }

  // ------------------------------------------------ the invariant

  /** For live indices the log holds exactly the votes delivered; for old ones, only
      votes of nodes that did not help the stable checkpoint. */
  ghost predicate Inv(c: Config, self: nat, votes: seq<Vote>, s: State) {
    && Distinct(s.log)
    && (forall v :: v in s.log ==> v in votes)
    && (forall v :: v in votes && s.stable <= v.index + 4 ==> v in s.log)
    && (s.stable == 0 || Backed(c, votes, s.stable))
    && (forall x: nat :: 2 * c.f <= |Senders(votes, x)| ==> x + 4 <= s.stable)
    && (s.stable != 0 ==> forall v :: v in s.log && v.index + 4 < s.stable ==> v.sender !in Senders(votes, s.stable - 4))
  }

  ghost predicate Backed(c: Config, votes: seq<Vote>, stable: nat) {
    4 <= stable && (stable + 1) % c.chkpt == 0 && 2 * c.f <= |Senders(votes, stable - 4)|
  }

  lemma SendersSnoc(votes: seq<Vote>, v: Vote, x: nat)
    ensures Senders(votes + [v], x) == Senders(votes, x) + if v.index == x then {v.sender} else {}
  {
  }

  lemma SendersRemote(c: Config, self: nat, votes: seq<Vote>, x: nat)
    requires GoodTrace(c, self, votes)
    ensures Senders(votes, x) <= NodesBelow(c.Nodes()) - {self}
    ensures |Senders(votes, x)| <= 3 * c.f
  {
    forall r | r in Senders(votes, x) ensures r < c.Nodes() && r != self {
      var v :| v in votes && v.index == x && v.sender == r;
    }
    NodeCount(c.Nodes());
    SubsetSize(Senders(votes, x), NodesBelow(c.Nodes()) - {self});
  }

  /** An aligned index is never equal to the stable checkpoint. */
  lemma NeverEqual(c: Config, index: nat, stable: nat)
    requires (index + 5) % c.chkpt == 0 && (stable == 0 || (stable + 1) % c.chkpt == 0)
    ensures index != stable
  {
    assert 5 % c.chkpt == 5;
    var q, p := (index + 5) / c.chkpt, (stable + 1) / c.chkpt;
    assert index + 5 == c.chkpt * q;
    assert stable != 0 ==> stable + 1 == c.chkpt * p;
    assert c.chkpt * q - c.chkpt * p == c.chkpt * (q - p);
    NoMultiple(c.chkpt, q - p);
  }

  lemma NoMultiple(d: nat, k: int)
    requires 5 < d
    ensures d * k != 4
  {
    if 1 <= k {
      assert d <= d * k;
    } else {
      assert d * k <= 0;
    }
  }

  ghost predicate Fresh(votes: seq<Vote>, v: Vote) {
    forall u :: u in votes && u.sender == v.sender ==> u.index <= v.index
  }

  lemma TraceFresh(c: Config, self: nat, votes: seq<Vote>, v: Vote)
    requires GoodTrace(c, self, votes + [v])
    ensures GoodTrace(c, self, votes) && GoodVote(c, self, v) && Fresh(votes, v)
  {
    var all := votes + [v];
    assert all[|votes|] == v;
    forall i | 0 <= i < |votes| ensures all[i] == votes[i] {
    }
    forall u | u in votes && u.sender == v.sender
      ensures u.index <= v.index
    {
      var i :| 0 <= i < |votes| && votes[i] == u;
      assert all[i] == u;
    }
  }

  lemma Leftover(all: set<nat>, helpers: set<nat>, late: set<nat>, f: nat)
    requires helpers <= all && late <= all - helpers && |all| == 3 * f && 2 * f <= |helpers|
    ensures |late| <= f
  {
    SubsetSize(late, all - helpers);
    assert |all - helpers| == |all| - |helpers|;
  }

  lemma RemoteCount(c: Config, self: nat)
    requires self < c.Nodes()
    ensures |NodesBelow(c.Nodes()) - {self}| == 3 * c.f
  {
    NodeCount(c.Nodes());
  }

  lemma LateSenders(c: Config, self: nat, votes: seq<Vote>, s: State, v: Vote)
    requires GoodTrace(c, self, votes) && GoodVote(c, self, v) && Fresh(votes, v) && Inv(c, self, votes, s)
    requires v.index + 4 < s.stable
    ensures v.sender !in Senders(votes, s.stable - 4)
    ensures Senders(Added(s, v), v.index) <= (NodesBelow(c.Nodes()) - {self}) - Senders(votes, s.stable - 4)
  {
    forall u | u in s.log && u.index == v.index
      ensures u.sender !in Senders(votes, s.stable - 4) && u.sender < c.Nodes() && u.sender != self
    {
      assert u in votes;
    }
    forall u | u in votes && u.index == s.stable - 4
      ensures u.sender != v.sender
    {
    }
  }

  /** An old index never gathers 2f votes again, however often they are repeated: those
      who helped the stable checkpoint have spoken already. */
  lemma LateVotes(c: Config, self: nat, votes: seq<Vote>, s: State, v: Vote)
    requires GoodTrace(c, self, votes) && GoodVote(c, self, v) && Fresh(votes, v) && Inv(c, self, votes, s)
    requires v.index + 4 < s.stable
    ensures Matching(Added(s, v), v) < 2 * c.f
    ensures v.sender !in Senders(votes, s.stable - 4)
  {
    hide Senders, Matching, GoodTrace, GoodVote, Fresh, Inv, Distinct, NodesBelow, Added;
    LateSenders(c, self, votes, s, v);
    SendersRemote(c, self, votes, s.stable - 4);
    LogFacts(c, self, votes, s);
    AddedFacts(c, self, s, v);
    RemoteCount(c, self);
    MatchingCounts(c, self, Added(s, v), v);
    Leftover(NodesBelow(c.Nodes()) - {self}, Senders(votes, s.stable - 4), Senders(Added(s, v), v.index), c.f);
  }

  /** A repeated vote is not added again. */
  lemma AddedFacts(c: Config, self: nat, s: State, v: Vote)
    requires Distinct(s.log) && (forall i :: 0 <= i < |s.log| ==> GoodVote(c, self, s.log[i])) && GoodVote(c, self, v)
    ensures Distinct(Added(s, v)) && forall i :: 0 <= i < |Added(s, v)| ==> GoodVote(c, self, Added(s, v)[i])
    ensures forall u :: u in Added(s, v) <==> u in s.log || u == v
  {
    hide GoodVote;
    forall u ensures u in Added(s, v) <==> u in s.log || u == v {
      assert v in s.log + [v];
    }
  }

  lemma GoodSender(c: Config, self: nat, v: Vote)
    requires GoodVote(c, self, v)
    ensures v.sender in NodesBelow(c.Nodes()) - {self}
  {
  }

  lemma LogFacts(c: Config, self: nat, votes: seq<Vote>, s: State)
    requires GoodTrace(c, self, votes) && Inv(c, self, votes, s)
    ensures self < c.Nodes() && Distinct(s.log) && forall i :: 0 <= i < |s.log| ==> GoodVote(c, self, s.log[i])
    ensures s.stable != 0 ==> Backed(c, votes, s.stable)
  {
    forall i | 0 <= i < |s.log| ensures GoodVote(c, self, s.log[i]) {
      assert s.log[i] in votes;
    }
  }

  /** A live index is counted in full, and each sender once. */
  lemma LiveVotes(c: Config, self: nat, votes: seq<Vote>, s: State, v: Vote)
    requires GoodTrace(c, self, votes + [v]) && Inv(c, self, votes, s) && s.stable <= v.index + 4
    ensures Matching(Added(s, v), v) == |Senders(votes + [v], v.index)|
  {
    hide GoodTrace, GoodVote, Fresh, Matching, Inv, Distinct, Added;
    TraceFresh(c, self, votes, v);
    LogFacts(c, self, votes, s);
    AddedFacts(c, self, s, v);
    MatchingCounts(c, self, Added(s, v), v);
    SameSenders(c, self, votes, s, v.index);
    hide Senders;
    AddedSenders(s, v);
    SendersSnoc(votes, v, v.index);
  }

  lemma AddedSenders(s: State, v: Vote)
    ensures Senders(Added(s, v), v.index) == Senders(s.log, v.index) + {v.sender}
  {
    SendersSnoc(s.log, v, v.index);
  }

  lemma SameSenders(c: Config, self: nat, votes: seq<Vote>, s: State, x: nat)
    requires Inv(c, self, votes, s) && s.stable <= x + 4
    ensures Senders(s.log, x) == Senders(votes, x)
  {
    forall r ensures r in Senders(s.log, x) <==> r in Senders(votes, x) {
      if u :| u in votes && u.index == x && u.sender == r {
        assert u in s.log;
      }
    }
  }

  lemma InvFacts(c: Config, self: nat, votes: seq<Vote>, s: State)
    requires Inv(c, self, votes, s)
    ensures s.stable == 0 || (s.stable + 1) % c.chkpt == 0
  {
  }

  lemma StepInv(c: Config, self: nat, votes: seq<Vote>, s: State, v: Vote)
    requires GoodTrace(c, self, votes + [v]) && Inv(c, self, votes, s)
    ensures Inv(c, self, votes + [v], Process(c, s, v))
    ensures s.stable <= Process(c, s, v).stable
  {
    hide Inv, GoodTrace, Senders, Matching, Kept, Fresh, Distinct, Added;
    TraceFresh(c, self, votes, v);
    InvFacts(c, self, votes, s);
    LogFacts(c, self, votes, s);
    AddedFacts(c, self, s, v);
    NeverEqual(c, v.index, s.stable);
    if v.index + 4 < s.stable {
      LateVotes(c, self, votes, s, v);
      OldStaysOld(c, self, votes, s, v);
    } else {
      LiveVotes(c, self, votes, s, v);
      if 2 * c.f <= |Senders(votes + [v], v.index)| {
        Advance(c, self, votes, s, v);
      } else {
        Gather(c, self, votes, s, v);
      }
    }
  }

  /** A vote never makes another index gain a sender. */
  lemma OthersSame(votes: seq<Vote>, v: Vote)
    ensures forall x: nat :: x != v.index ==> Senders(votes + [v], x) == Senders(votes, x)
  {
    forall x: nat | x != v.index ensures Senders(votes + [v], x) == Senders(votes, x) {
      SendersSnoc(votes, v, x);
    }
  }

  /** An old vote of a sender that did not help the stable checkpoint. */
  lemma {:induction false} OldStaysOld(c: Config, self: nat, votes: seq<Vote>, s: State, v: Vote)
    requires Inv(c, self, votes, s) && Distinct(Added(s, v)) && forall u :: u in Added(s, v) <==> u in s.log || u == v
    requires v.index + 4 < s.stable && v.sender !in Senders(votes, s.stable - 4)
    ensures Inv(c, self, votes + [v], State(Added(s, v), s.stable))
  {
    OthersSame(votes, v);
    SendersSnoc(votes, v, v.index);
    hide Senders, Distinct, Added;
  }

  lemma {:induction false} Gather(c: Config, self: nat, votes: seq<Vote>, s: State, v: Vote)
    requires Inv(c, self, votes, s) && Distinct(Added(s, v)) && forall u :: u in Added(s, v) <==> u in s.log || u == v
    requires s.stable <= v.index + 4 && |Senders(votes + [v], v.index)| < 2 * c.f
    ensures Inv(c, self, votes + [v], State(Added(s, v), s.stable))
  {
    OthersSame(votes, v);
    SendersSnoc(votes, v, v.index);
    SubsetSize(Senders(votes, v.index), Senders(votes + [v], v.index));
    hide Senders, Distinct, Added;
  }

  lemma {:induction false} Advance(c: Config, self: nat, votes: seq<Vote>, s: State, v: Vote)
    requires Inv(c, self, votes, s) && Distinct(Added(s, v)) && (forall u :: u in Added(s, v) <==> u in s.log || u == v)
    requires GoodVote(c, self, v) && s.stable <= v.index + 4 && 2 * c.f <= |Senders(votes + [v], v.index)|
    ensures Inv(c, self, votes + [v], State(Kept(Added(s, v), v.index + 4), v.index + 4))
  {
    KeptIs(Added(s, v), v.index + 4);
    OthersSame(votes, v);
    hide Senders, Distinct, Kept, Added;
    assert Backed(c, votes + [v], v.index + 4);
  }

  lemma {:induction false} AlwaysInv(c: Config, self: nat, votes: seq<Vote>)
    requires GoodTrace(c, self, votes)
    ensures Inv(c, self, votes, StateAfter(c, votes))
  {
    if votes != [] {
      var short := votes[..|votes| - 1];
      assert votes == short + [votes[|votes| - 1]];
      TraceFresh(c, self, short, votes[|votes| - 1]);
      AlwaysInv(c, self, short);
      StepInv(c, self, short, StateAfter(c, short), votes[|votes| - 1]);
    }
  }

  lemma InvStable(c: Config, self: nat, votes: seq<Vote>, s: State)
    requires Inv(c, self, votes, s)
    ensures s.stable == 0 || (4 <= s.stable && 2 * c.f <= |Senders(votes, s.stable - 4)|)
    ensures forall x: nat :: 2 * c.f <= |Senders(votes, x)| ==> x + 4 <= s.stable
  {
    hide Senders, Distinct;
  }

  // ------------------------------------------------ the theorems

  /** The stable checkpoint is the highest index, plus 4, that 2f distinct remote
      nodes have voted for; 0 while there is none. */
  lemma StableIsHighestBacked(c: Config, self: nat, votes: seq<Vote>)
    requires GoodTrace(c, self, votes)
    ensures var s := StateAfter(c, votes).stable;
            && (s == 0 || (4 <= s && 2 * c.f <= |Senders(votes, s - 4)| && self !in Senders(votes, s - 4)))
            && (forall x: nat :: 2 * c.f <= |Senders(votes, x)| ==> x + 4 <= s)
  {
    hide GoodTrace, Senders, StateAfter, Inv;
    AlwaysInv(c, self, votes);
    InvStable(c, self, votes, StateAfter(c, votes));
    var s := StateAfter(c, votes).stable;
    if s != 0 {
      SendersRemote(c, self, votes, s - 4);
    }
  }

  lemma {:induction false} StableNeverFalls(c: Config, self: nat, votes: seq<Vote>, i: nat)
    requires GoodTrace(c, self, votes) && i <= |votes|
    ensures StateAfter(c, votes[..i]).stable <= StateAfter(c, votes).stable
    decreases |votes|
  {
    if i == |votes| {
      assert votes[..i] == votes;
    } else {
      var short := votes[..|votes| - 1];
      assert votes == short + [votes[|votes| - 1]] && short[..i] == votes[..i];
      TraceFresh(c, self, short, votes[|votes| - 1]);
      StableNeverFalls(c, self, short, i);
      AlwaysInv(c, self, short);
      StepInv(c, self, short, StateAfter(c, short), votes[|votes| - 1]);
    }
  }

  /** A vote for the index that the stable checkpoint itself bears is passed over, however
      many there are; any other is in the log afterwards or made the checkpoint move. */
  lemma PassedOver(c: Config, s: State, v: Vote)
    ensures v.index == s.stable ==> Process(c, s, v) == s
    ensures v.index != s.stable && Process(c, s, v).stable == s.stable != (v.index + 4) % WRAP ==> v in Process(c, s, v).log
  {
    hide Kept;
  }

  /** A single advance by less than 2^32 keeps the stable checkpoint from falling
      exactly when its index plus 4 still fits in 32 bits. */
  lemma AdvanceKeepsOrder(c: Config, s: State, v: Vote)
    requires s.stable <= v.index + 4 < s.stable + WRAP && s.stable < WRAP
    requires v.index != s.stable && 2 * c.f <= Matching(Added(s, v), v)
    ensures s.stable <= Process(c, s, v).stable <==> v.index + 4 < WRAP
  {
    hide Kept;
    if WRAP <= v.index + 4 {
      assert (v.index + 4) % WRAP == v.index + 4 - WRAP;
    }
  }

  /** Two votes of different nodes for one new checkpoint, with f = 1. */
  lemma TwoVotes(c: Config, s: State, v: Vote, w: Vote)
    requires c.f == 1 && v.index == w.index && v.begIndex == w.begIndex && v.sender != w.sender
    requires v.index != s.stable && forall u :: u in s.log ==> u.index != v.index
    ensures var t := Process(c, Process(c, s, v), w);
            && t.stable == (v.index + 4) % WRAP
            && t.log == Kept(s.log + [v] + [w], t.stable)
  {
    hide Kept;
    MatchingOther(s.log, v);
    MatchingOther(s.log, w);
    MatchingSnoc(s.log, v, v);
    MatchingSnoc(s.log, v, w);
    MatchingSnoc(s.log + [v], w, w);
    assert v !in s.log && w !in s.log + [v];
  }

  lemma AfterTwo(c: Config, votes: seq<Vote>, v: Vote, w: Vote)
    ensures StateAfter(c, votes + [v, w]) == Process(c, Process(c, StateAfter(c, votes), v), w)
  {
    assert (votes + [v, w])[..|votes| + 1] == votes + [v];
    assert (votes + [v])[..|votes|] == votes;
  }

  /** Past 2^32 it does fall: with the shipped interval of 600, two checkpoints in a
      row take it from 4294966799 to 103. */
  lemma WrapFalls(c: Config, first: seq<Vote>, second: seq<Vote>)
    requires c == Settings(1, 600)
    requires first == [Vote(4294966795, 4294966200, 1), Vote(4294966795, 4294966200, 2)]
    requires second == [Vote(4294967395, 4294966800, 1), Vote(4294967395, 4294966800, 2)]
    ensures StateAfter(c, first).stable == 4294966799 && StateAfter(c, first + second).stable == 103
  {
    hide Kept, Process, Matching, StateAfter;
    AfterTwo(c, [], first[0], first[1]);
    assert [] + [first[0], first[1]] == first && second == [second[0], second[1]];
    assert StateAfter(c, []) == State([], 0) by { NoVotes(c); }
    TwoVotes(c, State([], 0), first[0], first[1]);
    AfterTwo(c, first, second[0], second[1]);
    KeptIs(StateAfter(c, []).log + [first[0]] + [first[1]], 4294966799);
    TwoVotes(c, StateAfter(c, first), second[0], second[1]);
  }

  lemma NoVotes(c: Config)
    ensures StateAfter(c, []) == State([], 0)
  {
  }

  lemma {:induction false} MatchingOther(log: seq<Vote>, v: Vote)
    requires forall u :: u in log ==> u.index != v.index
    ensures Matching(log, v) == 0
  {
    if log != [] {
      MatchingOther(log[1..], v);
    }
  }
}
