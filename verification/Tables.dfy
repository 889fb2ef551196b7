/** The handlers read off the tables, for tables of any contents: the two quorum tests
    column by column, what the release of managers takes away, and what the view-change
    setting alters. */
module Tables {
  import opened Arith
  import opened Protocol
  import opened Invariant
  import opened Quorum
  import A = Agreement
  import P = Preserve
  import R = Replica

  // ------------------------------------------------ prepared()

  /** How many columns before r carry the id. */
  ghost function Rank(row: seq<Vote>, id: nat, r: nat): nat
    requires r <= |row|
  {
    |set p: nat | p < r && row[p].txnId == id|
  }

  lemma RankIs(row: seq<Vote>, id: nat, r: nat)
    requires r <= |row|
    ensures Rank(row, id, r) == |Tagged(row[..r], id)|
  {
    TaggedSize(row[..r], id);
    assert ColsTagged(row[..r], id) == set p: nat | p < r && row[p].txnId == id;
  }

  lemma TaggedAt(row: seq<Vote>, id: nat, r: nat)
    requires r < |row| && row[r].txnId == id
    ensures Rank(row, id, r) < |Tagged(row, id)| && Tagged(row, id)[Rank(row, id, r)] == row[r]
  {
    RankIs(row, id, r);
    R.TaggedStep(row, id, r);
    R.TaggedPrefix(row, id, r + 1);
  }

  lemma {:induction false} ColumnOf(row: seq<Vote>, id: nat, k: nat) returns (r: nat)
    requires k < |Tagged(row, id)|
    ensures r < |row| && row[r].txnId == id && Rank(row, id, r) == k
  {
    var short, n := row[..|row| - 1], |row| - 1;
    if k < |Tagged(short, id)| {
      r := ColumnOf(short, id, k);
      assert (set p: nat | p < r && row[p].txnId == id) == set p: nat | p < r && short[p].txnId == id;
    } else {
      r := n;
      RankIs(row, id, n);
    }
  }

  /** Some column among the first 2f with the id has another range. */
  ghost predicate OddRange(c: Config, row: seq<Vote>, id: nat, lo: nat, hi: nat) {
    exists r: nat :: r < |row| && row[r].txnId == id && Rank(row, id, r) < 2 * c.f && (row[r].index != lo || row[r].endIndex != hi)
  }

  lemma OddRangeIs(c: Config, row: seq<Vote>, id: nat)
    requires Tagged(row, id) != []
    ensures var t := Tagged(row, id);
            (exists k :: 0 < k < |t| && k < 2 * c.f && (t[k].index != t[0].index || t[k].endIndex != t[0].endIndex))
            <==> OddRange(c, row, id, t[0].index, t[0].endIndex)
  {
    hide Tagged, Rank;
    var t := Tagged(row, id);
    if k :| 0 < k < |t| && k < 2 * c.f && (t[k].index != t[0].index || t[k].endIndex != t[0].endIndex) {
      var r := ColumnOf(row, id, k);
      TaggedAt(row, id, r);
    }
    if r: nat :| r < |row| && row[r].txnId == id && Rank(row, id, r) < 2 * c.f && (row[r].index != t[0].index || row[r].endIndex != t[0].endIndex) {
      TaggedAt(row, id, r);
    }
  }

  /** prepared() with q the first column that carries the id: what decides, in order, is
      a query of q's range that is not stored (fatal at the primary only), a pre-prepare
      that is not, another range among the first 2f columns, and their number. */
  lemma PreparedByColumns(c: Config, n: Node, id: nat, q: nat)
    requires Shaped(c, n) && !Mgr(c, n, id).prepared && q < c.Nodes() && n.prep[id % c.ring][q].txnId == id
    requires forall p: nat :: p < q ==> n.prep[id % c.ring][p].txnId != id
    ensures |n.cqry| == |n.pre| == c.ring
    ensures var row := n.prep[id % c.ring]; var lo, hi := row[q].index, row[q].endIndex;
            PreparedVerdict(c, n, id)
            == if exists i :: lo <= i <= hi && n.cqry[i % c.ring].txnId != i then if n.id == c.primary then Abort else No
               else if exists i :: lo <= i <= hi && n.pre[i % c.ring].txnId != i then Abort
               else if OddRange(c, row, id, lo, hi) then Abort
               else if 2 * c.f <= |set r: nat | r < c.Nodes() && row[r].txnId == id| then Yes else No
  {
    hide Tagged, OddRange;
    var row := n.prep[id % c.ring];
    TaggedAt(row, id, q);
    assert (set p: nat | p < q && row[p].txnId == id) == {};
    OddRangeIs(c, row, id);
    TaggedSize(row, id);
    assert ColsTagged(row, id) == set r: nat | r < c.Nodes() && row[r].txnId == id;
    hide Rank;
  }

  lemma PreparedByNone(c: Config, n: Node, id: nat)
    requires Shaped(c, n) && !Mgr(c, n, id).prepared && forall p: nat :: p < c.Nodes() ==> n.prep[id % c.ring][p].txnId != id
    ensures PreparedVerdict(c, n, id) == No
  {
    var row := n.prep[id % c.ring];
    TaggedSize(row, id);
    assert ColsTagged(row, id) == {};
    hide Tagged;
  }

  // ------------------------------------------------ committed_local()

  /** q is the first column of the row with the index, or the last column if none has it. */
  ghost predicate Reference(row: seq<Vote>, index: nat, q: nat) {
    && q < |row| && (forall p: nat :: p < q ==> row[p].index != index)
    && (row[q].index == index || q == |row| - 1)
  }

  /** committed_local() with q the column of the prepare compared with: it fails exactly
      when a commit of that prepare's index differs from it in digest, view or end, and
      otherwise says yes exactly with 2f+1 of them. */
  lemma CommittedByColumns(c: Config, n: Node, id: nat, msg: Vote, q: nat)
    requires Shaped(c, n) && Mgr(c, n, id).prepared && Reference(n.prep[msg.txnId % c.ring], msg.index, q)
    ensures |n.prep| == |n.comm| == c.ring && |n.comm[msg.txnId % c.ring]| == c.Nodes()
    ensures var p, row := n.prep[msg.txnId % c.ring][q], n.comm[msg.txnId % c.ring];
            CommittedVerdict(c, n, id, msg)
            == if exists r :: 0 <= r < c.Nodes() && row[r].index == p.index
                              && (row[r].hash != p.hash || row[r].view != p.view || row[r].endIndex != p.endIndex) then Abort
               else if 2 * c.f + 1 <= |set r: nat | r < c.Nodes() && row[r].index == p.index| then Yes else No
  {
    var s := msg.txnId % c.ring;
    var p, row := n.prep[s][q], n.comm[s];
    R.FirstWithIndexAt(n.prep[s], msg.index, q);
    IndexedSize(row, p.index);
    IndexedEntries(row, p.index);
    hide WithIndex, FirstWithIndex;
    assert ColsIndexed(row, p.index) == set r: nat | r < c.Nodes() && row[r].index == p.index;
    var t := WithIndex(row, p.index);
    assert (exists k :: 0 <= k < |t| && !SameBatch(p, t[k])) <==> exists v :: v in t && !SameBatch(p, v);
    assert (exists v :: v in t && !SameBatch(p, v)) <==> exists r :: 0 <= r < c.Nodes() && row[r].index == p.index && !SameBatch(p, row[r]);
  }

  // ------------------------------------------------ releasing managers

  /** An execution takes managers away only after the first batch, when no checkpoint is
      due and the commit counter of the batch stands at f-1; and then those of its ids
      but the last five. */
  lemma ReleasedExactly(c: Config, n: Node, acc: Accepted, x: Exec, id: nat)
    requires Inv(c, n, acc) && Execute(x) in n.out && ProcessExecute(c, n, x).Ok?
    ensures id in n.txns && id !in ProcessExecute(c, n, x).node.txns <==>
              && id in n.txns && id < c.batch - 5 && n.next == 0 && c.batch % c.chkpt != 0
              && Mgr(c, n, c.batch - 1).commitCnt == c.f - 1
    ensures id in ProcessExecute(c, n, x).node.txns ==> id in n.txns && ProcessExecute(c, n, x).node.txns[id] == n.txns[id]
  {
    hide Inv, RunRange, ExecLength, Sub64, BatchStart;
    P.RunExecBatch(c, n, acc, x);
    var k := x.txnId + 1;
    EndIsLate(c, k);
    AlignedNext(c, n, acc);
  }

  lemma AlignedNext(c: Config, n: Node, acc: Accepted)
    requires Inv(c, n, acc)
    ensures n.next == 0 || c.batch <= n.next
  {
    hide StoresOk, SlotsOk, SentOk, ExecsOk, PreparedOk, Shaped, Holds, ReqAt;
    if 0 < n.next < c.batch {
      DivUnique(n.next, c.batch, 0, n.next);
    }
  }

  // ------------------------------------------------ the view-change setting

  /** Own votes count down with view changes compiled in, and only then: the prepare
      always, the commit while the counter is above 0. */
  lemma OwnVotesCount(c: Config, n: Node, id: nat, j: nat)
    requires Shaped(c, n)
    ensures SendPrep(c, n, id).Ok? ==>
              var t, t' := Mgr(c, n, j), Mgr(c, SendPrep(c, n, id).node, j);
              t' == t.(prepCnt := t.prepCnt - if c.views && j == id then 1 else 0)
    ensures SendCommit(c, n, id).Ok? ==>
              var t, t' := Mgr(c, n, j), Mgr(c, SendCommit(c, n, id).node, j);
              t' == t.(commitCnt := t.commitCnt - if c.views && j == id && 0 < t.commitCnt then 1 else 0)
  {
    hide OwnVote, Shaped;
    P.PutPrepInvKeeps(c, n, OwnVote(c, n, id)) by { OwnSender(c, n, id); }
    P.PutCommInvKeeps(c, n, OwnVote(c, n, id)) by { OwnSender(c, n, id); }
  }

  lemma OwnSender(c: Config, n: Node, id: nat)
    requires Shaped(c, n)
    ensures OwnVote(c, n, id).sender < c.Nodes()
  {
  }

  /** A vote of another view fails an assertion in the shipped setting and changes
      nothing with view changes compiled in. */
  lemma OtherView(c: Config, n: Node, v: Vote)
    requires Shaped(c, n) && v.sender < c.Nodes() && v.view != c.primary
    ensures ProcessPrep(c, n, v) == ProcessCommit(c, n, v) == if c.views then Ok(n) else Crash
  {
  }

  /** A vote for an executed batch is stored and no more, with view changes compiled in;
      in the shipped setting it counts down like any other. */
  lemma ExecutedBatch(c: Config, n: Node, v: Vote)
    requires Shaped(c, n) && GoodVote(c, v) && v.view == c.primary && v.endIndex < n.next && n.next % c.batch == 0
    ensures c.views ==>
              && ProcessPrep(c, n, v) == Ok(n.(prep := n.prep[v.endIndex % c.ring := n.prep[v.endIndex % c.ring][v.sender := v]]))
              && ProcessCommit(c, n, v) == Ok(n.(comm := n.comm[v.endIndex % c.ring := n.comm[v.endIndex % c.ring][v.sender := v]]))
    ensures !c.views && ProcessPrep(c, n, v).Ok? ==> Mgr(c, ProcessPrep(c, n, v).node, v.txnId).prepCnt == Mgr(c, n, v.txnId).prepCnt - 1
  {
    EndIsLate(c, v.endIndex);
    hide PreparedVerdict, TryExecute, SendCommit, IsEnd;
    var t := Mgr(c, n, v.txnId);
    var m := SetMgr(PutPrep(c, n, v), v.txnId, t.(prepCnt := t.prepCnt - 1));
    OwnVotesCount(c, MarkPrepared(c, m, v.txnId), v.txnId, v.txnId);
  }

  /** With view changes compiled in node 0, and no other, stops when it would commit the
      first batches past the first checkpoint; the others go on. */
  lemma StopsOnPurpose(c: Config, n: Node, v: Vote)
    requires Shaped(c, n) && GoodVote(c, v) && v.view == c.primary && n.next <= v.index
    requires Mgr(c, n, v.txnId).commitCnt == 1 && !Mgr(c, n, v.txnId).committed
    ensures var m := SetMgr(PutComm(c, n, v), v.txnId, Mgr(c, n, v.txnId).(commitCnt := 0));
            ProcessCommit(c, n, v)
            == if c.views && n.id == 0 && c.chkpt + c.batch < v.txnId && CommittedVerdict(c, m, v.txnId, v) == Yes then Crash
               else TryExecute(c, m, v.txnId, v)
  {
    hide CommittedVerdict, TryExecute, PutComm, IsEnd;
    P.PutCommInvKeeps(c, n, v);
  }
}
