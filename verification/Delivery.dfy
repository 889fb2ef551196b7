/** What each handler does to one replica's vote stores, counters and flags, for votes
    of any digest and view from any senders: exactly when an assertion fails, and what
    holds when none does.  A batch is queued for execution when the batch, 2f remote
    prepares and 2f+1 remote commits are there, unless the commits came while prepares
    were still missing: the prepare handler does not look at the commit counter again. */
module Delivery {
  import opened Arith
  import opened Protocol
  import opened Invariant
  import opened Quorum
  import A = Agreement
  import P = Preserve
  import R = Replica

  /** The shipped configuration: view changes off. */
  type Plain = c: Settings | c.Valid() && !c.views witness Settings(1, 100, 200, 600, 0, false)

  // ------------------------------------------------ what has been delivered

  /** The remote senders of prepares and commits delivered so far, by batch. */
  datatype Hist = Hist(preps: map<nat, set<nat>>, comms: map<nat, set<nat>>)

  ghost function Preps(h: Hist, k: nat): set<nat> { if k in h.preps then h.preps[k] else {} }
  ghost function Comms(h: Hist, k: nat): set<nat> { if k in h.comms then h.comms[k] else {} }

  /** The deliveries after event e. */
  ghost function Heard(h: Hist, e: Event): Hist {
    match e
    case PrepArrives(v) => h.(preps := h.preps[v.txnId := Preps(h, v.txnId) + {v.sender}])
    case CommitArrives(v) => h.(comms := h.comms[v.txnId := Comms(h, v.txnId) + {v.sender}])
    case _ => h
  }

  /** Nothing from sender r for a later batch in the same slot has come before. */
  ghost predicate InOrder(c: Plain, h: Hist, r: nat, k: nat) {
    forall j: nat :: k < j && j % c.ring == k % c.ring ==> r !in Preps(h, j) && r !in Comms(h, j)
  }

  /** The hypotheses on one delivery, whatever a vote's digest and view: each sender
      once per phase, and no vote for an old batch behind one for a later batch of
      its slot. */
  ghost predicate Orderly(c: Plain, n: Node, acc: Accepted, h: Hist, e: Event) {
    && Shaped(c, n)
    && Allowed(c, n, acc, e)
    && EventShaped(c, e)
    && A.Windowed(c, n.next, e)
    && match e
       case PrepArrives(v) => v.sender != n.id && InOrder(c, h, v.sender, v.txnId) && v.sender !in Preps(h, v.txnId)
       case CommitArrives(v) => v.sender != n.id && InOrder(c, h, v.sender, v.txnId) && v.sender !in Comms(h, v.txnId)
       case _ => true
  }

  // ------------------------------------------------ the invariant

  ghost predicate HistOk(c: Plain, id: nat, h: Hist) {
    && (forall k: nat :: Preps(h, k) <= NodesBelow(c.Nodes()) - {id})
    && (forall k: nat :: Comms(h, k) <= NodesBelow(c.Nodes()) - {id})
  }

  /** One stored row, for live batch k: exactly the senders heard, the node itself
      when own, all of this view. */
  ghost predicate RowAt(c: Plain, id: nat, row: seq<Vote>, k: nat, heard: set<nat>, own: bool) {
    && |row| == c.Nodes()
    && id < c.Nodes()
    && (forall r :: 0 <= r < c.Nodes() && r != id ==> (row[r].txnId == k <==> r in heard))
    && (row[id].txnId == k <==> own)
    && (forall r :: 0 <= r < c.Nodes() && row[r].txnId == k ==> row[r].view == c.primary)
  }

  ghost predicate PrepRows(c: Plain, id: nat, prep: A.Slots, next: nat, acc: Accepted, h: Hist)
    requires A.Rows(c, prep)
  {
    forall k: nat :: IsEnd(c, k) && next <= k ==>
      RowAt(c, id, prep[k % c.ring], k, Preps(h, k), id != c.primary && k in acc)
  }

  ghost predicate CommRows(c: Plain, id: nat, comm: A.Slots, next: nat, txns: map<nat, Txn>, h: Hist)
    requires A.Rows(c, comm)
  {
    forall k: nat :: IsEnd(c, k) && next <= k ==>
      RowAt(c, id, comm[k % c.ring], k, Comms(h, k), TxnOf(c, txns, k).prepared)
  }

  /** Every id of a live accepted batch still has its entries. */
  ghost predicate Installed(c: Plain, pre: seq<Pre>, cqry: seq<Query>, next: nat, acc: Accepted)
    requires |pre| == |cqry| == c.ring
  {
    forall x: nat :: Holds(c, acc, x) && next <= x ==> pre[x % c.ring].txnId == x && cqry[x % c.ring].txnId == x
  }

  /** The counters are the quorum sizes minus the senders heard; negative counts included. */
  ghost predicate Counted(c: Plain, txns: map<nat, Txn>, h: Hist) {
    forall k: nat :: IsEnd(c, k) ==>
      && TxnOf(c, txns, k).prepCnt == 2 * c.f - |Preps(h, k)|
      && TxnOf(c, txns, k).commitCnt == 2 * c.f + 1 - |Comms(h, k)|
  }

  ghost predicate HasPrepareQuorum(c: Plain, acc: Accepted, h: Hist, k: nat) { k in acc && 2 * c.f <= |Preps(h, k)| }

  /** The commits are there and the batch is, but prepares are still missing: from
      here on the batch is passed over. */
  ghost predicate Overtaken(c: Plain, acc: Accepted, h: Hist, k: nat) {
    k in acc && 2 * c.f + 1 <= |Comms(h, k)| && |Preps(h, k)| < 2 * c.f
  }

  /** Batches that have been overtaken at some moment of the run. */
  ghost function Passed(c: Plain, acc: Accepted, h: Hist, passed: set<nat>, k: nat): set<nat> {
    if Overtaken(c, acc, h, k) then passed + {k} else passed
  }

  ghost predicate Due(c: Plain, acc: Accepted, h: Hist, passed: set<nat>, k: nat) {
    HasPrepareQuorum(c, acc, h, k) && 2 * c.f + 1 <= |Comms(h, k)| && k !in passed
  }

  ghost predicate FlagAt(c: Plain, t: Txn, queued: bool, acc: Accepted, h: Hist, passed: set<nat>, k: nat) {
    && (t.prepared <==> HasPrepareQuorum(c, acc, h, k))
    && (queued <==> Due(c, acc, h, passed, k))
    && (t.committed <==> Due(c, acc, h, passed, k))
  }

  ghost predicate Flagged(c: Plain, txns: map<nat, Txn>, out: seq<Msg>, acc: Accepted, h: Hist, passed: set<nat>) {
    forall k: nat :: IsEnd(c, k) ==> FlagAt(c, TxnOf(c, txns, k), Queued(c, out, k), acc, h, passed, k)
  }

  ghost predicate PassedOk(c: Plain, acc: Accepted, h: Hist, passed: set<nat>) {
    && (forall k :: k in passed ==> k in acc && 2 * c.f + 1 <= |Comms(h, k)|)
    && (forall k: nat :: Overtaken(c, acc, h, k) ==> k in passed)
  }

  /** The primary has met fewer than 2f prepares of a batch it has not made yet. */
  ghost predicate PrimaryEarly(c: Plain, id: nat, acc: Accepted, h: Hist) {
    id == c.primary ==> forall k: nat :: IsEnd(c, k) && k !in acc ==> |Preps(h, k)| < 2 * c.f
  }

  function VoteFor(c: Plain, k: nat, hash: Digest, sender: nat): Vote {
    Vote(k, BatchStart(c, k), k, hash, c.primary, sender)
  }

  function DigestAt(c: Plain, acc: Accepted, k: nat): Digest {
    if k in acc && |acc[k].hash| == c.batch then acc[k].hash[c.batch - 1] else ""
  }

  /** A node's own vote for batch k. */
  function Own(c: Plain, acc: Accepted, k: nat, id: nat): Vote { VoteFor(c, k, DigestAt(c, acc, k), id) }

  /** A backup has sent its prepare for every batch it holds, and every node its
      commit for every batch with a prepare quorum. */
  ghost predicate Voted(c: Plain, id: nat, out: seq<Msg>, acc: Accepted, h: Hist) {
    forall k: nat :: IsEnd(c, k) ==>
      && (id != c.primary && k in acc ==> Prepare(Own(c, acc, k, id)) in out)
      && (HasPrepareQuorum(c, acc, h, k) ==> Commit(Own(c, acc, k, id)) in out)
  }

  /** All but the flags. */
  ghost predicate Stored(c: Plain, n: Node, acc: Accepted, h: Hist) {
    && Inv(c, n, acc)
    && Shaped(c, n) && A.Rows(c, n.prep) && A.Rows(c, n.comm)
    && AcceptedOk(c, acc)
    && A.WindowOk(c, n.next, acc)
    && HistOk(c, n.id, h)
    && PrepRows(c, n.id, n.prep, n.next, acc, h)
    && CommRows(c, n.id, n.comm, n.next, n.txns, h)
    && Installed(c, n.pre, n.cqry, n.next, acc)
    && Counted(c, n.txns, h)
  }

  ghost predicate Fine(c: Plain, n: Node, acc: Accepted, h: Hist, passed: set<nat>) {
    && Stored(c, n, acc, h)
    && PrimaryEarly(c, n.id, acc, h)
    && PassedOk(c, acc, h, passed)
    && Flagged(c, n.txns, n.out, acc, h, passed)
    && Voted(c, n.id, n.out, acc, h)
  }

  // ------------------------------------------------ reading the rows

  lemma RowCount(c: Plain, id: nat, row: seq<Vote>, k: nat, heard: set<nat>, own: bool)
    requires RowAt(c, id, row, k, heard, own) && heard <= NodesBelow(c.Nodes()) - {id}
    ensures |ColsTagged(row, k)| == |heard| + if own then 1 else 0
  {
    if own {
      assert ColsTagged(row, k) == heard + {id};
    } else {
      assert ColsTagged(row, k) == heard;
    }
  }

  lemma GoodRange(c: Plain, slots: A.Slots, s: nat, k: nat, v: Vote)
    requires SlotsOk(c, slots) && s < c.ring && v in slots[s] && v.txnId == k && IsEnd(c, k)
    ensures v.index == k + 1 - c.batch && v.endIndex == k
  {
    var r: nat :| r < c.Nodes() && slots[s][r] == v;
    assert EntryOk(c, slots[s][r], s, r);
    EndIsLate(c, k);
  }

  /** prepared() on a live accepted batch: yes exactly with 2f stored prepares, and
      no assertion fails. */
  lemma PreparedLive(c: Plain, n: Node, acc: Accepted, h: Hist, k: nat)
    requires Stored(c, n, acc, h) && IsEnd(c, k) && n.next <= k && k in acc && !Mgr(c, n, k).prepared
    ensures PreparedVerdict(c, n, k)
         == if 2 * c.f <= |Preps(h, k)| + (if n.id != c.primary then 1 else 0) then Yes else No
  {
    hide Inv, Shaped, CommRows, Counted, BatchStart, IsEnd, A.WindowOk, Tagged, Holds, Preps;
    A.InvSlots(c, n, acc);
    var row := n.prep[k % c.ring];
    var t := Tagged(row, k);
    TaggedSize(row, k);
    P.TaggedMembers(row, k);
    RowCount(c, n.id, row, k, Preps(h, k), n.id != c.primary && k in acc);
    forall j | 0 <= j < |t|
      ensures t[j].index == k + 1 - c.batch && t[j].endIndex == k
    {
      GoodRange(c, n.prep, k % c.ring, k, t[j]);
    }
    StoreSizes(c, n);
    LiveInstalled(c, n, acc, k);
  }

  lemma StoreSizes(c: Plain, n: Node)
    requires Shaped(c, n)
    ensures |n.pre| == |n.cqry| == |n.batchSet| == c.ring && n.id < c.Nodes()
  {
  }

  lemma LiveInstalled(c: Plain, n: Node, acc: Accepted, k: nat)
    requires Inv(c, n, acc) && |n.pre| == |n.cqry| == c.ring && Installed(c, n.pre, n.cqry, n.next, acc)
    requires IsEnd(c, k) && n.next <= k && k in acc
    ensures c.batch <= k + 1 && HasQueries(c, n, k + 1 - c.batch, k) && HasPres(c, n, k + 1 - c.batch, k)
  {
    hide Inv;
    EndIsLate(c, k);
    assert n.next <= k + 1 - c.batch by { NextAligned(c, n, acc); P.BatchAhead(c, n.next, k); }
    forall x | k + 1 - c.batch <= x <= k
      ensures Holds(c, acc, x)
    {
      EndOfMember(c, k, x);
    }
  }

  lemma NextAligned(c: Plain, n: Node, acc: Accepted)
    requires Inv(c, n, acc)
    ensures n.next % c.batch == 0
  {
    hide StoresOk, SlotsOk, SentOk, ExecsOk, PreparedOk, Shaped, Holds, ReqAt;
  }

  /** Without the batch prepared() says no, but at the primary a stored prepare for it
      makes an assertion fail. */
  lemma PreparedWithoutBatch(c: Plain, n: Node, acc: Accepted, h: Hist, k: nat)
    requires Stored(c, n, acc, h) && IsEnd(c, k) && k !in acc
    ensures PreparedVerdict(c, n, k)
         == if n.id == c.primary && Tagged(Slot(c, n.prep, k), k) != [] then Abort else No
  {
    hide Inv, Shaped, PrepRows, CommRows, Counted, BatchStart, IsEnd, A.WindowOk, Tagged, Installed, HistOk;
    P.PreparedImpliesAccepted(c, n, acc, k);
    A.InvSlots(c, n, acc);
    var row := n.prep[k % c.ring];
    var t := Tagged(row, k);
    P.TaggedMembers(row, k);
    if t != [] {
      GoodRange(c, n.prep, k % c.ring, k, t[0]);
      StoreSizes(c, n);
      NoQuery(c, n, acc, k);
      assert t[0].index <= k <= t[0].endIndex;
    }
  }

  lemma TaggedHas(row: seq<Vote>, r: nat, k: nat)
    requires r < |row| && row[r].txnId == k
    ensures Tagged(row, k) != []
  {
    TaggedSize(row, k);
    assert r in ColsTagged(row, k);
  }

  lemma NoQuery(c: Plain, n: Node, acc: Accepted, k: nat)
    requires Inv(c, n, acc) && |n.cqry| == c.ring && IsEnd(c, k) && k !in acc
    ensures n.cqry[k % c.ring].txnId != k
  {
    hide SlotsOk, SentOk, ExecsOk, PreparedOk, LogOk, Shaped;
    assert QueryOk(c, n.cqry[k % c.ring], k % c.ring, acc);
    P.EndOfEnd(c, k);
  }

  // ------------------------------------------------ committed_local() on a live batch

  /** q is the first column of the row that carries batch k. */
  ghost predicate FirstTagged(row: seq<Vote>, q: nat, k: nat) {
    q < |row| && row[q].txnId == k && forall p: nat :: p < q ==> row[p].txnId != k
  }

  /** Some stored commit for batch k differs in digest, view or range from the first
      stored prepare for it. */
  ghost predicate Clash(prep: seq<Vote>, comm: seq<Vote>, k: nat) {
    exists q: nat, r: nat :: FirstTagged(prep, q, k) && r < |comm| && comm[r].txnId == k && !SameBatch(prep[q], comm[r])
  }

  /** The row of batch k's slot. */
  function Slot(c: Plain, slots: A.Slots, k: nat): seq<Vote> { if k % c.ring < |slots| then slots[k % c.ring] else [] }

  lemma CommitCount(c: Plain, n: Node, acc: Accepted, h: Hist, k: nat)
    requires Stored(c, n, acc, h) && IsEnd(c, k) && n.next <= k
    ensures var row := n.comm[k % c.ring];
            && |WithIndex(row, BatchStart(c, k))| == |Comms(h, k)| + (if Mgr(c, n, k).prepared then 1 else 0)
            && forall v :: v in WithIndex(row, BatchStart(c, k)) <==> exists r: nat :: r < |row| && row[r].txnId == k && row[r] == v
  {
    hide Inv, Shaped, PrepRows, Counted, BatchStart, IsEnd, A.WindowOk, WithIndex, Installed, Comms;
    A.InvSlots(c, n, acc);
    var s := k % c.ring;
    var row := n.comm[s];
    forall r: nat | r < c.Nodes()
      ensures row[r].index == BatchStart(c, k) <==> row[r].txnId == k
    {
      A.IndexIsTag(c, n.comm, s, r, k);
    }
    IndexedSize(row, BatchStart(c, k));
    IndexedEntries(row, BatchStart(c, k));
    assert ColsIndexed(row, BatchStart(c, k)) == ColsTagged(row, k);
    RowCount(c, n.id, row, k, Comms(h, k), Mgr(c, n, k).prepared);
  }

  /** The prepare compared with is that of the first column carrying the batch. */
  lemma ReferenceLive(c: Plain, n: Node, acc: Accepted, h: Hist, k: nat) returns (q: nat)
    requires Stored(c, n, acc, h) && IsEnd(c, k) && n.next <= k && 2 * c.f <= |Preps(h, k)|
    ensures var row := n.prep[k % c.ring];
            && q < |row| && FirstTagged(row, q, k) && FirstWithIndex(row, BatchStart(c, k)) == row[q]
            && row[q].index == BatchStart(c, k)
  {
    hide Inv, Shaped, CommRows, Counted, BatchStart, IsEnd, A.WindowOk, FirstWithIndex, Installed, Preps;
    A.InvSlots(c, n, acc);
    var s := k % c.ring;
    var row := n.prep[s];
    var r := NotAllIn(Preps(h, k), {});
    assert row[r].txnId == k;
    q := FirstOf(row, k, r);
    forall p: nat | p < c.Nodes()
      ensures row[p].index == BatchStart(c, k) <==> row[p].txnId == k
    {
      A.IndexIsTag(c, n.prep, s, p, k);
    }
    R.FirstWithIndexAt(row, BatchStart(c, k), q);
  }

  lemma {:induction false} FirstOf(row: seq<Vote>, k: nat, r: nat) returns (q: nat)
    requires r < |row| && row[r].txnId == k
    ensures FirstTagged(row, q, k)
  {
    if p: nat :| p < r && row[p].txnId == k {
      q := FirstOf(row, k, p);
    } else {
      q := r;
    }
  }

  /** committed_local() on a live prepared batch: an assertion fails exactly on a
      clash, and otherwise it says yes exactly with 2f+1 stored commits. */
  lemma CommittedLive(c: Plain, n: Node, acc: Accepted, h: Hist, k: nat, msg: Vote)
    requires Stored(c, n, acc, h) && IsEnd(c, k) && n.next <= k && Mgr(c, n, k).prepared
    requires 2 * c.f <= |Preps(h, k)| && msg.txnId == k && msg.index == BatchStart(c, k)
    ensures CommittedVerdict(c, n, k, msg)
         == if Clash(Slot(c, n.prep, k), Slot(c, n.comm, k), k) then Abort else if 2 * c.f <= |Comms(h, k)| then Yes else No
  {
    hide Inv, Shaped, Stored, BatchStart, IsEnd, WithIndex, FirstWithIndex, Preps, Comms, SameBatch, FirstTagged;
    assert Shaped(c, n) by { StoredParts(c, n, acc, h); }
    A.RowsHere(c, n, k);
    CommitCount(c, n, acc, h, k);
    var q := ReferenceLive(c, n, acc, h, k);
    var prep, comm := n.prep[k % c.ring], n.comm[k % c.ring];
    var t := WithIndex(comm, BatchStart(c, k));
    OneFirst(prep, k);
    assert (exists i :: 0 <= i < |t| && !SameBatch(prep[q], t[i])) <==> exists v :: v in t && !SameBatch(prep[q], v);
  }

  lemma OneFirst(row: seq<Vote>, k: nat)
    ensures forall p: nat, q: nat :: FirstTagged(row, p, k) && FirstTagged(row, q, k) ==> p == q
  {
  }

  lemma StoredParts(c: Plain, n: Node, acc: Accepted, h: Hist)
    requires Stored(c, n, acc, h)
    ensures Shaped(c, n) && Inv(c, n, acc) && AcceptedOk(c, acc) && A.Rows(c, n.prep) && A.Rows(c, n.comm) && A.WindowOk(c, n.next, acc)
    ensures |n.pre| == |n.cqry| == |n.batchSet| == c.ring && n.id < c.Nodes() && HistOk(c, n.id, h)
    ensures Installed(c, n.pre, n.cqry, n.next, acc) && Counted(c, n.txns, h)
  {
    hide Inv, PrepRows, CommRows, Counted, HistOk, Installed, A.WindowOk;
  }

  // ------------------------------------------------ storing a remote vote

  /** Storing a vote of sender r for batch j updates row and hearing together, for
      every live batch of the slot. */
  lemma RowPut(c: Plain, id: nat, row: seq<Vote>, k: nat, heard: set<nat>, own: bool, v: Vote, heard': set<nat>)
    requires RowAt(c, id, row, k, heard, own)
    requires v.sender < c.Nodes() && v.sender != id
    requires v.view == c.primary && (v.txnId == k ==> heard' == heard + {v.sender})
    requires v.txnId != k ==> v.sender !in heard && heard' == heard
    ensures RowAt(c, id, row[v.sender := v], k, heard', own)
  {
  }

  /** One more sender heard. */
  lemma HeardHist(c: Plain, id: nat, h: Hist, e: Event)
    requires HistOk(c, id, h) && EventShaped(c, e)
    requires e.PrepArrives? ==> e.vote.sender != id
    requires e.CommitArrives? ==> e.vote.sender != id
    ensures var h' := Heard(h, e);
            && HistOk(c, id, h')
            && (!e.PrepArrives? ==> forall k: nat :: Preps(h', k) == Preps(h, k))
            && (!e.CommitArrives? ==> forall k: nat :: Comms(h', k) == Comms(h, k))
  {
    var h' := Heard(h, e);
    assert !e.PrepArrives? ==> forall k: nat :: Preps(h', k) == Preps(h, k);
    assert !e.CommitArrives? ==> forall k: nat :: Comms(h', k) == Comms(h, k);
    if e.PrepArrives? {
      var v := e.vote;
      assert forall k: nat :: Preps(h', k) == if k == v.txnId then Preps(h, k) + {v.sender} else Preps(h, k);
    }
    if e.CommitArrives? {
      var v := e.vote;
      assert forall k: nat :: Comms(h', k) == if k == v.txnId then Comms(h, k) + {v.sender} else Comms(h, k);
    }
  }

  lemma PutPrepStored(c: Plain, n: Node, acc: Accepted, h: Hist, v: Vote)
    requires Stored(c, n, acc, h) && GoodVote(c, v) && Orderly(c, n, acc, h, PrepArrives(v)) && v.view == c.primary
    ensures var m, h' := PutPrep(c, n, v), Heard(h, PrepArrives(v));
            && Inv(c, m, acc) && Shaped(c, m) && A.Rows(c, m.prep) && m == n.(prep := m.prep)
            && HistOk(c, m.id, h')
            && PrepRows(c, m.id, m.prep, m.next, acc, h')
            && CommRows(c, m.id, m.comm, m.next, m.txns, h')
  {
    hide Inv, Shaped, Installed, Counted, IsEnd, BatchStart, RowAt, A.WindowOk, HistOk;
    var m, h' := PutPrep(c, n, v), Heard(h, PrepArrives(v));
    P.PutPrepInv(c, n, acc, v);
    A.InvRows(c, m, acc);
    HeardHist(c, n.id, h, PrepArrives(v));
    forall k: nat | IsEnd(c, k) && n.next <= k
      ensures RowAt(c, n.id, m.prep[k % c.ring], k, Preps(h', k), n.id != c.primary && k in acc)
    {
      if v.endIndex % c.ring == k % c.ring {
        if k < v.txnId {
          SlotClash(c, n.next, k, v.txnId);
        }
        RowPut(c, n.id, n.prep[k % c.ring], k, Preps(h, k), n.id != c.primary && k in acc, v, Preps(h', k));
      }
    }
  }

  /** The window admits nothing a ring above a live batch. */
  lemma SlotClash(c: Plain, next: nat, k: nat, j: nat)
    requires next <= k < j < next + c.ring
    ensures j % c.ring != k % c.ring
  {
    SlotsDiffer(k, j, c.ring);
  }

  lemma PutCommStored(c: Plain, n: Node, acc: Accepted, h: Hist, v: Vote)
    requires Stored(c, n, acc, h) && GoodVote(c, v) && Orderly(c, n, acc, h, CommitArrives(v)) && v.view == c.primary
    ensures var m, h' := PutComm(c, n, v), Heard(h, CommitArrives(v));
            && Inv(c, m, acc) && Shaped(c, m) && A.Rows(c, m.comm) && m == n.(comm := m.comm)
            && HistOk(c, m.id, h')
            && PrepRows(c, m.id, m.prep, m.next, acc, h')
            && CommRows(c, m.id, m.comm, m.next, m.txns, h')
  {
    hide Inv, Shaped, Installed, Counted, IsEnd, BatchStart, RowAt, A.WindowOk, HistOk;
    var m, h' := PutComm(c, n, v), Heard(h, CommitArrives(v));
    P.PutCommInv(c, n, acc, v);
    A.InvRows(c, m, acc);
    HeardHist(c, n.id, h, CommitArrives(v));
    forall k: nat | IsEnd(c, k) && n.next <= k
      ensures RowAt(c, n.id, m.comm[k % c.ring], k, Comms(h', k), TxnOf(c, n.txns, k).prepared)
    {
      if v.endIndex % c.ring == k % c.ring {
        if k < v.txnId {
          SlotClash(c, n.next, k, v.txnId);
        }
        RowPut(c, n.id, n.comm[k % c.ring], k, Comms(h, k), TxnOf(c, n.txns, k).prepared, v, Comms(h', k));
      }
    }
  }

  /** The handler's whole bookkeeping for a remote prepare: stored and counted. */
  lemma PrepStored(c: Plain, n: Node, acc: Accepted, h: Hist, v: Vote)
    requires Stored(c, n, acc, h) && GoodVote(c, v) && Orderly(c, n, acc, h, PrepArrives(v)) && v.view == c.primary
    ensures var t := Mgr(c, n, v.txnId);
            Stored(c, SetMgr(PutPrep(c, n, v), v.txnId, t.(prepCnt := t.prepCnt - 1)), acc, Heard(h, PrepArrives(v)))
    ensures |Preps(Heard(h, PrepArrives(v)), v.txnId)| == |Preps(h, v.txnId)| + 1
  {
    hide Inv, Shaped, Installed, IsEnd, BatchStart, RowAt, A.WindowOk, HistOk, GoodVote, A.Rows;
    var h' := Heard(h, PrepArrives(v));
    var t := Mgr(c, n, v.txnId);
    var p := PutPrep(c, n, v);
    PutPrepStored(c, n, acc, h, v);
    P.PreparedImpliesAccepted(c, p, acc, v.txnId);
    P.SetMgrInv(c, p, acc, v.txnId, t.(prepCnt := t.prepCnt - 1));
    var m := SetMgr(p, v.txnId, t.(prepCnt := t.prepCnt - 1));
    A.InvRows(c, m, acc);
    assert forall k: nat :: TxnOf(c, m.txns, k).prepared == TxnOf(c, n.txns, k).prepared;
    assert forall k: nat :: k != v.txnId ==> Preps(h', k) == Preps(h, k);
  }

  lemma CommStored(c: Plain, n: Node, acc: Accepted, h: Hist, v: Vote)
    requires Stored(c, n, acc, h) && GoodVote(c, v) && Orderly(c, n, acc, h, CommitArrives(v)) && v.view == c.primary
    ensures var t := Mgr(c, n, v.txnId);
            Stored(c, SetMgr(PutComm(c, n, v), v.txnId, t.(commitCnt := t.commitCnt - 1)), acc, Heard(h, CommitArrives(v)))
    ensures |Comms(Heard(h, CommitArrives(v)), v.txnId)| == |Comms(h, v.txnId)| + 1
  {
    hide Inv, Shaped, Installed, IsEnd, BatchStart, RowAt, A.WindowOk, HistOk, GoodVote, A.Rows;
    var h' := Heard(h, CommitArrives(v));
    var t := Mgr(c, n, v.txnId);
    var p := PutComm(c, n, v);
    PutCommStored(c, n, acc, h, v);
    P.PreparedImpliesAccepted(c, p, acc, v.txnId);
    P.SetMgrInv(c, p, acc, v.txnId, t.(commitCnt := t.commitCnt - 1));
    var m := SetMgr(p, v.txnId, t.(commitCnt := t.commitCnt - 1));
    A.InvRows(c, m, acc);
    assert forall k: nat :: TxnOf(c, m.txns, k).prepared == TxnOf(c, n.txns, k).prepared;
    assert forall k: nat :: k != v.txnId ==> Comms(h', k) == Comms(h, k);
  }

  // ------------------------------------------------ the node's own votes

  lemma OwnPut(c: Plain, id: nat, row: seq<Vote>, k: nat, heard: set<nat>, own: bool, v: Vote, own': bool)
    requires RowAt(c, id, row, k, heard, own)
    requires v.sender == id && id !in heard
    requires v.txnId == k ==> own' && v.view == c.primary
    requires v.txnId != k ==> !own'
    ensures RowAt(c, id, row[id := v], k, heard, own')
  {
  }

  /** The node's own vote for a live accepted batch. */
  lemma OwnVoteLive(c: Plain, n: Node, acc: Accepted, k: nat)
    requires Inv(c, n, acc) && Shaped(c, n) && AcceptedOk(c, acc) && k in acc && n.next <= k
    requires Installed(c, n.pre, n.cqry, n.next, acc)
    ensures var v := OwnVote(c, n, k);
            && n.pre[k % c.ring].txnId == k && v.sender == n.id && v.txnId == k && v.endIndex == k
            && v.view == c.primary && IsEnd(c, k)
            && v == Own(c, acc, k, n.id)
  {
    hide Inv, Shaped, BatchStart, ReqAt;
    StoreSizes(c, n);
    P.AcceptedLate(c, acc, k);
    P.EndOfEnd(c, k);
    P.OwnVoteCast(c, n, acc, k);
  }

  /** Becoming prepared for a live accepted batch. */
  lemma MarkStored(c: Plain, n: Node, acc: Accepted, h: Hist, k: nat)
    requires Stored(c, n, acc, h) && k in acc && n.next <= k
    ensures var r := SendCommit(c, MarkPrepared(c, n, k), k);
            r.Ok? && Stored(c, r.node, acc, h)
    ensures var m := SendCommit(c, MarkPrepared(c, n, k), k).node;
            && m == MarkPrepared(c, n, k).(comm := m.comm, out := m.out)
            && m.out == n.out + [Commit(Own(c, acc, k, n.id))]
            && k % c.ring < |n.comm| && n.id < |n.comm[k % c.ring]|
            && m.comm == n.comm[k % c.ring := n.comm[k % c.ring][n.id := Own(c, acc, k, n.id)]]
            && (forall j: nat :: Queued(c, m.out, j) <==> Queued(c, n.out, j))
  {
    hide Inv, Shaped, Installed, BatchStart, RowAt, HistOk, GoodVote, AcceptedOk, PrepRows, OwnVote;
    var q := MarkPrepared(c, n, k);
    StoredParts(c, n, acc, h);
    P.SetMgrInv(c, n, acc, k, Mgr(c, n, k).(prepared := true));
    A.InvRows(c, q, acc);
    OwnVoteLive(c, q, acc, k);
    StoreSizes(c, q);
    P.SendCommitInv(c, q, acc, k);
    var v := OwnVote(c, q, k);
    var m := SendCommit(c, q, k).node;
    A.InvRows(c, m, acc);
    forall j: nat | IsEnd(c, j) && n.next <= j
      ensures RowAt(c, n.id, m.comm[j % c.ring], j, Comms(h, j), TxnOf(c, m.txns, j).prepared)
    {
      if j % c.ring == k % c.ring {
        NoSelf(c, n.id, h, j);
        if j != k && TxnOf(c, m.txns, j).prepared {
          P.PreparedImpliesAccepted(c, m, acc, j);
          A.LiveSlots(c, n.next, j, k);
        }
        OwnPut(c, n.id, n.comm[j % c.ring], j, Comms(h, j), TxnOf(c, n.txns, j).prepared, v, TxnOf(c, m.txns, j).prepared);
      }
    }
    forall j: nat ensures Queued(c, m.out, j) <==> Queued(c, n.out, j) {
      assert Commit(v) != Execute(ExecOf(c, if 0 < j then j else 1));
    }
  }

  lemma NoSelf(c: Plain, id: nat, h: Hist, k: nat)
    requires HistOk(c, id, h)
    ensures id !in Preps(h, k) && id !in Comms(h, k)
  {
  }

  // ------------------------------------------------ taking a batch in

  /** A batch none of whose ids is in its slot installs without a failed assertion. */
  lemma {:induction false} InstallFresh(c: Plain, n: Node, b: Batch, k: nat)
    requires Shaped(c, n) && R.Consecutive(c, b) && k <= c.batch
    requires forall i :: 0 <= i < c.batch ==> n.pre[b.index[i] % c.ring].index != b.index[i]
    ensures Install(c, n, b, k, true).Ok?
    ensures forall i :: k <= i < c.batch ==> Install(c, n, b, k, true).node.pre[b.index[i] % c.ring].index != b.index[i]
  {
    if 0 < k {
      InstallFresh(c, n, b, k - 1);
    }
  }

  /** Slots the batch does not use keep their entries. */
  lemma {:induction false} InstallOther(c: Plain, n: Node, b: Batch, k: nat, s: nat, check: bool)
    requires Shaped(c, n) && BatchShaped(c, b) && k <= c.batch && s < c.ring
    requires forall i :: 0 <= i < k ==> b.index[i] % c.ring != s
    requires Install(c, n, b, k, check).Ok?
    ensures Install(c, n, b, k, check).node.pre[s] == n.pre[s] && Install(c, n, b, k, check).node.cqry[s] == n.cqry[s]
  {
    if 0 < k {
      InstallOther(c, n, b, k - 1, s, check);
    }
  }

  lemma FreshSlots(c: Plain, n: Node, acc: Accepted, b: Batch)
    requires Inv(c, n, acc) && |n.pre| == c.ring && GoodBatch(c, b) && LastId(b) !in acc
    ensures forall i :: 0 <= i < c.batch ==> n.pre[b.index[i] % c.ring].index != b.index[i]
  {
    hide SlotsOk, SentOk, ExecsOk, PreparedOk, LogOk, Shaped;
    EndIsLate(c, LastId(b));
    forall i | 0 <= i < c.batch
      ensures n.pre[b.index[i] % c.ring].index != b.index[i]
    {
      EndOfMember(c, LastId(b), b.index[i]);
      assert PreOk(c, n.pre[b.index[i] % c.ring], b.index[i] % c.ring, acc);
    }
  }

  /** What a fresh batch does to the stores, for the primary and for a backup. */
  lemma TakeInstalled(c: Plain, n: Node, acc: Accepted, b: Batch, check: bool)
    requires Inv(c, n, acc) && Shaped(c, n) && AcceptedOk(c, acc) && GoodBatch(c, b) && LastId(b) !in acc
    requires A.WindowOk(c, n.next, acc) && LastId(b) < n.next + c.ring && Installed(c, n.pre, n.cqry, n.next, acc)
    requires Install(c, n, b, c.batch, check).Ok?
    ensures var m := Install(c, n, b, c.batch, check).node; Shaped(c, m) && Installed(c, m.pre, m.cqry, n.next, acc[LastId(b) := b])
  {
    hide Inv, Install, Shaped, AcceptedOk;
    var m, acc' := Install(c, n, b, c.batch, check).node, acc[LastId(b) := b];
    P.FreshAhead(c, n, acc, b);
    StoreSizes(c, n);
    StoreSizes(c, m);
    forall x: nat | Holds(c, acc', x) && n.next <= x
      ensures m.pre[x % c.ring].txnId == x && m.cqry[x % c.ring].txnId == x
    {
      if b.index[0] <= x <= LastId(b) {
        var i := x - b.index[0];
        R.InstalledQuery(c, n, b, c.batch, i, check);
      } else {
        if !Holds(c, acc, x) { GrowOnlyBatch(c, acc, b, x); }
        EndOfIsEnd(c, x);
        forall i | 0 <= i < c.batch
          ensures b.index[i] % c.ring != x % c.ring
        {
          if b.index[i] % c.ring == x % c.ring { A.LiveSlots(c, n.next, b.index[i], x); }
        }
        InstallOther(c, n, b, c.batch, x % c.ring, check);
      }
    }
  }

  /** All of Stored but the node's own prepare, which only a backup casts. */
  lemma TakeStored(c: Plain, n: Node, acc: Accepted, h: Hist, b: Batch, check: bool)
    requires Stored(c, n, acc, h) && GoodBatch(c, b) && LastId(b) !in acc && LastId(b) < n.next + c.ring
    requires forall i :: 0 <= i < c.batch ==> b.hash[i] == DigestOf(b.reqs[i].req)
    requires Install(c, n, b, c.batch, check).Ok?
    ensures var m, acc' := Append(c, Install(c, n, b, c.batch, check).node, b, c.batch), acc[LastId(b) := b];
            && Inv(c, m, acc') && Shaped(c, m) && A.Rows(c, m.prep) && A.Rows(c, m.comm)
            && m == n.(pre := m.pre, cqry := m.cqry, txns := m.txns)
            && AcceptedOk(c, acc') && A.WindowOk(c, m.next, acc')
            && CommRows(c, m.id, m.comm, m.next, m.txns, h)
            && Installed(c, m.pre, m.cqry, m.next, acc')
            && Counted(c, m.txns, h)
            && (forall k: nat :: TxnOf(c, m.txns, k).prepared == TxnOf(c, n.txns, k).prepared
                              && TxnOf(c, m.txns, k).committed == TxnOf(c, n.txns, k).committed)
  {
    hide Inv, Shaped, PrepRows, HistOk, AcceptedOk, GoodBatch, Install, Append, Installed, RowAt, IsEnd;
    P.GoodShaped(c, b);
    P.TakeInv(c, n, acc, b, check);
    var s := Install(c, n, b, c.batch, check).node;
    var m, acc' := Append(c, s, b, c.batch), acc[LastId(b) := b];
    A.InvRows(c, m, acc');
    TakeInstalled(c, n, acc, b, check);
    R.AppendKeeps(c, s, b, c.batch);
    R.InstallOnlyStores(c, n, b, c.batch, check);
    forall k: nat
      ensures var t, t' := TxnOf(c, n.txns, k), TxnOf(c, m.txns, k);
              t'.prepCnt == t.prepCnt && t'.commitCnt == t.commitCnt && t'.prepared == t.prepared && t'.committed == t.committed
    {
      assert Mgr(c, n, k) == TxnOf(c, n.txns, k) && Mgr(c, m, k) == TxnOf(c, m.txns, k);
    }
  }

  /** A backup's own prepare for the batch it has just taken in. */
  lemma OwnPrepStored(c: Plain, n: Node, acc0: Accepted, h: Hist, b: Batch)
    requires b.index != [] && Shaped(c, n) && A.Rows(c, n.prep) && A.Rows(c, n.comm)
    requires n.id != c.primary && n.next <= LastId(b) && LastId(b) !in acc0 && HistOk(c, n.id, h)
    requires PrepRows(c, n.id, n.prep, n.next, acc0, h)
    requires var acc := acc0[LastId(b) := b];
             && Inv(c, n, acc) && AcceptedOk(c, acc) && A.WindowOk(c, n.next, acc)
             && CommRows(c, n.id, n.comm, n.next, n.txns, h)
             && Installed(c, n.pre, n.cqry, n.next, acc)
             && Counted(c, n.txns, h)
    ensures SendPrep(c, n, LastId(b)).Ok?
    ensures Stored(c, SendPrep(c, n, LastId(b)).node, acc0[LastId(b) := b], h)
    ensures var m := SendPrep(c, n, LastId(b)).node;
            && m == n.(prep := m.prep, out := m.out) && (forall j: nat :: Queued(c, m.out, j) <==> Queued(c, n.out, j))
            && m.out == n.out + [Prepare(Own(c, acc0[LastId(b) := b], LastId(b), n.id))]
            && LastId(b) % c.ring < |n.prep| && n.id < |n.prep[LastId(b) % c.ring]|
            && m.prep == n.prep[LastId(b) % c.ring := n.prep[LastId(b) % c.ring][n.id := Own(c, acc0[LastId(b) := b], LastId(b), n.id)]]
  {
    hide Inv, Shaped, HistOk, AcceptedOk, Installed, RowAt, CommRows, Counted, OwnVote;
    var k, acc := LastId(b), acc0[LastId(b) := b];
    OwnVoteLive(c, n, acc, k);
    StoreSizes(c, n);
    P.SendPrepInv(c, n, acc, k);
    var v, m := OwnVote(c, n, k), SendPrep(c, n, k).node;
    A.InvRows(c, m, acc);
    forall j: nat | IsEnd(c, j) && n.next <= j
      ensures RowAt(c, n.id, m.prep[j % c.ring], j, Preps(h, j), j in acc)
    {
      if j % c.ring == k % c.ring {
        NoSelf(c, n.id, h, j);
        if j != k && j in acc { A.LiveSlots(c, n.next, j, k); }
        OwnPut(c, n.id, n.prep[j % c.ring], j, Preps(h, j), j in acc0, v, j in acc);
      }
    }
    forall j: nat ensures Queued(c, m.out, j) <==> Queued(c, n.out, j) {
      assert Prepare(v) != Execute(ExecOf(c, if 0 < j then j else 1));
    }
  }

  // ------------------------------------------------ queueing an execution

  /** A prepared live batch with its commits is queued, and nothing else changes. */
  lemma ExecStored(c: Plain, n: Node, acc: Accepted, h: Hist, k: nat, msg: Vote)
    requires Stored(c, n, acc, h) && k in acc && n.next <= k && Mgr(c, n, k).prepared && !Queued(c, n.out, k)
    requires 2 * c.f <= |Preps(h, k)| && 2 * c.f + 1 <= |Comms(h, k)| && msg.txnId == k && msg.index == BatchStart(c, k)
    requires !Clash(Slot(c, n.prep, k), Slot(c, n.comm, k), k)
    ensures var r := TryExecute(c, n, k, msg);
            && r.Ok? && Stored(c, r.node, acc, h)
            && r.node == SetMgr(n, k, Mgr(c, n, k).(committed := true)).(out := r.node.out)
            && (forall j: nat :: Queued(c, r.node.out, j) <==> Queued(c, n.out, j) || j == k)
            && n.out <= r.node.out
  {
    hide Inv, Shaped, Installed, BatchStart, RowAt, HistOk, AcceptedOk, PrepRows, CommittedVerdict, ExecFor, A.WindowOk, IsEnd, Clash;
    StoredParts(c, n, acc, h);
    P.AcceptedLate(c, acc, k);
    CommittedLive(c, n, acc, h, k, msg);
    assert n.pre[(k - 1) % c.ring].txnId == k - 1 by {
      LiveInstalled(c, n, acc, k);
      assert k + 1 - c.batch <= k - 1 <= k;
    }
    P.ExecForIsExecOf(c, n, acc, k);
    P.TryExecuteInv(c, n, acc, k, msg);
    var m := TryExecute(c, n, k, msg).node;
    A.InvRows(c, m, acc);
    forall j: nat
      ensures Queued(c, m.out, j) <==> Queued(c, n.out, j) || j == k
    {
      assert m.out == n.out + [Execute(ExecOf(c, k))];
    }
  }

  // ------------------------------------------------ the handlers

  /** Only batch k's flags and queue entry may differ. */
  ghost predicate OnlyAt(c: Plain, n: Node, m: Node, k: nat) {
    forall j: nat :: IsEnd(c, j) && j != k ==>
      && TxnOf(c, m.txns, j).prepared == TxnOf(c, n.txns, j).prepared
      && TxnOf(c, m.txns, j).committed == TxnOf(c, n.txns, j).committed
      && (Queued(c, m.out, j) <==> Queued(c, n.out, j))
  }

  /** Only batch k's deliveries and acceptance may differ. */
  ghost predicate SameBut(acc: Accepted, h: Hist, passed: set<nat>, acc': Accepted, h': Hist, passed': set<nat>, k: nat) {
    forall j: nat :: j != k ==>
      && (j in acc' <==> j in acc)
      && (j in acc && j in acc' ==> acc'[j] == acc[j])
      && Preps(h', j) == Preps(h, j)
      && Comms(h', j) == Comms(h, j)
      && (j in passed' <==> j in passed)
  }

  lemma FlagsFollow(c: Plain, n: Node, m: Node, acc: Accepted, h: Hist, passed: set<nat>, acc': Accepted, h': Hist, passed': set<nat>, k: nat)
    requires Flagged(c, n.txns, n.out, acc, h, passed) && OnlyAt(c, n, m, k) && SameBut(acc, h, passed, acc', h', passed', k)
    requires FlagAt(c, TxnOf(c, m.txns, k), Queued(c, m.out, k), acc', h', passed', k)
    ensures Flagged(c, m.txns, m.out, acc', h', passed')
  {
    hide Queued, IsEnd, TxnOf;
  }

  lemma VotedFollow(c: Plain, id: nat, out: seq<Msg>, out': seq<Msg>, acc: Accepted, h: Hist, passed: set<nat>,
                    acc': Accepted, h': Hist, passed': set<nat>, k: nat)
    requires Voted(c, id, out, acc, h) && out <= out' && SameBut(acc, h, passed, acc', h', passed', k)
    requires id != c.primary && k in acc' ==> Prepare(Own(c, acc', k, id)) in out'
    requires HasPrepareQuorum(c, acc', h', k) ==> Commit(Own(c, acc', k, id)) in out'
    ensures Voted(c, id, out', acc', h')
  {
    hide VoteFor, IsEnd, Preps, Comms;
    forall m | m in out ensures m in out' {
      StillSent(out, out', m);
    }
  }

  lemma VotedGrows(c: Plain, id: nat, out: seq<Msg>, out': seq<Msg>, acc: Accepted, h: Hist)
    requires Voted(c, id, out, acc, h) && out <= out'
    ensures Voted(c, id, out', acc, h)
  {
    hide VoteFor, IsEnd, Preps;
    forall m | m in out ensures m in out' {
      StillSent(out, out', m);
    }
  }

  /** What was sent stays sent. */
  lemma VotedAt(c: Plain, id: nat, out: seq<Msg>, out': seq<Msg>, acc: Accepted, h: Hist, k: nat)
    requires Voted(c, id, out, acc, h) && out <= out' && IsEnd(c, k)
    ensures id != c.primary && k in acc ==> Prepare(Own(c, acc, k, id)) in out'
    ensures HasPrepareQuorum(c, acc, h, k) ==> Commit(Own(c, acc, k, id)) in out'
  {
    hide VoteFor, IsEnd;
    forall m | m in out ensures m in out' {
      StillSent(out, out', m);
    }
  }

  lemma PassedFollow(c: Plain, acc: Accepted, h: Hist, passed: set<nat>, acc': Accepted, h': Hist, k: nat)
    requires PassedOk(c, acc, h, passed)
    requires SameBut(acc, h, passed, acc', h', Passed(c, acc', h', passed, k), k)
    requires k in acc ==> k in acc' && |Comms(h, k)| <= |Comms(h', k)|
    ensures PassedOk(c, acc', h', Passed(c, acc', h', passed, k))
  {
  }

  /** A batch not queued is live. */
  lemma UnqueuedLive(c: Plain, n: Node, acc: Accepted, h: Hist, k: nat)
    requires Stored(c, n, acc, h) && IsEnd(c, k) && !Queued(c, n.out, k)
    ensures n.next <= k
  {
    hide Inv, Shaped, PrepRows, CommRows, Counted, Installed, A.WindowOk, HistOk, IsEnd, Queued;
    A.NotQueuedLive(c, n, acc, k);
  }

  lemma CountAt(c: Plain, n: Node, acc: Accepted, h: Hist, k: nat)
    requires Stored(c, n, acc, h) && IsEnd(c, k)
    ensures Mgr(c, n, k).prepCnt == 2 * c.f - |Preps(h, k)| && Mgr(c, n, k).commitCnt == 2 * c.f + 1 - |Comms(h, k)|
  {
    hide Inv, Shaped, PrepRows, CommRows, Installed, A.WindowOk, HistOk, IsEnd;
  }

  // ------------------------------------------------ when an assertion fails

  /** A row with one vote put in its sender's column. */
  function Put(row: seq<Vote>, v: Vote): seq<Vote> { if v.sender < |row| then row[v.sender := v] else row }

  /** A prepare is fatal if it is of another view, or the 2f-th the primary hears of a
      batch it has not made. */
  ghost predicate FatalPrep(c: Plain, n: Node, acc: Accepted, h: Hist, v: Vote) {
    || v.view != c.primary
    || (n.id == c.primary && v.txnId !in acc && |Preps(h, v.txnId)| + 1 == 2 * c.f)
  }

  /** A commit is fatal if it is of another view, or the (2f+1)-th of a prepared batch
      and some stored commit clashes with the first stored prepare. */
  ghost predicate FatalCommit(c: Plain, n: Node, acc: Accepted, h: Hist, v: Vote) {
    || v.view != c.primary
    || (HasPrepareQuorum(c, acc, h, v.txnId) && |Comms(h, v.txnId)| == 2 * c.f
        && Clash(Slot(c, n.prep, v.txnId), Put(Slot(c, n.comm, v.txnId), v), v.txnId))
  }

  ghost predicate FatalCatchUp(c: Plain, n: Node, acc: Accepted, h: Hist, k: nat) {
    && 2 * c.f <= |Preps(h, k)| && 2 * c.f + 1 <= |Comms(h, k)|
    && Clash(Slot(c, n.prep, k), Put(Slot(c, n.comm, k), Own(c, acc, k, n.id)), k)
  }

  /** A batch is fatal if a hash or the view is wrong, or if both quorums came before
      it and a commit clashes, the node's own votes counted. */
  ghost predicate FatalBatch(c: Plain, n: Node, h: Hist, b: Batch)
    requires BatchShaped(c, b)
  {
    var k := LastId(b);
    var own := VoteFor(c, k, LastHash(c, b), n.id);
    || b.view != c.primary
    || (exists i :: 0 <= i < c.batch && b.hash[i] != DigestOf(b.reqs[i].req))
    || (2 * c.f <= |Preps(h, k)| && 2 * c.f + 1 <= |Comms(h, k)|
        && Clash(Put(Slot(c, n.prep, k), own), Put(Slot(c, n.comm, k), own), k))
  }

  /** An execution is fatal if it is not of the next batch. */
  ghost predicate Fatal(c: Plain, n: Node, acc: Accepted, h: Hist, e: Event)
    requires EventShaped(c, e)
  {
    match e
    case PrepArrives(v) => FatalPrep(c, n, acc, h, v)
    case CommitArrives(v) => FatalCommit(c, n, acc, h, v)
    case BatchArrives(b) => FatalBatch(c, n, h, b)
    case RunExec(x) => x.index != n.next
    case _ => false
  }

  /** What the prepare handler does, flags apart. */
  lemma PrepStep(c: Plain, n: Node, acc: Accepted, h: Hist, v: Vote)
    requires Stored(c, n, acc, h) && Orderly(c, n, acc, h, PrepArrives(v))
    requires !Mgr(c, n, v.txnId).prepared ==> !Queued(c, n.out, v.txnId)
    ensures ProcessPrep(c, n, v).Crash? <==> FatalPrep(c, n, acc, h, v)
    ensures ProcessPrep(c, n, v).Ok? ==>
            var m, k, t := ProcessPrep(c, n, v).node, v.txnId, Mgr(c, n, v.txnId);
            && Stored(c, m, acc, Heard(h, PrepArrives(v)))
            && m.id == n.id && m.next == n.next && OnlyAt(c, n, m, k)
            && Mgr(c, m, k).prepared == (t.prepared || (t.prepCnt == 1 && k in acc))
            && Mgr(c, m, k).committed == t.committed
            && (Queued(c, m.out, k) <==> Queued(c, n.out, k))
            && n.out <= m.out
            && (t.prepCnt == 1 && !t.prepared && k in acc ==> Commit(Own(c, acc, k, n.id)) in m.out)
  {
    hide Stored, Inv, Shaped, IsEnd, PreparedVerdict, SendCommit, PutPrep, Queued, InOrder, A.Windowed, Heard, VoteFor, Preps, Comms, Slot, BatchStart,
         DigestAt, Tagged;
    var k, h' := v.txnId, Heard(h, PrepArrives(v));
    var t := Mgr(c, n, k);
    if v.view != c.primary { return; }
    PrepStored(c, n, acc, h, v);
    P.PutPrepInvKeeps(c, n, v);
    var m := SetMgr(PutPrep(c, n, v), k, t.(prepCnt := t.prepCnt - 1));
    CountAt(c, n, acc, h, k);
    StoredParts(c, n, acc, h);
    P.PreparedImpliesAccepted(c, n, acc, k);
    StoredParts(c, m, acc, h');
    if t.prepCnt == 1 && !t.prepared {
      if k in acc {
        UnqueuedLive(c, m, acc, h', k);
        PreparedLive(c, m, acc, h', k);
        MarkStored(c, m, acc, h', k);
      } else {
        PreparedWithoutBatch(c, m, acc, h', k);
        StoredVote(c, n, v);
        TaggedHas(Slot(c, m.prep, k), v.sender, k);
      }
    }
  }

  lemma StoredVote(c: Plain, n: Node, v: Vote)
    requires Shaped(c, n) && v.sender < c.Nodes() && v.txnId == v.endIndex
    ensures var row := Slot(c, PutPrep(c, n, v).prep, v.txnId); v.sender < |row| && row[v.sender] == v
  {
  }

  /** The flags, the passed batches and the votes sent, after a prepare. */
  lemma PrepFollows(c: Plain, n: Node, m: Node, acc: Accepted, h: Hist, passed: set<nat>, v: Vote)
    requires Fine(c, n, acc, h, passed) && Stored(c, m, acc, Heard(h, PrepArrives(v))) && IsEnd(c, v.txnId)
    requires m.id == n.id && OnlyAt(c, n, m, v.txnId) && n.out <= m.out
    requires |Preps(Heard(h, PrepArrives(v)), v.txnId)| == |Preps(h, v.txnId)| + 1
    requires n.id == c.primary && v.txnId !in acc ==> |Preps(h, v.txnId)| + 1 != 2 * c.f
    requires var k, t, t' := v.txnId, Mgr(c, n, v.txnId), Mgr(c, m, v.txnId);
             && t.prepCnt == 2 * c.f - |Preps(h, k)|
             && t'.prepared == (t.prepared || (t.prepCnt == 1 && k in acc)) && t'.committed == t.committed
             && (Queued(c, m.out, k) <==> Queued(c, n.out, k))
             && (t.prepCnt == 1 && !t.prepared && k in acc ==> Commit(Own(c, acc, k, n.id)) in m.out)
    ensures var h' := Heard(h, PrepArrives(v)); Fine(c, m, acc, h', Passed(c, acc, h', passed, v.txnId))
  {
    hide Stored, Queued, IsEnd, OnlyAt, Own;
    var k, h' := v.txnId, Heard(h, PrepArrives(v));
    assert FlagAt(c, Mgr(c, n, k), Queued(c, n.out, k), acc, h, passed, k);
    FlagsFollow(c, n, m, acc, h, passed, acc, h', Passed(c, acc, h', passed, k), k);
    PassedFollow(c, acc, h, passed, acc, h', k);
    VotedAt(c, n.id, n.out, m.out, acc, h, k);
    VotedFollow(c, n.id, n.out, m.out, acc, h, passed, acc, h', Passed(c, acc, h', passed, k), k);
  }

  lemma PrepFine(c: Plain, n: Node, acc: Accepted, h: Hist, passed: set<nat>, v: Vote)
    requires Fine(c, n, acc, h, passed) && Orderly(c, n, acc, h, PrepArrives(v))
    ensures ProcessPrep(c, n, v).Crash? <==> FatalPrep(c, n, acc, h, v)
    ensures ProcessPrep(c, n, v).Ok? ==>
            var h' := Heard(h, PrepArrives(v));
            Fine(c, ProcessPrep(c, n, v).node, acc, h', Passed(c, acc, h', passed, v.txnId))
  {
    hide Stored, ProcessPrep, Shaped, Queued, IsEnd, InOrder, A.Windowed, OnlyAt, Own, BatchStart, Heard, Voted, PassedOk, PrimaryEarly, Preps, Comms;
    assert FlagAt(c, Mgr(c, n, v.txnId), Queued(c, n.out, v.txnId), acc, h, passed, v.txnId);
    PrepStep(c, n, acc, h, v);
    if ProcessPrep(c, n, v).Ok? {
      PrepStored(c, n, acc, h, v);
      CountAt(c, n, acc, h, v.txnId);
      PrepFollows(c, n, ProcessPrep(c, n, v).node, acc, h, passed, v);
    }
  }

  /** The commit handler up to its last call. */
  function OneCommit(c: Plain, n: Node, v: Vote): (m: Node)
    requires Shaped(c, n) && v.sender < c.Nodes()
    ensures Shaped(c, m)
  {
    var t := Mgr(c, n, v.txnId);
    SetMgr(PutComm(c, n, v), v.txnId, t.(commitCnt := t.commitCnt - 1))
  }

  lemma OneCommitIs(c: Plain, n: Node, v: Vote)
    requires Shaped(c, n) && v.sender < c.Nodes()
    ensures var m, t := OneCommit(c, n, v), Mgr(c, n, v.txnId);
            && m == n.(comm := m.comm, txns := m.txns) && Mgr(c, m, v.txnId) == t.(commitCnt := t.commitCnt - 1)
            && OnlyAt(c, n, m, v.txnId)
            && (v.view == c.primary ==>
                  ProcessCommit(c, n, v) == if t.commitCnt == 1 && !t.committed then TryExecute(c, m, v.txnId, v) else Ok(m))
  {
    hide PutComm, TryExecute;
    P.PutCommInvKeeps(c, n, v);
  }

  /** What the commit handler does, flags apart. */
  lemma CommitStep(c: Plain, n: Node, acc: Accepted, h: Hist, v: Vote)
    requires Stored(c, n, acc, h) && Orderly(c, n, acc, h, CommitArrives(v))
    requires var t := Mgr(c, n, v.txnId);
             && (t.prepared <==> HasPrepareQuorum(c, acc, h, v.txnId))
             && (t.committed ==> 2 * c.f + 1 <= |Comms(h, v.txnId)|)
             && (!t.committed ==> !Queued(c, n.out, v.txnId))
    ensures ProcessCommit(c, n, v).Crash? <==> FatalCommit(c, n, acc, h, v)
    ensures ProcessCommit(c, n, v).Ok? ==>
            var m, k, t := ProcessCommit(c, n, v).node, v.txnId, Mgr(c, n, v.txnId);
            && Stored(c, m, acc, Heard(h, CommitArrives(v)))
            && m.id == n.id && m.next == n.next && OnlyAt(c, n, m, k)
            && Mgr(c, m, k).prepared == t.prepared
            && Mgr(c, m, k).committed == (t.committed || (t.commitCnt == 1 && t.prepared))
            && (Queued(c, m.out, k) <==> Queued(c, n.out, k) || (!t.committed && t.commitCnt == 1 && t.prepared))
            && n.out <= m.out
  {
    hide Stored, Inv, Shaped, IsEnd, TryExecute, PutComm, Queued, InOrder, A.Windowed, Clash, ProcessCommit, OneCommit, Heard, Slot, Put;
    var k, h' := v.txnId, Heard(h, CommitArrives(v));
    var t, m := Mgr(c, n, k), OneCommit(c, n, v);
    if v.view != c.primary {
      WrongView(c, n, v);
      return;
    }
    OneCommitIs(c, n, v);
    CommStored(c, n, acc, h, v);
    assert Stored(c, m, acc, h') by { OneCommitUnfold(c, n, v); }
    CountAt(c, n, acc, h, k);
    SlotCommit(c, n, v);
    if t.commitCnt == 1 && !t.committed {
      if t.prepared {
        UnqueuedLive(c, m, acc, h', k);
        HeardSame(c, h, v);
        ExecOrAbort(c, m, acc, h', k, v);
      } else {
        NotPreparedNoExec(c, m, k, v);
      }
    }
  }

  lemma OneCommitUnfold(c: Plain, n: Node, v: Vote)
    requires Shaped(c, n) && v.sender < c.Nodes()
    ensures var t := Mgr(c, n, v.txnId);
            OneCommit(c, n, v) == SetMgr(PutComm(c, n, v), v.txnId, t.(commitCnt := t.commitCnt - 1))
  {
  }

  lemma WrongView(c: Plain, n: Node, v: Vote)
    requires Shaped(c, n) && v.sender < c.Nodes() && v.view != c.primary
    ensures ProcessCommit(c, n, v).Crash? && ProcessPrep(c, n, v).Crash?
  {
  }

  lemma HeardSame(c: Plain, h: Hist, v: Vote)
    ensures Preps(Heard(h, CommitArrives(v)), v.txnId) == Preps(h, v.txnId)
  {
  }

  lemma SlotCommit(c: Plain, n: Node, v: Vote)
    requires Shaped(c, n) && v.sender < c.Nodes() && v.txnId == v.endIndex
    ensures Slot(c, OneCommit(c, n, v).comm, v.txnId) == Put(Slot(c, n.comm, v.txnId), v)
    ensures OneCommit(c, n, v).prep == n.prep
  {
  }

  /** The flags, the passed batches and the votes sent, after a commit. */
  lemma CommitFollows(c: Plain, n: Node, m: Node, acc: Accepted, h: Hist, passed: set<nat>, v: Vote)
    requires Fine(c, n, acc, h, passed) && Stored(c, m, acc, Heard(h, CommitArrives(v))) && IsEnd(c, v.txnId)
    requires m.id == n.id && OnlyAt(c, n, m, v.txnId) && n.out <= m.out
    requires |Comms(Heard(h, CommitArrives(v)), v.txnId)| == |Comms(h, v.txnId)| + 1
    requires var k, t, t' := v.txnId, Mgr(c, n, v.txnId), Mgr(c, m, v.txnId);
             && t.commitCnt == 2 * c.f + 1 - |Comms(h, k)|
             && t'.prepared == t.prepared && t'.committed == (t.committed || (t.commitCnt == 1 && t.prepared))
             && (Queued(c, m.out, k) <==> Queued(c, n.out, k) || (!t.committed && t.commitCnt == 1 && t.prepared))
    ensures var h' := Heard(h, CommitArrives(v)); Fine(c, m, acc, h', Passed(c, acc, h', passed, v.txnId))
  {
    hide Stored, Queued, IsEnd, OnlyAt, Own;
    var k, h' := v.txnId, Heard(h, CommitArrives(v));
    assert FlagAt(c, Mgr(c, n, k), Queued(c, n.out, k), acc, h, passed, k);
    FlagsFollow(c, n, m, acc, h, passed, acc, h', Passed(c, acc, h', passed, k), k);
    PassedFollow(c, acc, h, passed, acc, h', k);
    VotedAt(c, n.id, n.out, m.out, acc, h, k);
    VotedFollow(c, n.id, n.out, m.out, acc, h, passed, acc, h', Passed(c, acc, h', passed, k), k);
  }

  lemma CommitFine(c: Plain, n: Node, acc: Accepted, h: Hist, passed: set<nat>, v: Vote)
    requires Fine(c, n, acc, h, passed) && Orderly(c, n, acc, h, CommitArrives(v))
    ensures ProcessCommit(c, n, v).Crash? <==> FatalCommit(c, n, acc, h, v)
    ensures ProcessCommit(c, n, v).Ok? ==>
            var h' := Heard(h, CommitArrives(v));
            Fine(c, ProcessCommit(c, n, v).node, acc, h', Passed(c, acc, h', passed, v.txnId))
  {
    hide Stored, ProcessCommit, Shaped, Queued, IsEnd, InOrder, A.Windowed, OnlyAt, Own, BatchStart, Heard, Voted, PassedOk, PrimaryEarly, Preps, Comms,
         Clash, Put, Slot;
    assert FlagAt(c, Mgr(c, n, v.txnId), Queued(c, n.out, v.txnId), acc, h, passed, v.txnId);
    CommitStep(c, n, acc, h, v);
    if ProcessCommit(c, n, v).Ok? {
      CommStored(c, n, acc, h, v);
      CountAt(c, n, acc, h, v.txnId);
      CommitFollows(c, n, ProcessCommit(c, n, v).node, acc, h, passed, v);
    }
  }

  /** TryExecute on a live prepared batch with its commits: it fails exactly on a
      clash, and queues the batch otherwise. */
  lemma ExecOrAbort(c: Plain, n: Node, acc: Accepted, h: Hist, k: nat, msg: Vote)
    requires Stored(c, n, acc, h) && k in acc && n.next <= k && Mgr(c, n, k).prepared && !Queued(c, n.out, k)
    requires 2 * c.f <= |Preps(h, k)| && 2 * c.f + 1 <= |Comms(h, k)| && msg.txnId == k && msg.index == BatchStart(c, k)
    ensures Shaped(c, n)
    ensures TryExecute(c, n, k, msg).Crash? <==> Clash(Slot(c, n.prep, k), Slot(c, n.comm, k), k)
    ensures var r := TryExecute(c, n, k, msg);
            r.Ok? ==>
            && Stored(c, r.node, acc, h)
            && r.node == SetMgr(n, k, Mgr(c, n, k).(committed := true)).(out := r.node.out)
            && (forall j: nat :: Queued(c, r.node.out, j) <==> Queued(c, n.out, j) || j == k)
            && n.out <= r.node.out
  {
    hide Stored, Inv, Shaped, IsEnd, Queued, Preps, Comms, Clash, CommittedVerdict, ExecFor, BatchStart;
    StoredParts(c, n, acc, h);
    P.AcceptedLate(c, acc, k);
    CommittedLive(c, n, acc, h, k, msg);
    if !Clash(Slot(c, n.prep, k), Slot(c, n.comm, k), k) {
      ExecStored(c, n, acc, h, k, msg);
    }
  }

  lemma NotPreparedNoExec(c: Plain, n: Node, k: nat, msg: Vote)
    requires Shaped(c, n) && !Mgr(c, n, k).prepared
    ensures TryExecute(c, n, k, msg) == Ok(n)
  {
  }

  /** The commit CatchUp passes on is one for its own batch. */
  lemma CatchUpMessage(c: Plain, n: Node, acc: Accepted, h: Hist, k: nat)
    requires Stored(c, n, acc, h) && IsEnd(c, k) && n.next <= k && Mgr(c, n, k).prepared
    ensures n.comm[k % c.ring] != []
    ensures var w := FirstWithTxn(n.comm[k % c.ring], k); w.txnId == k && w.index == BatchStart(c, k)
  {
    hide Inv, Shaped, PrepRows, Counted, BatchStart, IsEnd, A.WindowOk, Installed, Comms, FirstWithTxn;
    A.InvSlots(c, n, acc);
    var row := n.comm[k % c.ring];
    FirstTxnFinds(row, k, n.id);
    var r: nat :| r < c.Nodes() && row[r] == FirstWithTxn(row, k);
    A.IndexIsTag(c, n.comm, k % c.ring, r, k);
  }

  /** The tail of the batch handler, for a batch just taken in with 2f prepares: the
      node is prepared, and its commit stored and sent. */
  lemma CatchUpCommits(c: Plain, n: Node, acc: Accepted, h: Hist, k: nat)
    requires Stored(c, n, acc, h) && k in acc && n.id != c.primary && n.next <= k
    requires !Mgr(c, n, k).prepared && !Mgr(c, n, k).committed && !Queued(c, n.out, k)
    ensures Shaped(c, n)
    ensures |Preps(h, k)| < 2 * c.f ==> CatchUp(c, n, k) == Ok(n)
    ensures 2 * c.f <= |Preps(h, k)| ==>
            var r := SendCommit(c, MarkPrepared(c, n, k), k);
            && r.Ok? && Stored(c, r.node, acc, h) && OnlyAt(c, n, r.node, k)
            && r.node.id == n.id && r.node.next == n.next && Mgr(c, r.node, k) == Mgr(c, n, k).(prepared := true)
            && r.node.out == n.out + [Commit(Own(c, acc, k, n.id))] && !Queued(c, r.node.out, k)
            && Slot(c, r.node.prep, k) == Slot(c, n.prep, k)
            && Slot(c, r.node.comm, k) == Put(Slot(c, n.comm, k), Own(c, acc, k, n.id))
            && r.node.comm != [] && k % c.ring < |r.node.comm| && r.node.comm[k % c.ring] != []
            && CatchUp(c, n, k) == if |Comms(h, k)| < 2 * c.f + 1 then r
                                   else TryExecute(c, r.node, k, FirstWithTxn(r.node.comm[k % c.ring], k))
  {
    hide Stored, Inv, Shaped, IsEnd, PreparedVerdict, SendCommit, TryExecute, Queued, Preps, Comms, MarkPrepared, FirstWithTxn, BatchStart;
    StoredParts(c, n, acc, h);
    P.AcceptedLate(c, acc, k);
    CountAt(c, n, acc, h, k);
    if 2 * c.f <= |Preps(h, k)| {
      PreparedLive(c, n, acc, h, k);
      MarkStored(c, n, acc, h, k);
      MarkAt(c, n, k);
      var r := SendCommit(c, MarkPrepared(c, n, k), k).node;
      StoredParts(c, r, acc, h);
      CountAt(c, r, acc, h, k);
      A.RowsHere(c, r, k);
    }
  }

  lemma CatchUpStep(c: Plain, n: Node, acc: Accepted, h: Hist, k: nat)
    requires Stored(c, n, acc, h) && k in acc && n.id != c.primary && n.next <= k
    requires !Mgr(c, n, k).prepared && !Mgr(c, n, k).committed && !Queued(c, n.out, k)
    ensures Shaped(c, n)
    ensures CatchUp(c, n, k).Crash? <==> FatalCatchUp(c, n, acc, h, k)
    ensures CatchUp(c, n, k).Ok? ==>
            var m := CatchUp(c, n, k).node;
            && Stored(c, m, acc, h)
            && m.id == n.id && m.next == n.next && OnlyAt(c, n, m, k)
            && Mgr(c, m, k).prepared == (2 * c.f <= |Preps(h, k)|)
            && Mgr(c, m, k).committed == (2 * c.f <= |Preps(h, k)| && 2 * c.f + 1 <= |Comms(h, k)|)
            && (Queued(c, m.out, k) <==> Mgr(c, m, k).committed)
            && n.out <= m.out
            && (2 * c.f <= |Preps(h, k)| ==> Commit(Own(c, acc, k, n.id)) in m.out)
  {
    hide Stored, Inv, Shaped, IsEnd, CatchUp, SendCommit, TryExecute, Queued, Preps, Comms, MarkPrepared, FirstWithTxn, BatchStart, Own, Clash,
         Slot, Put;
    CatchUpCommits(c, n, acc, h, k);
    if 2 * c.f <= |Preps(h, k)| && 2 * c.f + 1 <= |Comms(h, k)| {
      var r := SendCommit(c, MarkPrepared(c, n, k), k).node;
      assert IsEnd(c, k) by { StoredParts(c, n, acc, h); P.AcceptedLate(c, acc, k); }
      CatchUpMessage(c, r, acc, h, k);
      ExecOrAbort(c, r, acc, h, k, FirstWithTxn(r.comm[k % c.ring], k));
      if CatchUp(c, n, k).Ok? {
        assert Commit(Own(c, acc, k, n.id)) in r.out;
        StillSent(r.out, CatchUp(c, n, k).node.out, Commit(Own(c, acc, k, n.id)));
      }
    }
  }

  lemma StillSent(out: seq<Msg>, out': seq<Msg>, m: Msg)
    requires out <= out' && m in out
    ensures m in out'
  {
    var i :| 0 <= i < |out| && out[i] == m;
    assert out'[i] == m;
  }

  lemma MarkAt(c: Plain, n: Node, k: nat)
    ensures var m := MarkPrepared(c, n, k);
            && m == n.(txns := m.txns)
            && Mgr(c, m, k) == Mgr(c, n, k).(prepared := true)
            && forall j: nat :: j != k ==> TxnOf(c, m.txns, j) == TxnOf(c, n.txns, j)
  {
  }

  lemma FreshAccepts(c: Plain, n: Node, acc: Accepted, h: Hist, b: Batch)
    requires Stored(c, n, acc, h) && Orderly(c, n, acc, h, BatchArrives(b))
    ensures Accept(c, n, b).Ok? <==> b.view == c.primary && forall i :: 0 <= i < c.batch ==> b.hash[i] == DigestOf(b.reqs[i].req)
  {
    hide PrepRows, CommRows, Counted, Installed, HistOk, Install, Append, Inv, Shaped;
    StoreSizes(c, n);
    FreshSlots(c, n, acc, b);
    InstallFresh(c, n, b, c.batch);
  }

  /** What the batch handler does, flags apart. */
  lemma BatchStep(c: Plain, n: Node, acc: Accepted, h: Hist, b: Batch)
    requires Stored(c, n, acc, h) && Orderly(c, n, acc, h, BatchArrives(b))
    requires var t := Mgr(c, n, LastId(b)); !t.prepared && !t.committed && !Queued(c, n.out, LastId(b))
    ensures ProcessBatch(c, n, b).Crash? <==> FatalBatch(c, n, h, b)
    ensures ProcessBatch(c, n, b).Ok? ==>
            var m, k := ProcessBatch(c, n, b).node, LastId(b);
            && Stored(c, m, acc[k := b], h)
            && m.id == n.id && m.next == n.next && OnlyAt(c, n, m, k)
            && Mgr(c, m, k).prepared == (2 * c.f <= |Preps(h, k)|)
            && Mgr(c, m, k).committed == (2 * c.f <= |Preps(h, k)| && 2 * c.f + 1 <= |Comms(h, k)|)
            && (Queued(c, m.out, k) <==> Mgr(c, m, k).committed)
            && n.out <= m.out
            && Prepare(Own(c, acc[k := b], k, n.id)) in m.out
            && (2 * c.f <= |Preps(h, k)| ==> Commit(Own(c, acc[k := b], k, n.id)) in m.out)
  {
    hide Inv, Shaped, IsEnd, VoteFor, CatchUp, SendPrep, Queued, CommRows, Counted, Installed, HistOk, Accept, Install, Append, PrepRows,
         A.WindowOk, A.Rows, AcceptedOk, GoodBatch, Preps, Comms, Clash, DigestOf, Put;
    P.GoodShaped(c, b);
    var k, acc' := LastId(b), acc[LastId(b) := b];
    FreshAccepts(c, n, acc, h, b);
    if Accept(c, n, b).Crash? { return; }
    P.AcceptIsTake(c, n, b);
    TakeStored(c, n, acc, h, b, true);
    var a := Accept(c, n, b).node;
    A.Ahead(c, n, acc, b);
    OwnPrepStored(c, a, acc, h, b);
    var p := SendPrep(c, a, k).node;
    CatchUpStep(c, p, acc', h, k);
    OwnRows(c, n, p, acc, b);
    if CatchUp(c, p, k).Ok? {
      assert Prepare(Own(c, acc', k, n.id)) in p.out;
      StillSent(p.out, CatchUp(c, p, k).node.out, Prepare(Own(c, acc', k, n.id)));
    }
  }

  /** The rows the catch-up looks at are the old ones with the node's own votes. */
  lemma OwnRows(c: Plain, n: Node, p: Node, acc: Accepted, b: Batch)
    requires GoodBatch(c, b) && p.id == n.id && p.comm == n.comm
    requires LastId(b) % c.ring < |n.prep| && n.id < |n.prep[LastId(b) % c.ring]|
    requires p.prep == n.prep[LastId(b) % c.ring := n.prep[LastId(b) % c.ring][n.id := Own(c, acc[LastId(b) := b], LastId(b), n.id)]]
    ensures var own := VoteFor(c, LastId(b), LastHash(c, b), n.id);
            && Own(c, acc[LastId(b) := b], LastId(b), n.id) == own
            && Slot(c, p.prep, LastId(b)) == Put(Slot(c, n.prep, LastId(b)), own)
            && Slot(c, p.comm, LastId(b)) == Slot(c, n.comm, LastId(b))
  {
  }

  lemma BatchFine(c: Plain, n: Node, acc: Accepted, h: Hist, passed: set<nat>, b: Batch)
    requires Fine(c, n, acc, h, passed) && Orderly(c, n, acc, h, BatchArrives(b))
    ensures ProcessBatch(c, n, b).Crash? <==> FatalBatch(c, n, h, b)
    ensures ProcessBatch(c, n, b).Ok? ==>
            var acc' := acc[LastId(b) := b];
            Fine(c, ProcessBatch(c, n, b).node, acc', h, Passed(c, acc', h, passed, LastId(b)))
  {
    hide Stored, ProcessBatch, Shaped, Queued, A.Windowed, OnlyAt, Preps, Comms, R.Consecutive, FatalBatch, Own;
    var k, acc' := LastId(b), acc[LastId(b) := b];
    assert FlagAt(c, Mgr(c, n, k), Queued(c, n.out, k), acc, h, passed, k);
    BatchStep(c, n, acc, h, b);
    if ProcessBatch(c, n, b).Crash? { return; }
    FlagsFollow(c, n, ProcessBatch(c, n, b).node, acc, h, passed, acc', h, Passed(c, acc', h, passed, k), k);
    PassedFollow(c, acc, h, passed, acc', h, k);
    VotedFollow(c, n.id, n.out, ProcessBatch(c, n, b).node.out, acc, h, passed, acc', h, Passed(c, acc', h, passed, k), k);
  }

  /** The primary's own batch. */
  lemma ClientStep(c: Plain, n: Node, acc: Accepted, h: Hist, k: nat, reqs: seq<Request>)
    requires Stored(c, n, acc, h) && Orderly(c, n, acc, h, ClientBatch(k, reqs))
    ensures var m, last := ProcessClientBatch(c, n, k, reqs), c.batch * k + c.batch - 1;
            && Stored(c, m, acc[last := MakeBatch(c, k, reqs)], h)
            && m.id == n.id && m.next == n.next && OnlyAt(c, n, m, last)
            && Mgr(c, m, last).prepared == Mgr(c, n, last).prepared && Mgr(c, m, last).committed == Mgr(c, n, last).committed
            && (Queued(c, m.out, last) <==> Queued(c, n.out, last))
            && n.out <= m.out
  {
    hide Inv, Shaped, IsEnd, CommRows, Counted, Installed, HistOk, Install, Append, A.WindowOk, A.Rows, AcceptedOk,
         GoodBatch, RowAt;
    var b, last := MakeBatch(c, k, reqs), c.batch * k + c.batch - 1;
    var acc' := acc[last := b];
    MakeBatchGood(c, k, reqs);
    InstallNeverCrashes(c, n, b, c.batch);
    TakeStored(c, n, acc, h, b, false);
    P.ClientBatchInv(c, n, acc, k, reqs);
    var m := ProcessClientBatch(c, n, k, reqs);
    A.InvRows(c, m, acc');
    forall j: nat ensures Queued(c, m.out, j) <==> Queued(c, n.out, j) {
      assert m.out == n.out + [Order(b)];
      QueuedEmit(c, n.out, Order(b), j);
    }
  }

  lemma QueuedEmit(c: Plain, out: seq<Msg>, m: Msg, j: nat)
    requires !m.Execute?
    ensures Queued(c, out + [m], j) <==> Queued(c, out, j)
  {
  }

  lemma ClientFine(c: Plain, n: Node, acc: Accepted, h: Hist, passed: set<nat>, k: nat, reqs: seq<Request>)
    requires Fine(c, n, acc, h, passed) && Orderly(c, n, acc, h, ClientBatch(k, reqs))
    ensures var last := c.batch * k + c.batch - 1; var acc' := acc[last := MakeBatch(c, k, reqs)];
            Fine(c, ProcessClientBatch(c, n, k, reqs), acc', h, Passed(c, acc', h, passed, last))
  {
    hide Stored, ProcessClientBatch, Shaped, Queued, A.Windowed, OnlyAt, Preps, Comms, MakeBatch;
    var last := c.batch * k + c.batch - 1;
    var acc' := acc[last := MakeBatch(c, k, reqs)];
    assert IsEnd(c, last) by { MakeBatchGood(c, k, reqs); }
    assert FlagAt(c, Mgr(c, n, last), Queued(c, n.out, last), acc, h, passed, last);
    ClientStep(c, n, acc, h, k, reqs);
    FlagsFollow(c, n, ProcessClientBatch(c, n, k, reqs), acc, h, passed, acc', h, Passed(c, acc', h, passed, last), last);
    PassedFollow(c, acc, h, passed, acc', h, last);
    VotedFollow(c, n.id, n.out, ProcessClientBatch(c, n, k, reqs).out, acc, h, passed, acc', h, Passed(c, acc', h, passed, last), last);
  }

  lemma OrderFine(c: Plain, n: Node, acc: Accepted, h: Hist, passed: set<nat>, b: Batch)
    requires Fine(c, n, acc, h, passed) && Orderly(c, n, acc, h, OrderReady(b))
    ensures Fine(c, ProcessOrder(c, n, b), acc, h, passed)
  {
    hide Inv, Shaped, IsEnd, PrepRows, CommRows, Counted, Installed, HistOk, A.WindowOk, A.Rows, AcceptedOk, Queued,
         Preps, Comms, FlagAt, Voted;
    P.OrderReadyInv(c, n, acc, b);
    var m := ProcessOrder(c, n, b);
    A.InvRows(c, m, acc);
    forall j: nat ensures Queued(c, m.out, j) <==> Queued(c, n.out, j) {
      QueuedEmit(c, n.out, Announce(b), j);
    }
    VotedGrows(c, n.id, n.out, m.out, acc, h);
  }

  lemma RunFine(c: Plain, n: Node, acc: Accepted, h: Hist, passed: set<nat>, x: Exec)
    requires Fine(c, n, acc, h, passed) && Orderly(c, n, acc, h, RunExec(x))
    ensures ProcessExecute(c, n, x).Crash? <==> x.index != n.next
    ensures ProcessExecute(c, n, x).Ok? ==> Fine(c, ProcessExecute(c, n, x).node, acc, h, passed)
  {
    hide Fine;
    if x.index == n.next {
      RunStep(c, n, acc, h, passed, x);
    }
  }

  /** Executing a batch moves the window and may release managers no batch ends with. */
  lemma RunStep(c: Plain, n: Node, acc: Accepted, h: Hist, passed: set<nat>, x: Exec)
    requires Fine(c, n, acc, h, passed) && Orderly(c, n, acc, h, RunExec(x)) && x.index == n.next
    ensures ProcessExecute(c, n, x).Ok? && Fine(c, ProcessExecute(c, n, x).node, acc, h, passed)
  {
    hide Inv, Shaped, RowAt, HistOk, A.Rows, AcceptedOk, Queued, Preps, Comms, FlagAt, ExecLength, RunRange, Sub64, Without,
         BatchStart, Holds, Voted;
    P.RunExecInv(c, n, acc, x);
    var m := ProcessExecute(c, n, x).node;
    A.InvRows(c, m, acc);
    forall j: nat | IsEnd(c, j)
      ensures TxnOf(c, m.txns, j) == TxnOf(c, n.txns, j)
    {
      ReleaseSpares(c, n, x, j);
    }
    forall j: nat ensures Queued(c, m.out, j) <==> Queued(c, n.out, j) {
      QueuedEmit(c, n.out, Checkpoint(Sub64(m.next, 5), Sub64(m.next, c.chkpt), n.id), j);
    }
    RunSent(c, n, x);
    VotedGrows(c, n.id, n.out, m.out, acc, h);
  }

  lemma RunSent(c: Plain, n: Node, x: Exec)
    requires ProcessExecute(c, n, x).Ok?
    ensures n.out <= ProcessExecute(c, n, x).node.out && n.id == ProcessExecute(c, n, x).node.id
  {
    hide ExecLength, RunRange, Sub64, Without, BatchStart;
  }

  lemma ReleaseSpares(c: Plain, n: Node, x: Exec, j: nat)
    requires IsEnd(c, j) && ProcessExecute(c, n, x).Ok?
    ensures TxnOf(c, ProcessExecute(c, n, x).node.txns, j) == TxnOf(c, n.txns, j)
  {
    EndIsLate(c, j);
  }
}
