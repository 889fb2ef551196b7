/** A replica in the program's own form: tables updated in place by handlers that
    loop over nodes and requests.  Each handler is proved to compute the handler
    function of Protocol. */
module Replica {
  import opened Arith
  import opened Protocol

  // ------------------------------------------------ facts about scanning a slot

  lemma {:induction false} TaggedPrefix(slot: seq<Vote>, id: nat, i: nat)
    requires i <= |slot|
    ensures Tagged(slot[..i], id) <= Tagged(slot, id)
    decreases |slot|
  {
    if i < |slot| {
      var short := slot[..|slot| - 1];
      assert short[..i] == slot[..i];
      TaggedPrefix(short, id, i);
    } else {
      assert slot[..i] == slot;
    }
  }

  lemma TaggedStep(slot: seq<Vote>, id: nat, i: nat)
    requires i < |slot|
    ensures Tagged(slot[..i + 1], id) == Tagged(slot[..i], id) + (if slot[i].txnId == id then [slot[i]] else [])
  {
    assert slot[..i + 1][..i] == slot[..i];
  }

  lemma WithIndexStep(slot: seq<Vote>, index: nat, i: nat)
    requires i < |slot|
    ensures WithIndex(slot[..i + 1], index)
         == WithIndex(slot[..i], index) + (if slot[i].index == index then [slot[i]] else [])
  {
    assert slot[..i + 1][..i] == slot[..i];
  }

  lemma {:induction false} WithIndexPrefix(slot: seq<Vote>, index: nat, i: nat)
    requires i <= |slot|
    ensures WithIndex(slot[..i], index) <= WithIndex(slot, index)
    decreases |slot|
  {
    if i < |slot| {
      var short := slot[..|slot| - 1];
      assert short[..i] == slot[..i];
      WithIndexPrefix(short, index, i);
    } else {
      assert slot[..i] == slot;
    }
  }

  /** FirstWithIndex by position. */
  lemma {:induction false} FirstWithIndexAt(slot: seq<Vote>, index: nat, i: nat)
    requires i < |slot|
    requires forall k :: 0 <= k < i ==> slot[k].index != index
    requires slot[i].index == index || i == |slot| - 1
    ensures FirstWithIndex(slot, index) == slot[i]
  {
    if 0 < i {
      FirstWithIndexAt(slot[1..], index, i - 1);
    }
  }

  lemma {:induction false} FirstWithTxnAt(slot: seq<Vote>, id: nat, i: nat)
    requires i < |slot|
    requires forall k :: 0 <= k < i ==> slot[k].txnId != id
    requires slot[i].txnId == id || i == |slot| - 1
    ensures FirstWithTxn(slot, id) == slot[i]
  {
    if 0 < i {
      FirstWithTxnAt(slot[1..], id, i - 1);
    }
  }

  // ------------------------------------------------ facts about installing a batch

  ghost predicate Consecutive(c: Config, b: Batch) {
    BatchShaped(c, b) && forall i :: 0 <= i < c.batch ==> b.index[i] == b.index[0] + i
  }

  /** Installing writes the two stores and nothing else. */
  lemma {:induction false} InstallOnlyStores(c: Config, n: Node, b: Batch, k: nat, check: bool)
    requires Shaped(c, n) && BatchShaped(c, b) && k <= c.batch
    ensures var r := Install(c, n, b, k, check);
            r.Ok? ==> r.node == n.(pre := r.node.pre, cqry := r.node.cqry)
  {
    if 0 < k {
      InstallOnlyStores(c, n, b, k - 1, check);
    }
  }

  /** After installing, each id of the batch finds its own request. */
  lemma {:induction false} InstalledQuery(c: Config, n: Node, b: Batch, k: nat, i: nat, check: bool)
    requires Shaped(c, n) && Consecutive(c, b) && i < k <= c.batch
    requires Install(c, n, b, k, check).Ok?
    ensures var m := Install(c, n, b, k, check).node;
            && m.cqry[b.index[i] % c.ring] == b.reqs[i]
            && m.pre[b.index[i] % c.ring] == Pre(b.index[i], b.index[i], b.hash[i], b.reqs[i].req)
  {
    if i < k - 1 {
      InstalledQuery(c, n, b, k - 1, i, check);
      SlotsDiffer(b.index[i], b.index[k - 1], c.ring);
    }
  }

  lemma {:induction false} InstallCrashPersists(c: Config, n: Node, b: Batch, k: nat, m: nat)
    requires Shaped(c, n) && BatchShaped(c, b) && k <= m <= c.batch
    requires Install(c, n, b, k, true).Crash?
    ensures Install(c, n, b, m, true).Crash?
  {
    if k < m {
      InstallCrashPersists(c, n, b, k, m - 1);
    }
  }

  /** Appending touches only the managers. */
  lemma {:induction false} AppendKeeps(c: Config, n: Node, b: Batch, k: nat)
    requires BatchShaped(c, b) && k <= c.batch
    ensures Append(c, n, b, k) == n.(txns := Append(c, n, b, k).txns)
  {
    if 0 < k {
      AppendKeeps(c, n, b, k - 1);
    }
  }

  /** Appending does not look at the stores. */
  lemma {:induction false} AppendOfStores(c: Config, n: Node, m: Node, b: Batch, k: nat)
    requires BatchShaped(c, b) && k <= c.batch && n.txns == m.txns
    ensures Append(c, n, b, k).txns == Append(c, m, b, k).txns
  {
    if 0 < k {
      AppendOfStores(c, n, m, b, k - 1);
    }
  }

  lemma MakeBatchAt(c: Config, k: nat, reqs: seq<Request>)
    requires |reqs| == c.batch
    ensures var b := MakeBatch(c, k, reqs);
            && |b.index| == |b.reqs| == c.batch
            && forall i :: 0 <= i < c.batch ==> b.index[i] == c.batch * k + i && b.reqs[i] == Query(c.batch * k + i, reqs[i])
  {
  }

  lemma NumberedNothing(c: Config, n: Node, b: Batch)
    requires Shaped(c, n) && BatchShaped(c, b)
    ensures Append(c, n, b, 0) == n && Install(c, n, b, 0, false) == Ok(n)
  {
  }

  /** One request more, in both tables. */
  lemma NumberedOne(c: Config, n: Node, b: Batch, i: nat)
    requires Shaped(c, n) && BatchShaped(c, b) && i < c.batch && Install(c, n, b, i, false).Ok?
    ensures var m, id := Append(c, n, b, i), b.index[i];
            var t := TxnOf(c, m.txns, id);
            Append(c, n, b, i + 1).txns == m.txns[id := t.(query := t.query + [b.reqs[i].req])]
    ensures var r := Install(c, n, b, i + 1, false);
            var m := Install(c, n, b, i, false).node;
            r.Ok? && |m.cqry| == |m.pre| == c.ring
            && r.node.cqry == m.cqry[b.index[i] % c.ring := b.reqs[i]]
            && r.node.pre == m.pre[b.index[i] % c.ring := Pre(b.index[i], b.index[i], b.hash[i], b.reqs[i].req)]
  {
  }

  /** Reading request i back, once all are installed. */
  lemma CopiedOne(c: Config, n: Node, b: Batch, i: nat)
    requires Shaped(c, n) && Consecutive(c, b) && i < c.batch
    requires Install(c, n, b, c.batch, false).Ok? && Install(c, n, b, i, false).Ok?
    ensures |b.index| == |b.hash| == |b.reqs| == c.batch && b.index[i] == b.index[0] + i
    ensures var all := Install(c, n, b, c.batch, false).node; |all.cqry| == c.ring && all.cqry[b.index[i] % c.ring] == b.reqs[i]
    ensures var m, r := Install(c, n, b, i, false).node, Install(c, n, b, i + 1, false);
            && r.Ok? && |m.pre| == c.ring
            && r.node.pre == m.pre[b.index[i] % c.ring := Pre(b.index[i], b.index[i], b.hash[i], b.reqs[i].req)]
  {
    InstalledQuery(c, n, b, c.batch, i, false);
    NumberedOne(c, n, b, i);
    hide Install;
  }

  class Replica {
    const c: Config
    const id: nat
    var pre: seq<Pre>
    var cqry: seq<Query>
    var prep: seq<seq<Vote>>
    var comm: seq<seq<Vote>>
    var batchSet: seq<nat>
    var txns: map<nat, Txn>
    var next: nat
    var expected: nat
    var log: seq<Request>
    var out: seq<Msg>

    /** The replica's state as a value. */
    ghost function State(): Node
      reads this
    {
      Node(id, pre, cqry, prep, comm, batchSet, txns, next, expected, log, out)
    }

    constructor (c: Config, id: nat)
      requires id < c.Nodes()
      ensures this.c == c && this.id == id && State() == Boot(c, id)
    {
      this.c := c;
      this.id := id;
      var none := Request("", 0);
      pre := seq(c.ring, _ => Pre(EMPTY, EMPTY, "", none));
      cqry := seq(c.ring, _ => Query(EMPTY, none));
      prep := seq(c.ring, _ => seq(c.Nodes(), _ => EmptyVote()));
      comm := seq(c.ring, _ => seq(c.Nodes(), _ => EmptyVote()));
      batchSet := seq(c.ring, _ => 0);
      txns := map[];
      next := 0;
      expected := c.batch - 3;
      log := [];
      out := [];
    }

    method GetManager(txnId: nat) returns (t: Txn)
      ensures t == Mgr(c, State(), txnId)
    {
      if txnId in txns { t := txns[txnId]; } else { t := NewTxn(c); }
    }

    // ---------------------------------------------- prepared()

    /** Every id of lo..hi has its query stored. */
    method QueriesStored(lo: nat, hi: nat) returns (all: bool)
      requires |cqry| == c.ring
      ensures all <==> HasQueries(c, State(), lo, hi)
    {
      var i := lo;
      while i <= hi
        invariant lo <= i
        invariant forall k :: lo <= k < i && k <= hi ==> cqry[k % c.ring].txnId == k
        decreases hi + 1 - i
      {
        if cqry[i % c.ring].txnId != i {
          return false;
        }
        i := i + 1;
      }
      return true;
    }

    method PresStored(lo: nat, hi: nat) returns (all: bool)
      requires |pre| == c.ring
      ensures all <==> HasPres(c, State(), lo, hi)
    {
      var i := lo;
      while i <= hi
        invariant lo <= i
        invariant forall k :: lo <= k < i && k <= hi ==> pre[k % c.ring].txnId == k
        decreases hi + 1 - i
      {
        if pre[i % c.ring].txnId != i {
          return false;
        }
        i := i + 1;
      }
      return true;
    }

    method Prepared(txnId: nat) returns (v: Verdict)
      requires Shaped(c, State())
      modifies `txns
      ensures v == PreparedVerdict(c, old(State()), txnId)
      ensures State() == if v == Yes then MarkPrepared(c, old(State()), txnId) else old(State())
    {
      var t := GetManager(txnId);
      if t.prepared {
        txns := txns[txnId := t];
        return Yes;
      }
      var slot := prep[txnId % c.ring];
      ghost var all := Tagged(slot, txnId);
      var j, sflag, bidx, eidx := 0, false, 0, 0;
      for i := 0 to c.Nodes()
        invariant State() == old(State())
        invariant 0 <= j <= |all| && j < 2 * c.f && Tagged(slot[..i], txnId) == all[..j]
        invariant sflag <==> 0 < j
        invariant sflag ==> bidx == all[0].index && eidx == all[0].endIndex
        invariant sflag ==> HasQueries(c, State(), bidx, eidx) && HasPres(c, State(), bidx, eidx)
        invariant forall k :: 0 <= k < j ==> all[k].index == bidx && all[k].endIndex == eidx
      {
        TaggedStep(slot, txnId, i);
        TaggedPrefix(slot, txnId, i + 1);
        var pmsg := slot[i];
        if pmsg.txnId != txnId {
          continue;
        }
        assert all[j] == pmsg;
        if !sflag {
          bidx, eidx, sflag := pmsg.index, pmsg.endIndex, true;
        } else if pmsg.endIndex != eidx || pmsg.index != bidx {
          return Abort;
        }
        var queries := QueriesStored(bidx, eidx);
        if !queries {
          return if id == c.primary then Abort else No;
        }
        var pres := PresStored(bidx, eidx);
        if !pres {
          return Abort;
        }
        j := j + 1;
        if 2 * c.f <= j {
          txns := txns[txnId := t.(prepared := true)];
          return Yes;
        }
      }
      assert slot[..c.Nodes()] == slot;
      return No;
    }

    // ---------------------------------------------- committed_local()

    /** The stored prepare committed_local compares with. */
    method ReferencePrepare(slot: nat, index: nat) returns (pmsg: Vote)
      requires Shaped(c, State()) && slot < c.ring
      ensures pmsg == FirstWithIndex(prep[slot], index)
    {
      var i := 0;
      pmsg := prep[slot][0];
      while i < c.Nodes()
        invariant 0 <= i <= c.Nodes()
        invariant forall k :: 0 <= k < i ==> prep[slot][k].index != index
        invariant 0 < i ==> pmsg == prep[slot][i - 1]
      {
        pmsg := prep[slot][i];
        if pmsg.index == index {
          break;
        }
        i := i + 1;
      }
      FirstWithIndexAt(prep[slot], index, if i == c.Nodes() then i - 1 else i);
    }

    /** How many stored commits share the reference's index; ok unless one of them
        differs from it in range, digest or view. */
    method CountCommits(slot: nat, pmsg: Vote) returns (ok: bool, k: nat)
      requires Shaped(c, State()) && slot < c.ring
      ensures ok <==> forall m :: 0 <= m < |WithIndex(comm[slot], pmsg.index)|
                                  ==> SameBatch(pmsg, WithIndex(comm[slot], pmsg.index)[m])
      ensures ok ==> k == |WithIndex(comm[slot], pmsg.index)|
    {
      var row := comm[slot];
      ghost var all := WithIndex(row, pmsg.index);
      k := 0;
      var sflag, bidx, eidx := false, 0, 0;
      for n := 0 to c.Nodes()
        invariant 0 <= k <= |all| && WithIndex(row[..n], pmsg.index) == all[..k]
        invariant forall m :: 0 <= m < k ==> SameBatch(pmsg, all[m])
        invariant sflag ==> bidx == pmsg.index && eidx == pmsg.endIndex
      {
        WithIndexStep(row, pmsg.index, n);
        WithIndexPrefix(row, pmsg.index, n + 1);
        var cmsg := row[n];
        if cmsg.index == pmsg.index {
          assert all[k] == cmsg;
          if !sflag {
            bidx, eidx, sflag := cmsg.index, cmsg.endIndex, true;
          } else if cmsg.endIndex != eidx || cmsg.index != bidx {
            return false, k;
          }
          if !(pmsg.hash == cmsg.hash && pmsg.view == cmsg.view && pmsg.endIndex == cmsg.endIndex) {
            return false, k;
          }
          k := k + 1;
        }
      }
      assert row[..c.Nodes()] == row;
      return true, k;
    }

    method CommittedLocal(txnId: nat, msg: Vote) returns (v: Verdict)
      requires Shaped(c, State())
      modifies `txns
      ensures v == CommittedVerdict(c, old(State()), txnId, msg)
      ensures State() == if v == Yes
        then SetMgr(old(State()), txnId, Mgr(c, old(State()), txnId).(committed := true))
        else old(State())
    {
      var t := GetManager(txnId);
      if !t.prepared {
        return No;
      }
      var slot := msg.txnId % c.ring;
      var pmsg := ReferencePrepare(slot, msg.index);
      var ok, k := CountCommits(slot, pmsg);
      if !ok {
        return Abort;
      }
      if k < 2 * c.f + 1 {
        return No;
      }
      txns := txns[txnId := t.(committed := true)];
      return Yes;
    }

    // ---------------------------------------------- outgoing votes

    method SendPrepMsgs(txnId: nat) returns (ok: bool)
      requires Shaped(c, State())
      modifies `prep, `txns, `out
      ensures ok <==> SendPrep(c, old(State()), txnId).Ok?
      ensures ok ==> State() == SendPrep(c, old(State()), txnId).node
    {
      var premsg := pre[txnId % c.ring];
      if id == c.primary || premsg.txnId != txnId {
        return false;
      }
      var pmsg := Vote(txnId, Sub64(premsg.index + 1, c.batch), premsg.index, premsg.hash, c.primary, id);
      prep := prep[pmsg.endIndex % c.ring := prep[pmsg.endIndex % c.ring][id := pmsg]];
      if c.views {
        var t := GetManager(txnId);
        txns := txns[txnId := t.(prepCnt := t.prepCnt - 1)];
      }
      out := out + [Prepare(pmsg)];
      return true;
    }

    method SendCommitMsgs(txnId: nat) returns (ok: bool)
      requires Shaped(c, State())
      modifies `comm, `txns, `out
      ensures ok <==> SendCommit(c, old(State()), txnId).Ok?
      ensures ok ==> State() == SendCommit(c, old(State()), txnId).node
    {
      var premsg := pre[txnId % c.ring];
      if premsg.txnId != txnId {
        return false;
      }
      var cmsg := Vote(txnId, Sub64(premsg.index + 1, c.batch), premsg.index, premsg.hash, c.primary, id);
      comm := comm[cmsg.endIndex % c.ring := comm[cmsg.endIndex % c.ring][id := cmsg]];
      if c.views {
        var t := GetManager(txnId);
        if 0 < t.commitCnt {
          txns := txns[txnId := t.(commitCnt := t.commitCnt - 1)];
        }
      }
      out := out + [Commit(cmsg)];
      return true;
    }

    /** committed_local and, when it holds, the EXECUTE message for the batch. */
    method EnqueueIfCommitted(txnId: nat, msg: Vote) returns (ok: bool)
      requires Shaped(c, State())
      modifies `txns, `out
      ensures ok <==> TryExecute(c, old(State()), txnId, msg).Ok?
      ensures ok ==> State() == TryExecute(c, old(State()), txnId, msg).node
    {
      var v := CommittedLocal(txnId, msg);
      if v != Yes {
        return v == No;
      }
      if txnId == 0 || pre[(txnId - 1) % c.ring].txnId != txnId - 1 {
        return false;
      }
      out := out + [Execute(Exec(txnId - 1, Sub64(txnId + 1, c.batch), pre[(txnId - 1) % c.ring].index))];
      return true;
    }

    // ---------------------------------------------- process_batch

    /** BatchRequests::addAndValidate. */
    method AddAndValidate(b: Batch) returns (ok: bool)
      requires Shaped(c, State()) && BatchShaped(c, b)
      modifies `pre, `cqry
      ensures ok <==>
        && (forall i :: 0 <= i < c.batch ==> b.hash[i] == DigestOf(b.reqs[i].req))
        && b.view == c.primary
        && Install(c, old(State()), b, c.batch, true).Ok?
      ensures ok ==> State() == Install(c, old(State()), b, c.batch, true).node
    {
      for i := 0 to c.batch
        invariant State() == old(State())
        invariant forall k :: 0 <= k < i ==> b.hash[k] == DigestOf(b.reqs[k].req)
      {
        if b.hash[i] != DigestOf(b.reqs[i].req) {
          return false;
        }
      }
      if b.view != c.primary {
        return false;
      }
      for i := 0 to c.batch
        invariant Install(c, old(State()), b, i, true) == Ok(State())
      {
        var relIndex := b.index[i] % c.ring;
        var premsg := pre[relIndex];
        if premsg.index == b.index[i] && premsg.hash == b.hash[i] {
          InstallCrashPersists(c, old(State()), b, i + 1, c.batch);
          return false;
        }
        pre := pre[relIndex := Pre(b.index[i], b.index[i], b.hash[i], b.reqs[i].req)];
        cqry := cqry[relIndex := b.reqs[i]];
      }
      return true;
    }

    /** The requests of a batch handed to their transactions' managers. */
    method AllocateManagers(b: Batch)
      requires Shaped(c, State()) && BatchShaped(c, b)
      modifies `txns
      ensures State() == Append(c, old(State()), b, c.batch)
    {
      for i := 0 to c.batch
        invariant State() == Append(c, old(State()), b, i)
      {
        var t := GetManager(b.index[i]);
        txns := txns[b.index[i] := t.(query := t.query + [b.reqs[i].req])];
      }
    }

    method AcceptBatch(b: Batch) returns (ok: bool)
      requires Shaped(c, State()) && BatchShaped(c, b)
      modifies `pre, `cqry, `txns
      ensures ok <==> Accept(c, old(State()), b).Ok?
      ensures ok ==> State() == Accept(c, old(State()), b).node
    {
      ok := AddAndValidate(b);
      if ok {
        AllocateManagers(b);
      }
    }

    /** The first stored commit for a transaction, or the last one looked at. */
    method FirstCommit(txnId: nat) returns (pcmsg: Vote)
      requires Shaped(c, State())
      ensures pcmsg == FirstWithTxn(comm[txnId % c.ring], txnId)
    {
      var slot := comm[txnId % c.ring];
      var i := 0;
      pcmsg := slot[0];
      while i < c.Nodes()
        invariant 0 <= i <= c.Nodes()
        invariant forall k :: 0 <= k < i ==> slot[k].txnId != txnId
        invariant 0 < i ==> pcmsg == slot[i - 1]
      {
        pcmsg := slot[i];
        if pcmsg.txnId == txnId {
          break;
        }
        i := i + 1;
      }
      FirstWithTxnAt(slot, txnId, if i == c.Nodes() then i - 1 else i);
    }

    /** The end of process_batch, for votes that overtook the batch. */
    method CatchUpVotes(cindex: nat) returns (ok: bool)
      requires Shaped(c, State())
      modifies `txns, `comm, `out
      ensures ok <==> CatchUp(c, old(State()), cindex).Ok?
      ensures ok ==> State() == CatchUp(c, old(State()), cindex).node
    {
      var t := GetManager(cindex);
      if 0 < t.prepCnt { return true; }
      var v := Prepared(cindex);
      if v != Yes { return v == No; }
      ok := SendCommitMsgs(cindex);
      if !ok { return; }
      t := GetManager(cindex);
      if t.commitCnt <= 0 {
        var pcmsg := FirstCommit(cindex);
        ok := EnqueueIfCommitted(cindex, pcmsg);
      }
    }

    method HandleBatch(b: Batch) returns (ok: bool)
      requires Shaped(c, State()) && BatchShaped(c, b)
      modifies this
      ensures ok <==> ProcessBatch(c, old(State()), b).Ok?
      ensures ok ==> State() == ProcessBatch(c, old(State()), b).node
    {
      ok := AcceptBatch(b);
      if !ok { return; }
      var cindex := b.index[c.batch - 1];
      ok := SendPrepMsgs(cindex);
      if !ok { return; }
      ok := CatchUpVotes(cindex);
    }

    // ---------------------------------------------- votes received

    method HandlePrep(msg: Vote) returns (ok: bool)
      requires Shaped(c, State()) && msg.sender < c.Nodes()
      modifies this
      ensures ok <==> ProcessPrep(c, old(State()), msg).Ok?
      ensures ok ==> State() == ProcessPrep(c, old(State()), msg).node
    {
      if msg.view != c.primary {
        return c.views;
      }
      prep := prep[msg.endIndex % c.ring := prep[msg.endIndex % c.ring][msg.sender := msg]];
      if c.views && msg.txnId < next {
        return true;
      }
      var t := GetManager(msg.txnId);
      txns := txns[msg.txnId := t.(prepCnt := t.prepCnt - 1)];
      if t.prepCnt - 1 == 0 && !t.prepared {
        var v := Prepared(msg.txnId);
        if v == Abort { return false; }
        if v == Yes {
          ok := SendCommitMsgs(msg.txnId);
          return;
        }
      }
      return true;
    }

    method HandleCommit(msg: Vote) returns (ok: bool)
      requires Shaped(c, State()) && msg.sender < c.Nodes()
      modifies this
      ensures ok <==> ProcessCommit(c, old(State()), msg).Ok?
      ensures ok ==> State() == ProcessCommit(c, old(State()), msg).node
    {
      if msg.view != c.primary {
        return c.views;
      }
      comm := comm[msg.endIndex % c.ring := comm[msg.endIndex % c.ring][msg.sender := msg]];
      if c.views && msg.index < next {
        return true;
      }
      var t := GetManager(msg.txnId);
      txns := txns[msg.txnId := t.(commitCnt := t.commitCnt - 1)];
      if t.commitCnt - 1 == 0 && !t.committed {
        if c.views && id == 0 && c.chkpt + c.batch < msg.txnId {
          var v := CommittedLocal(msg.txnId, msg);
          ok := v == No;
          return;
        }
        ok := EnqueueIfCommitted(msg.txnId, msg);
        return;
      }
      return true;
    }

    // ---------------------------------------------- process_execute_msg

    method HandleExecute(msg: Exec) returns (ok: bool)
      modifies this
      ensures ok <==> ProcessExecute(c, old(State()), msg).Ok?
      ensures ok ==> State() == ProcessExecute(c, old(State()), msg).node
    {
      ghost var start := State();
      var i := msg.index;
      while i <= msg.endIndex
        invariant msg.index <= i
        invariant msg.index < i ==> i <= msg.endIndex + 1 && msg.index == start.next
        invariant next == start.next + (i - msg.index)
        invariant log == start.log + RunRange(c, start, msg.index, i - msg.index)
        invariant txns == start.txns && out == start.out
        invariant State() == start.(next := next, log := log)
        decreases msg.endIndex + 1 - i
      {
        if i != next {
          return false;
        }
        next := next + 1;
        var t := GetManager(i);
        assert start.log + RunRange(c, start, msg.index, i - msg.index + 1)
            == start.log + RunRange(c, start, msg.index, i - msg.index) + t.query;
        log := log + t.query;
        i := i + 1;
      }
      // the last transaction of the batch
      if i != next {
        return false;
      }
      next := next + 1;
      var t := GetManager(i);
      assert start.log + RunRange(c, start, msg.index, i - msg.index + 1)
          == start.log + RunRange(c, start, msg.index, i - msg.index) + t.query;
      log := log + t.query;
      if (i + 1) % c.chkpt == 0 {
        out := out + [Checkpoint(Sub64(next, 5), Sub64(next, c.chkpt), id)];
      } else if t.commitCnt == c.f - 1 {
        txns := Without(txns, Sub64(i + 1, c.batch), c.batch - 5);
      }
      return true;
    }

    // ---------------------------------------------- the primary's own steps

    /** The numbering loop of process_client_batch. */
    method NumberRequests(k: nat, reqs: seq<Request>)
      requires Shaped(c, State()) && |reqs| == c.batch
      modifies `cqry, `txns, `batchSet
      ensures txns == Append(c, old(State()), MakeBatch(c, k, reqs), c.batch).txns
      ensures batchSet == old(batchSet)[k % c.ring := c.batch * k]
      ensures var r := Install(c, old(State()), MakeBatch(c, k, reqs), c.batch, false);
              r.Ok? && cqry == r.node.cqry
    {
      assert |cqry| == |batchSet| == c.ring;
      ghost var start := State();
      ghost var goal := MakeBatch(c, k, reqs);
      MakeBatchAt(c, k, reqs);
      hide Shaped, MakeBatch, Append, Install;
      NumberedNothing(c, start, goal);
      for i := 0 to c.batch
        invariant |cqry| == |batchSet| == c.ring
        invariant txns == Append(c, start, goal, i).txns
        invariant batchSet == if i == 0 then start.batchSet else start.batchSet[k % c.ring := c.batch * k]
        invariant Install(c, start, goal, i, false).Ok? && cqry == Install(c, start, goal, i, false).node.cqry
      {
        var txnId := c.batch * k + i;
        var t := GetManager(txnId);
        NumberedOne(c, start, goal, i);
        txns := txns[txnId := t.(query := t.query + [reqs[i]])];
        cqry := cqry[txnId % c.ring := Query(txnId, reqs[i])];
        PositionInBatch(c.batch, k, i);
        if txnId % c.batch == 0 {
          batchSet := batchSet[k % c.ring := txnId];
        }
      }
    }

    /** BatchRequests::copy_from_txn: reads the batch back from cqryStore.  No entry
        is ever found overwritten. */
    method CopyFromTxn(k: nat, ghost start: Node, ghost goal: Batch) returns (ok: bool, b: Batch)
      requires |pre| == |cqry| == |batchSet| == c.ring && Shaped(c, start) && start.pre == pre
      requires Consecutive(c, goal) && goal == goal.(txnId := c.batch * k + c.batch - 3, view := c.primary)
      requires batchSet[k % c.ring] == goal.index[0]
      requires forall i :: 0 <= i < c.batch ==> goal.hash[i] == DigestOf(goal.reqs[i].req) && goal.reqs[i].txnId == goal.index[i]
      requires Install(c, start, goal, c.batch, false).Ok? && cqry == Install(c, start, goal, c.batch, false).node.cqry
      modifies `pre
      ensures ok && b == goal && pre == Install(c, start, goal, c.batch, false).node.pre
    {
      var begintxn := batchSet[k % c.ring];
      NumberedNothing(c, start, goal);
      hide Shaped, Install, Consecutive, DigestOf;
      b := Batch(c.batch * k + c.batch - 3, c.primary, [], [], []);
      for i := 0 to c.batch
        invariant |pre| == c.ring
        invariant Install(c, start, goal, i, false).Ok? && pre == Install(c, start, goal, i, false).node.pre
        invariant b.txnId == goal.txnId && b.view == goal.view
        invariant b.index == goal.index[..i] && b.hash == goal.hash[..i] && b.reqs == goal.reqs[..i]
      {
        CopiedOne(c, start, goal, i);
        var txnId := begintxn + i;
        var clqry := cqry[txnId % c.ring];
        if clqry.txnId != txnId {
          return false, b;
        }
        var hash := DigestOf(clqry.req);
        b := b.(index := b.index + [txnId], hash := b.hash + [hash], reqs := b.reqs + [clqry]);
        pre := pre[txnId % c.ring := Pre(txnId, txnId, hash, clqry.req)];
      }
      assert goal.index[..c.batch] == goal.index && goal.hash[..c.batch] == goal.hash && goal.reqs[..c.batch] == goal.reqs;
      return true, b;
    }

    method HandleClientBatch(k: nat, reqs: seq<Request>) returns (ok: bool)
      requires Shaped(c, State()) && |reqs| == c.batch
      modifies this
      ensures ok && State() == ProcessClientBatch(c, old(State()), k, reqs)
    {
      ghost var start := State();
      ghost var goal := MakeBatch(c, k, reqs);
      InstallNeverCrashes(c, start, goal, c.batch);
      ghost var installed := Install(c, start, goal, c.batch, false).node;
      InstallOnlyStores(c, start, goal, c.batch, false);
      AppendKeeps(c, installed, goal, c.batch);
      AppendOfStores(c, start, installed, goal, c.batch);
      NumberRequests(k, reqs);
      var b;
      ok, b := CopyFromTxn(k, start, goal);
      if ok {
        out := out + [Order(b)];
      }
    }

    /** The dispatch gate for BATCH_REQ at the primary: an early batch goes back to
        the queue, the expected one is announced to every other node. */
    method HandleOrder(b: Batch) returns (requeue: bool)
      modifies this
      ensures requeue <==> b.txnId != old(expected)
      ensures State() == ProcessOrder(c, old(State()), b)
    {
      if b.txnId != expected {
        return true;
      }
      out := out + [Announce(b)];
      expected := c.batch + b.txnId;
      return false;
    }
  }
}
