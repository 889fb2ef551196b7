/** The batched three-phase protocol as one replica sees it: the tables it keeps,
    and each message handler as a function from the state before to the state
    after.  A failed assertion in the program is the outcome Crash. */
module Protocol {

  /** UINT64_MAX, the tag of a ring slot that has never been written. */
  const EMPTY: nat := 0xFFFF_FFFF_FFFF_FFFF
  const WORD: nat := 0x1_0000_0000_0000_0000

  /** f = g_min_invalid_nodes, batch = g_batch_size, ring = indexSize,
      chkpt = g_txn_per_chkpt, primary = g_view; views is VIEW_CHANGES, off as shipped. */
  datatype Settings = Settings(f: nat, batch: nat, ring: nat, chkpt: nat, primary: nat, views: bool) {
    function Nodes(): nat { 3 * f + 1 }

    predicate Valid() {
      && 1 <= f
      && 5 < batch <= ring
      && 0 < chkpt
      && primary < Nodes()
    }
  }

  type Config = c: Settings | c.Valid() witness Settings(1, 100, 200, 600, 0, false)

  /** A client request: the text it is signed and hashed by, and the client to answer. */
  datatype Request = Request(text: string, client: nat)

  type Digest = string

  /** SHA-256 of the request text, taken to be injective. */
  function DigestOf(r: Request): Digest { r.text }

  datatype Query = Query(txnId: nat, req: Request)
  datatype Pre = Pre(txnId: nat, index: nat, hash: Digest, req: Request)

  /** PBFTPrepMessage and PBFTCommitMessage carry the same fields. */
  datatype Vote = Vote(txnId: nat, index: nat, endIndex: nat, hash: Digest, view: nat, sender: nat)
  datatype Batch = Batch(txnId: nat, view: nat, index: seq<nat>, hash: seq<Digest>, reqs: seq<Query>)
  datatype Exec = Exec(txnId: nat, index: nat, endIndex: nat)

  /** What a handler hands to the outgoing queues.  Prepare, Commit, Announce and
      Checkpoint go to every other node, Order and Execute to the node's own queue. */
  datatype Msg =
    | Order(batch: Batch)
    | Announce(batch: Batch)
    | Prepare(vote: Vote)
    | Commit(vote: Vote)
    | Execute(exec: Exec)
    | Checkpoint(index: nat, begIndex: nat, sender: nat)

  datatype Txn = Txn(prepCnt: int, commitCnt: int, prepared: bool, committed: bool, query: seq<Request>)

  datatype Node = Node(
    id: nat,
    pre: seq<Pre>,
    cqry: seq<Query>,
    prep: seq<seq<Vote>>,
    comm: seq<seq<Vote>>,
    batchSet: seq<nat>,
    txns: map<nat, Txn>,
    next: nat,
    expected: nat,
    log: seq<Request>,
    out: seq<Msg>)

  datatype Step = Ok(node: Node) | Crash
  datatype Verdict = Yes | No | Abort

  /** The tables have the sizes they are allocated with. */
  ghost predicate Shaped(c: Config, n: Node) {
    && n.id < c.Nodes()
    && |n.pre| == |n.cqry| == |n.prep| == |n.comm| == |n.batchSet| == c.ring
    && (forall s :: 0 <= s < c.ring ==> |n.prep[s]| == c.Nodes())
    && (forall s :: 0 <= s < c.ring ==> |n.comm[s]| == c.Nodes())
  }

  ghost predicate BatchShaped(c: Config, b: Batch) {
    |b.index| == |b.hash| == |b.reqs| == c.batch
  }

  function EmptyVote(): Vote { Vote(EMPTY, EMPTY, EMPTY, "", 0, 0) }

  function Boot(c: Config, id: nat): (n: Node)
    requires id < c.Nodes()
    ensures Shaped(c, n)
  {
    var none := Request("", 0);
    Node(id,
         seq(c.ring, _ => Pre(EMPTY, EMPTY, "", none)),
         seq(c.ring, _ => Query(EMPTY, none)),
         seq(c.ring, _ => seq(c.Nodes(), _ => EmptyVote())),
         seq(c.ring, _ => seq(c.Nodes(), _ => EmptyVote())),
         seq(c.ring, _ => 0),
         map[], 0, c.batch - 3, [], [])
  }

  // ---------------------------------------------------------------- managers

  function NewTxn(c: Config): Txn { Txn(2 * c.f, 2 * c.f + 1, false, false, []) }

  /** get_transaction_manager: looks a manager up, or makes a fresh one. */
  function TxnOf(c: Config, txns: map<nat, Txn>, id: nat): Txn {
    if id in txns then txns[id] else NewTxn(c)
  }

  function Mgr(c: Config, n: Node, id: nat): Txn { TxnOf(c, n.txns, id) }

  function SetMgr(n: Node, id: nat, t: Txn): Node { n.(txns := n.txns[id := t]) }

  function Emit(n: Node, m: Msg): Node { n.(out := n.out + [m]) }

  // ---------------------------------------------------------------- installing a batch

  function LastId(b: Batch): nat
    requires b.index != []
  {
    b.index[|b.index| - 1]
  }

  predicate Duplicate(c: Config, n: Node, b: Batch, i: nat)
    requires |n.pre| == c.ring && i < |b.index| == |b.hash|
  {
    var p := n.pre[b.index[i] % c.ring];
    p.index == b.index[i] && p.hash == b.hash[i]
  }

  function InstallEntry(c: Config, n: Node, b: Batch, i: nat): (m: Node)
    requires Shaped(c, n) && BatchShaped(c, b) && i < c.batch
    ensures Shaped(c, m)
  {
    var s := b.index[i] % c.ring;
    n.(pre := n.pre[s := Pre(b.index[i], b.index[i], b.hash[i], b.reqs[i].req)],
       cqry := n.cqry[s := b.reqs[i]])
  }

  /** The first k entries of a batch written to preStore and cqryStore.  A backup
      (check) refuses an entry it already holds. */
  function Install(c: Config, n: Node, b: Batch, k: nat, check: bool): (r: Step)
    requires Shaped(c, n) && BatchShaped(c, b) && k <= c.batch
    ensures r.Ok? ==> Shaped(c, r.node)
  {
    if k == 0 then Ok(n)
    else
      var r := Install(c, n, b, k - 1, check);
      if r.Crash? || (check && Duplicate(c, r.node, b, k - 1)) then Crash
      else Ok(InstallEntry(c, r.node, b, k - 1))
  }

  /** The first k requests of a batch appended to their transactions' queries. */
  function Append(c: Config, n: Node, b: Batch, k: nat): (m: Node)
    requires BatchShaped(c, b) && k <= c.batch
    ensures Shaped(c, n) ==> Shaped(c, m)
  {
    if k == 0 then n
    else
      var m := Append(c, n, b, k - 1);
      var t := Mgr(c, m, b.index[k - 1]);
      SetMgr(m, b.index[k - 1], t.(query := t.query + [b.reqs[k - 1].req]))
  }

  /** BatchRequests::addAndValidate and the manager loop of process_batch. */
  function Accept(c: Config, n: Node, b: Batch): (r: Step)
    requires Shaped(c, n) && BatchShaped(c, b)
    ensures r.Ok? ==> Shaped(c, r.node)
  {
    if exists i :: 0 <= i < c.batch && b.hash[i] != DigestOf(b.reqs[i].req) then Crash
    else if b.view != c.primary then Crash
    else
      var r := Install(c, n, b, c.batch, true);
      if r.Crash? then Crash else Ok(Append(c, r.node, b, c.batch))
  }

  // ---------------------------------------------------------------- votes

  /** Subtraction of uint64_t values. */
  function Sub64(a: nat, b: nat): nat { if b <= a then a - b else (a - b) % WORD }

  /** index + 1 - batch_size. */
  function BatchStart(c: Config, last: nat): nat { Sub64(last + 1, c.batch) }

  function PutPrep(c: Config, n: Node, v: Vote): (m: Node)
    requires Shaped(c, n) && v.sender < c.Nodes()
    ensures Shaped(c, m)
  {
    var s := v.endIndex % c.ring;
    n.(prep := n.prep[s := n.prep[s][v.sender := v]])
  }

  function PutComm(c: Config, n: Node, v: Vote): (m: Node)
    requires Shaped(c, n) && v.sender < c.Nodes()
    ensures Shaped(c, m)
  {
    var s := v.endIndex % c.ring;
    n.(comm := n.comm[s := n.comm[s][v.sender := v]])
  }

  /** The vote this node casts for the batch that ends at id. */
  function OwnVote(c: Config, n: Node, id: nat): Vote
    requires Shaped(c, n)
  {
    var p := n.pre[id % c.ring];
    Vote(id, BatchStart(c, p.index), p.index, p.hash, c.primary, n.id)
  }

  /** With view changes compiled in, own votes count down too. */
  function CountOwnPrep(c: Config, n: Node, id: nat): (m: Node)
    ensures Shaped(c, n) ==> Shaped(c, m)
  {
    var t := Mgr(c, n, id);
    if c.views then SetMgr(n, id, t.(prepCnt := t.prepCnt - 1)) else n
  }

  function CountOwnCommit(c: Config, n: Node, id: nat): (m: Node)
    ensures Shaped(c, n) ==> Shaped(c, m)
  {
    var t := Mgr(c, n, id);
    if c.views && 0 < t.commitCnt then SetMgr(n, id, t.(commitCnt := t.commitCnt - 1)) else n
  }

  function SendPrep(c: Config, n: Node, id: nat): (r: Step)
    requires Shaped(c, n)
    ensures r.Ok? ==> Shaped(c, r.node)
  {
    if n.id == c.primary || n.pre[id % c.ring].txnId != id then Crash
    else Ok(Emit(CountOwnPrep(c, PutPrep(c, n, OwnVote(c, n, id)), id), Prepare(OwnVote(c, n, id))))
  }

  function SendCommit(c: Config, n: Node, id: nat): (r: Step)
    requires Shaped(c, n)
    ensures r.Ok? ==> Shaped(c, r.node)
  {
    if n.pre[id % c.ring].txnId != id then Crash
    else Ok(Emit(CountOwnCommit(c, PutComm(c, n, OwnVote(c, n, id)), id), Commit(OwnVote(c, n, id))))
  }

  // ---------------------------------------------------------------- prepared()

  /** The entries of a slot that carry the given id, in node order. */
  function Tagged(slot: seq<Vote>, id: nat): (t: seq<Vote>) {
    if slot == [] then []
    else
      var t := Tagged(slot[..|slot| - 1], id);
      if slot[|slot| - 1].txnId == id then t + [slot[|slot| - 1]] else t
  }

  predicate HasQueries(c: Config, n: Node, lo: nat, hi: nat)
    requires |n.cqry| == c.ring
  {
    forall i :: lo <= i <= hi ==> n.cqry[i % c.ring].txnId == i
  }

  predicate HasPres(c: Config, n: Node, lo: nat, hi: nat)
    requires |n.pre| == c.ring
  {
    forall i :: lo <= i <= hi ==> n.pre[i % c.ring].txnId == i
  }

  /** prepared(): 2f stored prepares for id with one common range, over a batch
      that is fully installed.  A missing query is fatal only at the primary. */
  function PreparedVerdict(c: Config, n: Node, id: nat): Verdict
    requires Shaped(c, n)
  {
    var t := Tagged(n.prep[id % c.ring], id);
    if Mgr(c, n, id).prepared then Yes
    else if t == [] then No
    else if !HasQueries(c, n, t[0].index, t[0].endIndex) then
      if n.id == c.primary then Abort else No
    else if !HasPres(c, n, t[0].index, t[0].endIndex) then Abort
    else if exists k :: 0 < k < |t| && k < 2 * c.f
                        && (t[k].index != t[0].index || t[k].endIndex != t[0].endIndex) then Abort
    else if 2 * c.f <= |t| then Yes
    else No
  }

  function MarkPrepared(c: Config, n: Node, id: nat): (m: Node)
    ensures Shaped(c, n) ==> Shaped(c, m)
  {
    SetMgr(n, id, Mgr(c, n, id).(prepared := true))
  }

  // ---------------------------------------------------------------- committed_local()

  function WithIndex(slot: seq<Vote>, index: nat): (t: seq<Vote>) {
    if slot == [] then []
    else
      var t := WithIndex(slot[..|slot| - 1], index);
      if slot[|slot| - 1].index == index then t + [slot[|slot| - 1]] else t
  }

  /** The first vote with the given index, or the last one looked at. */
  function FirstWithIndex(slot: seq<Vote>, index: nat): (v: Vote)
    requires slot != []
  {
    if |slot| == 1 || slot[0].index == index then slot[0]
    else FirstWithIndex(slot[1..], index)
  }

  function FirstWithTxn(slot: seq<Vote>, id: nat): (v: Vote)
    requires slot != []
  {
    if |slot| == 1 || slot[0].txnId == id then slot[0]
    else FirstWithTxn(slot[1..], id)
  }

  predicate SameBatch(p: Vote, v: Vote) {
    p.endIndex == v.endIndex && p.hash == v.hash && p.view == v.view
  }

  /** committed_local(msg) run for the manager of id: every stored commit whose
      index is that of the reference prepare must agree with it, and 2f+1 must be there. */
  function CommittedVerdict(c: Config, n: Node, id: nat, msg: Vote): Verdict
    requires Shaped(c, n)
  {
    var slot := msg.txnId % c.ring;
    var p := FirstWithIndex(n.prep[slot], msg.index);
    var t := WithIndex(n.comm[slot], p.index);
    if !Mgr(c, n, id).prepared then No
    else if exists k :: 0 <= k < |t| && !SameBatch(p, t[k]) then Abort
    else if 2 * c.f + 1 <= |t| then Yes
    else No
  }

  function ExecFor(c: Config, n: Node, id: nat): Exec
    requires Shaped(c, n) && 0 < id
  {
    Exec(id - 1, BatchStart(c, id), n.pre[(id - 1) % c.ring].index)
  }

  /** committed_local followed by ExecuteMessage::copy_from_txn and the enqueue. */
  function TryExecute(c: Config, n: Node, id: nat, msg: Vote): (r: Step)
    requires Shaped(c, n)
    ensures r.Ok? ==> Shaped(c, r.node)
  {
    match CommittedVerdict(c, n, id, msg)
    case Abort => Crash
    case No => Ok(n)
    case Yes =>
      if id == 0 || n.pre[(id - 1) % c.ring].txnId != id - 1 then Crash
      else Ok(Emit(SetMgr(n, id, Mgr(c, n, id).(committed := true)), Execute(ExecFor(c, n, id))))
  }

  // ---------------------------------------------------------------- handlers

  /** The tail of process_batch: prepares and commits may have come first. */
  function CatchUp(c: Config, n: Node, id: nat): (r: Step)
    requires Shaped(c, n)
    ensures r.Ok? ==> Shaped(c, r.node)
  {
    if 0 < Mgr(c, n, id).prepCnt then Ok(n)
    else match PreparedVerdict(c, n, id)
      case Abort => Crash
      case No => Ok(n)
      case Yes =>
        var r := SendCommit(c, MarkPrepared(c, n, id), id);
        if r.Crash? || 0 < Mgr(c, r.node, id).commitCnt then r
        else TryExecute(c, r.node, id, FirstWithTxn(r.node.comm[id % c.ring], id))
  }

  /** process_batch at a backup. */
  function ProcessBatch(c: Config, n: Node, b: Batch): (r: Step)
    requires Shaped(c, n) && BatchShaped(c, b)
    ensures r.Ok? ==> Shaped(c, r.node)
  {
    var a := Accept(c, n, b);
    if a.Crash? then Crash
    else
      var p := SendPrep(c, a.node, LastId(b));
      if p.Crash? then Crash else CatchUp(c, p.node, LastId(b))
  }

  function ProcessPrep(c: Config, n: Node, v: Vote): (r: Step)
    requires Shaped(c, n) && v.sender < c.Nodes()
    ensures r.Ok? ==> Shaped(c, r.node)
  {
    if v.view != c.primary then if c.views then Ok(n) else Crash
    else if c.views && v.txnId < n.next then Ok(PutPrep(c, n, v))
    else
      var t := Mgr(c, n, v.txnId);
      var m := SetMgr(PutPrep(c, n, v), v.txnId, t.(prepCnt := t.prepCnt - 1));
      if t.prepCnt - 1 != 0 || t.prepared then Ok(m)
      else match PreparedVerdict(c, m, v.txnId)
        case Abort => Crash
        case No => Ok(m)
        case Yes => SendCommit(c, MarkPrepared(c, m, v.txnId), v.txnId)
  }

  /** With view changes compiled in, node 0 stops after a while to provoke one. */
  predicate FailsOnPurpose(c: Config, n: Node, v: Vote)
    requires Shaped(c, n)
  {
    c.views && n.id == 0 && c.chkpt + c.batch < v.txnId && CommittedVerdict(c, n, v.txnId, v) == Yes
  }

  function ProcessCommit(c: Config, n: Node, v: Vote): (r: Step)
    requires Shaped(c, n) && v.sender < c.Nodes()
    ensures r.Ok? ==> Shaped(c, r.node)
  {
    if v.view != c.primary then if c.views then Ok(n) else Crash
    else if c.views && v.index < n.next then Ok(PutComm(c, n, v))
    else
      var t := Mgr(c, n, v.txnId);
      var m := SetMgr(PutComm(c, n, v), v.txnId, t.(commitCnt := t.commitCnt - 1));
      if t.commitCnt - 1 != 0 || t.committed then Ok(m)
      else if FailsOnPurpose(c, m, v) then Crash
      else TryExecute(c, m, v.txnId, v)
  }

  /** The requests of transactions lo, lo+1, ..., lo+k-1, in order. */
  function RunRange(c: Config, n: Node, lo: nat, k: nat): seq<Request> {
    if k == 0 then [] else RunRange(c, n, lo, k - 1) + Mgr(c, n, lo + k - 1).query
  }

  /** The managers left after those of transactions lo..hi-1 are released. */
  function Without(txns: map<nat, Txn>, lo: nat, hi: nat): map<nat, Txn> {
    map id | id in txns && !(lo <= id < hi) :: txns[id]
  }

  function ExecLength(e: Exec): nat {
    if e.index <= e.endIndex then e.endIndex - e.index + 2 else 1
  }

  /** process_execute_msg: runs e.index..e.endIndex and then one more, each of
      which must be the next index; then checkpoints, or drops old managers. */
  function ProcessExecute(c: Config, n: Node, e: Exec): (r: Step)
    ensures r.Ok? && Shaped(c, n) ==> Shaped(c, r.node)
  {
    if e.index != n.next then Crash
    else
      var last := e.index + ExecLength(e) - 1;
      var m := n.(next := last + 1, log := n.log + RunRange(c, n, e.index, ExecLength(e)));
      if (last + 1) % c.chkpt == 0 then
        Ok(Emit(m, Checkpoint(Sub64(m.next, 5), Sub64(m.next, c.chkpt), n.id)))
      else if Mgr(c, n, last).commitCnt == c.f - 1 then
        Ok(m.(txns := Without(m.txns, BatchStart(c, last), c.batch - 5)))
      else Ok(m)
  }

  // ---------------------------------------------------------------- the primary's own steps

  /** The batch that copy_from_txn builds for set k. */
  function MakeBatch(c: Config, k: nat, reqs: seq<Request>): (b: Batch)
    requires |reqs| == c.batch
    ensures BatchShaped(c, b)
  {
    Batch(c.batch * k + c.batch - 3, c.primary,
          seq(c.batch, i requires 0 <= i < c.batch => c.batch * k + i),
          seq(c.batch, i requires 0 <= i < c.batch => DigestOf(reqs[i])),
          seq(c.batch, i requires 0 <= i < c.batch => Query(c.batch * k + i, reqs[i])))
  }

  /** process_client_batch: number the requests, install them, queue the batch. */
  function ProcessClientBatch(c: Config, n: Node, k: nat, reqs: seq<Request>): (m: Node)
    requires Shaped(c, n) && |reqs| == c.batch
    ensures Shaped(c, m)
  {
    var b := MakeBatch(c, k, reqs);
    InstallNeverCrashes(c, n, b, c.batch);
    var m := Append(c, Install(c, n, b, c.batch, false).node, b, c.batch);
    Emit(m.(batchSet := m.batchSet[k % c.ring := c.batch * k]), Order(b))
  }

  lemma InstallNeverCrashes(c: Config, n: Node, b: Batch, k: nat)
    requires Shaped(c, n) && BatchShaped(c, b) && k <= c.batch
    ensures Install(c, n, b, k, false).Ok?
  {
  }

  /** process_batch at the primary, behind the gate of the dispatch loop. */
  function ProcessOrder(c: Config, n: Node, b: Batch): (m: Node) {
    if b.txnId != n.expected then n
    else Emit(n, Announce(b)).(expected := c.batch + b.txnId)
  }

  // ---------------------------------------------------------------- events

  datatype Event =
    | ClientBatch(k: nat, reqs: seq<Request>)
    | OrderReady(batch: Batch)
    | BatchArrives(batch: Batch)
    | PrepArrives(vote: Vote)
    | CommitArrives(vote: Vote)
    | RunExec(exec: Exec)

  ghost predicate EventShaped(c: Config, e: Event) {
    match e
    case ClientBatch(k, reqs) => |reqs| == c.batch
    case BatchArrives(b) => BatchShaped(c, b)
    case PrepArrives(v) => v.sender < c.Nodes()
    case CommitArrives(v) => v.sender < c.Nodes()
    case _ => true
  }

  ghost function Handle(c: Config, n: Node, e: Event): (r: Step)
    requires Shaped(c, n) && EventShaped(c, e)
    ensures r.Ok? ==> Shaped(c, r.node)
  {
    match e
    case ClientBatch(k, reqs) => Ok(ProcessClientBatch(c, n, k, reqs))
    case OrderReady(b) => Ok(ProcessOrder(c, n, b))
    case BatchArrives(b) => ProcessBatch(c, n, b)
    case PrepArrives(v) => ProcessPrep(c, n, v)
    case CommitArrives(v) => ProcessCommit(c, n, v)
    case RunExec(x) => ProcessExecute(c, n, x)
  }
}
