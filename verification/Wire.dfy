/** The wire format: serializers that advance a pointer over a byte buffer, and
    parsers that take back what was written, whatever stands before and after. */
module Wire {

  type Byte = n: nat | n < 256
  type Word = n: nat | n < 0x1_0000_0000_0000_0000
  type Half = n: nat | n < 0x1_0000_0000

  /** Batch size, size of a stored request record, its key check, and how a receiver
      turns the two clock fields it reads into a network time. */
  datatype Format = Format(batch: nat, record: nat, keyOk: seq<Byte> -> bool, elapsed: (Word, Word) -> Word)

  const SEED: nat := 20
  const HASH: nat := 20
  const PROOF: nat := 256
  const VALUE: nat := 64
  const PK: nat := 426

  // ------------------------------------------------ numbers

  /** Little-endian, k bytes. */
  function Le(n: nat, k: nat): (s: seq<Byte>)
    ensures |s| == k
  {
    if k == 0 then [] else [n % 256] + Le(n / 256, k - 1)
  }

  function FromLe(s: seq<Byte>): nat { if s == [] then 0 else s[0] + 256 * FromLe(s[1..]) }

  function Limit(k: nat): nat { if k == 0 then 1 else 256 * Limit(k - 1) }

  lemma {:induction false} LeBack(n: nat, k: nat)
    requires n < Limit(k)
    ensures FromLe(Le(n, k)) == n
  {
    if 0 < k {
      LeBack(n / 256, k - 1);
      assert Le(n, k)[1..] == Le(n / 256, k - 1);
    }
  }

  lemma Limits()
    ensures Limit(4) == 0x1_0000_0000 && Limit(8) == 0x1_0000_0000_0000_0000
  {
    assert Limit(1) == 256 && Limit(2) == 256 * 256 && Limit(3) == 256 * Limit(2) && Limit(4) == 256 * Limit(3);
    assert Limit(5) == 256 * Limit(4) && Limit(6) == 256 * Limit(5) && Limit(7) == 256 * Limit(6) && Limit(8) == 256 * Limit(7);
  }

  function Words(ws: seq<Word>): (s: seq<Byte>)
    ensures |s| == 8 * |ws|
  {
    if ws == [] then [] else Words(ws[..|ws| - 1]) + Le(ws[|ws| - 1], 8)
  }

  /** A size_t. */
  function Count<T>(s: seq<T>): Word { |s| % 0x1_0000_0000_0000_0000 }

  function Blocks(bs: seq<seq<Byte>>): seq<Byte> {
    if bs == [] then [] else Blocks(bs[..|bs| - 1]) + bs[|bs| - 1]
  }

  // ------------------------------------------------ padded fields

  /** A field cut to size, or filled up with its last byte; carry is the byte copied
      last before the field. */
  function Padded(field: seq<Byte>, size: nat, carry: Byte): (s: seq<Byte>)
    ensures |s| == size
  {
    if size == 0 then []
    else
      var s := Padded(field, size - 1, carry);
      s + [if size - 1 < |field| then field[size - 1] else Last(s, carry)]
  }

  function Last(s: seq<Byte>, carry: Byte): Byte { if s == [] then carry else s[|s| - 1] }

  lemma {:induction false} PaddedPrefix(field: seq<Byte>, size: nat, carry: Byte)
    requires size <= |field|
    ensures Padded(field, size, carry) == field[..size]
  {
    if 0 < size {
      PaddedPrefix(field, size - 1, carry);
    }
  }

  /** A field comes through unchanged exactly when it has its declared length. */
  lemma FieldSurvives(field: seq<Byte>, size: nat, carry: Byte)
    ensures Padded(field, size, carry) == field <==> |field| == size
  {
    if |field| == size {
      PaddedPrefix(field, size, carry);
      assert field[..size] == field;
    }
  }

  /** Byte by byte: the field's own bytes, then its last one over and over; an empty
      field is filled with the byte copied before it. */
  lemma {:induction false} PaddedAt(field: seq<Byte>, size: nat, carry: Byte, i: nat)
    requires i < size
    ensures Padded(field, size, carry)[i]
         == if i < |field| then field[i] else if field == [] then carry else field[|field| - 1]
  {
    if i < size - 1 {
      PaddedAt(field, size - 1, carry, i);
    } else if |field| <= i && 0 < i {
      PaddedAt(field, size - 1, carry, i - 1);
    }
  }

  // ------------------------------------------------ messages

  datatype Lot = Lot(seed: seq<Byte>, hash: seq<Byte>, proof: seq<Byte>, value: seq<Byte>, j: Half, nodeId: Half, pk: seq<Byte>, kind: Half)

  datatype Header = Header(
    rtype: Half, txnId: Word, mqTime: Word,
    workQueue: Word, msgQueue: Word, ccBlock: Word, cc: Word, process: Word, network: Word, other: Word,
    sigSize: Word, keySize: Word, signature: seq<Byte>, pubKey: seq<Byte>, lot: Lot)

  datatype Query = Query(header: Header, startts: Word, partitions: seq<Word>, requests: seq<seq<Byte>>, returnNode: Word)
  datatype Entry = Entry(index: Word, hashSize: Word, hash: seq<Byte>, query: Query)

  datatype Message =
    | ClQry(query: Query)
    | ClBatch(header: Header, returnNode: Word, batchSize: Half, queries: seq<Query>)
    | ClRsp(header: Header, indices: seq<Word>, clientTs: seq<Word>, view: Word)
    | BatchReq(header: Header, view: Word, entries: seq<Entry>, batchSize: Half)
    | VoteMsg(header: Header, view: Word, index: Word, hashSize: Word, hash: seq<Byte>, returnNode: Word, endIndex: Word, size: Word)
    | Chkpt(header: Header, index: Word, returnNode: Word, begIndex: Word)

  const CL_QRY: Half := 5
  const CL_RSP: Half := 22
  const CL_BATCH: Half := 23
  const EXECUTE: Half := 25
  const BATCH_REQ: Half := 27
  const PREP: Half := 28
  const COMMIT: Half := 29
  const CHKPT: Half := 30

  function HeaderOf(m: Message): Header { if m.ClQry? then m.query.header else m.header }

  /** The batch size is 32 bits wide in a prepare, 64 in a commit or an execute. */
  function SizeWidth(rtype: Half): nat { if rtype == PREP then 4 else 8 }

  // ------------------------------------------------ well-formed messages

  predicate HeaderOk(h: Header) { h.sigSize == |h.signature| && h.keySize == |h.pubKey| }

  predicate QueryOk(f: Format, q: Query) {
    && HeaderOk(q.header) && q.header.rtype == CL_QRY
    && |q.partitions| < 0x1_0000_0000_0000_0000 && |q.requests| < 0x1_0000_0000_0000_0000
    && forall i :: 0 <= i < |q.requests| ==> |q.requests[i]| == f.record && f.keyOk(q.requests[i])
  }

  predicate EntryOk(f: Format, e: Entry) { e.hashSize == |e.hash| && QueryOk(f, e.query) }

  predicate Ok(f: Format, m: Message) {
    && HeaderOk(HeaderOf(m))
    && match m
       case ClQry(q) => QueryOk(f, q)
       case ClBatch(h, _, _, queries) =>
         h.rtype == CL_BATCH && |queries| == f.batch && forall i :: 0 <= i < |queries| ==> QueryOk(f, queries[i])
       case ClRsp(h, index, clientTs, _) => h.rtype == CL_RSP && |index| == |clientTs| == f.batch
       case BatchReq(h, _, entries, _) =>
         h.rtype == BATCH_REQ && |entries| == f.batch && forall i :: 0 <= i < |entries| ==> EntryOk(f, entries[i])
       case VoteMsg(h, _, _, hashSize, hash, _, _, size) =>
         && (h.rtype == PREP || h.rtype == COMMIT || h.rtype == EXECUTE)
         && hashSize == |hash|
         && (h.rtype == PREP ==> size < 0x1_0000_0000)
       case Chkpt(h, _, _, _) => h.rtype == CHKPT
  }

  // ------------------------------------------------ the bytes of a message

  function LotBytes(l: Lot, carry: Byte): seq<Byte> {
    var a := Padded(l.seed, SEED, carry);
    var b := Padded(l.hash, HASH, Last(a, carry));
    var c := Padded(l.proof, PROOF, Last(b, carry));
    var d := Padded(l.value, VALUE, Last(c, carry));
    a + b + c + d + Le(l.j, 4) + Le(l.nodeId, 4) + Padded(l.pk, PK, Last(d, carry)) + Le(l.kind, 4)
  }

  function HeaderWords(h: Header): seq<Word> {
    [h.txnId, h.mqTime, h.workQueue, h.msgQueue, h.ccBlock, h.cc, h.process, h.network, h.other, h.sigSize, h.keySize]
  }

  /** The byte the variable v holds when the fixed fields begin; junk is what it held at first. */
  function Carry(h: Header, junk: Byte): Byte { Last(h.pubKey, Last(h.signature, junk)) }

  function HeaderBytes(h: Header, junk: Byte): seq<Byte> {
    Le(h.rtype, 4) + Words(HeaderWords(h)) + h.signature + h.pubKey + LotBytes(h.lot, Carry(h, junk))
  }

  /** The part ClientQueryMessage itself copies. */
  function BaseBytes(q: Query, junk: Byte): seq<Byte> {
    HeaderBytes(q.header, junk) + Words([q.startts, Count(q.partitions)]) + Words(q.partitions)
  }

  function QueryBytes(q: Query, junk: Byte): seq<Byte> {
    BaseBytes(q, junk) + Words([Count(q.requests)]) + Blocks(q.requests) + Words([q.returnNode])
  }

  function QueriesBytes(qs: seq<Query>, junk: Byte): seq<Byte> {
    if qs == [] then [] else QueriesBytes(qs[..|qs| - 1], junk) + QueryBytes(qs[|qs| - 1], junk)
  }

  function EntryBytes(e: Entry, junk: Byte): seq<Byte> {
    Words([e.index, e.hashSize]) + e.hash + QueryBytes(e.query, junk)
  }

  function EntriesBytes(es: seq<Entry>, junk: Byte): seq<Byte> {
    if es == [] then [] else EntriesBytes(es[..|es| - 1], junk) + EntryBytes(es[|es| - 1], junk)
  }

  function Bytes(m: Message, junk: Byte): seq<Byte> {
    match m
    case ClQry(q) => QueryBytes(q, junk)
    case ClBatch(h, returnNode, batchSize, queries) =>
      HeaderBytes(h, junk) + Words([returnNode]) + Le(batchSize, 4) + QueriesBytes(queries, junk)
    case ClRsp(h, index, clientTs, view) => HeaderBytes(h, junk) + Words(index) + Words(clientTs) + Words([view])
    case BatchReq(h, view, entries, batchSize) =>
      HeaderBytes(h, junk) + Words([view]) + EntriesBytes(entries, junk) + Le(batchSize, 4)
    case VoteMsg(h, view, index, hashSize, hash, returnNode, endIndex, size) =>
      HeaderBytes(h, junk) + Words([view, index, hashSize]) + hash + Words([returnNode, endIndex]) + Le(size, SizeWidth(h.rtype))
    case Chkpt(h, index, returnNode, begIndex) => HeaderBytes(h, junk) + Words([index, returnNode, begIndex])
  }

  function AllBytes(ms: seq<Message>, junk: Byte): seq<Byte> {
    if ms == [] then [] else AllBytes(ms[..|ms| - 1], junk) + Bytes(ms[|ms| - 1], junk)
  }

  // ------------------------------------------------ get_size

  function HeaderSize(h: Header): nat {
    4 + 8 + 8 + |h.signature| + |h.pubKey| + 8 + 8 + SEED + HASH + PROOF + VALUE + 4 + 4 + PK + 4 + 8 * 7
  }

  function QuerySize(f: Format, q: Query): nat {
    HeaderSize(q.header) + 8 + 8 + 8 * |q.partitions| + 8 + f.record * |q.requests| + 8
  }

  function QueriesSize(f: Format, qs: seq<Query>): nat {
    if qs == [] then 0 else QueriesSize(f, qs[..|qs| - 1]) + QuerySize(f, qs[|qs| - 1])
  }

  function HashesSize(es: seq<Entry>): nat { if es == [] then 0 else HashesSize(es[..|es| - 1]) + |es[|es| - 1].hash| }

  function EntryQueries(es: seq<Entry>): seq<Query> { seq(|es|, i requires 0 <= i < |es| => es[i].query) }

  function Size(f: Format, m: Message): nat {
    match m
    case ClQry(q) => QuerySize(f, q)
    case ClBatch(h, _, _, queries) => HeaderSize(h) + 8 + 4 + QueriesSize(f, queries)
    case ClRsp(h, index, clientTs, _) => HeaderSize(h) + 8 + 8 * |index| + 8 * |clientTs|
    case BatchReq(h, _, entries, _) =>
      HeaderSize(h) + 8 + 8 * |entries| + 8 * |entries| + HashesSize(entries) + QueriesSize(f, EntryQueries(entries)) + 4
    case VoteMsg(h, _, _, _, hash, _, _, _) => HeaderSize(h) + 8 + 8 + |hash| + 8 + 8 + 8 + SizeWidth(h.rtype)
    case Chkpt(h, _, _, _) => HeaderSize(h) + 8 + 8 + 8
  }

  lemma {:induction false} BlocksSize(f: Format, bs: seq<seq<Byte>>)
    requires forall i :: 0 <= i < |bs| ==> |bs[i]| == f.record
    ensures |Blocks(bs)| == f.record * |bs|
  {
    if bs != [] {
      BlocksSize(f, bs[..|bs| - 1]);
      assert f.record * |bs| == f.record * (|bs| - 1) + f.record;
    }
  }

  lemma QueryLength(f: Format, q: Query, junk: Byte)
    requires QueryOk(f, q)
    ensures |QueryBytes(q, junk)| == QuerySize(f, q)
  {
    BlocksSize(f, q.requests);
  }

  lemma {:induction false} QueriesLength(f: Format, qs: seq<Query>, junk: Byte)
    requires forall i :: 0 <= i < |qs| ==> QueryOk(f, qs[i])
    ensures |QueriesBytes(qs, junk)| == QueriesSize(f, qs)
  {
    if qs != [] {
      QueriesLength(f, qs[..|qs| - 1], junk);
      QueryLength(f, qs[|qs| - 1], junk);
    }
  }

  lemma {:induction false} EntriesLength(f: Format, es: seq<Entry>, junk: Byte)
    requires forall i :: 0 <= i < |es| ==> EntryOk(f, es[i])
    ensures |EntriesBytes(es, junk)| == 16 * |es| + HashesSize(es) + QueriesSize(f, EntryQueries(es))
  {
    if es != [] {
      hide QueryBytes, QuerySize;
      EntriesLength(f, es[..|es| - 1], junk);
      QueryLength(f, es[|es| - 1].query, junk);
      assert EntryQueries(es)[..|es| - 1] == EntryQueries(es[..|es| - 1]);
    }
  }

  /** get_size is the number of bytes written, for every well-formed message. */
  lemma SizeIsLength(f: Format, m: Message, junk: Byte)
    requires Ok(f, m)
    ensures |Bytes(m, junk)| == Size(f, m)
  {
    hide QueryOk, EntryOk, QueryBytes, QuerySize, LotBytes;
    LotLength(HeaderOf(m), junk);
    match m
    case ClQry(q) => QueryLength(f, q, junk);
    case ClBatch(_, _, _, queries) => QueriesLength(f, queries, junk);
    case BatchReq(_, _, entries, _) => EntriesLength(f, entries, junk);
    case _ =>
  }

  lemma LotLength(h: Header, junk: Byte)
    ensures |LotBytes(h.lot, Carry(h, junk))| == SEED + HASH + PROOF + VALUE + 4 + 4 + PK + 4
    ensures |HeaderBytes(h, junk)| == HeaderSize(h)
  {
  }

  // ------------------------------------------------ writing in place

  /** Only the bytes from base on changed, into enc. */
  ghost predicate Wrote(before: seq<Byte>, after: seq<Byte>, base: nat, enc: seq<Byte>) {
    && |after| == |before|
    && base + |enc| <= |before|
    && after == before[..base] + enc + before[base + |enc|..]
  }

  lemma WroteMore(a: seq<Byte>, b: seq<Byte>, c: seq<Byte>, base: nat, x: seq<Byte>, y: seq<Byte>)
    requires Wrote(a, b, base, x) && Wrote(b, c, base + |x|, y)
    ensures Wrote(a, c, base, x + y)
  {
    assert c[..base + |x|] == a[..base] + x;
    assert b[base + |x|..] == a[base + |x|..];
    assert b[base + |x| + |y|..] == a[base + |x| + |y|..];
  }

  method PutBytes(buf: array<Byte>, ptr: nat, s: seq<Byte>) returns (next: nat)
    requires ptr + |s| <= buf.Length
    modifies buf
    ensures Wrote(old(buf[..]), buf[..], ptr, s) && next == ptr + |s|
  {
    var i := 0;
    while i < |s|
      invariant 0 <= i <= |s|
      invariant buf[..] == old(buf[..ptr]) + s[..i] + old(buf[ptr + i..])
    {
      buf[ptr + i] := s[i];
      i := i + 1;
    }
    next := ptr + i;
    assert s[..i] == s;
  }

  /** A number copied byte by byte. */
  method PutNumber(buf: array<Byte>, ptr: nat, n: nat, k: nat) returns (next: nat)
    requires ptr + k <= buf.Length
    modifies buf
    ensures Wrote(old(buf[..]), buf[..], ptr, Le(n, k)) && next == ptr + k
  {
    var x, i := n, 0;
    while i < k
      invariant 0 <= i <= k
      invariant Le(n, k)[i..] == Le(x, k - i)
      invariant buf[..] == old(buf[..ptr]) + Le(n, k)[..i] + old(buf[ptr + i..])
    {
      assert Le(n, k)[i] == Le(n, k)[i..][0] == x % 256;
      assert Le(x, k - i)[1..] == Le(x / 256, k - i - 1);
      buf[ptr + i] := x % 256;
      x, i := x / 256, i + 1;
    }
    next := ptr + k;
    assert Le(n, k)[..k] == Le(n, k);
  }

  /** A run of 64-bit fields. */
  method PutWords(buf: array<Byte>, ptr: nat, ws: seq<Word>) returns (next: nat)
    requires ptr + 8 * |ws| <= buf.Length
    modifies buf
    ensures Wrote(old(buf[..]), buf[..], ptr, Words(ws)) && next == ptr + 8 * |ws|
  {
    next := ptr;
    for i := 0 to |ws|
      invariant next == ptr + 8 * i
      invariant Wrote(old(buf[..]), buf[..], ptr, Words(ws[..i]))
    {
      ghost var before := buf[..];
      next := PutNumber(buf, next, ws[i], 8);
      WroteMore(old(buf[..]), before, buf[..], ptr, Words(ws[..i]), Le(ws[i], 8));
      assert ws[..i + 1][..i] == ws[..i];
    }
    assert ws[..|ws|] == ws;
  }

  /** A field of fixed size: when it is too short, v goes on holding its last byte. */
  method PutPadded(buf: array<Byte>, ptr: nat, field: seq<Byte>, size: nat, carry: Byte) returns (next: nat, v: Byte)
    requires ptr + size <= buf.Length
    modifies buf
    ensures Wrote(old(buf[..]), buf[..], ptr, Padded(field, size, carry)) && next == ptr + size
    ensures v == Last(Padded(field, size, carry), carry)
  {
    v := carry;
    next := ptr;
    for i := 0 to size
      invariant next == ptr + i && v == Last(Padded(field, i, carry), carry)
      invariant buf[..] == old(buf[..ptr]) + Padded(field, i, carry) + old(buf[ptr + i..])
    {
      if i < |field| {
        v := field[i];
      }
      buf[next] := v;
      next := next + 1;
    }
  }

  /** PutNumber, PutWords and PutBytes as the next step of a longer piece of writing
      that began at base and has produced enc so far. */
  method AddNumber(buf: array<Byte>, ptr: nat, n: nat, k: nat, ghost start: seq<Byte>, ghost base: nat, ghost enc: seq<Byte>)
    returns (next: nat)
    requires Wrote(start, buf[..], base, enc) && ptr == base + |enc| && ptr + k <= buf.Length
    modifies buf
    ensures Wrote(start, buf[..], base, enc + Le(n, k)) && next == ptr + k
  {
    hide Wrote;
    ghost var before := buf[..];
    next := PutNumber(buf, ptr, n, k);
    WroteMore(start, before, buf[..], base, enc, Le(n, k));
  }

  method AddWords(buf: array<Byte>, ptr: nat, ws: seq<Word>, ghost start: seq<Byte>, ghost base: nat, ghost enc: seq<Byte>)
    returns (next: nat)
    requires Wrote(start, buf[..], base, enc) && ptr == base + |enc| && ptr + 8 * |ws| <= buf.Length
    modifies buf
    ensures Wrote(start, buf[..], base, enc + Words(ws)) && next == ptr + 8 * |ws|
  {
    hide Wrote;
    ghost var before := buf[..];
    next := PutWords(buf, ptr, ws);
    WroteMore(start, before, buf[..], base, enc, Words(ws));
  }

  method AddBytes(buf: array<Byte>, ptr: nat, s: seq<Byte>, ghost start: seq<Byte>, ghost base: nat, ghost enc: seq<Byte>)
    returns (next: nat)
    requires Wrote(start, buf[..], base, enc) && ptr == base + |enc| && ptr + |s| <= buf.Length
    modifies buf
    ensures Wrote(start, buf[..], base, enc + s) && next == ptr + |s|
  {
    hide Wrote;
    ghost var before := buf[..];
    next := PutBytes(buf, ptr, s);
    WroteMore(start, before, buf[..], base, enc, s);
  }

  method AddPadded(buf: array<Byte>, ptr: nat, field: seq<Byte>, size: nat, carry: Byte,
                   ghost start: seq<Byte>, ghost base: nat, ghost enc: seq<Byte>)
    returns (next: nat, v: Byte)
    requires Wrote(start, buf[..], base, enc) && ptr == base + |enc| && ptr + size <= buf.Length
    modifies buf
    ensures Wrote(start, buf[..], base, enc + Padded(field, size, carry)) && next == ptr + size
    ensures v == Last(Padded(field, size, carry), carry)
  {
    hide Wrote;
    ghost var before := buf[..];
    next, v := PutPadded(buf, ptr, field, size, carry);
    WroteMore(start, before, buf[..], base, enc, Padded(field, size, carry));
  }

  method PutLot(buf: array<Byte>, base: nat, l: Lot, carry: Byte) returns (next: nat)
    requires base + |LotBytes(l, carry)| <= buf.Length
    modifies buf
    ensures Wrote(old(buf[..]), buf[..], base, LotBytes(l, carry)) && next == base + |LotBytes(l, carry)|
  {
    hide Wrote, Padded, Le;
    ghost var start := buf[..];
    var v: Byte;
    next, v := PutPadded(buf, base, l.seed, SEED, carry);
    ghost var enc := Padded(l.seed, SEED, carry);
    ghost var u := v;
    next, v := AddPadded(buf, next, l.hash, HASH, v, start, base, enc);
    enc, u := enc + Padded(l.hash, HASH, u), v;
    next, v := AddPadded(buf, next, l.proof, PROOF, v, start, base, enc);
    enc, u := enc + Padded(l.proof, PROOF, u), v;
    next, v := AddPadded(buf, next, l.value, VALUE, v, start, base, enc);
    enc, u := enc + Padded(l.value, VALUE, u), v;
    next := AddNumber(buf, next, l.j, 4, start, base, enc);
    enc := enc + Le(l.j, 4);
    next := AddNumber(buf, next, l.nodeId, 4, start, base, enc);
    enc := enc + Le(l.nodeId, 4);
    next, v := AddPadded(buf, next, l.pk, PK, v, start, base, enc);
    enc := enc + Padded(l.pk, PK, u);
    next := AddNumber(buf, next, l.kind, 4, start, base, enc);
  }

  method PutHeader(buf: array<Byte>, base: nat, h: Header, junk: Byte) returns (next: nat)
    requires HeaderOk(h) && base + |HeaderBytes(h, junk)| <= buf.Length
    modifies buf
    ensures Wrote(old(buf[..]), buf[..], base, HeaderBytes(h, junk)) && next == base + |HeaderBytes(h, junk)|
  {
    hide Wrote, Words, Le, LotBytes;
    LotLength(h, junk);
    ghost var start := buf[..];
    next := PutNumber(buf, base, h.rtype, 4);
    ghost var enc, before := Le(h.rtype, 4), start;
    next := AddWords(buf, next, HeaderWords(h), start, base, enc);
    enc := enc + Words(HeaderWords(h));
    next := AddBytes(buf, next, h.signature, start, base, enc);
    enc := enc + h.signature;
    next := AddBytes(buf, next, h.pubKey, start, base, enc);
    enc := enc + h.pubKey;
    before := buf[..];
    next := PutLot(buf, next, h.lot, Carry(h, junk));
    WroteMore(start, before, buf[..], base, enc, LotBytes(h.lot, Carry(h, junk)));
  }

  method PutBase(buf: array<Byte>, base: nat, q: Query, junk: Byte) returns (next: nat)
    requires HeaderOk(q.header) && base + |BaseBytes(q, junk)| <= buf.Length
    modifies buf
    ensures Wrote(old(buf[..]), buf[..], base, BaseBytes(q, junk)) && next == base + |BaseBytes(q, junk)|
  {
    hide Wrote, Words, HeaderBytes, HeaderSize, HeaderOk;
    LotLength(q.header, junk);
    ghost var start := buf[..];
    next := PutHeader(buf, base, q.header, junk);
    ghost var enc := HeaderBytes(q.header, junk);
    next := AddWords(buf, next, [q.startts, Count(q.partitions)], start, base, enc);
    enc := enc + Words([q.startts, Count(q.partitions)]);
    next := AddWords(buf, next, q.partitions, start, base, enc);
  }

  method PutQuery(f: Format, buf: array<Byte>, base: nat, q: Query, junk: Byte) returns (next: nat)
    requires QueryOk(f, q) && base + |QueryBytes(q, junk)| <= buf.Length
    modifies buf
    ensures Wrote(old(buf[..]), buf[..], base, QueryBytes(q, junk)) && next == base + |QueryBytes(q, junk)|
  {
    hide Wrote, Words, BaseBytes, HeaderOk, Blocks;
    ghost var start := buf[..];
    next := PutBase(buf, base, q, junk);
    ghost var enc, before := BaseBytes(q, junk), start;
    next := AddWords(buf, next, [Count(q.requests)], start, base, enc);
    enc := enc + Words([Count(q.requests)]);
    before := buf[..];
    next := PutBlocks(f, buf, next, q.requests);
    WroteMore(start, before, buf[..], base, enc, Blocks(q.requests));
    enc := enc + Blocks(q.requests);
    next := AddWords(buf, next, [q.returnNode], start, base, enc);
  }

  method PutBlocks(f: Format, buf: array<Byte>, ptr: nat, bs: seq<seq<Byte>>) returns (next: nat)
    requires forall i :: 0 <= i < |bs| ==> |bs[i]| == f.record && f.keyOk(bs[i])
    requires ptr + |Blocks(bs)| <= buf.Length
    modifies buf
    ensures Wrote(old(buf[..]), buf[..], ptr, Blocks(bs)) && next == ptr + |Blocks(bs)|
  {
    next := ptr;
    for i := 0 to |bs|
      invariant next == ptr + |Blocks(bs[..i])|
      invariant Wrote(old(buf[..]), buf[..], ptr, Blocks(bs[..i]))
    {
      ghost var before := buf[..];
      assert bs[..i + 1][..i] == bs[..i];
      BlocksFit(bs, i + 1);
      next := PutBytes(buf, next, bs[i]);
      WroteMore(old(buf[..]), before, buf[..], ptr, Blocks(bs[..i]), bs[i]);
    }
    assert bs[..|bs|] == bs;
  }

  lemma {:induction false} BlocksFit(bs: seq<seq<Byte>>, i: nat)
    requires i <= |bs|
    ensures |Blocks(bs[..i])| <= |Blocks(bs)|
    decreases |bs|
  {
    if i < |bs| {
      BlocksFit(bs[..|bs| - 1], i);
      assert bs[..|bs| - 1][..i] == bs[..i];
    } else {
      assert bs[..i] == bs;
    }
  }

  method PutQueries(f: Format, buf: array<Byte>, ptr: nat, qs: seq<Query>, junk: Byte) returns (next: nat)
    requires forall i :: 0 <= i < |qs| ==> QueryOk(f, qs[i])
    requires ptr + |QueriesBytes(qs, junk)| <= buf.Length
    modifies buf
    ensures Wrote(old(buf[..]), buf[..], ptr, QueriesBytes(qs, junk)) && next == ptr + |QueriesBytes(qs, junk)|
  {
    hide Wrote, QueryBytes, QueryOk;
    next := ptr;
    assert Wrote(old(buf[..]), buf[..], ptr, []) by { WroteNone(buf[..], ptr); }
    for i := 0 to |qs|
      invariant next == ptr + |QueriesBytes(qs[..i], junk)|
      invariant Wrote(old(buf[..]), buf[..], ptr, QueriesBytes(qs[..i], junk))
    {
      ghost var before := buf[..];
      assert qs[..i + 1][..i] == qs[..i];
      QueriesFit(qs, i + 1, junk);
      next := PutQuery(f, buf, next, qs[i], junk);
      WroteMore(old(buf[..]), before, buf[..], ptr, QueriesBytes(qs[..i], junk), QueryBytes(qs[i], junk));
    }
    assert qs[..|qs|] == qs;
  }

  lemma WroteNone(a: seq<Byte>, base: nat)
    requires base <= |a|
    ensures Wrote(a, a, base, [])
  {
  }

  lemma {:induction false} QueriesFit(qs: seq<Query>, i: nat, junk: Byte)
    requires i <= |qs|
    ensures |QueriesBytes(qs[..i], junk)| <= |QueriesBytes(qs, junk)|
    decreases |qs|
  {
    hide QueryBytes;
    if i < |qs| {
      QueriesFit(qs[..|qs| - 1], i, junk);
      assert qs[..|qs| - 1][..i] == qs[..i];
    } else {
      assert qs[..i] == qs;
    }
  }

  method PutEntry(f: Format, buf: array<Byte>, ptr: nat, e: Entry, junk: Byte) returns (next: nat)
    requires EntryOk(f, e) && ptr + |EntryBytes(e, junk)| <= buf.Length
    modifies buf
    ensures Wrote(old(buf[..]), buf[..], ptr, EntryBytes(e, junk)) && next == ptr + |EntryBytes(e, junk)|
  {
    hide Wrote, QueryBytes, QueryOk, Words;
    ghost var start := buf[..];
    next := PutWords(buf, ptr, [e.index, e.hashSize]);
    ghost var enc, before := Words([e.index, e.hashSize]), start;
    next := AddBytes(buf, next, e.hash, start, ptr, enc);
    enc := enc + e.hash;
    before := buf[..];
    next := PutQuery(f, buf, next, e.query, junk);
    WroteMore(start, before, buf[..], ptr, enc, QueryBytes(e.query, junk));
  }

  method PutEntries(f: Format, buf: array<Byte>, ptr: nat, es: seq<Entry>, junk: Byte) returns (next: nat)
    requires forall i :: 0 <= i < |es| ==> EntryOk(f, es[i])
    requires ptr + |EntriesBytes(es, junk)| <= buf.Length
    modifies buf
    ensures Wrote(old(buf[..]), buf[..], ptr, EntriesBytes(es, junk)) && next == ptr + |EntriesBytes(es, junk)|
  {
    hide Wrote, EntryBytes, EntryOk;
    next := ptr;
    assert Wrote(old(buf[..]), buf[..], ptr, []) by { WroteNone(buf[..], ptr); }
    for i := 0 to |es|
      invariant next == ptr + |EntriesBytes(es[..i], junk)|
      invariant Wrote(old(buf[..]), buf[..], ptr, EntriesBytes(es[..i], junk))
    {
      ghost var before := buf[..];
      assert es[..i + 1][..i] == es[..i];
      EntriesFit(es, i + 1, junk);
      next := PutEntry(f, buf, next, es[i], junk);
      WroteMore(old(buf[..]), before, buf[..], ptr, EntriesBytes(es[..i], junk), EntryBytes(es[i], junk));
    }
    assert es[..|es|] == es;
  }

  lemma {:induction false} EntriesFit(es: seq<Entry>, i: nat, junk: Byte)
    requires i <= |es|
    ensures |EntriesBytes(es[..i], junk)| <= |EntriesBytes(es, junk)|
    decreases |es|
  {
    hide EntryBytes;
    if i < |es| {
      EntriesFit(es[..|es| - 1], i, junk);
      assert es[..|es| - 1][..i] == es[..i];
    } else {
      assert es[..i] == es;
    }
  }

  method PutBatch(f: Format, buf: array<Byte>, base: nat, m: Message, junk: Byte) returns (next: nat)
    requires m.ClBatch? && Ok(f, m) && base + |Bytes(m, junk)| <= buf.Length
    modifies buf
    ensures Wrote(old(buf[..]), buf[..], base, Bytes(m, junk)) && next == base + |Bytes(m, junk)|
  {
    hide Wrote, QueryOk, EntryOk, Words, HeaderBytes, HeaderOk, Le, QueriesBytes, EntriesBytes;
    ghost var start := buf[..];
    next := PutHeader(buf, base, m.header, junk);
    ghost var enc, before := HeaderBytes(m.header, junk), start;
    next := AddWords(buf, next, [m.returnNode], start, base, enc);
    enc := enc + Words([m.returnNode]);
    next := AddNumber(buf, next, m.batchSize, 4, start, base, enc);
    enc := enc + Le(m.batchSize, 4);
    before := buf[..];
    next := PutQueries(f, buf, next, m.queries, junk);
    WroteMore(start, before, buf[..], base, enc, QueriesBytes(m.queries, junk));
  }

  method PutResponse(f: Format, buf: array<Byte>, base: nat, m: Message, junk: Byte) returns (next: nat)
    requires m.ClRsp? && Ok(f, m) && base + |Bytes(m, junk)| <= buf.Length
    modifies buf
    ensures Wrote(old(buf[..]), buf[..], base, Bytes(m, junk)) && next == base + |Bytes(m, junk)|
  {
    hide Wrote, QueryOk, EntryOk, Words, HeaderBytes, HeaderOk, Le, QueriesBytes, EntriesBytes;
    ghost var start := buf[..];
    next := PutHeader(buf, base, m.header, junk);
    ghost var enc := HeaderBytes(m.header, junk);
    next := AddWords(buf, next, m.indices, start, base, enc);
    enc := enc + Words(m.indices);
    next := AddWords(buf, next, m.clientTs, start, base, enc);
    enc := enc + Words(m.clientTs);
    next := AddWords(buf, next, [m.view], start, base, enc);
  }

  method PutBatchReq(f: Format, buf: array<Byte>, base: nat, m: Message, junk: Byte) returns (next: nat)
    requires m.BatchReq? && Ok(f, m) && base + |Bytes(m, junk)| <= buf.Length
    modifies buf
    ensures Wrote(old(buf[..]), buf[..], base, Bytes(m, junk)) && next == base + |Bytes(m, junk)|
  {
    hide Wrote, QueryOk, EntryOk, Words, HeaderBytes, HeaderOk, Le, QueriesBytes, EntriesBytes;
    ghost var start := buf[..];
    next := PutHeader(buf, base, m.header, junk);
    ghost var enc, before := HeaderBytes(m.header, junk), start;
    next := AddWords(buf, next, [m.view], start, base, enc);
    enc := enc + Words([m.view]);
    before := buf[..];
    next := PutEntries(f, buf, next, m.entries, junk);
    WroteMore(start, before, buf[..], base, enc, EntriesBytes(m.entries, junk));
    enc := enc + EntriesBytes(m.entries, junk);
    next := AddNumber(buf, next, m.batchSize, 4, start, base, enc);
  }

  method PutVote(f: Format, buf: array<Byte>, base: nat, m: Message, junk: Byte) returns (next: nat)
    requires m.VoteMsg? && Ok(f, m) && base + |Bytes(m, junk)| <= buf.Length
    modifies buf
    ensures Wrote(old(buf[..]), buf[..], base, Bytes(m, junk)) && next == base + |Bytes(m, junk)|
  {
    hide Wrote, QueryOk, EntryOk, Words, HeaderBytes, HeaderOk, Le, QueriesBytes, EntriesBytes;
    ghost var start := buf[..];
    next := PutHeader(buf, base, m.header, junk);
    ghost var enc := HeaderBytes(m.header, junk);
    next := AddWords(buf, next, [m.view, m.index, m.hashSize], start, base, enc);
    enc := enc + Words([m.view, m.index, m.hashSize]);
    next := AddBytes(buf, next, m.hash, start, base, enc);
    enc := enc + m.hash;
    next := AddWords(buf, next, [m.returnNode, m.endIndex], start, base, enc);
    enc := enc + Words([m.returnNode, m.endIndex]);
    next := AddNumber(buf, next, m.size, SizeWidth(m.header.rtype), start, base, enc);
  }

  method PutCheckpoint(f: Format, buf: array<Byte>, base: nat, m: Message, junk: Byte) returns (next: nat)
    requires m.Chkpt? && Ok(f, m) && base + |Bytes(m, junk)| <= buf.Length
    modifies buf
    ensures Wrote(old(buf[..]), buf[..], base, Bytes(m, junk)) && next == base + |Bytes(m, junk)|
  {
    hide Wrote, QueryOk, EntryOk, Words, HeaderBytes, HeaderOk, Le, QueriesBytes, EntriesBytes;
    ghost var start := buf[..];
    next := PutHeader(buf, base, m.header, junk);
    ghost var enc := HeaderBytes(m.header, junk);
    next := AddWords(buf, next, [m.index, m.returnNode, m.begIndex], start, base, enc);
  }

  /** copy_to_buf, for every kind of message. */
  method PutMessage(f: Format, buf: array<Byte>, base: nat, m: Message, junk: Byte) returns (next: nat)
    requires Ok(f, m) && base + Size(f, m) <= buf.Length
    modifies buf
    ensures Wrote(old(buf[..]), buf[..], base, Bytes(m, junk)) && next == base + Size(f, m)
  {
    hide Wrote, Size, QueryOk, EntryOk;
    SizeIsLength(f, m, junk);
    match m {
      case ClQry(q) => next := PutQuery(f, buf, base, q, junk);
      case ClBatch(_, _, _, _) => next := PutBatch(f, buf, base, m, junk);
      case ClRsp(_, _, _, _) => next := PutResponse(f, buf, base, m, junk);
      case BatchReq(_, _, _, _) => next := PutBatchReq(f, buf, base, m, junk);
      case VoteMsg(_, _, _, _, _, _, _, _) => next := PutVote(f, buf, base, m, junk);
      case Chkpt(_, _, _, _) => next := PutCheckpoint(f, buf, base, m, junk);
    }
  }

  // ------------------------------------------------ what arrives

  function ArrivedLot(l: Lot, carry: Byte): Lot {
    var a := Padded(l.seed, SEED, carry);
    var b := Padded(l.hash, HASH, Last(a, carry));
    var c := Padded(l.proof, PROOF, Last(b, carry));
    var d := Padded(l.value, VALUE, Last(c, carry));
    l.(seed := a, hash := b, proof := c, value := d, pk := Padded(l.pk, PK, Last(d, carry)))
  }

  function ArrivedHeader(f: Format, h: Header, junk: Byte): Header {
    h.(network := f.elapsed(h.network, h.other), lot := ArrivedLot(h.lot, Carry(h, junk)))
  }

  function ArrivedQuery(f: Format, q: Query, junk: Byte): Query { q.(header := ArrivedHeader(f, q.header, junk)) }

  function ArrivedQueries(f: Format, qs: seq<Query>, junk: Byte): seq<Query> {
    seq(|qs|, i requires 0 <= i < |qs| => ArrivedQuery(f, qs[i], junk))
  }

  function ArrivedEntries(f: Format, es: seq<Entry>, junk: Byte): seq<Entry> {
    seq(|es|, i requires 0 <= i < |es| => es[i].(query := ArrivedQuery(f, es[i].query, junk)))
  }

  /** The message a receiver ends up with. */
  function Arrived(f: Format, m: Message, junk: Byte): Message {
    match m
    case ClQry(q) => ClQry(ArrivedQuery(f, q, junk))
    case ClBatch(h, returnNode, batchSize, queries) =>
      ClBatch(ArrivedHeader(f, h, junk), returnNode, batchSize, ArrivedQueries(f, queries, junk))
    case ClRsp(h, indices, clientTs, view) => ClRsp(ArrivedHeader(f, h, junk), indices, clientTs, view)
    case BatchReq(h, view, entries, batchSize) =>
      BatchReq(ArrivedHeader(f, h, junk), view, ArrivedEntries(f, entries, junk), batchSize)
    case VoteMsg(h, view, index, hashSize, hash, returnNode, endIndex, size) =>
      VoteMsg(ArrivedHeader(f, h, junk), view, index, hashSize, hash, returnNode, endIndex, size)
    case Chkpt(h, index, returnNode, begIndex) => Chkpt(ArrivedHeader(f, h, junk), index, returnNode, begIndex)
  }

  predicate LotExact(l: Lot) {
    |l.seed| == SEED && |l.hash| == HASH && |l.proof| == PROOF && |l.value| == VALUE && |l.pk| == PK
  }

  predicate AllExact(m: Message) {
    match m
    case ClQry(q) => LotExact(q.header.lot)
    case ClBatch(h, _, _, queries) => LotExact(h.lot) && forall i :: 0 <= i < |queries| ==> LotExact(queries[i].header.lot)
    case BatchReq(h, _, entries, _) => LotExact(h.lot) && forall i :: 0 <= i < |entries| ==> LotExact(entries[i].query.header.lot)
    case _ => LotExact(m.header.lot)
  }

  /** The message with all its network times blanked. */
  function Timeless(m: Message): Message {
    match m
    case ClQry(q) => ClQry(TimelessQuery(q))
    case ClBatch(h, returnNode, batchSize, queries) =>
      ClBatch(h.(network := 0), returnNode, batchSize, seq(|queries|, i requires 0 <= i < |queries| => TimelessQuery(queries[i])))
    case ClRsp(h, indices, clientTs, view) => ClRsp(h.(network := 0), indices, clientTs, view)
    case BatchReq(h, view, entries, batchSize) =>
      BatchReq(h.(network := 0), view,
               seq(|entries|, i requires 0 <= i < |entries| => entries[i].(query := TimelessQuery(entries[i].query))), batchSize)
    case VoteMsg(h, view, index, hashSize, hash, returnNode, endIndex, size) =>
      VoteMsg(h.(network := 0), view, index, hashSize, hash, returnNode, endIndex, size)
    case Chkpt(h, index, returnNode, begIndex) => Chkpt(h.(network := 0), index, returnNode, begIndex)
  }

  function TimelessQuery(q: Query): Query { q.(header := q.header.(network := 0)) }

  lemma LotArrives(l: Lot, carry: Byte)
    ensures ArrivedLot(l, carry) == l <==> LotExact(l)
  {
    var a := Padded(l.seed, SEED, carry);
    var b := Padded(l.hash, HASH, Last(a, carry));
    var c := Padded(l.proof, PROOF, Last(b, carry));
    var d := Padded(l.value, VALUE, Last(c, carry));
    FieldSurvives(l.seed, SEED, carry);
    FieldSurvives(l.hash, HASH, Last(a, carry));
    FieldSurvives(l.proof, PROOF, Last(b, carry));
    FieldSurvives(l.value, VALUE, Last(c, carry));
    FieldSurvives(l.pk, PK, Last(d, carry));
  }

  /** What becomes of the common part: the network time is worked out anew from the two
      times that came, fields of full length come through, and so does all the rest. */
  lemma HeaderArrives(f: Format, h: Header, junk: Byte)
    ensures var r := ArrivedHeader(f, h, junk);
            && r.network == f.elapsed(h.network, h.other)
            && r.(network := h.network, lot := h.lot) == h
            && r.lot.j == h.lot.j && r.lot.nodeId == h.lot.nodeId && r.lot.kind == h.lot.kind
            && (LotExact(h.lot) ==> r.lot == h.lot)
  {
    LotArrives(h.lot, Carry(h, junk));
    hide Padded;
  }

  /** Only the network times change on the way, exactly when every fixed field has
      its declared length. */
  lemma OnlyTimesChange(f: Format, m: Message, junk: Byte)
    ensures Timeless(Arrived(f, m, junk)) == Timeless(m) <==> AllExact(m)
  {
    hide ArrivedLot, LotExact;
    LotArrives(HeaderOf(m).lot, Carry(HeaderOf(m), junk));
    var a, b := Timeless(Arrived(f, m, junk)), Timeless(m);
    match m
    case ClBatch(h, _, _, queries) =>
      forall i | 0 <= i < |queries|
        ensures a.queries[i] == b.queries[i] <==> LotExact(queries[i].header.lot)
      {
        LotArrives(queries[i].header.lot, Carry(queries[i].header, junk));
      }
    case BatchReq(h, _, entries, _) =>
      forall i | 0 <= i < |entries|
        ensures a.entries[i] == b.entries[i] <==> LotExact(entries[i].query.header.lot)
      {
        LotArrives(entries[i].query.header.lot, Carry(entries[i].query.header, junk));
      }
    case _ =>
  }

  // ------------------------------------------------ reading back

  ghost predicate At(s: seq<Byte>, i: nat, e: seq<Byte>) { i + |e| <= |s| && s[i..i + |e|] == e }

  lemma AtSplit(s: seq<Byte>, i: nat, x: seq<Byte>, y: seq<Byte>)
    requires At(s, i, x + y)
    ensures At(s, i, x) && At(s, i + |x|, y)
  {
    assert s[i..i + |x|] == (x + y)[..|x|];
    assert s[i + |x|..i + |x| + |y|] == (x + y)[|x|..];
  }

  lemma WroteIsAt(a: seq<Byte>, b: seq<Byte>, base: nat, enc: seq<Byte>)
    requires Wrote(a, b, base, enc)
    ensures At(b, base, enc)
  {
  }

  method GetNumber(buf: array<Byte>, ptr: nat, k: nat, ghost n: nat) returns (x: nat)
    requires n < Limit(k) && At(buf[..], ptr, Le(n, k))
    ensures x == n
  {
    x := 0;
    var i := k;
    while 0 < i
      invariant 0 <= i <= k && x == FromLe(Le(n, k)[i..])
    {
      i := i - 1;
      assert buf[ptr + i] == buf[..][ptr..ptr + k][i];
      assert Le(n, k)[i..][1..] == Le(n, k)[i + 1..];
      x := 256 * x + buf[ptr + i];
    }
    assert Le(n, k)[0..] == Le(n, k);
    LeBack(n, k);
  }

  lemma {:induction false} WordsAt(s: seq<Byte>, ptr: nat, ws: seq<Word>, i: nat)
    requires At(s, ptr, Words(ws)) && i < |ws|
    ensures At(s, ptr + 8 * i, Le(ws[i], 8))
    decreases |ws|
  {
    hide Le;
    AtSplit(s, ptr, Words(ws[..|ws| - 1]), Le(ws[|ws| - 1], 8));
    if i < |ws| - 1 {
      WordsAt(s, ptr, ws[..|ws| - 1], i);
    }
  }

  method GetWords(buf: array<Byte>, ptr: nat, count: nat, ghost ws: seq<Word>) returns (r: seq<Word>)
    requires count == |ws| && At(buf[..], ptr, Words(ws))
    ensures r == ws
  {
    hide At, Words;
    r := [];
    Limits();
    for i := 0 to count
      invariant r == ws[..i]
    {
      WordsAt(buf[..], ptr, ws, i);
      var x := GetNumber(buf, ptr + 8 * i, 8, ws[i]);
      r := r + [x];
    }
  }

  method GetBytes(buf: array<Byte>, ptr: nat, count: nat, ghost s: seq<Byte>) returns (r: seq<Byte>)
    requires count == |s| && At(buf[..], ptr, s)
    ensures r == s
  {
    r := [];
    var i := 0;
    while i < count
      invariant 0 <= i <= count && r == s[..i]
    {
      assert buf[ptr + i] == buf[..][ptr..ptr + count][i];
      r := r + [buf[ptr + i]];
      i := i + 1;
    }
  }

  lemma LotAt(s: seq<Byte>, base: nat, l: Lot, carry: Byte)
    requires At(s, base, LotBytes(l, carry))
    ensures var r := ArrivedLot(l, carry);
            && At(s, base, r.seed) && At(s, base + 20, r.hash) && At(s, base + 40, r.proof) && At(s, base + 296, r.value)
            && At(s, base + 360, Le(l.j, 4)) && At(s, base + 364, Le(l.nodeId, 4)) && At(s, base + 368, r.pk)
            && At(s, base + 794, Le(l.kind, 4))
            && |r.seed| == SEED && |r.hash| == HASH && |r.proof| == PROOF && |r.value| == VALUE && |r.pk| == PK
  {
    hide At, Padded, Le;
    var r := ArrivedLot(l, carry);
    var a, b, c, d := r.seed, r.hash, r.proof, r.value;
    var j, n, k, t := Le(l.j, 4), Le(l.nodeId, 4), r.pk, Le(l.kind, 4);
    AtSplit(s, base, a + b + c + d + j + n + k, t);
    AtSplit(s, base, a + b + c + d + j + n, k);
    AtSplit(s, base, a + b + c + d + j, n);
    AtSplit(s, base, a + b + c + d, j);
    AtSplit(s, base, a + b + c, d);
    AtSplit(s, base, a + b, c);
    AtSplit(s, base, a, b);
  }

  method GetLot(buf: array<Byte>, base: nat, ghost l: Lot, ghost carry: Byte) returns (r: Lot)
    requires At(buf[..], base, LotBytes(l, carry))
    ensures r == ArrivedLot(l, carry)
  {
    hide At, LotBytes, Le, ArrivedLot;
    LotAt(buf[..], base, l, carry);
    Limits();
    ghost var e := ArrivedLot(l, carry);
    var seed := GetBytes(buf, base, SEED, e.seed);
    var hash := GetBytes(buf, base + 20, HASH, e.hash);
    var proof := GetBytes(buf, base + 40, PROOF, e.proof);
    var value := GetBytes(buf, base + 296, VALUE, e.value);
    var j := GetNumber(buf, base + 360, 4, l.j);
    var nodeId := GetNumber(buf, base + 364, 4, l.nodeId);
    var pk := GetBytes(buf, base + 368, PK, e.pk);
    var kind := GetNumber(buf, base + 794, 4, l.kind);
    r := Lot(seed, hash, proof, value, j, nodeId, pk, kind);
    assert e == Lot(e.seed, e.hash, e.proof, e.value, l.j, l.nodeId, e.pk, l.kind) by { LotKeeps(l, carry); }
  }

  lemma LotKeeps(l: Lot, carry: Byte)
    ensures var e := ArrivedLot(l, carry); e.j == l.j && e.nodeId == l.nodeId && e.kind == l.kind
  {
  }

  lemma HeaderAt(s: seq<Byte>, base: nat, h: Header, junk: Byte)
    requires HeaderOk(h) && At(s, base, HeaderBytes(h, junk))
    ensures At(s, base, Le(h.rtype, 4)) && At(s, base + 4, Words(HeaderWords(h)))
    ensures At(s, base + 92, h.signature) && At(s, base + 92 + h.sigSize, h.pubKey)
    ensures At(s, base + 92 + h.sigSize + h.keySize, LotBytes(h.lot, Carry(h, junk)))
  {
    hide At, Words, Le, LotBytes;
    var a, b, c, d, e := Le(h.rtype, 4), Words(HeaderWords(h)), h.signature, h.pubKey, LotBytes(h.lot, Carry(h, junk));
    AtSplit(s, base, a + b + c + d, e);
    AtSplit(s, base, a + b + c, d);
    AtSplit(s, base, a + b, c);
    AtSplit(s, base, a, b);
  }

  /** mcopy_from_buf. */
  method GetHeader(f: Format, buf: array<Byte>, base: nat, ghost h: Header, ghost junk: Byte) returns (r: Header)
    requires HeaderOk(h) && At(buf[..], base, HeaderBytes(h, junk))
    ensures r == ArrivedHeader(f, h, junk) && HeaderSize(r) == HeaderSize(h)
  {
    hide At, HeaderBytes, Le, Words, ArrivedLot, LotBytes;
    HeaderAt(buf[..], base, h, junk);
    Limits();
    var rtype := GetNumber(buf, base, 4, h.rtype);
    var w := GetWords(buf, base + 4, 11, HeaderWords(h));
    var network := f.elapsed(w[7], w[8]);
    var signature := GetBytes(buf, base + 92, w[9], h.signature);
    var pubKey := GetBytes(buf, base + 92 + w[9], w[10], h.pubKey);
    var lot := GetLot(buf, base + 92 + w[9] + w[10], h.lot, Carry(h, junk));
    r := Header(rtype, w[0], w[1], w[2], w[3], w[4], w[5], w[6], network, w[8], w[9], w[10], signature, pubKey, lot);
  }

  lemma {:induction false} BlocksAt(f: Format, s: seq<Byte>, ptr: nat, bs: seq<seq<Byte>>, i: nat)
    requires forall j :: 0 <= j < |bs| ==> |bs[j]| == f.record
    requires At(s, ptr, Blocks(bs)) && i < |bs|
    ensures At(s, ptr + f.record * i, bs[i])
    decreases |bs|
  {
    hide At;
    var short := bs[..|bs| - 1];
    AtSplit(s, ptr, Blocks(short), bs[|bs| - 1]);
    BlocksSize(f, short);
    if i < |bs| - 1 {
      BlocksAt(f, s, ptr, short, i);
    }
  }

  /** The records of a query, each of which must pass the key check. */
  method GetBlocks(f: Format, buf: array<Byte>, ptr: nat, count: nat, ghost bs: seq<seq<Byte>>) returns (r: seq<seq<Byte>>, next: nat)
    requires count == |bs| && forall j :: 0 <= j < |bs| ==> |bs[j]| == f.record && f.keyOk(bs[j])
    requires At(buf[..], ptr, Blocks(bs))
    ensures r == bs && next == ptr + f.record * count
  {
    hide At, Blocks;
    r := [];
    next := ptr;
    for i := 0 to count
      invariant r == bs[..i] && next == ptr + f.record * i
    {
      BlocksAt(f, buf[..], ptr, bs, i);
      var block := GetBytes(buf, next, f.record, bs[i]);
      assert f.keyOk(block);
      r := r + [block];
      next := next + f.record;
    }
  }

  lemma BaseAt(s: seq<Byte>, base: nat, q: Query, junk: Byte)
    requires At(s, base, BaseBytes(q, junk))
    ensures At(s, base, HeaderBytes(q.header, junk))
    ensures var p := base + HeaderSize(q.header);
            At(s, p, Words([q.startts, Count(q.partitions)])) && At(s, p + 16, Words(q.partitions))
    ensures |BaseBytes(q, junk)| == HeaderSize(q.header) + 16 + 8 * |q.partitions|
  {
    hide At, Words, HeaderBytes, HeaderSize;
    LotLength(q.header, junk);
    var a, b, c := HeaderBytes(q.header, junk), Words([q.startts, Count(q.partitions)]), Words(q.partitions);
    AtSplit(s, base, a + b, c);
    AtSplit(s, base, a, b);
  }

  lemma QueryAt(s: seq<Byte>, base: nat, q: Query, junk: Byte)
    requires At(s, base, QueryBytes(q, junk))
    ensures At(s, base, BaseBytes(q, junk))
    ensures var p := base + |BaseBytes(q, junk)|;
            && At(s, p, Words([Count(q.requests)])) && At(s, p + 8, Blocks(q.requests))
            && At(s, p + 8 + |Blocks(q.requests)|, Words([q.returnNode]))
  {
    hide At, Words, BaseBytes, Blocks, Count;
    var a, d, e, g := BaseBytes(q, junk), Words([Count(q.requests)]), Blocks(q.requests), Words([q.returnNode]);
    AtSplit(s, base, a + d + e, g);
    AtSplit(s, base, a + d, e);
    AtSplit(s, base, a, d);
  }

  lemma QueryCounts(f: Format, q: Query)
    requires QueryOk(f, q)
    ensures Count(q.partitions) == |q.partitions| && Count(q.requests) == |q.requests|
    ensures |Blocks(q.requests)| == f.record * |q.requests|
  {
    BlocksSize(f, q.requests);
  }

  /** copy_from_buf of a client query. */
  method GetQuery(f: Format, buf: array<Byte>, base: nat, ghost q: Query, ghost junk: Byte) returns (r: Query, next: nat)
    requires QueryOk(f, q) && At(buf[..], base, QueryBytes(q, junk))
    ensures r == ArrivedQuery(f, q, junk) && next == base + QuerySize(f, r) == base + QuerySize(f, q)
  {
    hide At, QueryBytes, BaseBytes, HeaderBytes, Words, Blocks, HeaderSize, ArrivedHeader, Count;
    QueryCounts(f, q);
    QueryAt(buf[..], base, q, junk);
    BaseAt(buf[..], base, q, junk);
    var header := GetHeader(f, buf, base, q.header, junk);
    var p := base + HeaderSize(header);
    var w := GetWords(buf, p, 2, [q.startts, Count(q.partitions)]);
    var partitions := GetWords(buf, p + 16, w[1], q.partitions);
    next := p + 16 + 8 * w[1];
    var n := GetWords(buf, next, 1, [Count(q.requests)]);
    var requests;
    requests, next := GetBlocks(f, buf, next + 8, n[0], q.requests);
    var returnNode := GetWords(buf, next, 1, [q.returnNode]);
    next := next + 8;
    r := Query(header, w[0], partitions, requests, returnNode[0]);
  }

  lemma {:induction false} QueriesAt(s: seq<Byte>, ptr: nat, qs: seq<Query>, i: nat, junk: Byte)
    requires At(s, ptr, QueriesBytes(qs, junk)) && i < |qs|
    ensures At(s, ptr + |QueriesBytes(qs[..i], junk)|, QueryBytes(qs[i], junk))
    decreases |qs|
  {
    hide At, QueryBytes;
    var short := qs[..|qs| - 1];
    AtSplit(s, ptr, QueriesBytes(short, junk), QueryBytes(qs[|qs| - 1], junk));
    if i < |qs| - 1 {
      QueriesAt(s, ptr, short, i, junk);
      assert short[..i] == qs[..i];
    }
  }

  method GetQueries(f: Format, buf: array<Byte>, ptr: nat, ghost qs: seq<Query>, ghost junk: Byte) returns (r: seq<Query>, next: nat)
    requires |qs| == f.batch && forall i :: 0 <= i < |qs| ==> QueryOk(f, qs[i])
    requires At(buf[..], ptr, QueriesBytes(qs, junk))
    ensures r == ArrivedQueries(f, qs, junk) && next == ptr + |QueriesBytes(qs, junk)|
  {
    hide At, QueryBytes, QueryOk, ArrivedQuery, QuerySize;
    r := [];
    next := ptr;
    for i := 0 to f.batch
      invariant |r| == i && forall j :: 0 <= j < i ==> r[j] == ArrivedQuery(f, qs[j], junk)
      invariant next == ptr + |QueriesBytes(qs[..i], junk)|
    {
      QueriesAt(buf[..], ptr, qs, i, junk);
      var q;
      q, next := GetQuery(f, buf, next, qs[i], junk);
      QueryLength(f, qs[i], junk);
      assert qs[..i + 1][..i] == qs[..i];
      r := r + [q];
    }
    assert qs[..f.batch] == qs;
  }

  lemma {:induction false} EntriesAt(s: seq<Byte>, ptr: nat, es: seq<Entry>, i: nat, junk: Byte)
    requires At(s, ptr, EntriesBytes(es, junk)) && i < |es|
    ensures At(s, ptr + |EntriesBytes(es[..i], junk)|, EntryBytes(es[i], junk))
    decreases |es|
  {
    hide At, EntryBytes;
    var short := es[..|es| - 1];
    AtSplit(s, ptr, EntriesBytes(short, junk), EntryBytes(es[|es| - 1], junk));
    if i < |es| - 1 {
      EntriesAt(s, ptr, short, i, junk);
      assert short[..i] == es[..i];
    }
  }

  method GetEntry(f: Format, buf: array<Byte>, ptr: nat, ghost e: Entry, ghost junk: Byte) returns (r: Entry, next: nat)
    requires EntryOk(f, e) && At(buf[..], ptr, EntryBytes(e, junk))
    ensures r == e.(query := ArrivedQuery(f, e.query, junk)) && next == ptr + |EntryBytes(e, junk)|
  {
    hide At, QueryBytes, QueryOk, ArrivedQuery, QuerySize, Words;
    QueryLength(f, e.query, junk);
    AtSplit(buf[..], ptr, Words([e.index, e.hashSize]) + e.hash, QueryBytes(e.query, junk));
    AtSplit(buf[..], ptr, Words([e.index, e.hashSize]), e.hash);
    var w := GetWords(buf, ptr, 2, [e.index, e.hashSize]);
    var hash := GetBytes(buf, ptr + 16, w[1], e.hash);
    var q;
    q, next := GetQuery(f, buf, ptr + 16 + w[1], e.query, junk);
    r := Entry(w[0], w[1], hash, q);
  }

  method GetEntries(f: Format, buf: array<Byte>, ptr: nat, ghost es: seq<Entry>, ghost junk: Byte) returns (r: seq<Entry>, next: nat)
    requires |es| == f.batch && forall i :: 0 <= i < |es| ==> EntryOk(f, es[i])
    requires At(buf[..], ptr, EntriesBytes(es, junk))
    ensures r == ArrivedEntries(f, es, junk) && next == ptr + |EntriesBytes(es, junk)|
  {
    hide At, EntryBytes, EntryOk, ArrivedQuery;
    r := [];
    next := ptr;
    for i := 0 to f.batch
      invariant |r| == i && forall j :: 0 <= j < i ==> r[j] == es[j].(query := ArrivedQuery(f, es[j].query, junk))
      invariant next == ptr + |EntriesBytes(es[..i], junk)|
    {
      EntriesAt(buf[..], ptr, es, i, junk);
      var e;
      e, next := GetEntry(f, buf, next, es[i], junk);
      assert es[..i + 1][..i] == es[..i];
      r := r + [e];
    }
    assert es[..f.batch] == es;
  }

  // ------------------------------------------------ create_message

  method GetBatch(f: Format, buf: array<Byte>, base: nat, ghost m: Message, ghost junk: Byte) returns (r: Message, next: nat)
    requires m.ClBatch? && Ok(f, m) && At(buf[..], base, Bytes(m, junk))
    ensures r == Arrived(f, m, junk) && next == base + |Bytes(m, junk)|
  {
    hide At, QueriesBytes, QueryOk, ArrivedQueries, Words, HeaderBytes, ArrivedHeader, HeaderOk, Le;
    ghost var a, b, c := HeaderBytes(m.header, junk), Words([m.returnNode]), Le(m.batchSize, 4);
    AtSplit(buf[..], base, a + b + c, QueriesBytes(m.queries, junk));
    AtSplit(buf[..], base, a + b, c);
    AtSplit(buf[..], base, a, b);
    LotLength(m.header, junk);
    Limits();
    var header := GetHeader(f, buf, base, m.header, junk);
    next := base + HeaderSize(header);
    var w := GetWords(buf, next, 1, [m.returnNode]);
    var batchSize := GetNumber(buf, next + 8, 4, m.batchSize);
    var queries;
    queries, next := GetQueries(f, buf, next + 12, m.queries, junk);
    r := ClBatch(header, w[0], batchSize, queries);
  }

  method GetResponse(f: Format, buf: array<Byte>, base: nat, ghost m: Message, ghost junk: Byte) returns (r: Message, next: nat)
    requires m.ClRsp? && Ok(f, m) && At(buf[..], base, Bytes(m, junk))
    ensures r == Arrived(f, m, junk) && next == base + |Bytes(m, junk)|
  {
    hide At, Words, HeaderBytes, ArrivedHeader, HeaderOk;
    ghost var a, b, c := HeaderBytes(m.header, junk), Words(m.indices), Words(m.clientTs);
    AtSplit(buf[..], base, a + b + c, Words([m.view]));
    AtSplit(buf[..], base, a + b, c);
    AtSplit(buf[..], base, a, b);
    LotLength(m.header, junk);
    var header := GetHeader(f, buf, base, m.header, junk);
    next := base + HeaderSize(header);
    var indices := GetWords(buf, next, f.batch, m.indices);
    var clientTs := GetWords(buf, next + 8 * f.batch, f.batch, m.clientTs);
    next := next + 16 * f.batch;
    var w := GetWords(buf, next, 1, [m.view]);
    next := next + 8;
    r := ClRsp(header, indices, clientTs, w[0]);
  }

  method GetBatchReq(f: Format, buf: array<Byte>, base: nat, ghost m: Message, ghost junk: Byte) returns (r: Message, next: nat)
    requires m.BatchReq? && Ok(f, m) && At(buf[..], base, Bytes(m, junk))
    ensures r == Arrived(f, m, junk) && next == base + |Bytes(m, junk)|
  {
    hide At, EntriesBytes, EntryOk, ArrivedEntries, Words, HeaderBytes, ArrivedHeader, HeaderOk, Le;
    ghost var a, b, c := HeaderBytes(m.header, junk), Words([m.view]), EntriesBytes(m.entries, junk);
    AtSplit(buf[..], base, a + b + c, Le(m.batchSize, 4));
    AtSplit(buf[..], base, a + b, c);
    AtSplit(buf[..], base, a, b);
    LotLength(m.header, junk);
    Limits();
    var header := GetHeader(f, buf, base, m.header, junk);
    next := base + HeaderSize(header);
    var w := GetWords(buf, next, 1, [m.view]);
    var entries;
    entries, next := GetEntries(f, buf, next + 8, m.entries, junk);
    var batchSize := GetNumber(buf, next, 4, m.batchSize);
    next := next + 4;
    r := BatchReq(header, w[0], entries, batchSize);
  }

  method GetVote(f: Format, buf: array<Byte>, base: nat, ghost m: Message, ghost junk: Byte) returns (r: Message, next: nat)
    requires m.VoteMsg? && Ok(f, m) && At(buf[..], base, Bytes(m, junk))
    ensures r == Arrived(f, m, junk) && next == base + |Bytes(m, junk)|
  {
    hide At, Words, HeaderBytes, HeaderOk, Le;
    ghost var a, b, c := HeaderBytes(m.header, junk), Words([m.view, m.index, m.hashSize]), Words([m.returnNode, m.endIndex]);
    AtSplit(buf[..], base, a + b + m.hash + c, Le(m.size, SizeWidth(m.header.rtype)));
    AtSplit(buf[..], base, a + b + m.hash, c);
    AtSplit(buf[..], base, a + b, m.hash);
    AtSplit(buf[..], base, a, b);
    LotLength(m.header, junk);
    Limits();
    var header := GetHeader(f, buf, base, m.header, junk);
    next := base + HeaderSize(header);
    var w := GetWords(buf, next, 3, [m.view, m.index, m.hashSize]);
    var hash := GetBytes(buf, next + 24, w[2], m.hash);
    next := next + 24 + w[2];
    var u := GetWords(buf, next, 2, [m.returnNode, m.endIndex]);
    var size := GetNumber(buf, next + 16, SizeWidth(header.rtype), m.size);
    next := next + 16 + SizeWidth(header.rtype);
    r := VoteMsg(header, w[0], w[1], w[2], hash, u[0], u[1], size);
  }

  method GetCheckpoint(f: Format, buf: array<Byte>, base: nat, ghost m: Message, ghost junk: Byte) returns (r: Message, next: nat)
    requires m.Chkpt? && Ok(f, m) && At(buf[..], base, Bytes(m, junk))
    ensures r == Arrived(f, m, junk) && next == base + |Bytes(m, junk)|
  {
    hide At, Words, HeaderBytes, ArrivedHeader, HeaderOk;
    AtSplit(buf[..], base, HeaderBytes(m.header, junk), Words([m.index, m.returnNode, m.begIndex]));
    LotLength(m.header, junk);
    var header := GetHeader(f, buf, base, m.header, junk);
    next := base + HeaderSize(header);
    var w := GetWords(buf, next, 3, [m.index, m.returnNode, m.begIndex]);
    next := next + 24;
    r := Chkpt(header, w[0], w[1], w[2]);
  }

  lemma TypeFirst(f: Format, s: seq<Byte>, base: nat, m: Message, junk: Byte)
    requires Ok(f, m) && At(s, base, Bytes(m, junk))
    ensures At(s, base, Le(HeaderOf(m).rtype, 4))
  {
    hide Ok, Words, Le, LotBytes, QueriesBytes, EntriesBytes, Blocks;
    var h := HeaderBytes(HeaderOf(m), junk);
    assert h <= Bytes(m, junk) && Le(HeaderOf(m).rtype, 4) <= h;
    assert Bytes(m, junk) == Le(HeaderOf(m).rtype, 4) + Bytes(m, junk)[4..];
    AtSplit(s, base, Le(HeaderOf(m).rtype, 4), Bytes(m, junk)[4..]);
  }

  /** create_message reads the type, picks the class and lets it parse; whatever
      stands behind the message in the buffer, the same message comes back, and
      get_size of what came back is the number of bytes it took. */
  method CreateMessage(f: Format, buf: array<Byte>, base: nat, ghost m: Message, ghost junk: Byte) returns (r: Message, next: nat)
    requires Ok(f, m) && At(buf[..], base, Bytes(m, junk))
    ensures r == Arrived(f, m, junk)
    ensures next == base + Size(f, m) == base + |Bytes(m, junk)|
  {
    hide At, Bytes, Size, QueryOk, EntryOk, QueryBytes, HeaderOk;
    TypeFirst(f, buf[..], base, m, junk);
    TypeTells(f, m);
    SizeIsLength(f, m, junk);
    Limits();
    var rtype := GetNumber(buf, base, 4, HeaderOf(m).rtype);
    if rtype == CL_QRY {
      var q;
      QueryMessage(f, m, junk);
      q, next := GetQuery(f, buf, base, m.query, junk);
      r := ClQry(q);
    } else if rtype == CL_BATCH {
      r, next := GetBatch(f, buf, base, m, junk);
    } else if rtype == CL_RSP {
      r, next := GetResponse(f, buf, base, m, junk);
    } else if rtype == BATCH_REQ {
      r, next := GetBatchReq(f, buf, base, m, junk);
    } else if rtype == CHKPT {
      r, next := GetCheckpoint(f, buf, base, m, junk);
    } else {
      r, next := GetVote(f, buf, base, m, junk);
    }
  }

  lemma TypeTells(f: Format, m: Message)
    requires Ok(f, m)
    ensures var t := HeaderOf(m).rtype;
            && (m.ClQry? <==> t == CL_QRY) && (m.ClBatch? <==> t == CL_BATCH) && (m.ClRsp? <==> t == CL_RSP)
            && (m.BatchReq? <==> t == BATCH_REQ) && (m.Chkpt? <==> t == CHKPT)
  {
  }

  lemma QueryMessage(f: Format, m: Message, junk: Byte)
    requires Ok(f, m) && m.ClQry?
    ensures QueryOk(f, m.query) && Bytes(m, junk) == QueryBytes(m.query, junk) && Size(f, m) == QuerySize(f, m.query)
  {
  }

  /** Sending and receiving: the bytes put at one place of a buffer parse to the same
      message apart from its network times, if its fixed fields have their declared
      lengths, and parsing stops where writing did. */
  method RoundTrip(f: Format, buf: array<Byte>, base: nat, m: Message, junk: Byte) returns (r: Message, next: nat)
    requires Ok(f, m) && base + Size(f, m) <= buf.Length
    modifies buf
    ensures AllExact(m) ==> Timeless(r) == Timeless(m)
    ensures next == base + Size(f, m)
    ensures Wrote(old(buf[..]), buf[..], base, Bytes(m, junk))
  {
    hide Wrote, Ok, Bytes, Size, Timeless, AllExact;
    next := PutMessage(f, buf, base, m, junk);
    WroteIsAt(old(buf[..]), buf[..], base, Bytes(m, junk));
    r, next := CreateMessage(f, buf, base, m, junk);
    OnlyTimesChange(f, m, junk);
  }

  // ------------------------------------------------ create_messages

  function ArrivedAll(f: Format, ms: seq<Message>, junk: Byte): seq<Message> {
    seq(|ms|, i requires 0 <= i < |ms| => Arrived(f, ms[i], junk))
  }

  lemma {:induction false} MessagesAt(s: seq<Byte>, ptr: nat, ms: seq<Message>, i: nat, junk: Byte)
    requires At(s, ptr, AllBytes(ms, junk)) && i < |ms|
    ensures At(s, ptr + |AllBytes(ms[..i], junk)|, Bytes(ms[i], junk))
    decreases |ms|
  {
    hide At, Bytes;
    var short := ms[..|ms| - 1];
    AtSplit(s, ptr, AllBytes(short, junk), Bytes(ms[|ms| - 1], junk));
    if i < |ms| - 1 {
      MessagesAt(s, ptr, short, i, junk);
      assert short[..i] == ms[..i];
    }
  }

  /** create_messages: a packet of three 32-bit numbers and count messages one after
      another yields exactly those messages, all from the sender named in it. */
  method CreateMessages(f: Format, buf: array<Byte>, self: Half, ghost ret: Half, ghost ms: seq<Message>, ghost junk: Byte)
    returns (from: Half, r: seq<Message>)
    requires ret != self && |ms| < 0x1_0000_0000
    requires forall i :: 0 <= i < |ms| ==> Ok(f, ms[i])
    requires At(buf[..], 0, Le(self, 4) + Le(ret, 4) + Le(|ms|, 4) + AllBytes(ms, junk))
    ensures from == ret && r == ArrivedAll(f, ms, junk)
  {
    hide At, Bytes, Ok, Le, Arrived, Size;
    AtSplit(buf[..], 0, Le(self, 4) + Le(ret, 4) + Le(|ms|, 4), AllBytes(ms, junk));
    AtSplit(buf[..], 0, Le(self, 4) + Le(ret, 4), Le(|ms|, 4));
    AtSplit(buf[..], 0, Le(self, 4), Le(ret, 4));
    Limits();
    var dest := GetNumber(buf, 0, 4, self);
    from := GetNumber(buf, 4, 4, ret);
    var count := GetNumber(buf, 8, 4, |ms|);
    assert dest == self && from != self;
    var ptr := 12;
    r := [];
    for i := 0 to count
      invariant |r| == i && forall j :: 0 <= j < i ==> r[j] == Arrived(f, ms[j], junk)
      invariant ptr == 12 + |AllBytes(ms[..i], junk)|
    {
      MessagesAt(buf[..], 12, ms, i, junk);
      var m;
      m, ptr := CreateMessage(f, buf, ptr, ms[i], junk);
      assert ms[..i + 1][..i] == ms[..i];
      r := r + [m];
    }
  }
}
