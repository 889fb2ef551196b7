/** Where each field of a message stands in the buffer: the format two nodes must share
    byte by byte. */
module WireLayout {
  import opened Wire

  lemma {:induction false} AtLeft(a: seq<Byte>, b: seq<Byte>, ptr: nat, part: seq<Byte>)
    requires At(a, ptr, part)
    ensures At(a + b, ptr, part)
  {
  }

  lemma {:induction false} AtRight(a: seq<Byte>, b: seq<Byte>, ptr: nat, part: seq<Byte>)
    requires At(b, ptr, part)
    ensures At(a + b, |a| + ptr, part)
  {
    assert (a + b)[|a| + ptr..|a| + ptr + |part|] == b[ptr..ptr + |part|];
  }

  /** The lowest byte comes first. */
  lemma {:induction false} LeAt(n: nat, k: nat, i: nat)
    requires i < k
    ensures Le(n, k)[i] == Shifted(n, i) % 256
  {
    if 0 < i {
      LeAt(n / 256, k - 1, i - 1);
    }
  }

  function Shifted(n: nat, i: nat): nat { if i == 0 then n else Shifted(n / 256, i - 1) }

  lemma {:induction false} WordsStand(ws: seq<Word>, i: nat)
    requires i < |ws|
    ensures At(Words(ws), 8 * i, Le(ws[i], 8))
  {
    Whole(Words(ws));
    hide Le, Words, At;
    WordsAt(Words(ws), 0, ws, i);
  }

  /** The numbers of the common part: 4 bytes of type, then eleven words. */
  lemma {:induction false} HeaderNumbers(h: Header, junk: Byte)
    ensures var s := HeaderBytes(h, junk);
            && At(s, 0, Le(h.rtype, 4)) && At(s, 4, Le(h.txnId, 8)) && At(s, 12, Le(h.mqTime, 8))
            && At(s, 20, Le(h.workQueue, 8)) && At(s, 28, Le(h.msgQueue, 8)) && At(s, 36, Le(h.ccBlock, 8))
            && At(s, 44, Le(h.cc, 8)) && At(s, 52, Le(h.process, 8)) && At(s, 60, Le(h.network, 8)) && At(s, 68, Le(h.other, 8))
            && At(s, 76, Le(h.sigSize, 8)) && At(s, 84, Le(h.keySize, 8))
  {
    var ws := HeaderWords(h);
    hide Le, LotBytes, Words;
    var front := Le(h.rtype, 4) + Words(ws);
    var tail := h.signature + h.pubKey + LotBytes(h.lot, Carry(h, junk));
    assert HeaderBytes(h, junk) == front + tail;
    AtLeft(front, tail, 0, Le(h.rtype, 4));
    forall i: nat | i < 11 ensures At(HeaderBytes(h, junk), 4 + 8 * i, Le(ws[i], 8)) {
      WordsStand(ws, i);
      AtRight(Le(h.rtype, 4), Words(ws), 8 * i, Le(ws[i], 8));
      AtLeft(front, tail, 4 + 8 * i, Le(ws[i], 8));
    }
    assert ws[0] == h.txnId && ws[1] == h.mqTime && ws[2] == h.workQueue && ws[3] == h.msgQueue && ws[4] == h.ccBlock && ws[5] == h.cc;
    assert ws[6] == h.process && ws[7] == h.network && ws[8] == h.other && ws[9] == h.sigSize && ws[10] == h.keySize;
    hide At, HeaderBytes, HeaderWords;
    assert At(HeaderBytes(h, junk), 4 + 8 * 0, Le(ws[0], 8)) && At(HeaderBytes(h, junk), 4 + 8 * 1, Le(ws[1], 8));
    assert At(HeaderBytes(h, junk), 4 + 8 * 2, Le(ws[2], 8)) && At(HeaderBytes(h, junk), 4 + 8 * 3, Le(ws[3], 8));
    assert At(HeaderBytes(h, junk), 4 + 8 * 4, Le(ws[4], 8)) && At(HeaderBytes(h, junk), 4 + 8 * 5, Le(ws[5], 8));
    assert At(HeaderBytes(h, junk), 4 + 8 * 6, Le(ws[6], 8)) && At(HeaderBytes(h, junk), 4 + 8 * 7, Le(ws[7], 8));
    assert At(HeaderBytes(h, junk), 4 + 8 * 8, Le(ws[8], 8)) && At(HeaderBytes(h, junk), 4 + 8 * 9, Le(ws[9], 8));
    assert At(HeaderBytes(h, junk), 4 + 8 * 10, Le(ws[10], 8));
  }

  /** Signature, key and the fixed fields follow, in this order and with these widths. */
  lemma {:induction false} HeaderFields(h: Header, junk: Byte)
    ensures var s, p, carry := HeaderBytes(h, junk), 92 + |h.signature| + |h.pubKey|, Carry(h, junk);
            && At(s, 92, h.signature) && At(s, 92 + |h.signature|, h.pubKey)
            && At(s, p, Padded(h.lot.seed, 20, carry))
            && (|h.lot.hash| == 20 ==> At(s, p + 20, h.lot.hash))
            && (|h.lot.proof| == 256 ==> At(s, p + 40, h.lot.proof))
            && (|h.lot.value| == 64 ==> At(s, p + 296, h.lot.value))
            && At(s, p + 360, Le(h.lot.j, 4)) && At(s, p + 364, Le(h.lot.nodeId, 4))
            && (|h.lot.pk| == 426 ==> At(s, p + 368, h.lot.pk))
            && At(s, p + 794, Le(h.lot.kind, 4)) && |s| == p + 798
  {
    var lot, carry := LotBytes(h.lot, Carry(h, junk)), Carry(h, junk);
    var s, p := HeaderBytes(h, junk), 92 + |h.signature| + |h.pubKey|;
    assert s == Le(h.rtype, 4) + Words(HeaderWords(h)) + h.signature + h.pubKey + lot;
    Parts(h, lot, s);
    hide LotBytes, HeaderBytes, Carry, HeaderWords;
    LotInside(h.lot, carry, s, p);
  }

  lemma {:induction false} LotInside(l: Lot, carry: Byte, s: seq<Byte>, p: nat)
    requires At(s, p, LotBytes(l, carry))
    ensures At(s, p, Padded(l.seed, 20, carry))
    ensures |l.hash| == 20 ==> At(s, p + 20, l.hash)
    ensures |l.proof| == 256 ==> At(s, p + 40, l.proof)
    ensures |l.value| == 64 ==> At(s, p + 296, l.value)
    ensures At(s, p + 360, Le(l.j, 4)) && At(s, p + 364, Le(l.nodeId, 4))
    ensures |l.pk| == 426 ==> At(s, p + 368, l.pk)
    ensures At(s, p + 794, Le(l.kind, 4)) && |LotBytes(l, carry)| == 798
  {
    var lot := LotBytes(l, carry);
    LotFields(l, carry);
    hide At, Le, Padded, LotBytes;
    AtInside(s, p, lot, 0, Padded(l.seed, 20, carry));
    if |l.hash| == 20 { AtInside(s, p, lot, 20, l.hash); }
    if |l.proof| == 256 { AtInside(s, p, lot, 40, l.proof); }
    if |l.value| == 64 { AtInside(s, p, lot, 296, l.value); }
    AtInside(s, p, lot, 360, Le(l.j, 4));
    AtInside(s, p, lot, 364, Le(l.nodeId, 4));
    if |l.pk| == 426 { AtInside(s, p, lot, 368, l.pk); }
    AtInside(s, p, lot, 794, Le(l.kind, 4));
  }

  /** An empty first field is filled with the last byte of the key, or of the signature
      if there is no key. */
  lemma {:induction false} CarryIs(h: Header, junk: Byte)
    ensures Carry(h, junk) == if h.pubKey != [] then h.pubKey[|h.pubKey| - 1]
                              else if h.signature != [] then h.signature[|h.signature| - 1] else junk
  {
  }

  lemma {:induction false} Parts(h: Header, lot: seq<Byte>, s: seq<Byte>)
    requires s == Le(h.rtype, 4) + Words(HeaderWords(h)) + h.signature + h.pubKey + lot
    ensures At(s, 92, h.signature) && At(s, 92 + |h.signature|, h.pubKey) && At(s, 92 + |h.signature| + |h.pubKey|, lot)
    ensures |s| == 92 + |h.signature| + |h.pubKey| + |lot|
  {
    var front := Le(h.rtype, 4) + Words(HeaderWords(h));
    assert |front| == 92;
    Whole(s);
    hide At, Le, Words;
    AtSplit(s, 0, front + h.signature + h.pubKey, lot);
    AtSplit(s, 0, front + h.signature, h.pubKey);
    AtSplit(s, 0, front, h.signature);
  }

  lemma {:induction false} AtInside(s: seq<Byte>, p: nat, t: seq<Byte>, i: nat, part: seq<Byte>)
    requires At(s, p, t) && At(t, i, part)
    ensures At(s, p + i, part)
  {
    forall x | 0 <= x < |part| ensures s[p + i + x] == part[x] {
      assert s[p + i + x] == s[p..p + |t|][i + x] == t[i..i + |part|][x];
    }
  }

  lemma {:induction false} LotFields(l: Lot, carry: Byte)
    ensures var s := LotBytes(l, carry);
            && At(s, 0, Padded(l.seed, 20, carry))
            && (|l.hash| == 20 ==> At(s, 20, l.hash))
            && (|l.proof| == 256 ==> At(s, 40, l.proof))
            && (|l.value| == 64 ==> At(s, 296, l.value))
            && At(s, 360, Le(l.j, 4)) && At(s, 364, Le(l.nodeId, 4))
            && (|l.pk| == 426 ==> At(s, 368, l.pk))
            && At(s, 794, Le(l.kind, 4)) && |s| == 798
  {
    var a := Padded(l.seed, SEED, carry);
    var b := Padded(l.hash, HASH, Last(a, carry));
    var c := Padded(l.proof, PROOF, Last(b, carry));
    var d := Padded(l.value, VALUE, Last(c, carry));
    var e := Padded(l.pk, PK, Last(d, carry));
    FieldSurvives(l.hash, HASH, Last(a, carry));
    FieldSurvives(l.proof, PROOF, Last(b, carry));
    FieldSurvives(l.value, VALUE, Last(c, carry));
    FieldSurvives(l.pk, PK, Last(d, carry));
    hide Le, Padded;
    var j, n, k := Le(l.j, 4), Le(l.nodeId, 4), Le(l.kind, 4);
    LotParts(a, b, c, d, j, n, e, k);
  }

  lemma {:induction false} LotParts(a: seq<Byte>, b: seq<Byte>, c: seq<Byte>, d: seq<Byte>, j: seq<Byte>, n: seq<Byte>, e: seq<Byte>, k: seq<Byte>)
    ensures var s := a + b + c + d + j + n + e + k;
            && At(s, 0, a) && At(s, |a|, b) && At(s, |a| + |b|, c) && At(s, |a| + |b| + |c|, d)
            && At(s, |a| + |b| + |c| + |d|, j) && At(s, |a| + |b| + |c| + |d| + |j|, n)
            && At(s, |a| + |b| + |c| + |d| + |j| + |n|, e) && At(s, |a| + |b| + |c| + |d| + |j| + |n| + |e|, k)
  {
    var s := a + b + c + d + j + n + e + k;
    Whole(s);
    hide At;
    AtSplit(s, 0, a + b + c + d + j + n + e, k);
    AtSplit(s, 0, a + b + c + d + j + n, e);
    AtSplit(s, 0, a + b + c + d + j, n);
    AtSplit(s, 0, a + b + c + d, j);
    AtSplit(s, 0, a + b + c, d);
    AtSplit(s, 0, a + b, c);
    AtSplit(s, 0, a, b);
  }

  /** What follows the common part, from p on, kind by kind. */
  ghost predicate BodyAt(m: Message, junk: Byte, s: seq<Byte>, p: nat) {
    match m
    case VoteMsg(h, view, index, hashSize, hash, returnNode, endIndex, size) =>
      && At(s, p, Le(view, 8)) && At(s, p + 8, Le(index, 8)) && At(s, p + 16, Le(hashSize, 8)) && At(s, p + 24, hash)
      && At(s, p + 24 + |hash|, Le(returnNode, 8)) && At(s, p + 32 + |hash|, Le(endIndex, 8))
      && At(s, p + 40 + |hash|, Le(size, if h.rtype == PREP then 4 else 8))
    case Chkpt(_, index, returnNode, begIndex) =>
      At(s, p, Le(index, 8)) && At(s, p + 8, Le(returnNode, 8)) && At(s, p + 16, Le(begIndex, 8))
    case ClRsp(_, indices, clientTs, view) =>
      && (forall i :: 0 <= i < |indices| ==> At(s, p + 8 * i, Le(indices[i], 8)))
      && (forall i :: 0 <= i < |clientTs| ==> At(s, p + 8 * |indices| + 8 * i, Le(clientTs[i], 8)))
      && At(s, p + 8 * |indices| + 8 * |clientTs|, Le(view, 8))
    case BatchReq(_, view, entries, batchSize) =>
      && At(s, p, Le(view, 8)) && At(s, p + 8, EntriesBytes(entries, junk))
      && At(s, p + 8 + |EntriesBytes(entries, junk)|, Le(batchSize, 4))
    case ClBatch(_, returnNode, batchSize, queries) =>
      At(s, p, Le(returnNode, 8)) && At(s, p + 8, Le(batchSize, 4)) && At(s, p + 12, QueriesBytes(queries, junk))
    case ClQry(q) => QueryFields(q, s, p)
  }

  lemma {:induction false} BodyFields(m: Message, junk: Byte)
    ensures At(Bytes(m, junk), 0, HeaderBytes(HeaderOf(m), junk))
    ensures BodyAt(m, junk, Bytes(m, junk), |HeaderBytes(HeaderOf(m), junk)|)
  {
    hide HeaderBytes, Le, EntriesBytes, QueriesBytes, Words, Blocks, At, QueryBytes, QueryFields;
    var h := HeaderBytes(HeaderOf(m), junk);
    match m
    case VoteMsg(hd, view, index, hashSize, hash, returnNode, endIndex, size) =>
      ThreeWords(view, index, hashSize);
      TwoWords(returnNode, endIndex);
      VoteParts(h, Le(view, 8), Le(index, 8), Le(hashSize, 8), hash, Le(returnNode, 8), Le(endIndex, 8), Le(size, SizeWidth(hd.rtype)));
    case Chkpt(_, index, returnNode, begIndex) =>
      ThreeWords(index, returnNode, begIndex);
      ThreeParts(h, Le(index, 8), Le(returnNode, 8), Le(begIndex, 8));
    case ClRsp(_, indices, clientTs, view) => ResponseFields(h, indices, clientTs, view);
    case BatchReq(_, view, entries, batchSize) =>
      OneWord(view);
      ThreeParts(h, Le(view, 8), EntriesBytes(entries, junk), Le(batchSize, 4));
    case ClBatch(_, returnNode, batchSize, queries) =>
      OneWord(returnNode);
      ThreeParts(h, Le(returnNode, 8), Le(batchSize, 4), QueriesBytes(queries, junk));
    case ClQry(q) => QueryPlaces(q, junk);
  }

  lemma {:induction false} OneWord(a: Word)
    ensures Words([a]) == Le(a, 8)
  {
    hide Le;
    assert [a][..0] == [];
  }

  lemma {:induction false} TwoWords(a: Word, b: Word)
    ensures Words([a, b]) == Le(a, 8) + Le(b, 8)
  {
    hide Le;
    OneWord(a);
    assert [a, b][..1] == [a];
  }

  lemma {:induction false} ThreeWords(a: Word, b: Word, c: Word)
    ensures Words([a, b, c]) == Le(a, 8) + Le(b, 8) + Le(c, 8)
  {
    hide Le;
    TwoWords(a, b);
    assert [a, b, c][..2] == [a, b];
  }

  lemma {:induction false} ThreeParts(h: seq<Byte>, a: seq<Byte>, b: seq<Byte>, c: seq<Byte>)
    ensures var s := h + (a + b + c);
            && s == h + a + b + c
            && At(s, 0, h) && At(s, |h|, a) && At(s, |h| + |a|, b) && At(s, |h| + |a| + |b|, c) && |s| == |h| + |a| + |b| + |c|
  {
  }

  lemma {:induction false} VoteParts(h: seq<Byte>, a: seq<Byte>, b: seq<Byte>, c: seq<Byte>, hash: seq<Byte>, d: seq<Byte>, e: seq<Byte>, k: seq<Byte>)
    ensures var s := h + (a + b + c) + hash + (d + e) + k; var p := |h| + |a| + |b| + |c|;
            && At(s, 0, h) && At(s, |h|, a) && At(s, |h| + |a|, b) && At(s, |h| + |a| + |b|, c)
            && At(s, p, hash) && At(s, p + |hash|, d) && At(s, p + |hash| + |d|, e) && At(s, p + |hash| + |d| + |e|, k)
  {
  }

  lemma {:induction false} ResponseFields(h: seq<Byte>, indices: seq<Word>, clientTs: seq<Word>, view: Word)
    ensures var s, p := h + Words(indices) + Words(clientTs) + Words([view]), |h|;
            && At(s, 0, h)
            && (forall i :: 0 <= i < |indices| ==> At(s, p + 8 * i, Le(indices[i], 8)))
            && (forall i :: 0 <= i < |clientTs| ==> At(s, p + 8 * |indices| + 8 * i, Le(clientTs[i], 8)))
            && At(s, p + 8 * |indices| + 8 * |clientTs|, Le(view, 8))
  {
    var s := h + Words(indices) + Words(clientTs) + Words([view]);
    OneWord(view);
    Whole(s);
    hide Words, Le, At;
    AtSplit(s, 0, h + Words(indices) + Words(clientTs), Words([view]));
    AtSplit(s, 0, h + Words(indices), Words(clientTs));
    AtSplit(s, 0, h, Words(indices));
    forall i | 0 <= i < |indices| ensures At(s, |h| + 8 * i, Le(indices[i], 8)) {
      WordsAt(s, |h|, indices, i);
    }
    forall i | 0 <= i < |clientTs| ensures At(s, |h| + 8 * |indices| + 8 * i, Le(clientTs[i], 8)) {
      WordsAt(s, |h| + 8 * |indices|, clientTs, i);
    }
  }

  lemma {:induction false} Whole(s: seq<Byte>)
    ensures At(s, 0, s)
  {
  }

  /** A client query: start time, partitions with their count, requests with theirs,
      and the node to answer last. */
  ghost predicate QueryFields(q: Query, s: seq<Byte>, p: nat) {
    var r := p + 16 + 8 * |q.partitions|;
    && At(s, p, Le(q.startts, 8)) && At(s, p + 8, Le(Count(q.partitions), 8))
    && (forall i :: 0 <= i < |q.partitions| ==> At(s, p + 16 + 8 * i, Le(q.partitions[i], 8)))
    && At(s, r, Le(Count(q.requests), 8)) && At(s, r + 8, Blocks(q.requests))
    && At(s, r + 8 + |Blocks(q.requests)|, Le(q.returnNode, 8))
  }

  lemma {:induction false} QueryPlaces(q: Query, junk: Byte)
    ensures At(QueryBytes(q, junk), 0, HeaderBytes(q.header, junk))
    ensures QueryFields(q, QueryBytes(q, junk), |HeaderBytes(q.header, junk)|)
  {
    TwoWords(q.startts, Count(q.partitions));
    OneWord(Count(q.requests));
    OneWord(q.returnNode);
    hide Words, Le, HeaderBytes, Blocks;
    var h, a, b, ws := HeaderBytes(q.header, junk), Le(q.startts, 8), Le(Count(q.partitions), 8), Words(q.partitions);
    var d, e, k := Le(Count(q.requests), 8), Blocks(q.requests), Le(q.returnNode, 8);
    QueryParts(h, a, b, ws, d, e, k);
    var s := QueryBytes(q, junk);
    forall i | 0 <= i < |q.partitions| ensures At(s, |h| + 16 + 8 * i, Le(q.partitions[i], 8)) {
      WordsStand(q.partitions, i);
      AtLeft(ws, d + e + k, 8 * i, Le(q.partitions[i], 8));
      AtRight(h + a + b, ws + (d + e + k), 8 * i, Le(q.partitions[i], 8));
    }
  }

  lemma {:induction false} QueryParts(h: seq<Byte>, a: seq<Byte>, b: seq<Byte>, ws: seq<Byte>, d: seq<Byte>, e: seq<Byte>, k: seq<Byte>)
    ensures var s, r := h + (a + b) + ws + d + e + k, |h| + |a| + |b| + |ws|;
            && s == h + a + b + (ws + (d + e + k))
            && At(s, 0, h) && At(s, |h|, a) && At(s, |h| + |a|, b)
            && At(s, r, d) && At(s, r + |d|, e) && At(s, r + |d| + |e|, k)
  {
  }

  /** An entry of a batch: index, hash with its size, and the query. */
  lemma {:induction false} EntryPlaces(e: Entry, junk: Byte)
    ensures var s := EntryBytes(e, junk);
            && At(s, 0, Le(e.index, 8)) && At(s, 8, Le(e.hashSize, 8)) && At(s, 16, e.hash)
            && At(s, 16 + |e.hash|, QueryBytes(e.query, junk))
  {
    TwoWords(e.index, e.hashSize);
    hide Le, Words, QueryBytes;
    ThreeParts(Le(e.index, 8), Le(e.hashSize, 8), e.hash, QueryBytes(e.query, junk));
  }
}
