/** View change: what a backup reports, why a committed batch is reported by some
    backup, and how the new primary numbers and chooses batches while the backups
    check its choice with a different scan. */
module ViewChange {
  import opened Arith
  import opened Quorum

  const EMPTY: nat := 0xFFFF_FFFF_FFFF_FFFF
  const UINT: nat := 0x1_0000_0000

  datatype Settings = Settings(f: nat, batch: nat, ring: nat) {
    predicate Valid() { 1 <= f && 1 < batch <= ring }
    function Nodes(): nat { 3 * f + 1 }
  }

  type Config = c: Settings | c.Valid() witness Settings(1, 100, 200)

  /** A batch as breqStore keeps it, by its last index and last hash. */
  datatype Batch = Batch(last: nat, view: nat, hash: string)
  datatype Prep = Prep(endIndex: nat, view: nat, hash: string)
  datatype Option<T> = None | Some(value: T)

  ghost predicate Shaped(c: Config, breq: seq<Batch>, prep: seq<seq<Prep>>) {
    |breq| == |prep| == c.ring && forall s :: 0 <= s < c.ring ==> |prep[s]| == c.Nodes()
  }

  // ------------------------------------------------ the report of a backup

  /** The stored prepares of the batch that ends at idx, in node order. */
  function Tagged(row: seq<Prep>, idx: nat): seq<Prep> {
    if row == [] then []
    else Tagged(row[..|row| - 1], idx) + if row[|row| - 1].endIndex == idx then [row[|row| - 1]] else []
  }

  /** The batch in slot i, if it is above the checkpoint and has its 2f prepares. */
  function Picked(c: Config, breq: seq<Batch>, prep: seq<seq<Prep>>, stable: nat, i: nat): seq<Batch>
    requires Shaped(c, breq, prep) && i < c.ring
  {
    var b := breq[i];
    if stable < b.last < EMPTY && 2 * c.f <= |Tagged(prep[b.last % c.ring], b.last)| then [b] else []
  }

  function PickedPreps(c: Config, breq: seq<Batch>, prep: seq<seq<Prep>>, stable: nat, i: nat): seq<Prep>
    requires Shaped(c, breq, prep) && i < c.ring
  {
    if Picked(c, breq, prep, stable, i) == [] then [] else Tagged(prep[breq[i].last % c.ring], breq[i].last)
  }

  /** The assertions on slot i: every stored prepare of a live batch agrees with it. */
  predicate Agrees(c: Config, breq: seq<Batch>, prep: seq<seq<Prep>>, stable: nat, i: nat)
    requires Shaped(c, breq, prep) && i < c.ring
  {
    var b := breq[i];
    stable < b.last < EMPTY ==>
      forall j :: 0 <= j < c.Nodes() && prep[b.last % c.ring][j].endIndex == b.last
                  ==> prep[b.last % c.ring][j].view == b.view && prep[b.last % c.ring][j].hash == b.hash
  }

  function Scan(c: Config, breq: seq<Batch>, prep: seq<seq<Prep>>, stable: nat, from: nat, to: nat): seq<Batch>
    requires Shaped(c, breq, prep) && from <= to <= c.ring
  {
    if from == to then [] else Scan(c, breq, prep, stable, from, to - 1) + Picked(c, breq, prep, stable, to - 1)
  }

  function ScanPreps(c: Config, breq: seq<Batch>, prep: seq<seq<Prep>>, stable: nat, from: nat, to: nat): seq<Prep>
    requires Shaped(c, breq, prep) && from <= to <= c.ring
  {
    if from == to then [] else ScanPreps(c, breq, prep, stable, from, to - 1) + PickedPreps(c, breq, prep, stable, to - 1)
  }

  /** From the slot after the checkpoint round to the slot of the checkpoint. */
  function Report(c: Config, breq: seq<Batch>, prep: seq<seq<Prep>>, stable: nat): seq<Batch>
    requires Shaped(c, breq, prep)
  {
    var st := (stable + 1) % c.ring;
    Scan(c, breq, prep, stable, st, c.ring) + Scan(c, breq, prep, stable, 0, st)
  }

  function ReportPreps(c: Config, breq: seq<Batch>, prep: seq<seq<Prep>>, stable: nat): seq<Prep>
    requires Shaped(c, breq, prep)
  {
    var st := (stable + 1) % c.ring;
    ScanPreps(c, breq, prep, stable, st, c.ring) + ScanPreps(c, breq, prep, stable, 0, st)
  }

  /** PBFTViewChangeMsg::init. */
  class ViewChangeMsg {
    const c: Config
    var index: nat
    var pres: seq<Batch>
    var preps: seq<Prep>

    constructor (c: Config)
      ensures this.c == c && pres == [] && preps == []
    {
      this.c := c;
      index := 0;
      pres := [];
      preps := [];
    }

    method CountPreps(breq: seq<Batch>, prep: seq<seq<Prep>>, stable: nat, i: nat) returns (ok: bool, count: nat)
      requires Shaped(c, breq, prep) && i < c.ring && stable < breq[i].last < EMPTY
      ensures ok <==> Agrees(c, breq, prep, stable, i)
      ensures ok ==> count == |Tagged(prep[breq[i].last % c.ring], breq[i].last)|
    {
      var b := breq[i];
      var row := prep[b.last % c.ring];
      count := 0;
      for j := 0 to c.Nodes()
        invariant count == |Tagged(row[..j], b.last)|
        invariant forall k :: 0 <= k < j && row[k].endIndex == b.last ==> row[k].view == b.view && row[k].hash == b.hash
      {
        assert row[..j + 1][..j] == row[..j];
        if row[j].endIndex == b.last {
          if b.view != row[j].view || b.hash != row[j].hash {
            return false, count;
          }
          count := count + 1;
        }
      }
      assert row[..c.Nodes()] == row;
      ok := true;
    }

    method AddPreps(row: seq<Prep>, idx: nat)
      modifies `preps
      ensures preps == old(preps) + Tagged(row, idx)
    {
      for j := 0 to |row|
        invariant preps == old(preps) + Tagged(row[..j], idx)
      {
        assert row[..j + 1][..j] == row[..j];
        if row[j].endIndex == idx {
          preps := preps + [row[j]];
        }
      }
      assert row[..|row|] == row;
    }

    method ScanSlot(breq: seq<Batch>, prep: seq<seq<Prep>>, stable: nat, i: nat) returns (ok: bool)
      requires Shaped(c, breq, prep) && i < c.ring
      modifies `pres, `preps
      ensures ok <==> Agrees(c, breq, prep, stable, i)
      ensures ok ==> pres == old(pres) + Picked(c, breq, prep, stable, i)
      ensures ok ==> preps == old(preps) + PickedPreps(c, breq, prep, stable, i)
    {
      hide Agrees, Tagged;
      var idx := breq[i].last;
      QuietSlot(c, breq, prep, stable, i);
      ok := true;
      if stable < idx < EMPTY {
        var count;
        ok, count := CountPreps(breq, prep, stable, i);
        if ok && 2 * c.f <= count {
          AddPreps(prep[idx % c.ring], idx);
          pres := pres + [breq[i]];
        }
      }
    }

    method ScanSlots(breq: seq<Batch>, prep: seq<seq<Prep>>, stable: nat, from: nat, to: nat) returns (ok: bool)
      requires Shaped(c, breq, prep) && from <= to <= c.ring
      modifies `pres, `preps
      ensures ok <==> forall i :: from <= i < to ==> Agrees(c, breq, prep, stable, i)
      ensures ok ==> pres == old(pres) + Scan(c, breq, prep, stable, from, to)
      ensures ok ==> preps == old(preps) + ScanPreps(c, breq, prep, stable, from, to)
    {
      hide Agrees, Picked, PickedPreps;
      for i := from to to
        invariant forall k :: from <= k < i ==> Agrees(c, breq, prep, stable, k)
        invariant pres == old(pres) + Scan(c, breq, prep, stable, from, i)
        invariant preps == old(preps) + ScanPreps(c, breq, prep, stable, from, i)
      {
        ok := ScanSlot(breq, prep, stable, i);
        if !ok {
          return;
        }
      }
      ok := true;
    }

    method Init(breq: seq<Batch>, prep: seq<seq<Prep>>, stable: nat) returns (ok: bool)
      requires Shaped(c, breq, prep) && pres == [] && preps == []
      modifies this
      ensures ok <==> forall i :: 0 <= i < c.ring ==> Agrees(c, breq, prep, stable, i)
      ensures ok ==> index == stable && pres == Report(c, breq, prep, stable) && preps == ReportPreps(c, breq, prep, stable)
    {
      hide Agrees, Scan, ScanPreps;
      index := stable;
      var st := (stable + 1) % c.ring;
      ok := ScanSlots(breq, prep, stable, st, c.ring);
      if ok {
        ok := ScanSlots(breq, prep, stable, 0, st);
      }
    }
  }

  lemma QuietSlot(c: Config, breq: seq<Batch>, prep: seq<seq<Prep>>, stable: nat, i: nat)
    requires Shaped(c, breq, prep) && i < c.ring
    ensures !(stable < breq[i].last < EMPTY) ==> Agrees(c, breq, prep, stable, i)
  {
  }

  // ------------------------------------------------ the report is sorted and complete

  /** Stored batches sit in their slots, within one ring above the checkpoint. */
  ghost predicate InWindow(c: Config, breq: seq<Batch>, stable: nat) {
    |breq| == c.ring &&
    forall i :: 0 <= i < c.ring && stable < breq[i].last < EMPTY ==> breq[i].last % c.ring == i && breq[i].last <= stable + c.ring
  }

  /** How far slot i is from the slot after the checkpoint, going up. */
  function Distance(c: Config, stable: nat, i: nat): nat
    requires i < c.ring
  {
    var st := (stable + 1) % c.ring;
    if st <= i then i - st else i + c.ring - st
  }

  lemma LastBySlot(c: Config, stable: nat, last: nat)
    requires stable < last <= stable + c.ring
    ensures last == stable + 1 + Distance(c, stable, last % c.ring)
  {
    var i := last % c.ring;
    var x := stable + 1 + Distance(c, stable, i);
    var q := (stable + 1) / c.ring;
    assert stable + 1 == c.ring * q + (stable + 1) % c.ring;
    if (stable + 1) % c.ring <= i {
      DivUnique(x, c.ring, q, i);
    } else {
      assert c.ring * (q + 1) == c.ring * q + c.ring;
      DivUnique(x, c.ring, q + 1, i);
    }
    if x < last { SlotsDiffer(x, last, c.ring); }
    if last < x { SlotsDiffer(last, x, c.ring); }
  }

  ghost predicate Ascending(bs: seq<Batch>) { forall i, j :: 0 <= i < j < |bs| ==> bs[i].last < bs[j].last }

  /** One scan: ascending, and between the indices its first and last slot stand for. */
  lemma {:induction false} ScanSorted(c: Config, breq: seq<Batch>, prep: seq<seq<Prep>>, stable: nat, from: nat, to: nat)
    requires Shaped(c, breq, prep) && InWindow(c, breq, stable) && from <= to <= c.ring
    requires to <= (stable + 1) % c.ring || (stable + 1) % c.ring <= from
    ensures Ascending(Scan(c, breq, prep, stable, from, to))
    ensures forall b :: b in Scan(c, breq, prep, stable, from, to) ==>
              b.last % c.ring < to && from <= b.last % c.ring && stable < b.last <= stable + c.ring
  {
    if from < to {
      ScanSorted(c, breq, prep, stable, from, to - 1);
      forall b | b in Scan(c, breq, prep, stable, from, to - 1) && Picked(c, breq, prep, stable, to - 1) != []
        ensures b.last < breq[to - 1].last
      {
        LastBySlot(c, stable, b.last);
        LastBySlot(c, stable, breq[to - 1].last);
      }
    }
  }

  lemma {:induction false} ScanComplete(c: Config, breq: seq<Batch>, prep: seq<seq<Prep>>, stable: nat, from: nat, to: nat, i: nat)
    requires Shaped(c, breq, prep) && from <= i < to <= c.ring && Picked(c, breq, prep, stable, i) != []
    ensures breq[i] in Scan(c, breq, prep, stable, from, to)
  {
    if i < to - 1 {
      ScanComplete(c, breq, prep, stable, from, to - 1, i);
    }
  }

  lemma {:induction false} ScanSound(c: Config, breq: seq<Batch>, prep: seq<seq<Prep>>, stable: nat, from: nat, to: nat, b: Batch)
    requires Shaped(c, breq, prep) && from <= to <= c.ring && b in Scan(c, breq, prep, stable, from, to)
    ensures exists i :: from <= i < to && Picked(c, breq, prep, stable, i) == [b]
  {
    if b in Scan(c, breq, prep, stable, from, to - 1) {
      ScanSound(c, breq, prep, stable, from, to - 1, b);
    }
  }

  /** The report lists, in ascending order and each once, exactly the stored batches
      above the checkpoint that have 2f stored prepares. */
  lemma ReportIsSortedAndComplete(c: Config, breq: seq<Batch>, prep: seq<seq<Prep>>, stable: nat)
    requires Shaped(c, breq, prep) && InWindow(c, breq, stable)
    ensures Ascending(Report(c, breq, prep, stable))
    ensures forall b :: b in Report(c, breq, prep, stable) <==>
              exists i :: 0 <= i < c.ring && Picked(c, breq, prep, stable, i) == [b]
  {
    hide Picked, InWindow;
    var st := (stable + 1) % c.ring;
    var high, low := Scan(c, breq, prep, stable, st, c.ring), Scan(c, breq, prep, stable, 0, st);
    ScanSorted(c, breq, prep, stable, st, c.ring);
    ScanSorted(c, breq, prep, stable, 0, st);
    forall a, b | a in high && b in low ensures a.last < b.last {
      LastBySlot(c, stable, a.last);
      LastBySlot(c, stable, b.last);
    }
    forall b | b in Report(c, breq, prep, stable)
      ensures exists i :: 0 <= i < c.ring && Picked(c, breq, prep, stable, i) == [b]
    {
      if b in high {
        ScanSound(c, breq, prep, stable, st, c.ring, b);
      } else {
        ScanSound(c, breq, prep, stable, 0, st, b);
      }
    }
    forall i | 0 <= i < c.ring && Picked(c, breq, prep, stable, i) != []
      ensures breq[i] in Report(c, breq, prep, stable) && Picked(c, breq, prep, stable, i) == [breq[i]]
    {
      PickedIs(c, breq, prep, stable, i);
      if i < st {
        ScanComplete(c, breq, prep, stable, 0, st, i);
      } else {
        ScanComplete(c, breq, prep, stable, st, c.ring, i);
      }
    }
  }

  lemma PickedIs(c: Config, breq: seq<Batch>, prep: seq<seq<Prep>>, stable: nat, i: nat)
    requires Shaped(c, breq, prep) && i < c.ring
    ensures Picked(c, breq, prep, stable, i) == [] || Picked(c, breq, prep, stable, i) == [breq[i]]
  {
  }

  ghost predicate BatchAt(bs: seq<Batch>, k: nat) { exists b :: b in bs && b.last == k }
  ghost predicate PrepAt(ps: seq<Prep>, k: nat) { exists p :: p in ps && p.endIndex == k }

  lemma AtConcat(bs: seq<Batch>, bs': seq<Batch>, ps: seq<Prep>, ps': seq<Prep>, k: nat)
    ensures BatchAt(bs + bs', k) <==> BatchAt(bs, k) || BatchAt(bs', k)
    ensures PrepAt(ps + ps', k) <==> PrepAt(ps, k) || PrepAt(ps', k)
  {
    if b :| b in bs && b.last == k { assert b in bs + bs'; }
    if b :| b in bs' && b.last == k { assert b in bs + bs'; }
    if p :| p in ps && p.endIndex == k { assert p in ps + ps'; }
    if p :| p in ps' && p.endIndex == k { assert p in ps + ps'; }
  }

  lemma PickedMatch(c: Config, breq: seq<Batch>, prep: seq<seq<Prep>>, stable: nat, i: nat, k: nat)
    requires Shaped(c, breq, prep) && i < c.ring
    ensures BatchAt(Picked(c, breq, prep, stable, i), k) <==> PrepAt(PickedPreps(c, breq, prep, stable, i), k)
  {
    var row := Tagged(prep[breq[i].last % c.ring], breq[i].last);
    TaggedEnds(prep[breq[i].last % c.ring], breq[i].last);
    if Picked(c, breq, prep, stable, i) != [] {
      assert breq[i] in Picked(c, breq, prep, stable, i);
      assert row[0] in PickedPreps(c, breq, prep, stable, i);
    }
  }

  lemma {:induction false} ScanPrepsMatch(c: Config, breq: seq<Batch>, prep: seq<seq<Prep>>, stable: nat, from: nat, to: nat, k: nat)
    requires Shaped(c, breq, prep) && from <= to <= c.ring
    ensures BatchAt(Scan(c, breq, prep, stable, from, to), k) <==> PrepAt(ScanPreps(c, breq, prep, stable, from, to), k)
  {
    hide BatchAt, PrepAt, Picked, PickedPreps, Shaped;
    if from == to {
      NoneAt(k);
    } else {
      ScanPrepsMatch(c, breq, prep, stable, from, to - 1, k);
      PickedMatch(c, breq, prep, stable, to - 1, k);
      AtConcat(Scan(c, breq, prep, stable, from, to - 1), Picked(c, breq, prep, stable, to - 1),
               ScanPreps(c, breq, prep, stable, from, to - 1), PickedPreps(c, breq, prep, stable, to - 1), k);
    }
  }

  lemma NoneAt(k: nat)
    ensures !BatchAt([], k) && !PrepAt([], k)
  {
  }

  lemma {:induction false} TaggedEnds(row: seq<Prep>, idx: nat)
    ensures forall p :: p in Tagged(row, idx) ==> p.endIndex == idx
  {
    if row != [] {
      TaggedEnds(row[..|row| - 1], idx);
    }
  }

  ghost function Columns(row: seq<Prep>, idx: nat): set<nat> { set j: nat | j < |row| && row[j].endIndex == idx }

  lemma {:induction false} TaggedSize(row: seq<Prep>, idx: nat)
    ensures |Tagged(row, idx)| == |Columns(row, idx)|
  {
    if row != [] {
      var short, n := row[..|row| - 1], |row| - 1;
      TaggedSize(short, idx);
      assert Columns(row, idx) == if row[n].endIndex == idx then Columns(short, idx) + {n} else Columns(short, idx);
    }
  }

  lemma {:induction false} TaggedMembers(row: seq<Prep>, idx: nat)
    ensures forall p :: p in Tagged(row, idx) <==> p in row && p.endIndex == idx
  {
    if row != [] {
      var short, n := row[..|row| - 1], |row| - 1;
      TaggedMembers(short, idx);
      assert row == short + [row[n]];
    }
  }

  /** In terms of the tables: the report holds a batch exactly when it stands in a slot,
      is above the checkpoint, and 2f nodes' stored prepares carry its last index; and a
      prepare exactly when it is one of those. */
  lemma ReportExactly(c: Config, breq: seq<Batch>, prep: seq<seq<Prep>>, stable: nat)
    requires Shaped(c, breq, prep) && InWindow(c, breq, stable)
    ensures forall b :: b in Report(c, breq, prep, stable) <==>
              b in breq && stable < b.last < EMPTY
              && 2 * c.f <= |set j: nat | j < c.Nodes() && prep[b.last % c.ring][j].endIndex == b.last|
    ensures forall p :: p in ReportPreps(c, breq, prep, stable) <==>
              exists b :: b in Report(c, breq, prep, stable) && p in prep[b.last % c.ring] && p.endIndex == b.last
  {
    hide Report, ReportPreps, InWindow, Picked, Columns;
    ReportIsSortedAndComplete(c, breq, prep, stable);
    forall b ensures b in Report(c, breq, prep, stable) <==>
              b in breq && stable < b.last < EMPTY
              && 2 * c.f <= |set j: nat | j < c.Nodes() && prep[b.last % c.ring][j].endIndex == b.last|
    {
      BatchReported(c, breq, prep, stable, b);
    }
    forall p ensures p in ReportPreps(c, breq, prep, stable) <==>
              exists b :: b in Report(c, breq, prep, stable) && p in prep[b.last % c.ring] && p.endIndex == b.last
    {
      PrepsOfScan(c, breq, prep, stable, p);
    }
  }

  lemma BatchReported(c: Config, breq: seq<Batch>, prep: seq<seq<Prep>>, stable: nat, b: Batch)
    requires Shaped(c, breq, prep)
    ensures (exists i :: 0 <= i < c.ring && Picked(c, breq, prep, stable, i) == [b]) <==>
              b in breq && stable < b.last < EMPTY
              && 2 * c.f <= |set j: nat | j < c.Nodes() && prep[b.last % c.ring][j].endIndex == b.last|
  {
    hide Tagged;
    TaggedSize(prep[b.last % c.ring], b.last);
    assert Columns(prep[b.last % c.ring], b.last) == set j: nat | j < c.Nodes() && prep[b.last % c.ring][j].endIndex == b.last;
    if b in breq {
      var i :| 0 <= i < |breq| && breq[i] == b;
      if stable < b.last < EMPTY && 2 * c.f <= |Columns(prep[b.last % c.ring], b.last)| {
        assert Picked(c, breq, prep, stable, i) == [b];
      }
    }
    if i :| 0 <= i < c.ring && Picked(c, breq, prep, stable, i) == [b] {
      assert breq[i] == b;
    }
  }

  lemma {:induction false} ScanPrepsFrom(c: Config, breq: seq<Batch>, prep: seq<seq<Prep>>, stable: nat, from: nat, to: nat, p: Prep)
    requires Shaped(c, breq, prep) && from <= to <= c.ring
    ensures p in ScanPreps(c, breq, prep, stable, from, to) <==>
              exists i :: from <= i < to && p in PickedPreps(c, breq, prep, stable, i)
  {
    hide PickedPreps;
    if from < to {
      ScanPrepsFrom(c, breq, prep, stable, from, to - 1, p);
    }
  }

  lemma PickedPrepsAre(c: Config, breq: seq<Batch>, prep: seq<seq<Prep>>, stable: nat, i: nat, p: Prep)
    requires Shaped(c, breq, prep) && i < c.ring
    ensures p in PickedPreps(c, breq, prep, stable, i) <==>
              Picked(c, breq, prep, stable, i) == [breq[i]] && p in prep[breq[i].last % c.ring] && p.endIndex == breq[i].last
  {
    PickedIs(c, breq, prep, stable, i);
    TaggedMembers(prep[breq[i].last % c.ring], breq[i].last);
    hide Tagged;
  }

  lemma PrepsOfScan(c: Config, breq: seq<Batch>, prep: seq<seq<Prep>>, stable: nat, p: Prep)
    requires Shaped(c, breq, prep) && InWindow(c, breq, stable)
    ensures p in ReportPreps(c, breq, prep, stable) <==>
              exists b :: b in Report(c, breq, prep, stable) && p in prep[b.last % c.ring] && p.endIndex == b.last
  {
    hide Picked, PickedPreps, InWindow, Scan, ScanPreps, Report;
    var st := (stable + 1) % c.ring;
    ReportIsSortedAndComplete(c, breq, prep, stable);
    ScanPrepsFrom(c, breq, prep, stable, st, c.ring, p);
    ScanPrepsFrom(c, breq, prep, stable, 0, st, p);
    if i :| 0 <= i < c.ring && p in PickedPreps(c, breq, prep, stable, i) {
      PickedPrepsAre(c, breq, prep, stable, i, p);
      assert breq[i] in Report(c, breq, prep, stable);
    }
    if b :| b in Report(c, breq, prep, stable) && p in prep[b.last % c.ring] && p.endIndex == b.last {
      var i :| 0 <= i < c.ring && Picked(c, breq, prep, stable, i) == [b];
      PickedIs(c, breq, prep, stable, i);
      PickedPrepsAre(c, breq, prep, stable, i, p);
    }
  }

  /** The report fails an assertion exactly when some stored prepare of a batch above the
      checkpoint differs from it in view or in hash. */
  lemma ReportFailsExactlyWhen(c: Config, breq: seq<Batch>, prep: seq<seq<Prep>>, stable: nat)
    requires Shaped(c, breq, prep)
    ensures (exists i :: 0 <= i < c.ring && !Agrees(c, breq, prep, stable, i)) <==>
              exists b, p :: b in breq && stable < b.last < EMPTY && p in prep[b.last % c.ring]
                             && p.endIndex == b.last && (p.view != b.view || p.hash != b.hash)
  {
    if b, p :| b in breq && stable < b.last < EMPTY && p in prep[b.last % c.ring]
               && p.endIndex == b.last && (p.view != b.view || p.hash != b.hash) {
      var i :| 0 <= i < |breq| && breq[i] == b;
      var j :| 0 <= j < |prep[b.last % c.ring]| && prep[b.last % c.ring][j] == p;
      assert !Agrees(c, breq, prep, stable, i);
    }
    if i :| 0 <= i < c.ring && !Agrees(c, breq, prep, stable, i) {
      assert breq[i] in breq;
    }
  }

  /** The new primary takes the highest index from the reported batches, the backups
      from the reported prepares: the same indices occur in both. */
  lemma SameIndices(c: Config, breq: seq<Batch>, prep: seq<seq<Prep>>, stable: nat, k: nat)
    requires Shaped(c, breq, prep)
    ensures BatchAt(Report(c, breq, prep, stable), k) <==> PrepAt(ReportPreps(c, breq, prep, stable), k)
  {
    hide BatchAt, PrepAt, Scan, ScanPreps;
    var st := (stable + 1) % c.ring;
    ScanPrepsMatch(c, breq, prep, stable, st, c.ring, k);
    ScanPrepsMatch(c, breq, prep, stable, 0, st, k);
    AtConcat(Scan(c, breq, prep, stable, st, c.ring), Scan(c, breq, prep, stable, 0, st),
             ScanPreps(c, breq, prep, stable, st, c.ring), ScanPreps(c, breq, prep, stable, 0, st), k);
  }

  // ------------------------------------------------ a batch a node still holds

  datatype Tables = Tables(breq: seq<Batch>, prep: seq<seq<Prep>>)

  /** The node is prepared for the batch that ends at k, and its tables still show it. */
  ghost predicate StillHolds(c: Config, t: Tables, k: nat, hash: string) {
    && Shaped(c, t.breq, t.prep)
    && t.breq[k % c.ring].last == k && t.breq[k % c.ring].hash == hash
    && 2 * c.f <= |Tagged(t.prep[k % c.ring], k)|
  }

  /** What a node still holds it reports. */
  lemma HeldIsReported(c: Config, t: Tables, stable: nat, k: nat, hash: string)
    requires stable < k < EMPTY && StillHolds(c, t, k, hash)
    ensures exists b :: b in Report(c, t.breq, t.prep, stable) && b.last == k && b.hash == hash
  {
    var i := k % c.ring;
    var st := (stable + 1) % c.ring;
    assert Picked(c, t.breq, t.prep, stable, i) == [t.breq[i]];
    if i < st {
      ScanComplete(c, t.breq, t.prep, stable, 0, st, i);
    } else {
      ScanComplete(c, t.breq, t.prep, stable, st, c.ring, i);
    }
    assert t.breq[i] in Report(c, t.breq, t.prep, stable);
  }

  // ------------------------------------------------ numbering the batches of the new view

  /** index[0] of a reported batch, its view and its last hash. */
  datatype Item = Item(first: nat, view: nat, hash: string)

  /** pos, an unsigned 32-bit number. */
  function Pos(c: Config, minS: nat, first: nat): nat { (first / c.batch - minS / c.batch - 1) % UINT }

  function Slots(c: Config, minS: nat, maxS: nat): nat
    requires minS <= maxS
  {
    (maxS - minS) / c.batch
  }

  /** The batches that end in (minS, maxS]. */
  predicate Between(c: Config, minS: nat, maxS: nat, first: nat) {
    first % c.batch == 0 && minS < first + c.batch - 1 <= maxS
  }

  lemma MulLess(d: nat, p: nat, q: nat)
    requires d * p < d * q
    ensures p < q
  {
    MulMono(d, q, p);
  }

  /** The same, on the numbers of the batches. */
  lemma BatchNumbers(d: nat, m: nat, x: nat, q: nat, minS: nat, maxS: nat, first: nat)
    requires 1 < d && minS + 1 == d * m && maxS + 1 == d * x && first == d * q && minS < first + d - 1 <= maxS
    ensures m <= q < x
    ensures first - minS - 1 == d * (q - m) && maxS - minS == d * (x - m)
  {
    assert d * (q + 1) == first + d;
    MulLess(d, m, q + 1);
    MulLess(d, q, x);
  }

  lemma BatchEnd(c: Config, minS: nat, m: nat)
    requires minS + 1 == c.batch * m
    ensures 1 <= m && minS / c.batch == m - 1
  {
    MulLess(c.batch, 0, m);
    assert c.batch * (m - 1) == c.batch * m - c.batch;
    DivUnique(minS, c.batch, m - 1, c.batch - 1);
  }

  lemma Small(d: nat, k: nat)
    requires 1 <= d
    ensures k <= d * k
  {
    MulMono(k, 1, d);
  }

  /** When minS ends a batch, pos counts the batches above it from 0. */
  lemma PosCounts(c: Config, minS: nat, maxS: nat, first: nat)
    requires (minS + 1) % c.batch == 0 && (maxS + 1) % c.batch == 0 && minS <= maxS < UINT
    requires Between(c, minS, maxS, first)
    ensures Pos(c, minS, first) < Slots(c, minS, maxS)
    ensures first == minS + 1 + c.batch * Pos(c, minS, first)
  {
    var m, x, q := (minS + 1) / c.batch, (maxS + 1) / c.batch, first / c.batch;
    BatchNumbers(c.batch, m, x, q, minS, maxS, first);
    BatchEnd(c, minS, m);
    SlotCount(c, minS, maxS, x - m);
    Small(c.batch, q - m);
    assert Pos(c, minS, first) == (q - m) % UINT == q - m;
  }

  lemma SlotCount(c: Config, minS: nat, maxS: nat, k: nat)
    requires minS <= maxS && maxS - minS == c.batch * k
    ensures Slots(c, minS, maxS) == k
  {
    DivUnique(maxS - minS, c.batch, k, 0);
  }

  /** Every number below the count is the pos of exactly one batch. */
  lemma PosIsBijection(c: Config, minS: nat, maxS: nat, p: nat)
    requires (minS + 1) % c.batch == 0 && (maxS + 1) % c.batch == 0 && minS <= maxS < UINT
    requires p < Slots(c, minS, maxS)
    ensures var first := minS + 1 + c.batch * p;
            && Between(c, minS, maxS, first) && Pos(c, minS, first) == p
            && forall g: nat :: Between(c, minS, maxS, g) && Pos(c, minS, g) == p ==> g == first
  {
    var first := minS + 1 + c.batch * p;
    assert Between(c, minS, maxS, first) by { SlotIsBatch(c, minS, maxS, p); }
    PosCounts(c, minS, maxS, first);
    OneFactor(c.batch, p, Pos(c, minS, first));
    hide Between, Pos, Slots;
    forall g: nat | Between(c, minS, maxS, g) && Pos(c, minS, g) == p
      ensures g == first
    {
      PosCounts(c, minS, maxS, g);
    }
  }

  lemma SlotIsBatch(c: Config, minS: nat, maxS: nat, p: nat)
    requires (minS + 1) % c.batch == 0 && (maxS + 1) % c.batch == 0 && minS <= maxS
    requires p < Slots(c, minS, maxS)
    ensures Between(c, minS, maxS, minS + 1 + c.batch * p)
  {
    var m, s := (minS + 1) / c.batch, Slots(c, minS, maxS);
    assert minS + 1 == c.batch * m;
    assert c.batch * (m + p) == c.batch * m + c.batch * p;
    DivUnique(minS + 1 + c.batch * p, c.batch, m + p, 0);
    MulMono(c.batch, p + 1, s);
    assert c.batch * (p + 1) == c.batch * p + c.batch;
    assert c.batch * s <= maxS - minS;
  }

  lemma OneFactor(d: nat, p: nat, q: nat)
    requires 0 < d && d * p == d * q
    ensures p == q
  {
    MulMono(d, p + 1, q);
    MulMono(d, q + 1, p);
  }

  ghost predicate EveryPosInRange(c: Config, minS: nat, maxS: nat)
    requires minS <= maxS
  {
    forall first: nat :: Between(c, minS, maxS, first) ==> Pos(c, minS, first) < Slots(c, minS, maxS)
  }

  /** If minS ends no batch, the first batch above it gets the number -1, which is
      2^32-1: so all numbers are in range exactly when minS ends a batch. */
  lemma PosInRange(c: Config, minS: nat, maxS: nat)
    requires (maxS + 1) % c.batch == 0 && minS < maxS < UINT
    ensures EveryPosInRange(c, minS, maxS) <==> (minS + 1) % c.batch == 0
  {
    hide Between, Pos, Slots, EveryPosInRange;
    var ends := (minS + 1) % c.batch == 0;
    if ends {
      NoneWraps(c, minS, maxS);
    } else {
      var first := PosWraps(c, minS, maxS);
      SlotsSmall(c, minS, maxS);
      OneWraps(c, minS, maxS, first);
    }
  }

  lemma NoneWraps(c: Config, minS: nat, maxS: nat)
    requires (minS + 1) % c.batch == 0 && (maxS + 1) % c.batch == 0 && minS <= maxS < UINT
    ensures EveryPosInRange(c, minS, maxS)
  {
    hide Between, Pos, Slots;
    forall first: nat | Between(c, minS, maxS, first) ensures Pos(c, minS, first) < Slots(c, minS, maxS) {
      PosCounts(c, minS, maxS, first);
    }
  }

  lemma OneWraps(c: Config, minS: nat, maxS: nat, first: nat)
    requires minS <= maxS && Between(c, minS, maxS, first) && Slots(c, minS, maxS) <= Pos(c, minS, first)
    ensures !EveryPosInRange(c, minS, maxS)
  {
    hide Between, Pos, Slots;
  }

  lemma PosWraps(c: Config, minS: nat, maxS: nat) returns (first: nat)
    requires (maxS + 1) % c.batch == 0 && minS < maxS && (minS + 1) % c.batch != 0
    ensures Between(c, minS, maxS, first) && Pos(c, minS, first) == UINT - 1
  {
    var m := minS / c.batch;
    first := c.batch * m;
    DivUnique(c.batch * m, c.batch, m, 0);
    NotLast(c.batch, minS);
    FirstAbove(c.batch, m, (maxS + 1) / c.batch, minS, maxS, minS % c.batch);
    assert Pos(c, minS, c.batch * m) == (m - m - 1) % UINT;
  }

  lemma FirstAbove(d: nat, m: nat, x: nat, minS: nat, maxS: nat, rest: nat)
    requires minS == d * m + rest && maxS + 1 == d * x && rest + 1 < d && minS < maxS
    ensures minS < d * m + d - 1 <= maxS
  {
    MulLess(d, m, x);
    MulMono(d, m + 1, x);
    assert d * (m + 1) == d * m + d;
  }

  lemma NotLast(d: nat, n: nat)
    requires 0 < d && (n + 1) % d != 0
    ensures n % d + 1 < d
  {
    if n % d == d - 1 {
      var q := n / d;
      assert n + 1 == d * q + d;
      assert d * (q + 1) == d * q + d;
      DivUnique(n + 1, d, q + 1, 0);
    }
  }

  lemma SlotsSmall(c: Config, minS: nat, maxS: nat)
    requires minS <= maxS < UINT
    ensures Slots(c, minS, maxS) < UINT - 1
  {
    var s := Slots(c, minS, maxS);
    assert c.batch * s <= maxS - minS;
    MulMono(s, 2, c.batch);
  }

  // ------------------------------------------------ choosing

  /** The new primary's scan: the first item of the greatest view. */
  function FirstMax(c: Config, minS: nat, items: seq<Item>, p: nat): Option<Item> {
    if items == [] then None
    else
      var r, x := FirstMax(c, minS, items[..|items| - 1], p), items[|items| - 1];
      if Pos(c, minS, x.first) == p && (r.None? || x.view > r.value.view) then Some(x) else r
  }

  /** A backup's scan: the last item of the greatest view. */
  function LastMax(c: Config, minS: nat, items: seq<Item>, p: nat): Option<Item> {
    if items == [] then None
    else
      var r, x := LastMax(c, minS, items[..|items| - 1], p), items[|items| - 1];
      if Pos(c, minS, x.first) == p && (r.None? || x.view >= r.value.view) then Some(x) else r
  }

  function Flat(messages: seq<seq<Item>>): seq<Item> {
    if messages == [] then [] else Flat(messages[..|messages| - 1]) + messages[|messages| - 1]
  }

  predicate AllInRange(c: Config, minS: nat, items: seq<Item>, count: nat) {
    forall i :: 0 <= i < |items| ==> Pos(c, minS, items[i].first) < count
  }

  /** The loops of PBFTNewViewMsg::init over the view-change messages; strict is
      false in the loops of validate.  ok is false when an array would be overrun. */
  method Choose(c: Config, minS: nat, messages: seq<seq<Item>>, count: nat, strict: bool) returns (ok: bool, chosen: array<Option<Item>>)
    ensures ok <==> AllInRange(c, minS, Flat(messages), count)
    ensures fresh(chosen) && chosen.Length == count
    ensures ok ==> forall p :: 0 <= p < count ==>
                     chosen[p] == if strict then FirstMax(c, minS, Flat(messages), p) else LastMax(c, minS, Flat(messages), p)
  {
    chosen := new Option<Item>[count](_ => None);
    ghost var done: seq<Item> := [];
    for j := 0 to |messages|
      invariant done == Flat(messages[..j]) && AllInRange(c, minS, done, count)
      invariant forall p :: 0 <= p < count ==>
                  chosen[p] == if strict then FirstMax(c, minS, done, p) else LastMax(c, minS, done, p)
    {
      var items := messages[j];
      assert messages[..j + 1][..j] == messages[..j];
      ghost var before := done;
      for k := 0 to |items|
        invariant done == before + items[..k] && AllInRange(c, minS, done, count)
        invariant forall p :: 0 <= p < count ==>
                    chosen[p] == if strict then FirstMax(c, minS, done, p) else LastMax(c, minS, done, p)
      {
        var x := items[k];
        var pos := Pos(c, minS, x.first);
        if count <= pos {
          FlatHas(messages, j, k);
          return false, chosen;
        }
        ghost var more := done + [x];
        assert more[..|done|] == done;
        if chosen[pos].None? || (if strict then x.view > chosen[pos].value.view else x.view >= chosen[pos].value.view) {
          chosen[pos] := Some(x);
        }
        done := more;
      }
      assert items[..|items|] == items;
    }
    assert messages[..|messages|] == messages;
    ok := true;
  }

  lemma {:induction false} FlatHas(messages: seq<seq<Item>>, j: nat, k: nat)
    requires j < |messages| && k < |messages[j]|
    ensures messages[j][k] in Flat(messages)
  {
    if j < |messages| - 1 {
      FlatHas(messages[..|messages| - 1], j, k);
    }
  }

  ghost predicate HasPos(c: Config, minS: nat, items: seq<Item>, p: nat) {
    exists x :: x in items && Pos(c, minS, x.first) == p
  }

  lemma {:induction false} MaxOf(c: Config, minS: nat, items: seq<Item>, p: nat)
    ensures var a, b := FirstMax(c, minS, items, p), LastMax(c, minS, items, p);
            && (a.Some? <==> HasPos(c, minS, items, p)) && (b.Some? <==> HasPos(c, minS, items, p))
            && (a.Some? ==> a.value in items && Pos(c, minS, a.value.first) == p)
            && (b.Some? ==> b.value in items && Pos(c, minS, b.value.first) == p)
            && (forall x :: x in items && Pos(c, minS, x.first) == p ==> x.view <= a.value.view && x.view <= b.value.view)
  {
    hide Pos;
    if items != [] {
      var short, x := items[..|items| - 1], items[|items| - 1];
      assert items == short + [x];
      MaxOf(c, minS, short, p);
      assert HasPos(c, minS, items, p) <==> HasPos(c, minS, short, p) || Pos(c, minS, x.first) == p;
    }
  }

  /** Item i has the number, a greater view than any item of it before, and at least
      that of any after; with the roles exchanged for the last one. */
  ghost predicate FirstAt(c: Config, minS: nat, items: seq<Item>, p: nat, i: nat) {
    && i < |items| && Pos(c, minS, items[i].first) == p
    && (forall j :: 0 <= j < i && Pos(c, minS, items[j].first) == p ==> items[j].view < items[i].view)
    && (forall j :: i < j < |items| && Pos(c, minS, items[j].first) == p ==> items[j].view <= items[i].view)
  }

  ghost predicate LastAt(c: Config, minS: nat, items: seq<Item>, p: nat, i: nat) {
    && i < |items| && Pos(c, minS, items[i].first) == p
    && (forall j :: 0 <= j < i && Pos(c, minS, items[j].first) == p ==> items[j].view <= items[i].view)
    && (forall j :: i < j < |items| && Pos(c, minS, items[j].first) == p ==> items[j].view < items[i].view)
  }

  /** The first item of the greatest view stays so unless a greater one comes. */
  lemma FirstSnoc(c: Config, minS: nat, short: seq<Item>, x: Item, p: nat, i: nat)
    requires FirstAt(c, minS, short, p, i)
    ensures var n, later := |short|, Pos(c, minS, x.first) == p && short[i].view < x.view;
            FirstAt(c, minS, short + [x], p, if later then n else i)
  {
    hide Pos;
  }

  lemma LastSnoc(c: Config, minS: nat, short: seq<Item>, x: Item, p: nat, i: nat)
    requires LastAt(c, minS, short, p, i)
    ensures var n, later := |short|, Pos(c, minS, x.first) == p && short[i].view <= x.view;
            LastAt(c, minS, short + [x], p, if later then n else i)
  {
    hide Pos;
  }

  lemma NoneBefore(c: Config, minS: nat, short: seq<Item>, x: Item, p: nat)
    requires !HasPos(c, minS, short, p) && Pos(c, minS, x.first) == p
    ensures FirstAt(c, minS, short + [x], p, |short|) && LastAt(c, minS, short + [x], p, |short|)
  {
    hide Pos;
    forall j | 0 <= j < |short| ensures Pos(c, minS, (short + [x])[j].first) != p {
      assert short[j] in short;
    }
  }

  /** Of the items of the greatest view the new primary keeps the first. */
  lemma {:induction false} KeepsFirst(c: Config, minS: nat, items: seq<Item>, p: nat) returns (i: nat)
    requires FirstMax(c, minS, items, p).Some?
    ensures FirstAt(c, minS, items, p, i) && items[i] == FirstMax(c, minS, items, p).value
  {
    hide Pos, FirstAt, HasPos;
    var short, x := items[..|items| - 1], items[|items| - 1];
    assert items == short + [x];
    MaxOf(c, minS, short, p);
    if FirstMax(c, minS, short, p).Some? {
      var k := KeepsFirst(c, minS, short, p);
      assert k < |short| by { FirstIn(c, minS, short, p, k); }
      FirstSnoc(c, minS, short, x, p, k);
      i := if Pos(c, minS, x.first) == p && short[k].view < x.view then |short| else k;
    } else {
      NoneBefore(c, minS, short, x, p);
      i := |short|;
    }
  }

  /** And the backups that check it the last. */
  lemma {:induction false} KeepsLast(c: Config, minS: nat, items: seq<Item>, p: nat) returns (i: nat)
    requires LastMax(c, minS, items, p).Some?
    ensures LastAt(c, minS, items, p, i) && items[i] == LastMax(c, minS, items, p).value
  {
    hide Pos, LastAt, HasPos;
    var short, x := items[..|items| - 1], items[|items| - 1];
    assert items == short + [x];
    MaxOf(c, minS, short, p);
    if LastMax(c, minS, short, p).Some? {
      var k := KeepsLast(c, minS, short, p);
      assert k < |short| by { LastIn(c, minS, short, p, k); }
      LastSnoc(c, minS, short, x, p, k);
      i := if Pos(c, minS, x.first) == p && short[k].view <= x.view then |short| else k;
    } else {
      NoneBefore(c, minS, short, x, p);
      i := |short|;
    }
  }

  lemma FirstIn(c: Config, minS: nat, items: seq<Item>, p: nat, i: nat)
    requires FirstAt(c, minS, items, p, i)
    ensures i < |items|
  {
  }

  lemma LastIn(c: Config, minS: nat, items: seq<Item>, p: nat, i: nat)
    requires LastAt(c, minS, items, p, i)
    ensures i < |items|
  {
  }

  /** Both scans choose an item of the greatest view for each number, so their
      hashes are equal when equal index and view imply equal hash. */
  lemma ChoicesAgree(c: Config, minS: nat, maxS: nat, items: seq<Item>, p: nat)
    requires (minS + 1) % c.batch == 0 && (maxS + 1) % c.batch == 0 && minS <= maxS < UINT
    requires forall x :: x in items ==> Between(c, minS, maxS, x.first)
    requires forall x, y :: x in items && y in items && x.first == y.first && x.view == y.view ==> x.hash == y.hash
    ensures var a, b := FirstMax(c, minS, items, p), LastMax(c, minS, items, p);
            && (a.Some? <==> b.Some?)
            && (a.Some? ==> a.value.first == b.value.first == minS + 1 + c.batch * p
                            && a.value.view == b.value.view && a.value.hash == b.value.hash)
  {
    MaxOf(c, minS, items, p);
    var a, b := FirstMax(c, minS, items, p), LastMax(c, minS, items, p);
    if a.Some? {
      PosCounts(c, minS, maxS, a.value.first);
      PosCounts(c, minS, maxS, b.value.first);
    }
  }

  ghost predicate ItemAt(items: seq<Item>, first: nat) { exists x :: x in items && x.first == first }

  lemma FoundAt(c: Config, minS: nat, maxS: nat, items: seq<Item>, p: nat)
    requires (minS + 1) % c.batch == 0 && (maxS + 1) % c.batch == 0 && minS <= maxS < UINT
    requires forall x :: x in items ==> Between(c, minS, maxS, x.first)
    requires p < Slots(c, minS, maxS)
    ensures FirstMax(c, minS, items, p).Some? <==> ItemAt(items, minS + 1 + c.batch * p)
  {
    hide Between, Pos, Slots, FirstMax, LastMax;
    MaxOf(c, minS, items, p);
    PosIsBijection(c, minS, maxS, p);
  }

  ghost predicate EveryNumberFound(c: Config, minS: nat, maxS: nat, items: seq<Item>)
    requires minS <= maxS
  {
    forall p: nat :: p < Slots(c, minS, maxS) ==> FirstMax(c, minS, items, p).Some?
  }

  ghost predicate EveryBatchReported(c: Config, minS: nat, maxS: nat, items: seq<Item>) {
    forall first: nat :: Between(c, minS, maxS, first) ==> ItemAt(items, first)
  }

  /** Every number finds a batch, and no assertion fails, exactly when every batch in
      (minS, maxS] was reported. */
  lemma AllFound(c: Config, minS: nat, maxS: nat, items: seq<Item>)
    requires (minS + 1) % c.batch == 0 && (maxS + 1) % c.batch == 0 && minS <= maxS < UINT
    requires forall x :: x in items ==> Between(c, minS, maxS, x.first)
    ensures EveryNumberFound(c, minS, maxS, items) <==> EveryBatchReported(c, minS, maxS, items)
  {
    hide FirstMax, Between, Slots, Pos, ItemAt;
    if EveryNumberFound(c, minS, maxS, items) {
      forall first: nat | Between(c, minS, maxS, first) ensures ItemAt(items, first) {
        PosCounts(c, minS, maxS, first);
        FoundAt(c, minS, maxS, items, Pos(c, minS, first));
      }
    }
    if EveryBatchReported(c, minS, maxS, items) {
      forall p: nat | p < Slots(c, minS, maxS) ensures FirstMax(c, minS, items, p).Some? {
        PosIsBijection(c, minS, maxS, p);
        FoundAt(c, minS, maxS, items, p);
        assert Between(c, minS, maxS, minS + 1 + c.batch * p);
      }
    }
  }
}
