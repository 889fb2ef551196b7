/** A store addressed by id % ring, one column a sender, against the unbounded log of
    everything ever put in it. */
module RingStore {
  import opened Arith

  const EMPTY: nat := 0xFFFF_FFFF_FFFF_FFFF

  datatype Option<T> = None | Some(value: T)
  datatype Slot<T> = Slot(tag: nat, value: T)

  /** preStore, cqryStore and batchSet have one column, prepPStore and commStore one a node. */
  class Store<T> {
    const ring: nat
    const cols: nat
    const slots: array2<Slot<T>>
    ghost var log: map<(nat, nat), T>
    ghost var low: nat

    /** Live ids start at low and span one ring. */
    ghost predicate Valid()
      reads this, slots
    {
      && 0 < ring == slots.Length0 && cols == slots.Length1
      && (forall id, c :: (id, c) in log ==> c < cols && id < EMPTY && id < low + ring)
      && (forall s, c :: 0 <= s < ring && 0 <= c < cols ==> Sound(slots[s, c], s, c, log))
      && (forall id, c :: (id, c) in log && low <= id ==> slots[id % ring, c].tag == id)
    }

    ghost predicate Sound(e: Slot<T>, s: nat, c: nat, log: map<(nat, nat), T>)
      requires 0 < ring
    {
      e.tag == EMPTY || (e.tag % ring == s && (e.tag, c) in log && log[(e.tag, c)] == e.value)
    }

    constructor (ring: nat, cols: nat, blank: T)
      requires 0 < ring
      ensures Valid() && fresh(slots) && this.ring == ring && this.cols == cols && log == map[] && low == 0
    {
      this.ring := ring;
      this.cols := cols;
      slots := new Slot<T>[ring, cols]((_, _) => Slot(EMPTY, blank));
      log := map[];
      low := 0;
    }

    method Put(id: nat, c: nat, value: T)
      requires Valid() && c < cols && id < EMPTY && low <= id < low + ring
      modifies `log, slots
      ensures Valid() && log == old(log)[(id, c) := value]
    {
      forall j, d | (j, d) in log && low <= j && j % ring == id % ring && d == c
        ensures j == id
      {
        if j < id { SlotsDiffer(j, id, ring); }
        if id < j { SlotsDiffer(id, j, ring); }
      }
      slots[id % ring, c] := Slot(id, value);
      log := log[(id, c) := value];
    }

    /** The window moves on; nothing in the table changes. */
    ghost method Slide(to: nat)
      requires Valid() && low <= to
      modifies `low
      ensures Valid() && low == to
    {
      low := to;
    }

    /** The lookup that checks the tag: never another id's value, for any id; and for
        every id not below the window exactly what the log holds. */
    method Get(id: nat, c: nat) returns (r: Option<T>)
      requires Valid() && c < cols && id < EMPTY
      ensures r.Some? ==> (id, c) in log && log[(id, c)] == r.value
      ensures low <= id ==> (r.Some? <==> (id, c) in log)
    {
      var e := slots[id % ring, c];
      return if e.tag == id then Some(e.value) else None;
    }

    /** The lookup without a tag check, as made in batchSet. */
    method Peek(id: nat, c: nat) returns (v: T)
      requires Valid() && c < cols && low <= id && (id, c) in log
      ensures v == log[(id, c)]
    {
      v := slots[id % ring, c].value;
    }

    /** How many columns carry an id, counted as prepared does. */
    method CountTagged(id: nat) returns (n: nat)
      requires Valid() && low <= id < EMPTY
      ensures n == |set c | 0 <= c < cols && (id, c) in log|
    {
      n := 0;
      var c := 0;
      ghost var seen: set<nat> := {};
      while c < cols
        invariant 0 <= c <= cols && n == |seen|
        invariant seen == set d | 0 <= d < c && (id, d) in log
      {
        if slots[id % ring, c].tag == id {
          n := n + 1;
          seen := seen + {c};
        }
        c := c + 1;
      }
    }
  }

  // ------------------------------------------------ without the window

  /** What a slot holds after the ids of one column were put in this order. */
  function LastIn(ids: seq<nat>, ring: nat, s: nat): nat
    requires 0 < ring
  {
    if ids == [] then EMPTY
    else if ids[|ids| - 1] % ring == s then ids[|ids| - 1]
    else LastIn(ids[..|ids| - 1], ring, s)
  }

  lemma {:induction false} LastInIsLatest(ids: seq<nat>, ring: nat, i: nat)
    requires 0 < ring && i < |ids|
    requires forall j :: i < j < |ids| ==> ids[j] % ring != ids[i] % ring
    ensures LastIn(ids, ring, ids[i] % ring) == ids[i]
    decreases |ids|
  {
    if i < |ids| - 1 {
      LastInIsLatest(ids[..|ids| - 1], ring, i);
    }
  }

  lemma {:induction false} LastInNotOverwritten(ids: seq<nat>, ring: nat, i: nat, id: nat)
    requires 0 < ring && i < |ids| && id < EMPTY && LastIn(ids, ring, id % ring) == id
    ensures ids[i] % ring == id % ring && ids[i] != id ==> exists j :: i < j < |ids| && ids[j] == id
    decreases |ids|
  {
    if ids[|ids| - 1] % ring == id % ring {
      assert ids[|ids| - 1] == id;
    } else if ids[i] % ring == id % ring && ids[i] != id {
      LastInNotOverwritten(ids[..|ids| - 1], ring, i, id);
      var j :| i < j < |ids| - 1 && ids[..|ids| - 1][j] == id;
      assert ids[j] == id;
    }
  }

  /** The window is what the tag check needs: an id put in is found exactly when no
      other id of its slot was put in after it. */
  lemma FoundExactlyWhen(ids: seq<nat>, ring: nat, id: nat)
    requires 0 < ring && id in ids && id < EMPTY
    ensures LastIn(ids, ring, id % ring) == id
       <==> exists i :: 0 <= i < |ids| && ids[i] == id && forall j :: i < j < |ids| && ids[j] % ring == id % ring ==> ids[j] == id
  {
    if LastIn(ids, ring, id % ring) == id {
      var i := LastPut(ids, id);
      forall j | i < j < |ids|
        ensures ids[j] % ring != id % ring
      {
        LastInNotOverwritten(ids, ring, j, id);
      }
    }
    if i :| 0 <= i < |ids| && ids[i] == id && forall j :: i < j < |ids| && ids[j] % ring == id % ring ==> ids[j] == id {
      var k := LastPut(ids, id);
      LastInIsLatest(ids, ring, k);
    }
  }

  lemma LastPut(ids: seq<nat>, id: nat) returns (i: nat)
    requires id in ids
    ensures i < |ids| && ids[i] == id && forall j :: i < j < |ids| ==> ids[j] != id
  {
    if ids[|ids| - 1] == id {
      i := |ids| - 1;
    } else {
      assert ids == ids[..|ids| - 1] + [ids[|ids| - 1]];
      i := LastPut(ids[..|ids| - 1], id);
    }
  }
}
