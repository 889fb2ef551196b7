/** Sets of nodes: quorums of 2f+1 among 3f+1, and slots read as sets of senders. */
module Quorum {
  import opened Protocol
  import R = Replica

  ghost function NodesBelow(n: nat): (s: set<nat>)
    ensures forall r: nat :: r in s <==> r < n
  {
    if n == 0 then {} else NodesBelow(n - 1) + {n - 1}
  }

  lemma {:induction false} NodeCount(n: nat)
    ensures |NodesBelow(n)| == n
  {
    if 0 < n {
      NodeCount(n - 1);
      assert NodesBelow(n) == NodesBelow(n - 1) + {n - 1};
    }
  }

  lemma {:induction false} SubsetSize<T>(a: set<T>, b: set<T>)
    requires a <= b
    ensures |a| <= |b|
  {
    assert b == a + (b - a);
  }

  /** Two sets inside n nodes overlap in at least the excess of their sizes. */
  lemma Overlap(a: set<nat>, b: set<nat>, n: nat)
    requires a <= NodesBelow(n) && b <= NodesBelow(n)
    ensures |a| + |b| - n <= |a * b|
  {
    NodeCount(n);
    SubsetSize(a + b, NodesBelow(n));
    assert |a + b| == |a| + |b| - |a * b|;
  }

  /** Any two quorums share a node that is not faulty. */
  lemma CorrectInBoth(a: set<nat>, b: set<nat>, faulty: set<nat>, f: nat) returns (r: nat)
    requires a <= NodesBelow(3 * f + 1) && b <= NodesBelow(3 * f + 1)
    requires 2 * f + 1 <= |a| && 2 * f + 1 <= |b| && |faulty| <= f
    ensures r in a && r in b && r !in faulty
  {
    Overlap(a, b, 3 * f + 1);
    r := NotAllIn(a * b, faulty);
  }

  lemma NotAllIn<T>(a: set<T>, b: set<T>) returns (r: T)
    requires |b| < |a|
    ensures r in a && r !in b
  {
    if a <= b {
      SubsetSize(a, b);
    }
    assert exists x :: x in a && x !in b;
    r :| r in a && r !in b;
  }

  // ------------------------------------------------ slots as sets of columns

  ghost function ColsTagged(slot: seq<Vote>, id: nat): set<nat> {
    set r: nat | r < |slot| && slot[r].txnId == id
  }

  ghost function ColsIndexed(slot: seq<Vote>, index: nat): set<nat> {
    set r: nat | r < |slot| && slot[r].index == index
  }

  lemma {:induction false} TaggedSize(slot: seq<Vote>, id: nat)
    ensures |Tagged(slot, id)| == |ColsTagged(slot, id)|
  {
    if slot != [] {
      var short := slot[..|slot| - 1];
      TaggedSize(short, id);
      if slot[|slot| - 1].txnId == id {
        assert ColsTagged(slot, id) == ColsTagged(short, id) + {|slot| - 1};
      } else {
        assert ColsTagged(slot, id) == ColsTagged(short, id);
      }
    }
  }

  lemma {:induction false} IndexedSize(slot: seq<Vote>, index: nat)
    ensures |WithIndex(slot, index)| == |ColsIndexed(slot, index)|
  {
    if slot != [] {
      var short := slot[..|slot| - 1];
      IndexedSize(short, index);
      if slot[|slot| - 1].index == index {
        assert ColsIndexed(slot, index) == ColsIndexed(short, index) + {|slot| - 1};
      } else {
        assert ColsIndexed(slot, index) == ColsIndexed(short, index);
      }
    }
  }

  /** Every column with the index contributes its entry, and nothing else does. */
  lemma {:induction false} IndexedEntries(slot: seq<Vote>, index: nat)
    ensures forall r :: 0 <= r < |slot| && slot[r].index == index ==> slot[r] in WithIndex(slot, index)
    ensures forall v :: v in WithIndex(slot, index) ==> v in slot && v.index == index
  {
    if slot != [] {
      var short := slot[..|slot| - 1];
      IndexedEntries(short, index);
      forall r | 0 <= r < |slot| && slot[r].index == index
        ensures slot[r] in WithIndex(slot, index)
      {
        if r < |slot| - 1 {
          assert slot[r] == short[r];
        }
      }
    }
  }

  lemma {:induction false} FirstIndexFinds(slot: seq<Vote>, index: nat, r: nat)
    requires r < |slot| && slot[r].index == index
    ensures FirstWithIndex(slot, index) in slot && FirstWithIndex(slot, index).index == index
  {
    if slot[0].index != index {
      FirstIndexFinds(slot[1..], index, r - 1);
    }
  }

  lemma {:induction false} FirstTxnFinds(slot: seq<Vote>, id: nat, r: nat)
    requires r < |slot| && slot[r].txnId == id
    ensures FirstWithTxn(slot, id) in slot && FirstWithTxn(slot, id).txnId == id
  {
    if slot[0].txnId != id {
      FirstTxnFinds(slot[1..], id, r - 1);
    }
  }
}
