/** One committee member: sortition, verification of another member's vote, the vote
    tally and the seed chain.  The verifiable random function is a parameter. */
module Algorand {
  import opened Sortition

  const START_SEED := "FWLKFWLKFWLKFWLKFWLK"

  /** sign and accepts stand for the RSA calls, output for the hash of a proof. */
  datatype Vrf = Vrf(
    publicKey: string -> string,
    sign: (string, string) -> string,
    accepts: (string, string, string) -> bool,
    output: string -> seq<nat>)

  /** What is used of the random function: output gives bytes, two at least, and a
      proof made with a private key is accepted under its public key. */
  ghost predicate VrfOk(v: Vrf) {
    && (forall proof: string :: ByteString(v.output(proof)))
    && (forall sk: string, seed: string :: v.accepts(v.publicKey(sk), seed, v.sign(sk, seed)))
  }

  predicate ByteString(s: seq<nat>) { 2 <= |s| && forall i :: 0 <= i < |s| ==> s[i] < 256 }

  datatype Package = Package(seed: string, hash: seq<nat>, proof: string, value: string, j: int, nodeId: nat, pk: string)

  /** The first two bytes as a fraction of 2^16. */
  function Fraction(hash: seq<nat>): (h: real)
    requires ByteString(hash)
    ensures 0.0 <= h < 1.0
  {
    (hash[0] * 256 + hash[1]) as real / 65536.0
  }

  /** A hash is less than another if its first two bytes come first, the first byte
      weighing more; bytes further on play no part. */
  lemma FractionOrder(a: seq<nat>, b: seq<nat>)
    requires ByteString(a) && ByteString(b)
    ensures Fraction(a) < Fraction(b) <==> a[0] < b[0] || (a[0] == b[0] && a[1] < b[1])
  {
    var x, y := a[0] * 256 + a[1], b[0] * 256 + b[1];
    assert Fraction(a) * 65536.0 == x as real && Fraction(b) * 65536.0 == y as real;
  }

  /** The next pair of bytes. */
  predicate Follows(a: seq<nat>, b: seq<nat>)
    requires ByteString(a) && ByteString(b)
  {
    (b[0] == a[0] && b[1] == a[1] + 1) || (b[0] == a[0] + 1 && a[1] == 255 && b[1] == 0)
  }

  /** Hashes divide [0, 1) evenly: the least is 0 and each next one is 2^-16 more. */
  lemma FractionStep(a: seq<nat>, b: seq<nat>)
    requires ByteString(a) && ByteString(b)
    ensures a[0] == a[1] == 0 ==> Fraction(a) == 0.0
    ensures Follows(a, b) ==> Fraction(b) - Fraction(a) == 1.0 / 65536.0
  {
  }

  function Chance(threshold: nat, total: nat): (p: real)
    requires 0 < threshold < total
    ensures 0.0 < p < 1.0
    ensures p * total as real == threshold as real
  {
    ChanceBounds(threshold as real, total as real);
    threshold as real / total as real
  }

  lemma ChanceBounds(a: real, b: real)
    requires 0.0 < a < b
    ensures 0.0 < a / b < 1.0
  {
    assert (a / b) * b == a;
    PositiveFactor(a / b, b);
    PositiveFactor(1.0 - a / b, b);
  }

  lemma PositiveFactor(x: real, b: real)
    requires 0.0 < b
    ensures 0.0 < x * b ==> 0.0 < x
  {
  }

  /** The votes a hash is worth to the given weight: where the search stops. */
  ghost function VotesFor(hash: seq<nat>, w: nat, threshold: nat, total: nat): Outcome
    requires ByteString(hash) && 0 < threshold < total
  {
    if j: nat :| Stops(Fraction(hash), j, w, Chance(threshold, total)) then Found(j) else Hangs
  }

  datatype Verdict = Votes(j: nat) | Rejected | NoAnswer

  datatype State = State(
    id: nat,
    privateKey: string,
    publicKeys: map<nat, string>,
    wallet: map<string, nat>,
    seed: string,
    total: nat,
    counts: map<string, int>,
    counted: set<string>,
    ownWeight: nat,
    block: string)

  // ------------------------------------------------ the operations on values

  function Weight(s: State, pk: string): nat { if pk in s.wallet then s.wallet[pk] else 0 }

  function Register(s: State, pk: string, nodeId: nat): State {
    if nodeId <= 3 then
      s.(publicKeys := s.publicKeys[nodeId := pk], wallet := s.wallet[pk := 100], total := s.total + 100)
    else s
  }

  /** The package sortition builds, unless its search never ends. */
  ghost function Draw(v: Vrf, s: State, threshold: nat, w: nat, total: nat, value: string): (r: (State, Outcome, Package))
    requires VrfOk(v) && 0 < threshold < total
  {
    var proof := v.sign(s.privateKey, s.seed);
    var hash := v.output(proof);
    var votes := VotesFor(hash, w, threshold, total);
    var pk := v.publicKey(s.privateKey);
    var package := Package(s.seed, hash, proof, value, if votes.Found? then votes.j else 0, s.id, pk);
    (if votes.Found? then s.(block := value, wallet := s.wallet[pk := s.ownWeight]) else s.(block := value), votes, package)
  }

  ghost function Check(v: Vrf, s: State, dp: Package, threshold: nat, total: nat): Verdict
    requires ByteString(dp.hash) && 0 < threshold < total
  {
    if !v.accepts(dp.pk, s.seed, dp.proof) then Rejected
    else
      var votes := VotesFor(dp.hash, Weight(s, dp.pk), threshold, total);
      if votes.Found? then Votes(votes.j) else NoAnswer
  }

  /** The package is the drawer's: made on its seed with its key, about the value asked
      for, under its own node and public key, and any member with that seed takes it. */
  lemma DrawnIsOwn(v: Vrf, s: State, threshold: nat, w: nat, total: nat, value: string, other: State)
    requires VrfOk(v) && 0 < threshold < total
    ensures var (t, votes, package) := Draw(v, s, threshold, w, total, value);
            && package.value == t.block == value && package.nodeId == s.id && package.seed == s.seed == t.seed
            && package.pk == v.publicKey(s.privateKey) && v.accepts(package.pk, package.seed, package.proof)
            && ByteString(package.hash)
            && (other.seed == package.seed ==> !Check(v, other, package, threshold, total).Rejected?)
            && (votes.Found? ==> Stops(Fraction(v.output(package.proof)), package.j, w, Chance(threshold, total)))
  {
    hide Stops, Fraction, Chance;
  }

  /** One call of countVotes: the new state and the answer. */
  function Tally(s: State, goal: real, dp: Package): (State, int) {
    if dp.pk in s.counted then (s, -1)
    else
      var sum := (if dp.value in s.counts then s.counts[dp.value] else 0) + dp.j;
      (s.(counted := s.counted + {dp.pk}, counts := s.counts[dp.value := sum]), if goal <= sum as real then 1 else 0)
  }

  /** The end of a round: the block's first characters become the seed. */
  function Reseed(s: State): State
    requires |s.seed| <= |s.block|
  {
    s.(counts := map[], counted := {}, seed := s.block[..|s.seed|])
  }

  // ------------------------------------------------ a member updated in place

  class Member {
    const vrf: Vrf
    const id: nat
    const privateKey: string
    var publicKeys: map<nat, string>
    var wallet: map<string, nat>
    var seed: string
    var total: nat
    var counts: map<string, int>
    var counted: set<string>
    var ownWeight: nat
    var block: string

    ghost function Now(): State
      reads this
    {
      State(id, privateKey, publicKeys, wallet, seed, total, counts, counted, ownWeight, block)
    }

    constructor (vrf: Vrf, id: nat, privateKey: string)
      ensures this.vrf == vrf && Now() == Start(vrf, id, privateKey)
    {
      this.vrf := vrf;
      this.id := id;
      this.privateKey := privateKey;
      publicKeys := map[id := vrf.publicKey(privateKey)];
      wallet := map[];
      seed := START_SEED;
      total := 100;
      counts := map[];
      counted := {};
      ownWeight := 100;
      block := "0";
    }

    method GetKey(pk: string, nodeId: nat)
      modifies this
      ensures Now() == Register(old(Now()), pk, nodeId)
    {
      if nodeId <= 3 {
        publicKeys := publicKeys[nodeId := pk];
        wallet := wallet[pk := 100];
        total := total + 100;
      }
    }

    method FindVotes(hash: seq<nat>, w: nat, threshold: nat, all: nat) returns (r: Outcome)
      requires ByteString(hash) && 0 < threshold < all
      ensures r == VotesFor(hash, w, threshold, all)
    {
      r := Search(Fraction(hash), w, Chance(threshold, all));
      if r.Found? {
        SearchEnds(Fraction(hash), w, Chance(threshold, all));
      }
    }

    method DrawLots(threshold: nat, w: nat, all: nat, value: string) returns (votes: Outcome, package: Package)
      requires VrfOk(vrf) && 0 < threshold < all
      modifies `block, `wallet
      ensures (Now(), votes, package) == Draw(vrf, old(Now()), threshold, w, all, value)
    {
      block := value;
      var proof := vrf.sign(privateKey, seed);
      var hash := vrf.output(proof);
      votes := FindVotes(hash, w, threshold, all);
      var pk := vrf.publicKey(privateKey);
      package := Package(seed, hash, proof, value, 0, id, pk);
      if votes.Found? {
        package := package.(j := votes.j);
        wallet := wallet[pk := ownWeight];
      }
    }

    /** A key never seen before gets weight 0 in passing. */
    method Verify(dp: Package, threshold: nat, all: nat) returns (r: Verdict)
      requires ByteString(dp.hash) && 0 < threshold < all
      modifies `wallet
      ensures r == Check(vrf, old(Now()), dp, threshold, all)
      ensures wallet == if r.Rejected? || dp.pk in old(wallet) then old(wallet) else old(wallet)[dp.pk := 0]
    {
      if !vrf.accepts(dp.pk, seed, dp.proof) {
        return Rejected;
      }
      if dp.pk !in wallet {
        wallet := wallet[dp.pk := 0];
      }
      var votes := FindVotes(dp.hash, wallet[dp.pk], threshold, all);
      return if votes.Found? then Votes(votes.j) else NoAnswer;
    }

    method CountVotes(goal: real, dp: Package) returns (answer: int)
      modifies `counts, `counted
      ensures (Now(), answer) == Tally(old(Now()), goal, dp)
    {
      if dp.pk in counted {
        return -1;
      }
      counted := counted + {dp.pk};
      if dp.value in counts {
        counts := counts[dp.value := counts[dp.value] + dp.j];
      } else {
        counts := counts[dp.value := dp.j];
      }
      return if counts[dp.value] as real >= goal then 1 else 0;
    }

    method Reset()
      requires |seed| <= |block|
      modifies `counts, `counted, `seed
      ensures Now() == Reseed(old(Now()))
    {
      counts := map[];
      counted := {};
      var i := 0;
      while i < |seed|
        invariant 0 <= i <= |seed| == |old(seed)|
        invariant seed[..i] == block[..i] && counts == map[] && counted == {}
      {
        seed := seed[i := block[i]];
        i := i + 1;
      }
      assert seed == seed[..i];
    }
  }

  function Start(v: Vrf, id: nat, privateKey: string): State {
    State(id, privateKey, map[id := v.publicKey(privateKey)], map[], START_SEED, 100, map[], {}, 100, "0")
  }

  // ------------------------------------------------ the seed chain

  /** A member's rounds: it draws lots on each value, then resets. */
  ghost function Rounds(v: Vrf, s: State, threshold: nat, w: nat, total: nat, values: seq<string>): (r: State)
    requires VrfOk(v) && 0 < threshold < total
    requires |s.seed| == 20 && forall i :: 0 <= i < |values| ==> 20 <= |values[i]|
    ensures |r.seed| == 20
  {
    if values == [] then s
    else Reseed(Draw(v, Rounds(v, s, threshold, w, total, values[..|values| - 1]), threshold, w, total, values[|values| - 1]).0)
  }

  /** What rounds leave alone. */
  lemma {:induction false} RoundsKeep(v: Vrf, s: State, threshold: nat, w: nat, total: nat, values: seq<string>)
    requires VrfOk(v) && 0 < threshold < total
    requires |s.seed| == 20 && forall i :: 0 <= i < |values| ==> 20 <= |values[i]|
    ensures var r := Rounds(v, s, threshold, w, total, values);
            && r.privateKey == s.privateKey && r.ownWeight == s.ownWeight && r.id == s.id
            && r.seed == (if values == [] then s.seed else values[|values| - 1][..20])
            && (forall pk :: pk != v.publicKey(s.privateKey) ==> Weight(r, pk) == Weight(s, pk))
            && (Weight(s, v.publicKey(s.privateKey)) == s.ownWeight ==> Weight(r, v.publicKey(s.privateKey)) == s.ownWeight)
  {
    if values != [] {
      RoundsKeep(v, s, threshold, w, total, values[..|values| - 1]);
    }
  }

  /** Two members that reset on the same values hold the same seed in every round,
      and in each round a verifies what b draws: whatever the value drawn on, a's
      answer is b's number of votes, if a recorded b's weight and both use one total. */
  lemma RoundsAgree(v: Vrf, a: State, b: State, threshold: nat, wa: nat, wb: nat, total: nat, values: seq<string>, value: string)
    requires VrfOk(v) && 0 < threshold < total
    requires |a.seed| == 20 && a.seed == b.seed && forall i :: 0 <= i < |values| ==> 20 <= |values[i]|
    requires v.publicKey(a.privateKey) != v.publicKey(b.privateKey) && Weight(a, v.publicKey(b.privateKey)) == wb
    ensures var a', b' := Rounds(v, a, threshold, wa, total, values), Rounds(v, b, threshold, wb, total, values);
            && a'.seed == b'.seed
            && var (_, votes, package) := Draw(v, b', threshold, wb, total, value);
               Check(v, a', package, threshold, total) == if votes.Found? then Votes(package.j) else NoAnswer
  {
    RoundsKeep(v, a, threshold, wa, total, values);
    RoundsKeep(v, b, threshold, wb, total, values);
  }

  /** A proof the random function rejects earns nothing, and whoever is answered got
      fewer votes than its recorded weight. */
  lemma CheckedBelowWeight(v: Vrf, s: State, dp: Package, threshold: nat, total: nat)
    requires ByteString(dp.hash) && 0 < threshold < total
    ensures var r := Check(v, s, dp, threshold, total);
            && (r.Rejected? <==> !v.accepts(dp.pk, s.seed, dp.proof))
            && (r.Votes? ==> r.j < Weight(s, dp.pk))
            && (r.NoAnswer? <==> v.accepts(dp.pk, s.seed, dp.proof)
                                 && Fraction(dp.hash) < Pow(1.0 - Chance(threshold, total), Weight(s, dp.pk)))
  {
    SearchEnds(Fraction(dp.hash), Weight(s, dp.pk), Chance(threshold, total));
    NoDraw(Weight(s, dp.pk), Chance(threshold, total));
  }

  // ------------------------------------------------ weights and their total

  ghost function WalletSum(wallet: map<string, nat>, keys: set<string>): nat
    requires keys <= wallet.Keys
  {
    if keys == {} then 0
    else var k :| k in keys; wallet[k] + WalletSum(wallet, keys - {k})
  }

  lemma {:induction false} WalletSumFlat(wallet: map<string, nat>, keys: set<string>, each: nat)
    requires keys <= wallet.Keys && forall k :: k in keys ==> wallet[k] == each
    ensures WalletSum(wallet, keys) == each * |keys|
    decreases |keys|
  {
    if keys != {} {
      var k: string :| k in keys && WalletSum(wallet, keys) == wallet[k] + WalletSum(wallet, keys - {k});
      WalletSumFlat(wallet, keys - {k}, each);
    }
  }

  function RegisterAll(s: State, keys: seq<(string, nat)>): State {
    if keys == [] then s
    else Register(RegisterAll(s, keys[..|keys| - 1]), keys[|keys| - 1].0, keys[|keys| - 1].1)
  }

  /** Keys of nodes beyond the fourth are passed over. */
  function FirstFour(keys: seq<(string, nat)>): seq<(string, nat)> {
    if keys == [] then []
    else FirstFour(keys[..|keys| - 1]) + if keys[|keys| - 1].1 <= 3 then [keys[|keys| - 1]] else []
  }

  lemma {:induction false} OthersPassedOver(s: State, keys: seq<(string, nat)>)
    ensures RegisterAll(s, keys) == RegisterAll(s, FirstFour(keys))
    ensures RegisterAll(s, keys).total == s.total + 100 * |FirstFour(keys)|
    ensures forall i :: 0 <= i < |FirstFour(keys)| ==> FirstFour(keys)[i] in keys && FirstFour(keys)[i].1 <= 3
  {
    if keys != [] {
      var short, last := keys[..|keys| - 1], keys[|keys| - 1];
      OthersPassedOver(s, short);
      assert (FirstFour(short) + [last])[..|FirstFour(short)|] == FirstFour(short);
      if last.1 <= 3 {
        assert FirstFour(keys) == FirstFour(short) + [last];
      } else {
        assert FirstFour(keys) == FirstFour(short);
      }
      assert forall x :: x in short ==> x in keys;
    }
  }

  /** The last key registered for a node stays its key, and its weight is 100. */
  lemma {:induction false} LastKeyKept(s: State, keys: seq<(string, nat)>, i: nat)
    requires i < |keys| && keys[i].1 <= 3 && forall j :: i < j < |keys| ==> keys[j].1 != keys[i].1
    ensures var r := RegisterAll(s, keys);
            && keys[i].1 in r.publicKeys && r.publicKeys[keys[i].1] == keys[i].0
            && keys[i].0 in r.wallet && r.wallet[keys[i].0] == 100
    decreases |keys|
  {
    if i < |keys| - 1 {
      LastKeyKept(s, keys[..|keys| - 1], i);
    }
  }

  /** Members start on one seed, whoever they are, with their own key under their own
      node, where it stays unless that node's key is registered again; and they are
      counted in the total with the weight their draws record. */
  lemma {:induction false} StartsAlike(v: Vrf, id: nat, sk: string, other: State, keys: seq<(string, nat)>)
    requires forall i :: 0 <= i < |keys| ==> keys[i].1 != id
    ensures var r := RegisterAll(Start(v, id, sk), keys);
            && r.seed == Start(v, other.id, other.privateKey).seed && |r.seed| == 20
            && id in r.publicKeys && r.publicKeys[id] == v.publicKey(sk)
            && r.counts == map[] && r.counted == {} && r.ownWeight == Start(v, id, sk).total == 100
  {
    if keys != [] {
      StartsAlike(v, id, sk, other, keys[..|keys| - 1]);
    }
  }

  ghost predicate FreshKeys(s: State, keys: seq<(string, nat)>) {
    && (forall i :: 0 <= i < |keys| ==> keys[i].1 <= 3 && keys[i].0 !in s.wallet)
    && (forall i, j :: 0 <= i < j < |keys| ==> keys[i].0 != keys[j].0)
  }

  ghost function KeySet(keys: seq<(string, nat)>): set<string> { set x | x in keys :: x.0 }

  lemma {:induction false} RegisterAllKeeps(s: State, keys: seq<(string, nat)>)
    requires FreshKeys(s, keys)
    ensures var r := RegisterAll(s, keys);
            r.total == s.total + 100 * |keys| && r.seed == s.seed && r.privateKey == s.privateKey && r.ownWeight == s.ownWeight
  {
    if keys != [] {
      RegisterAllKeeps(s, keys[..|keys| - 1]);
    }
  }

  lemma {:induction false} KeySetSize(s: State, keys: seq<(string, nat)>)
    requires FreshKeys(s, keys)
    ensures |KeySet(keys)| == |keys|
  {
    if keys != [] {
      var short, last := keys[..|keys| - 1], keys[|keys| - 1];
      assert FreshKeys(s, short);
      KeySetSize(s, short);
      assert keys == short + [last];
      KeySetSnoc(s, short, last);
    }
  }

  lemma {:induction false} RegisterAllWallet(s: State, keys: seq<(string, nat)>)
    requires FreshKeys(s, keys)
    ensures RegisterAll(s, keys).wallet.Keys == s.wallet.Keys + KeySet(keys)
    ensures forall k :: k in KeySet(keys) ==> k in RegisterAll(s, keys).wallet && RegisterAll(s, keys).wallet[k] == 100
  {
    if keys != [] {
      var short, last := keys[..|keys| - 1], keys[|keys| - 1];
      assert FreshKeys(s, short);
      RegisterAllWallet(s, short);
      assert keys == short + [last];
      KeySetSnoc(s, short, last);
      RegisterStep(RegisterAll(s, short), last);
      assert last.1 <= 3;
      hide FreshKeys, Register, KeySet;
      assert RegisterAll(s, keys).wallet == RegisterAll(s, short).wallet[last.0 := 100];
    }
  }

  lemma RegisterStep(s: State, key: (string, nat))
    ensures key.1 <= 3 ==> Register(s, key.0, key.1).wallet == s.wallet[key.0 := 100]
  {
  }

  lemma KeySetSnoc(s: State, short: seq<(string, nat)>, last: (string, nat))
    requires FreshKeys(s, short + [last])
    ensures KeySet(short + [last]) == KeySet(short) + {last.0} && last.0 !in KeySet(short)
  {
    var keys := short + [last];
    forall x | x in short ensures x in keys && x.0 != last.0 {
      var i :| 0 <= i < |short| && short[i] == x;
      assert keys[i] == x && keys[|short|] == last;
    }
    assert last in keys;
  }

  /** The total used for the chance is the sum of the recorded weights, once every
      other member's key has come in once and the member has drawn lots itself. */
  lemma TotalIsWalletSum(v: Vrf, id: nat, sk: string, keys: seq<(string, nat)>, threshold: nat, w: nat, value: string)
    requires VrfOk(v) && 0 < threshold < 100
    requires FreshKeys(Start(v, id, sk), keys) && v.publicKey(sk) !in KeySet(keys)
    ensures var s := RegisterAll(Start(v, id, sk), keys);
            && s.total == 100 * (|keys| + 1)
            && var (t, votes, _) := Draw(v, s, threshold, w, s.total, value);
               votes.Found? ==> WalletSum(t.wallet, t.wallet.Keys) == t.total == s.total
  {
    hide VrfOk, Draw, FreshKeys, RegisterAll;
    var s0 := Start(v, id, sk);
    RegisterAllKeeps(s0, keys);
    RegisterAllWallet(s0, keys);
    KeySetSize(s0, keys);
    var s := RegisterAll(s0, keys);
    DrawnWallet(v, s, threshold, w, value);
    var t := Draw(v, s, threshold, w, s.total, value).0;
    if Draw(v, s, threshold, w, s.total, value).1.Found? {
      assert t.wallet.Keys == KeySet(keys) + {v.publicKey(sk)};
      WalletSumFlat(t.wallet, t.wallet.Keys, 100);
    }
  }

  lemma DrawnWallet(v: Vrf, s: State, threshold: nat, w: nat, value: string)
    requires VrfOk(v) && 0 < threshold < s.total
    ensures var (t, votes, _) := Draw(v, s, threshold, w, s.total, value);
            t.total == s.total && (votes.Found? ==> t.wallet == s.wallet[v.publicKey(s.privateKey) := s.ownWeight])
  {
  }

  // ------------------------------------------------ the tally

  ghost function TallyAll(s: State, goal: real, votes: seq<Package>): State {
    if votes == [] then s else Tally(TallyAll(s, goal, votes[..|votes| - 1]), goal, votes[|votes| - 1]).0
  }

  ghost predicate Seen(votes: seq<Package>, pk: string) { exists v :: v in votes && v.pk == pk }

  /** The votes that were their key's first. */
  ghost function Firsts(votes: seq<Package>): seq<Package> {
    if votes == [] then []
    else
      var short, last := votes[..|votes| - 1], votes[|votes| - 1];
      Firsts(short) + if Seen(short, last.pk) then [] else [last]
  }

  ghost function SumFor(votes: seq<Package>, value: string): int {
    if votes == [] then 0
    else SumFor(votes[..|votes| - 1], value) + if votes[|votes| - 1].value == value then votes[|votes| - 1].j else 0
  }

  ghost function SumAll(votes: seq<Package>): int {
    if votes == [] then 0 else SumAll(votes[..|votes| - 1]) + votes[|votes| - 1].j
  }

  function CountOf(s: State, value: string): int { if value in s.counts then s.counts[value] else 0 }

  lemma {:induction false} CountedAre(s: State, goal: real, votes: seq<Package>)
    requires s.counted == {}
    ensures forall pk :: pk in TallyAll(s, goal, votes).counted <==> Seen(votes, pk)
  {
    if votes != [] {
      var short, last := votes[..|votes| - 1], votes[|votes| - 1];
      CountedAre(s, goal, short);
      assert votes == short + [last];
      forall pk ensures Seen(votes, pk) <==> Seen(short, pk) || pk == last.pk {
        assert last in votes;
      }
    }
  }

  lemma SumForSnoc(votes: seq<Package>, last: Package, value: string)
    ensures SumFor(votes + [last], value) == SumFor(votes, value) + if last.value == value then last.j else 0
    ensures SumFor(votes + [], value) == SumFor(votes, value)
    ensures SumAll(votes + [last]) == SumAll(votes) + last.j && SumAll(votes + []) == SumAll(votes)
  {
    assert (votes + [last])[..|votes|] == votes;
    assert votes + [] == votes;
  }

  lemma TallyStep(s: State, goal: real, dp: Package, value: string)
    ensures CountOf(Tally(s, goal, dp).0, value)
         == CountOf(s, value) + if dp.pk !in s.counted && dp.value == value then dp.j else 0
  {
  }

  /** After any calls since a reset, a value's count is the sum over first votes for it. */
  lemma {:induction false} CountsAreFirstVotes(s: State, goal: real, votes: seq<Package>, value: string)
    requires s.counts == map[] && s.counted == {}
    ensures CountOf(TallyAll(s, goal, votes), value) == SumFor(Firsts(votes), value)
  {
    if votes != [] {
      hide SumFor, Seen;
      var short, last := votes[..|votes| - 1], votes[|votes| - 1];
      CountsAreFirstVotes(s, goal, short, value);
      CountedAre(s, goal, short);
      SumForSnoc(Firsts(short), last, value);
      TallyStep(TallyAll(s, goal, short), goal, last, value);
      hide Tally, CountOf;
    } else {
      assert Firsts(votes) == [];
    }
  }

  lemma {:induction false} SeenEarlier(votes: seq<Package>, i: nat)
    requires i < |votes|
    ensures Seen(votes[..i], votes[i].pk) <==> exists h :: 0 <= h < i && votes[h].pk == votes[i].pk
  {
    if h :| 0 <= h < i && votes[h].pk == votes[i].pk {
      assert votes[..i][h] in votes[..i];
    }
  }

  /** Over any calls since a reset: a call is answered -1 exactly when its key has voted
      before; 1 exactly when it has not and the first votes for its value, this one
      included, reach the goal; and 0 otherwise. */
  lemma AnswersExactly(s: State, goal: real, votes: seq<Package>, i: nat)
    requires s.counts == map[] && s.counted == {} && i < |votes|
    ensures var answer := Tally(TallyAll(s, goal, votes[..i]), goal, votes[i]).1;
            var before := exists h :: 0 <= h < i && votes[h].pk == votes[i].pk;
            && (answer == -1 <==> before)
            && (answer == 1 <==> !before && goal <= SumFor(Firsts(votes[..i + 1]), votes[i].value) as real)
            && (answer == 0 <==> !before && SumFor(Firsts(votes[..i + 1]), votes[i].value) as real < goal)
  {
    hide SumFor, Seen, Firsts;
    var short := votes[..i];
    assert votes[..i + 1][..i] == short;
    CountedAre(s, goal, short);
    SeenEarlier(votes, i);
    CountsAreFirstVotes(s, goal, votes[..i + 1], votes[i].value);
  }

  /** Reset begins a new tally: whatever was counted before, the votes after it are
      counted alone, and a key may vote again. */
  lemma ResetStartsOver(s: State, goal: real, votes: seq<Package>, value: string)
    requires |s.seed| <= |s.block|
    ensures CountOf(TallyAll(Reseed(s), goal, votes), value) == SumFor(Firsts(votes), value)
    ensures forall pk :: pk in TallyAll(Reseed(s), goal, votes).counted <==> Seen(votes, pk)
    ensures Reseed(s).wallet == s.wallet && Reseed(s).total == s.total && Reseed(s).block == s.block
  {
    CountsAreFirstVotes(Reseed(s), goal, votes, value);
    CountedAre(Reseed(s), goal, votes);
  }

  ghost function CountSum(counts: map<string, int>, values: set<string>): int
    requires values <= counts.Keys
  {
    if values == {} then 0
    else var x :| x in values; counts[x] + CountSum(counts, values - {x})
  }

  /** The sum does not depend on which value is taken first. */
  lemma {:induction false} CountSumTake(counts: map<string, int>, values: set<string>, x: string)
    requires values <= counts.Keys && x in values
    ensures CountSum(counts, values) == counts[x] + CountSum(counts, values - {x})
    decreases |values|
  {
    var y: string :| y in values && CountSum(counts, values) == counts[y] + CountSum(counts, values - {y});
    if x != y {
      CountSumTake(counts, values - {y}, x);
      CountSumTake(counts, values - {x}, y);
      assert values - {y} - {x} == values - {x} - {y};
    }
  }

  lemma {:induction false} CountSumFrame(counts: map<string, int>, counts': map<string, int>, values: set<string>)
    requires values <= counts.Keys && values <= counts'.Keys
    requires forall x :: x in values ==> counts[x] == counts'[x]
    ensures CountSum(counts, values) == CountSum(counts', values)
    decreases |values|
  {
    if values != {} {
      var x :| x in values;
      CountSumTake(counts, values, x);
      CountSumTake(counts', values, x);
      CountSumFrame(counts, counts', values - {x});
    }
  }

  /** Nothing is lost: the counts of all values add up to all first votes. */
  lemma {:induction false} CountsAddUp(s: State, goal: real, votes: seq<Package>)
    requires s.counts == map[] && s.counted == {}
    ensures var t := TallyAll(s, goal, votes); CountSum(t.counts, t.counts.Keys) == SumAll(Firsts(votes))
  {
    if votes != [] {
      var short, last := votes[..|votes| - 1], votes[|votes| - 1];
      CountsAddUp(s, goal, short);
      CountedAre(s, goal, short);
      SumForSnoc(Firsts(short), last, last.value);
      var q, t := TallyAll(s, goal, short), TallyAll(s, goal, votes);
      if last.pk !in q.counted {
        CountSumTake(t.counts, t.counts.Keys, last.value);
        CountSumFrame(q.counts, t.counts, q.counts.Keys - {last.value});
        if last.value in q.counts {
          CountSumTake(q.counts, q.counts.Keys, last.value);
          assert t.counts.Keys == q.counts.Keys;
        } else {
          assert t.counts.Keys - {last.value} == q.counts.Keys == q.counts.Keys - {last.value};
        }
      }
    }
  }

  ghost predicate EachOnce(votes: seq<Package>) {
    forall i, j :: 0 <= i < j < |votes| ==> votes[i].pk != votes[j].pk
  }

  lemma {:induction false} FirstsOfEachOnce(votes: seq<Package>)
    requires EachOnce(votes)
    ensures Firsts(votes) == votes
  {
    if votes != [] {
      FirstsOfEachOnce(votes[..|votes| - 1]);
    }
  }

  lemma {:induction false} SumForConcat(a: seq<Package>, b: seq<Package>, value: string)
    ensures SumFor(a + b, value) == SumFor(a, value) + SumFor(b, value)
  {
    if b == [] {
      assert a + b == a;
    } else {
      SumForConcat(a, b[..|b| - 1], value);
      assert (a + b)[..|a + b| - 1] == a + b[..|b| - 1];
    }
  }

  lemma {:induction false} SumForOrder(a: seq<Package>, b: seq<Package>, value: string)
    requires multiset(a) == multiset(b)
    ensures SumFor(a, value) == SumFor(b, value)
    decreases |a|
  {
    if a == [] {
      assert |multiset(b)| == 0;
    } else {
      var last := a[|a| - 1];
      assert last in multiset(a);
      assert last in b by { assert last in multiset(b); }
      var i :| 0 <= i < |b| && b[i] == last;
      assert a == a[..|a| - 1] + [last];
      assert b == b[..i] + [last] + b[i + 1..];
      assert multiset(a[..|a| - 1]) == multiset(a) - multiset{last};
      assert multiset(b[..i] + b[i + 1..]) == multiset(b) - multiset{last};
      SumForOrder(a[..|a| - 1], b[..i] + b[i + 1..], value);
      SumForConcat(b[..i], b[i + 1..], value);
      SumForConcat(b[..i] + [last], b[i + 1..], value);
      SumForConcat(b[..i], [last], value);
      assert [last][..0] == [];
    }
  }

  /** When every key votes once, the order of arrival does not matter. */
  lemma OrderDoesNotMatter(s: State, goal: real, a: seq<Package>, b: seq<Package>, value: string)
    requires s.counts == map[] && s.counted == {}
    requires EachOnce(a) && EachOnce(b) && multiset(a) == multiset(b)
    ensures CountOf(TallyAll(s, goal, a), value) == CountOf(TallyAll(s, goal, b), value)
  {
    CountsAreFirstVotes(s, goal, a, value);
    CountsAreFirstVotes(s, goal, b, value);
    FirstsOfEachOnce(a);
    FirstsOfEachOnce(b);
    SumForOrder(a, b, value);
  }

  lemma {:induction false} TwoValues(votes: seq<Package>, x: string, y: string)
    requires x != y && forall v :: v in votes ==> 0 <= v.j
    ensures 0 <= SumFor(votes, x) && 0 <= SumFor(votes, y) && SumFor(votes, x) + SumFor(votes, y) <= SumAll(votes)
  {
    if votes != [] {
      assert forall v :: v in votes[..|votes| - 1] ==> v in votes;
      TwoValues(votes[..|votes| - 1], x, y);
    }
  }

  lemma {:induction false} FirstsAmong(votes: seq<Package>)
    ensures forall v :: v in Firsts(votes) ==> v in votes
  {
    if votes != [] {
      FirstsAmong(votes[..|votes| - 1]);
      assert forall v :: v in votes[..|votes| - 1] ==> v in votes;
    }
  }

  lemma {:induction false} CountsNeverFall(s: State, goal: real, votes: seq<Package>, i: nat, x: string)
    requires s.counts == map[] && s.counted == {} && i <= |votes|
    requires forall v :: v in votes ==> 0 <= v.j
    ensures CountOf(TallyAll(s, goal, votes[..i]), x) <= CountOf(TallyAll(s, goal, votes), x)
    decreases |votes|
  {
    if i == |votes| {
      assert votes[..i] == votes;
    } else {
      var short := votes[..|votes| - 1];
      assert short[..i] == votes[..i];
      assert forall v :: v in short ==> v in votes;
      CountsNeverFall(s, goal, short, i, x);
    }
  }

  lemma Reached(s: State, goal: real, votes: seq<Package>, i: nat)
    requires s.counts == map[] && s.counted == {} && i < |votes|
    requires forall v :: v in votes ==> 0 <= v.j
    requires Tally(TallyAll(s, goal, votes[..i]), goal, votes[i]).1 == 1
    ensures goal <= SumFor(Firsts(votes), votes[i].value) as real
  {
    hide SumFor;
    assert votes[..i + 1][..i] == votes[..i];
    CountsNeverFall(s, goal, votes, i + 1, votes[i].value);
    CountsAreFirstVotes(s, goal, votes, votes[i].value);
  }

  /** If votes are not negative and the first votes add up to less than twice the
      goal, the answer 1 is given for at most one value over the whole round. */
  lemma OneWinner(s: State, goal: real, votes: seq<Package>, i: nat, j: nat)
    requires s.counts == map[] && s.counted == {} && i < |votes| && j < |votes|
    requires forall v :: v in votes ==> 0 <= v.j
    requires SumAll(Firsts(votes)) as real < 2.0 * goal
    requires Tally(TallyAll(s, goal, votes[..i]), goal, votes[i]).1 == 1
    requires Tally(TallyAll(s, goal, votes[..j]), goal, votes[j]).1 == 1
    ensures votes[i].value == votes[j].value
  {
    hide SumFor, SumAll, TallyAll, Firsts, Tally;
    Reached(s, goal, votes, i);
    Reached(s, goal, votes, j);
    FirstsAmong(votes);
    if votes[i].value != votes[j].value {
      TwoValues(Firsts(votes), votes[i].value, votes[j].value);
    }
  }
}
