/**
 * The dice-configuration store (app/stores/diceConfig.ts): seven per-kind
 * counters under a global cap of eight dice, with the derived total and the
 * ordered list of kinds in use.
 */
module DiceConfig {
  import opened DiceTypes

  /** The cap on the number of dice on the table. */
  const MaxDice: int := 8

  /** The kinds in the order in which `activeDiceTypes` lists them. */
  const AllTypes: seq<DiceType> := [D4, D6, D8, D10, D12, D20, D100]

  /** Two d6 and nothing else: the store's initial state and what `reset` restores. */
  const InitialConfiguration: DiceConfiguration := DiceConfiguration(0, 2, 0, 0, 0, 0, 0)

  /** The position of a kind in `AllTypes`. */
  function Rank(t: DiceType): (r: nat)
    ensures r < |AllTypes| && AllTypes[r] == t
  {
    match t
    case D4 => 0
    case D6 => 1
    case D8 => 2
    case D10 => 3
    case D12 => 4
    case D20 => 5
    case D100 => 6
  }

  /** The `totalDiceCount` getter. */
  function TotalDiceCount(c: DiceConfiguration): (n: int)
    ensures (forall t :: c.Get(t) >= 0) ==> n >= 0 && forall t :: c.Get(t) <= n
  {
    c.Get(D4) + c.Get(D6) + c.Get(D8) + c.Get(D10) + c.Get(D12) + c.Get(D20) + c.Get(D100)
  }

  /** Reference definition: the sum of the counts of the listed kinds. */
  function SumCounts(ts: seq<DiceType>, c: DiceConfiguration): int
  {
    if ts == [] then 0 else c.Get(ts[0]) + SumCounts(ts[1..], c)
  }

  /** The store's invariant: no count is negative and there are at most eight dice. */
  predicate Invariant(c: DiceConfiguration)
  {
    (forall t :: c.Get(t) >= 0) && TotalDiceCount(c) <= MaxDice
  }

  /** `totalDiceCount` is the sum of the seven per-kind counts. */
  lemma TotalIsSumOverAllTypes(c: DiceConfiguration)
    ensures TotalDiceCount(c) == SumCounts(AllTypes, c)
  {
    var tail := [D100];
    assert SumCounts(tail, c) == c.d100 by { assert tail[1..] == []; }
    tail := [D20] + tail;
    assert SumCounts(tail, c) == c.d20 + c.d100 by { assert tail[1..] == [D100]; }
    tail := [D12] + tail;
    assert SumCounts(tail, c) == c.d12 + c.d20 + c.d100 by { assert tail[1..] == [D20, D100]; }
    tail := [D10] + tail;
    assert SumCounts(tail, c) == c.d10 + c.d12 + c.d20 + c.d100 by { assert tail[1..] == [D12, D20, D100]; }
    tail := [D8] + tail;
    assert SumCounts(tail, c) == c.d8 + c.d10 + c.d12 + c.d20 + c.d100 by { assert tail[1..] == [D10, D12, D20, D100]; }
    tail := [D6] + tail;
    assert SumCounts(tail, c) == c.d6 + c.d8 + c.d10 + c.d12 + c.d20 + c.d100 by { assert tail[1..] == [D8, D10, D12, D20, D100]; }
    assert AllTypes == [D4] + tail && AllTypes[1..] == tail;
  }

  /** Replacing one count moves the total by exactly the difference. */
  lemma TotalAfterWith(c: DiceConfiguration, t: DiceType, n: int)
    ensures TotalDiceCount(c.With(t, n)) == TotalDiceCount(c) - c.Get(t) + n
  {
    match t
    case D4 =>
    case D6 =>
    case D8 =>
    case D10 =>
    case D12 =>
    case D20 =>
    case D100 =>
  }

  /** The initial configuration has two dice and satisfies the invariant. */
  lemma InitialConfigurationValid()
    ensures Invariant(InitialConfiguration)
    ensures TotalDiceCount(InitialConfiguration) == 2
    ensures InitialConfiguration.Get(D6) == 2
    ensures forall t :: t != D6 ==> InitialConfiguration.Get(t) == 0
  {
  }

  /** The state after `addDie(t)`. */
  function AfterAddDie(c: DiceConfiguration, t: DiceType): (r: DiceConfiguration)
    ensures r.Get(t) == if TotalDiceCount(c) < MaxDice then c.Get(t) + 1 else c.Get(t)
    ensures forall u :: u != t ==> r.Get(u) == c.Get(u)
    ensures TotalDiceCount(c) >= MaxDice ==> r == c
    ensures TotalDiceCount(c) <= MaxDice ==> TotalDiceCount(r) <= MaxDice
    ensures Invariant(c) ==> Invariant(r)
  {
    TotalAfterWith(c, t, c.Get(t) + 1);
    if TotalDiceCount(c) < MaxDice then c.With(t, c.Get(t) + 1) else c
  }

  /** The state after `removeDie(t)`. */
  function AfterRemoveDie(c: DiceConfiguration, t: DiceType): (r: DiceConfiguration)
    ensures r.Get(t) == if c.Get(t) > 0 then c.Get(t) - 1 else c.Get(t)
    ensures forall u :: u != t ==> r.Get(u) == c.Get(u)
    ensures c.Get(t) >= 0 ==> r.Get(t) >= 0
    ensures TotalDiceCount(r) <= TotalDiceCount(c)
    ensures Invariant(c) ==> Invariant(r)
  {
    TotalAfterWith(c, t, c.Get(t) - 1);
    if c.Get(t) > 0 then c.With(t, c.Get(t) - 1) else c
  }

  /** The room that the other kinds leave for kind `t` under the cap. */
  function Room(c: DiceConfiguration, t: DiceType): int
  {
    MaxDice - (TotalDiceCount(c) - c.Get(t))
  }

  /** The state after `setDiceCount(t, count)`: the count clamped to `[0, Room]`. */
  function AfterSetDiceCount(c: DiceConfiguration, t: DiceType, count: int): (r: DiceConfiguration)
    ensures 0 <= count <= Room(c, t) ==> r.Get(t) == count
    ensures count < 0 ==> r.Get(t) == 0
    ensures 0 <= Room(c, t) < count ==> r.Get(t) == Room(c, t)
    ensures Room(c, t) < 0 ==> r.Get(t) == 0
    ensures forall u :: u != t ==> r.Get(u) == c.Get(u)
    ensures Room(c, t) >= 0 ==> TotalDiceCount(r) <= MaxDice
    ensures Invariant(c) ==> Invariant(r)
  {
    var maxCount := if count < Room(c, t) then count else Room(c, t);
    var n := if 0 < maxCount then maxCount else 0;
    TotalAfterWith(c, t, n);
    c.With(t, n)
  }

  /** One entry of `activeDiceTypes`: a kind and its count. */
  datatype TypeCount = TypeCount(dieType: DiceType, count: int)

  /** Kinds listed in strictly increasing `AllTypes` order. */
  predicate StrictlyRanked(ts: seq<DiceType>)
  {
    forall i, j :: 0 <= i < j < |ts| ==> Rank(ts[i]) < Rank(ts[j])
  }

  lemma AllTypesRanked()
    ensures StrictlyRanked(AllTypes)
  {
    forall i | 0 <= i < |AllTypes|
      ensures Rank(AllTypes[i]) == i
    {
    }
  }

  lemma RankedTail(ts: seq<DiceType>)
    requires StrictlyRanked(ts) && ts != []
    ensures StrictlyRanked(ts[1..])
    ensures forall i :: 0 <= i < |ts[1..]| ==> Rank(ts[0]) < Rank(ts[1..][i])
  {
    forall i, j | 0 <= i < j < |ts[1..]|
      ensures Rank(ts[1..][i]) < Rank(ts[1..][j])
    {
      assert ts[1..][i] == ts[i + 1] && ts[1..][j] == ts[j + 1];
    }
  }

  /** `types.filter(t => state[t] > 0).map(t => ({ type: t, count: state[t] }))`. */
  function ActiveAmong(ts: seq<DiceType>, c: DiceConfiguration): (r: seq<TypeCount>)
    requires StrictlyRanked(ts)
    ensures |r| <= |ts|
    ensures forall i :: 0 <= i < |r| ==> r[i].count == c.Get(r[i].dieType) && r[i].count > 0
    ensures forall i :: 0 <= i < |r| ==> Rank(ts[0]) <= Rank(r[i].dieType)
    ensures forall i, j :: 0 <= i < j < |r| ==> Rank(r[i].dieType) < Rank(r[j].dieType)
  {
    if ts == [] then []
    else
      RankedTail(ts);
      var rest := ActiveAmong(ts[1..], c);
      if c.Get(ts[0]) > 0 then
        assert forall i :: 0 <= i < |rest| ==> Rank(ts[0]) < Rank(rest[i].dieType);
        [TypeCount(ts[0], c.Get(ts[0]))] + rest
      else rest
  }

  /** The kind at position `k` of the list, when its count is positive, has an entry, at index `i`. */
  lemma {:induction false} ActiveAmongComplete(ts: seq<DiceType>, c: DiceConfiguration, k: nat) returns (i: nat)
    requires StrictlyRanked(ts)
    requires k < |ts| && c.Get(ts[k]) > 0
    ensures i < |ActiveAmong(ts, c)| && ActiveAmong(ts, c)[i].dieType == ts[k]
  {
    RankedTail(ts);
    var rest := ActiveAmong(ts[1..], c);
    var r := ActiveAmong(ts, c);
    if k == 0 {
      assert r[0] == TypeCount(ts[0], c.Get(ts[0]));
      i := 0;
    } else {
      assert ts[1..][k - 1] == ts[k];
      var j := ActiveAmongComplete(ts[1..], c, k - 1);
      if c.Get(ts[0]) > 0 {
        assert r == [TypeCount(ts[0], c.Get(ts[0]))] + rest;
        i := j + 1;
      } else {
        assert r == rest;
        i := j;
      }
    }
  }

  /**
   * The `activeDiceTypes` getter: exactly the kinds with a positive count, each
   * with its count, in the order d4, d6, d8, d10, d12, d20, d100.
   */
  function ActiveDiceTypes(c: DiceConfiguration): (r: seq<TypeCount>)
    ensures forall i :: 0 <= i < |r| ==> r[i].count == c.Get(r[i].dieType) && r[i].count > 0
    ensures forall t :: c.Get(t) > 0 <==> exists i :: 0 <= i < |r| && r[i].dieType == t
    ensures forall i, j :: 0 <= i < j < |r| ==> Rank(r[i].dieType) < Rank(r[j].dieType)
  {
    AllTypesRanked();
    forall t | c.Get(t) > 0
      ensures exists i :: 0 <= i < |ActiveAmong(AllTypes, c)| && ActiveAmong(AllTypes, c)[i].dieType == t
    {
      var i := ActiveAmongComplete(AllTypes, c, Rank(t));
    }
    ActiveAmong(AllTypes, c)
  }

  /** The sum of the counts in a list of entries. */
  function SumOfCounts(xs: seq<TypeCount>): int
  {
    if xs == [] then 0 else xs[0].count + SumOfCounts(xs[1..])
  }

  lemma {:induction false} ActiveAmongSum(ts: seq<DiceType>, c: DiceConfiguration)
    requires StrictlyRanked(ts)
    requires forall t :: c.Get(t) >= 0
    ensures SumOfCounts(ActiveAmong(ts, c)) == SumCounts(ts, c)
  {
    if ts != [] {
      RankedTail(ts);
      ActiveAmongSum(ts[1..], c);
      var rest := ActiveAmong(ts[1..], c);
      if c.Get(ts[0]) > 0 {
        assert ([TypeCount(ts[0], c.Get(ts[0]))] + rest)[1..] == rest;
      }
    }
  }

  /** With no negative count, the counts listed by `activeDiceTypes` add up to `totalDiceCount`. */
  lemma ActiveCountsSumToTotal(c: DiceConfiguration)
    requires forall t :: c.Get(t) >= 0
    ensures SumOfCounts(ActiveDiceTypes(c)) == TotalDiceCount(c)
  {
    AllTypesRanked();
    ActiveAmongSum(AllTypes, c);
    TotalIsSumOverAllTypes(c);
  }

  /** The Pinia store: its state is one `DiceConfiguration`, changed in place by the actions. */
  class DiceConfigStore {
    var state: DiceConfiguration

    ghost predicate Valid()
      reads this
    {
      Invariant(state)
    }

    constructor ()
      ensures state == InitialConfiguration
      ensures Valid()
    {
      state := InitialConfiguration;
    }

    /** `addDie`: one more die of kind `t`, only while there are fewer than eight. */
    method AddDie(t: DiceType)
      modifies this
      ensures state == AfterAddDie(old(state), t)
      ensures old(Valid()) ==> Valid()
    {
      if TotalDiceCount(state) < MaxDice {
        state := state.With(t, state.Get(t) + 1);
      }
    }

    /** `removeDie`: one fewer die of kind `t`, only when there is one. */
    method RemoveDie(t: DiceType)
      modifies this
      ensures state == AfterRemoveDie(old(state), t)
      ensures old(Valid()) ==> Valid()
    {
      if state.Get(t) > 0 {
        state := state.With(t, state.Get(t) - 1);
      }
    }

    /** `setDiceCount`: the requested count, clamped to what the cap leaves. */
    method SetDiceCount(t: DiceType, count: int)
      modifies this
      ensures state == AfterSetDiceCount(old(state), t, count)
      ensures old(Valid()) ==> Valid()
    {
      var room := Room(state, t);
      var maxCount := if count < room then count else room;
      state := state.With(t, if 0 < maxCount then maxCount else 0);
    }

    /** `reset`: back to two d6. */
    method Reset()
      modifies this
      ensures state == InitialConfiguration
      ensures Valid()
    {
      state := InitialConfiguration;
    }
  }
}
