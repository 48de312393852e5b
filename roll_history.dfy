/**
 * The roll-history store (app/stores/rollHistory.ts): an append-only list of
 * roll records, each carrying its die results and their total, with getters for
 * the twenty most recent records (newest first) and the last record.
 */
module RollHistory {
  import opened Wrappers
  import opened DiceTypes

  /** How many records `recentRolls` shows. */
  const RecentWindow: nat := 20

  /**
   * One stored roll. `id` and `timestamp` come from the clock and the random
   * generator; the model takes them as given values.
   */
  datatype RollResult = RollResult(id: string, timestamp: int, rolls: seq<DieRollResult>, total: int)

  /** `rolls.reduce((sum, roll) => sum + roll.value, 0)`, folded from the left. */
  function RollTotal(rolls: seq<DieRollResult>): (total: int)
    ensures (forall i :: 0 <= i < |rolls| ==> rolls[i].value >= 0) ==> total >= 0
    ensures (forall i :: 0 <= i < |rolls| ==> rolls[i].value >= 0) ==> forall i :: 0 <= i < |rolls| ==> rolls[i].value <= total
  {
    if rolls == [] then 0 else RollTotal(rolls[..|rolls| - 1]) + rolls[|rolls| - 1].value
  }

  /** The total of a concatenation is the sum of the totals. */
  lemma {:induction false} RollTotalAppend(a: seq<DieRollResult>, b: seq<DieRollResult>)
    ensures RollTotal(a + b) == RollTotal(a) + RollTotal(b)
  {
    if b == [] {
      assert a + b == a;
    } else {
      var b' := b[..|b| - 1];
      assert (a + b)[..|a + b| - 1] == a + b';
      RollTotalAppend(a, b');
    }
  }

  /** A record is consistent when its total is the total of its rolls. */
  predicate Consistent(r: RollResult)
  {
    r.total == RollTotal(r.rolls)
  }

  /** The record `addRoll` builds. */
  function NewRecord(rolls: seq<DieRollResult>, id: string, timestamp: int): (r: RollResult)
    ensures r.rolls == rolls && r.id == id && r.timestamp == timestamp
    ensures Consistent(r)
  {
    RollResult(id, timestamp, rolls, RollTotal(rolls))
  }

  /** The `lastRoll` getter: `null` exactly for an empty history, otherwise the final record. */
  function LastRoll(h: seq<RollResult>): (r: Option<RollResult>)
    ensures r.None? <==> h == []
    ensures r.Some? ==> r.value == h[|h| - 1]
  {
    if |h| > 0 then Some(h[|h| - 1]) else None
  }

  /** The `recentRolls` getter, `history.slice(-20).reverse()`. */
  function RecentRolls(h: seq<RollResult>): (r: seq<RollResult>)
    ensures |r| == if |h| < RecentWindow then |h| else RecentWindow
    ensures forall i :: 0 <= i < |r| ==> r[i] == h[|h| - 1 - i]
  {
    var recent := if |h| <= RecentWindow then h else h[|h| - RecentWindow..];
    seq(|recent|, i requires 0 <= i < |recent| => recent[|recent| - 1 - i])
  }

  /** When there is a recent roll, the first one shown is `lastRoll`. */
  lemma RecentStartsWithLast(h: seq<RollResult>)
    ensures RecentRolls(h) == [] <==> LastRoll(h).None?
    ensures RecentRolls(h) != [] ==> RecentRolls(h)[0] == LastRoll(h).value
  {
  }

  /**
   * Appending a record shows it first and pushes the previous recent rolls one
   * place down, dropping the oldest once the window is full.
   */
  lemma RecentAfterAppend(h: seq<RollResult>, x: RollResult)
    ensures RecentRolls(h + [x]) == [x] + RecentRolls(h)[..if |h| < RecentWindow then |h| else RecentWindow - 1]
    ensures LastRoll(h + [x]) == Some(x)
  {
    var r, r' := RecentRolls(h + [x]), RecentRolls(h);
    var k := if |h| < RecentWindow then |h| else RecentWindow - 1;
    assert |r| == 1 + k;
    forall i | 0 <= i < |r|
      ensures r[i] == ([x] + r'[..k])[i]
    {
      if i > 0 {
        assert r[i] == h[|h| - i];
      }
    }
  }

  /** The Pinia store; `stored` is the `diceRollHistory` entry of the browser's storage. */
  class RollHistoryStore {
    var history: seq<RollResult>
    var stored: Option<seq<RollResult>>

    /** A fresh store over whatever the storage already holds. */
    constructor (stored: Option<seq<RollResult>>)
      ensures history == [] && this.stored == stored
    {
      history := [];
      this.stored := stored;
    }

    /** `saveToLocalStorage`. */
    method SaveToLocalStorage()
      modifies this
      ensures history == old(history) && stored == Some(history)
    {
      stored := Some(history);
    }

    /** `addRoll`: append one consistent record and persist the history. */
    method AddRoll(rolls: seq<DieRollResult>, id: string, timestamp: int)
      modifies this
      ensures history == old(history) + [NewRecord(rolls, id, timestamp)]
      ensures stored == Some(history)
      ensures LastRoll(history) == Some(NewRecord(rolls, id, timestamp))
      ensures (forall i :: 0 <= i < |old(history)| ==> Consistent(old(history)[i])) ==>
                forall i :: 0 <= i < |history| ==> Consistent(history[i])
    {
      var total := RollTotal(rolls);
      var record := RollResult(id, timestamp, rolls, total);
      history := history + [record];
      SaveToLocalStorage();
    }

    /** `clearHistory`: empty the history and persist it. */
    method ClearHistory()
      modifies this
      ensures history == [] && stored == Some([])
      ensures LastRoll(history).None? && RecentRolls(history) == []
    {
      history := [];
      SaveToLocalStorage();
    }

    /** `loadFromLocalStorage`: take the stored history when there is one. */
    method LoadFromLocalStorage()
      modifies this
      ensures stored == old(stored)
      ensures history == if stored.Some? then stored.value else old(history)
    {
      if stored.Some? {
        history := stored.value;
      }
    }
  }
}
