/**
 * The shared dice vocabulary (app/types/dice.ts): the seven die kinds, the
 * result of one die, and the per-kind counts of a dice configuration.
 */
module DiceTypes {

  /** The supported die kinds, `'d4' | 'd6' | ... | 'd100'`. */
  datatype DiceType = D4 | D6 | D8 | D10 | D12 | D20 | D100

  /**
   * A die-kind tag as it arrives at run time. The static type admits only the
   * seven kinds, but several lookups carry a `default:` branch or a `|| fallback`
   * for any other string; `Unrecognised` lets the model say what those do.
   * `Unrecognised` may carry a kind's own name, which the lookups then read
   * as that kind (`Classify`).
   */
  datatype DiceTag = Known(dieType: DiceType) | Unrecognised(name: string)

  /** The string each kind goes by at run time, `'d4'` ... `'d100'`. */
  function KindName(t: DiceType): string
  {
    match t
    case D4 => "d4"
    case D6 => "d6"
    case D8 => "d8"
    case D10 => "d10"
    case D12 => "d12"
    case D20 => "d20"
    case D100 => "d100"
  }

  /** A string that is the name of one of the seven kinds. */
  predicate IsKindName(name: string)
  {
    name in {"d4", "d6", "d8", "d10", "d12", "d20", "d100"}
  }

  /**
   * A tag as the lookups read it: they key on the string, so a kind's name
   * selects that kind's entry whichever constructor carries it.
   */
  function Classify(tag: DiceTag): (r: DiceTag)
    ensures tag.Known? ==> r == tag
    ensures tag.Unrecognised? && !IsKindName(tag.name) ==> r == tag
    ensures tag.Unrecognised? && IsKindName(tag.name) ==> r.Known? && KindName(r.dieType) == tag.name
  {
    match tag
    case Known(_) => tag
    case Unrecognised(name) =>
      if name == "d4" then Known(D4)
      else if name == "d6" then Known(D6)
      else if name == "d8" then Known(D8)
      else if name == "d10" then Known(D10)
      else if name == "d12" then Known(D12)
      else if name == "d20" then Known(D20)
      else if name == "d100" then Known(D100)
      else tag
  }

  /** Every kind's name is a kind name, and it is read back as that kind. */
  lemma KindNameRoundTrip(t: DiceType)
    ensures IsKindName(KindName(t))
    ensures Classify(Unrecognised(KindName(t))) == Known(t)
  {
  }

  /**
   * The property names every plain object inherits from `Object.prototype`.
   * Looking one of these up in an object literal yields the inherited value,
   * which is truthy, so a `table[name] || fallback` lookup does not fall back.
   */
  predicate InheritedPropertyName(name: string)
  {
    name in {"constructor", "__proto__", "__defineGetter__", "__defineSetter__",
             "__lookupGetter__", "__lookupSetter__", "hasOwnProperty", "isPrototypeOf",
             "propertyIsEnumerable", "toLocaleString", "toString", "valueOf"}
  }

  /** A tag that a `table[name] || fallback` lookup over the seven kinds sends to its fallback. */
  predicate FallsBack(tag: DiceTag)
  {
    tag.Unrecognised? && !IsKindName(tag.name) && !InheritedPropertyName(tag.name)
  }

  /** The value shown by one die after a roll. */
  datatype DieRollResult = DieRollResult(dieType: DiceType, value: int)

  /** How many dice of each kind are on the table. */
  datatype DiceConfiguration = DiceConfiguration(d4: int, d6: int, d8: int, d10: int, d12: int, d20: int, d100: int)
  {
    /** The count of kind `t` (`state[type]`). */
    function Get(t: DiceType): int
    {
      match t
      case D4 => d4
      case D6 => d6
      case D8 => d8
      case D10 => d10
      case D12 => d12
      case D20 => d20
      case D100 => d100
    }

    /** The configuration with the count of kind `t` replaced by `n` (`this[type] = n`). */
    function With(t: DiceType, n: int): (r: DiceConfiguration)
      ensures r.Get(t) == n
      ensures forall u :: u != t ==> r.Get(u) == Get(u)
    {
      match t
      case D4 => this.(d4 := n)
      case D6 => this.(d6 := n)
      case D8 => this.(d8 := n)
      case D10 => this.(d10 := n)
      case D12 => this.(d12 := n)
      case D20 => this.(d20 := n)
      case D100 => this.(d100 := n)
    }
  }
}
