/** The artist funding card: progress towards the funding goal, rounded for
    display, and the support amount, chosen from presets or typed in, that the
    support button hands to the page. */
module FundingCard {
  import opened Wrappers
  import opened Strings

  /** The preset buttons. */
  const Presets: seq<int> := [10, 25, 50, 100]

  /** `Math.round(x)`: the nearest integer, halves rounded up. */
  function Round(x: real): (r: int)
    ensures r as real - 0.5 <= x < r as real + 0.5
  {
    (x + 0.5).Floor
  }

  /** `Math.round` is the only integer within half a unit below and strictly
      less than half a unit above. */
  lemma RoundUnique(x: real, k: int)
    requires k as real - 0.5 <= x < k as real + 0.5
    ensures Round(x) == k
  {
  }

  /** `(raised / goal) * 100`; a zero goal gives no finite number (`Infinity`
      or `NaN`), here `None`. */
  function FundingPercentage(raised: real, goal: real): (p: Option<real>)
    ensures p.None? <==> goal == 0.0
    ensures p.Some? ==> p.value * goal == raised * 100.0
  {
    if goal == 0.0 then None else Some((raised / goal) * 100.0)
  }

  /** The "% funded" figure: between 0 and 100 while the amount raised is between
      nothing and the goal; 3200 of 5000 shows 64. */
  lemma PercentShown(raised: real, goal: real)
    requires goal > 0.0 && 0.0 <= raised <= goal
    ensures FundingPercentage(raised, goal).Some?
    ensures 0 <= Round(FundingPercentage(raised, goal).value) <= 100
    ensures Round(FundingPercentage(3200.0, 5000.0).value) == 64
  {
    var p := FundingPercentage(raised, goal).value;
    assert 0.0 <= p by {
      assert p * goal == raised * 100.0;
    }
    assert p <= 100.0 by {
      assert p * goal == raised * 100.0 <= goal * 100.0;
    }
    RoundUnique(FundingPercentage(3200.0, 5000.0).value, 64);
  }

  /** `parseInt(value) || 0`: the parsed integer, or 0 when it is `NaN`. */
  function CustomAmount(value: string): (amount: int)
    ensures ParseInt(value).None? ==> amount == 0
    ensures ParseInt(value).Some? ==> amount == ParseInt(value).value
  {
    match ParseInt(value)
    case None => 0
    case Some(n) => n
  }

  /** Typing an amount's own numeral gives that amount; typing something that is
      not a number gives 0. */
  lemma CustomAmountOfNumeral(n: int)
    ensures CustomAmount(IntToString(n)) == n
    ensures CustomAmount("") == 0 && CustomAmount("abc") == 0
  {
    ParseIntOfIntToString(n);
  }

  class Card {
    var supportAmount: int

    constructor ()
      ensures supportAmount == 25
    {
      supportAmount := 25;
    }

    /** A preset button's `onClick`. */
    method ChoosePreset(amount: int)
      requires amount in Presets
      modifies this
      ensures supportAmount == amount
    {
      supportAmount := amount;
    }

    /** The custom amount field's `onChange`. */
    method TypeAmount(value: string)
      modifies this
      ensures supportAmount == CustomAmount(value)
    {
      supportAmount := CustomAmount(value);
    }

    /** Which preset buttons are highlighted (`supportAmount === amount`). */
    function Highlighted(): (h: seq<bool>)
      reads this
      ensures |h| == |Presets|
      ensures forall i :: 0 <= i < |h| ==> (h[i] <==> Presets[i] == supportAmount)
    {
      var amount := supportAmount;
      seq(|Presets|, i requires 0 <= i < |Presets| => Presets[i] == amount)
    }

    /** The support button: hands exactly the current amount to `onSupport`. */
    method Support() returns (amount: int)
      ensures amount == supportAmount
    {
      amount := supportAmount;
    }
  }

  /** After choosing a preset exactly that button is highlighted, and the support
      button passes it on. */
  method PresetThenSupport(i: int) returns (highlighted: seq<bool>, passed: int)
    requires 0 <= i < |Presets|
    ensures passed == Presets[i]
    ensures |highlighted| == |Presets| && forall j :: 0 <= j < |Presets| ==> (highlighted[j] <==> j == i)
  {
    var card := new Card();
    card.ChoosePreset(Presets[i]);
    highlighted := card.Highlighted();
    passed := card.Support();
  }
}
