/** The gearbox of frc_rekt/gearbox.py: a train of gear pairs, the motors
    driving it and its efficiency. */
module Gearbox {
  import opened Outcomes
  import Motor

  /** A gear pair (driving teeth, driven teeth). */
  type GearPair = (int, int)

  const DefaultGears: seq<GearPair> := [(14, 50), (16, 48)]

  /** Reduction of one pair, driven over driving. */
  function Ratio(pair: GearPair): real
    requires pair.0 != 0
  {
    pair.1 as real / pair.0 as real
  }

  predicate NoIdleGear(gears: seq<GearPair>)
  {
    forall i :: 0 <= i < |gears| ==> gears[i].0 != 0
  }

  /** The product of all pair ratios. */
  function Advantage(gears: seq<GearPair>): real
    requires NoIdleGear(gears)
  {
    if |gears| == 0 then 1.0 else Ratio(gears[0]) * Advantage(gears[1..])
  }

  /** Appending a pair multiplies the advantage by its ratio. */
  lemma {:induction false} AdvantageAppend(gears: seq<GearPair>, pair: GearPair)
    requires NoIdleGear(gears) && pair.0 != 0
    ensures NoIdleGear(gears + [pair])
    ensures Advantage(gears + [pair]) == Advantage(gears) * Ratio(pair)
  {
    if |gears| > 0 {
      assert (gears + [pair])[1..] == gears[1..] + [pair];
      AdvantageAppend(gears[1..], pair);
    } else {
      assert (gears + [pair])[1..] == [];
    }
  }

  /** Positive tooth counts give a positive advantage. */
  lemma {:induction false} AdvantagePositive(gears: seq<GearPair>)
    requires forall i :: 0 <= i < |gears| ==> gears[i].0 > 0 && gears[i].1 > 0
    ensures NoIdleGear(gears) && Advantage(gears) > 0.0
  {
    if |gears| > 0 {
      AdvantagePositive(gears[1..]);
      assert Ratio(gears[0]) > 0.0;
    }
  }

  /** The advantage of two trains in series is the product of theirs. */
  lemma {:induction false} AdvantageConcat(a: seq<GearPair>, b: seq<GearPair>)
    requires NoIdleGear(a) && NoIdleGear(b)
    ensures NoIdleGear(a + b) && Advantage(a + b) == Advantage(a) * Advantage(b)
  {
    if |a| > 0 {
      assert (a + b)[1..] == a[1..] + b;
      AdvantageConcat(a[1..], b);
      MultiplyAssociates(Ratio(a[0]), Advantage(a[1..]), Advantage(b));
    } else {
      assert a + b == b;
    }
  }

  lemma {:induction false} MultiplyAssociates(x: real, y: real, z: real)
    ensures x * (y * z) == (x * y) * z
  {
  }

  /** Regrouping the product around a removed middle factor. */
  lemma {:induction false} Regroup(whole: real, a: real, b: real, r: real, rest: real)
    requires whole == a * (r * b) && rest == a * b
    ensures whole == r * rest
  {
  }

  /** The advantage around pair i: before it, its ratio, after it. */
  lemma {:induction false} AdvantageSplit(gears: seq<GearPair>, i: nat)
    requires NoIdleGear(gears) && i < |gears|
    ensures NoIdleGear(gears[..i]) && NoIdleGear(gears[i + 1..])
    ensures Advantage(gears) == Advantage(gears[..i]) * (Ratio(gears[i]) * Advantage(gears[i + 1..]))
  {
    var mid := gears[i..];
    assert gears == gears[..i] + mid;
    assert mid[1..] == gears[i + 1..];
    AdvantageConcat(gears[..i], mid);
  }

  /** Taking pair i out of the train divides the advantage by its ratio. */
  lemma {:induction false} AdvantageRemove(gears: seq<GearPair>, i: nat)
    requires NoIdleGear(gears) && i < |gears|
    ensures NoIdleGear(gears[..i] + gears[i + 1..])
    ensures Advantage(gears) == Ratio(gears[i]) * Advantage(gears[..i] + gears[i + 1..])
  {
    AdvantageSplit(gears, i);
    AdvantageConcat(gears[..i], gears[i + 1..]);
    Regroup(Advantage(gears), Advantage(gears[..i]), Advantage(gears[i + 1..]), Ratio(gears[i]),
      Advantage(gears[..i] + gears[i + 1..]));
  }

  lemma {:induction false} AdvantageCons(gears: seq<GearPair>)
    requires NoIdleGear(gears) && |gears| > 0
    ensures Advantage(gears) == Ratio(gears[0]) * Advantage(gears[1..])
  {
  }

  lemma {:induction false} MultisetWithout(s: seq<GearPair>, i: nat)
    requires i < |s|
    ensures multiset(s[..i] + s[i + 1..]) == multiset(s) - multiset{s[i]}
  {
    assert s == s[..i] + [s[i]] + s[i + 1..];
  }

  lemma {:induction false} NoIdleGearPermutation(gears: seq<GearPair>, other: seq<GearPair>)
    requires NoIdleGear(gears) && multiset(gears) == multiset(other)
    ensures NoIdleGear(other)
  {
    forall j | 0 <= j < |other| ensures other[j].0 != 0 {
      assert other[j] in multiset(gears);
    }
  }

  /** Dropping the first pair of one train and the matching pair of the
      other leaves two trains with the same pairs. */
  lemma {:induction false} TailsPermutation(gears: seq<GearPair>, other: seq<GearPair>, i: nat)
    requires multiset(gears) == multiset(other) && 0 < |gears| && i < |other| && other[i] == gears[0]
    ensures multiset(gears[1..]) == multiset(other[..i] + other[i + 1..])
  {
    MultisetWithout(other, i);
    assert gears == [gears[0]] + gears[1..];
  }

  /** Two trains agree when the first pair of one, matched with pair i of
      the other, leaves equal advantages behind. */
  lemma {:induction false} MatchingHead(gears: seq<GearPair>, other: seq<GearPair>, i: nat)
    requires NoIdleGear(gears) && NoIdleGear(other) && 0 < |gears| && i < |other|
    requires gears[0] == other[i]
    requires NoIdleGear(other[..i] + other[i + 1..])
    requires Advantage(gears[1..]) == Advantage(other[..i] + other[i + 1..])
    ensures Advantage(gears) == Advantage(other)
  {
    AdvantageCons(gears);
    AdvantageRemove(other, i);
  }

  /** The order of the pairs does not matter. */
  lemma {:induction false} AdvantagePermutation(gears: seq<GearPair>, other: seq<GearPair>)
    requires NoIdleGear(gears) && multiset(gears) == multiset(other)
    ensures NoIdleGear(other) && Advantage(gears) == Advantage(other)
  {
    NoIdleGearPermutation(gears, other);
    if |gears| > 0 {
      assert gears[0] in multiset(other);
      var i :| 0 <= i < |other| && other[i] == gears[0];
      TailsPermutation(gears, other, i);
      AdvantagePermutation(gears[1..], other[..i] + other[i + 1..]);
      MatchingHead(gears, other, i);
    } else {
      assert |other| == |multiset(other)| == 0;
    }
  }

  /** The default train reduces 75:7 (about 10.714). */
  lemma {:induction false} DefaultAdvantage()
    ensures NoIdleGear(DefaultGears) && Advantage(DefaultGears) == 75.0 / 7.0
  {
    assert Advantage(DefaultGears[1..]) == 3.0;
  }

  class Gearbox {
    const gears: seq<GearPair>
    const motors: seq<Motor.MotorSpec>
    const efficiency: real

    /** Missing (None) or empty gear and motor lists are replaced by the
        two-stage default train and three default motors. */
    constructor(motors: Option<seq<Motor.MotorSpec>> := None, gears: Option<seq<GearPair>> := None,
                efficiency: real := 0.8)
      ensures this.gears == if gears.None? || |gears.value| == 0 then DefaultGears else gears.value
      ensures this.motors ==
        if motors.None? || |motors.value| == 0
        then [Motor.DefaultMotor, Motor.DefaultMotor, Motor.DefaultMotor]
        else motors.value
      ensures this.efficiency == efficiency
    {
      this.gears := if gears.None? || |gears.value| == 0 then DefaultGears else gears.value;
      this.motors :=
        if motors.None? || |motors.value| == 0
        then [Motor.DefaultMotor, Motor.DefaultMotor, Motor.DefaultMotor]
        else motors.value;
      this.efficiency := efficiency;
    }

    /** `mechanical_advantage`: running product of the pair ratios.  A pair
        with zero driving teeth raises ZeroDivisionError. */
    method MechanicalAdvantage() returns (r: Result<real>)
      ensures r.Success? <==> NoIdleGear(gears)
      ensures r.Failure? ==> r.error == ZeroDivisionError
      ensures r.Success? ==> r.value == Advantage(gears)
    {
      var mechanicalAdvantage := 1.0;
      var i := 0;
      while i < |gears|
        invariant i <= |gears| && NoIdleGear(gears[..i])
        invariant mechanicalAdvantage == Advantage(gears[..i])
      {
        var pair := gears[i];
        if pair.0 == 0 {
          return Failure(ZeroDivisionError);
        }
        AdvantageAppend(gears[..i], pair);
        assert gears[..i + 1] == gears[..i] + [pair];
        mechanicalAdvantage := mechanicalAdvantage * Ratio(pair);
        i := i + 1;
      }
      assert gears[..i] == gears;
      return Success(mechanicalAdvantage);
    }
  }

  /** `Gearbox()` reports 75/7. */
  method DefaultGearboxAdvantage() returns (r: Result<real>)
    ensures r == Success(75.0 / 7.0)
  {
    var g := new Gearbox();
    DefaultAdvantage();
    r := g.MechanicalAdvantage();
  }
}
