/**
 * The 0..100 bite score of the later bot revision (`bite_score`), the advice
 * chosen from it, and the integer pressure it is given.
 */
module Forecast {

  const AdviceExcellent: string := "Клёв отличный!"
  const AdviceWeak: string := "Клёв слабый – берите прикормку."
  const AdviceMedium: string := "Клёв средний."

  /** Python's `round(x)` on a float: to the nearest integer, ties to the even one. */
  function RoundHalfEven(x: real): (r: int)
    ensures -0.5 <= x - r as real <= 0.5
    ensures x - r as real == 0.5 || x - r as real == -0.5 ==> r % 2 == 0
  {
    var f := x.Floor;
    var frac := x - f as real;
    if frac < 0.5 then f
    else if frac > 0.5 then f + 1
    else if f % 2 == 0 then f else f + 1
  }

  /** The mmHg pressure handed to `bite_score`: hPa times 0.750064, rounded. */
  function PressureMm(hPa: real): (mm: int)
    ensures -0.5 <= hPa * 0.750064 - mm as real <= 0.5
  {
    RoundHalfEven(hPa * 0.750064)
  }

  predicate TempBonus(temp: real) { 5.0 <= temp <= 15.0 }
  predicate PressureBonus(pressure: int) { 750 <= pressure <= 770 }
  predicate MoonBonus(moon: real) { 20.0 <= moon <= 80.0 }

  function Clamp(s: int): int
  {
    if s < 0 then 0 else if s > 100 then 100 else s
  }

  /** The unclamped sum: 50, plus 15, 15 and 10 for the three conditions. */
  function RawScore(temp: real, pressure: int, moon: real): int
  {
    50 + (if TempBonus(temp) then 15 else 0)
       + (if PressureBonus(pressure) then 15 else 0)
       + (if MoonBonus(moon) then 10 else 0)
  }

  /** `bite_score`. */
  function BiteScore(temp: real, pressure: int, moon: real): (s: int)
    ensures 50 <= s <= 90
    ensures s == RawScore(temp, pressure, moon)
    ensures s == 50 <==> !TempBonus(temp) && !PressureBonus(pressure) && !MoonBonus(moon)
    ensures s == 90 <==> TempBonus(temp) && PressureBonus(pressure) && MoonBonus(moon)
  {
    Clamp(RawScore(temp, pressure, moon))
  }

  /** The advice chosen from a score: above 75, below 40, otherwise. */
  function Advice(score: int): (a: string)
    ensures a == AdviceExcellent <==> score > 75
    ensures a == AdviceWeak <==> score < 40
    ensures 40 <= score <= 75 ==> a == AdviceMedium
  {
    if score > 75 then AdviceExcellent else if score < 40 then AdviceWeak else AdviceMedium
  }

  /** The advice for a reading, as `get_forecast` computes it once the moon phase is known. */
  function ForecastAdvice(temp: real, hPa: real, moon: real): (a: string)
    ensures a != AdviceWeak
    ensures a == AdviceExcellent || a == AdviceMedium
    ensures a == AdviceExcellent <==> TempBonus(temp) && PressureBonus(PressureMm(hPa))
  {
    Advice(BiteScore(temp, PressureMm(hPa), moon))
  }

  /** Meeting one more condition never lowers the score. */
  lemma BiteScoreMonotone(t1: real, p1: int, m1: real, t2: real, p2: int, m2: real)
    requires TempBonus(t1) ==> TempBonus(t2)
    requires PressureBonus(p1) ==> PressureBonus(p2)
    requires MoonBonus(m1) ==> MoonBonus(m2)
    ensures BiteScore(t1, p1, m1) <= BiteScore(t2, p2, m2)
  {
  }

  /** A score of exactly 75 (temperature and moon, or pressure and moon) is "medium". */
  lemma SeventyFiveIsMedium()
    ensures BiteScore(10.0, 700, 50.0) == 75 && Advice(75) == AdviceMedium
  {
  }

  /** 1013.25 hPa is 760 mmHg after rounding, inside the pressure window. */
  lemma StandardPressure()
    ensures PressureMm(1013.25) == 760 && PressureBonus(PressureMm(1013.25))
  {
  }

  /** Ties round to the even neighbour, as Python 3's `round` does. */
  lemma RoundTiesToEven()
    ensures RoundHalfEven(750.5) == 750 && RoundHalfEven(751.5) == 752
  {
  }
}
