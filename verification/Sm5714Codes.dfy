/**
 * The value-only parts of the SM5714 battery driver: the three register
 * quantizers, the temperature conversions and the thermal hysteresis.
 */
module Sm5714Codes {

  // Register code for a charge input limit, steps of 25 mA from 100 mA.
  // `ma - 100` is unsigned in the driver: below 100 mA it wraps and saturates.
  function InputCurrentReg(ma: nat): (code: nat)
    ensures code < 0x80
  {
    var steps := (if ma >= 100 then ma - 100 else ma + 0x1_0000_0000 - 100) / 25;
    if steps > 0x7f then 0x7f else steps
  }

  function InputCurrentMa(code: nat): int {
    100 + 25 * code
  }

  // Register code for the charge current, steps of 15.625 mA from 109.375 mA.
  function FastCurrentReg(ma: nat): (code: nat)
    ensures 7 <= code <= 0xe0
  {
    var ua := ma * 1000 % 0x1_0000_0000;
    if ua <= 109375 then 0x07
    else
      var steps := 7 + (ua - 109375) / 15625;
      if steps > 0xe0 then 0xe0 else steps
  }

  function FastCurrentUa(code: nat): int {
    109375 + 15625 * (code - 7)
  }

  // Battery-regulation code, CHGCNTL4[5:0].
  function BatRegOffset(uv: nat): (code: nat)
    ensures code < 0x40
  {
    var mv := uv / 1000;
    if mv <= 3700 then 0x00
    else if mv < 3900 then (mv - 3700) / 50
    else if mv < 4050 then (mv - 3900) / 100 + 4
    else if mv < 4630 then (mv - 4050) / 10 + 6
    else 0x15
  }

  // What a battery-regulation code means to the chip.
  function BatRegMv(code: nat): int {
    if code < 4 then 3700 + 50 * code
    else if code < 6 then 3900 + 100 * (code - 4)
    else 4050 + 10 * (code - 6)
  }

  // The code is the largest step not above the request.
  lemma BatRegIsLargestStep(uv: nat, other: nat)
    requires 3700 <= uv / 1000 < 4630
    ensures BatRegMv(BatRegOffset(uv)) <= uv / 1000
    ensures BatRegMv(other) <= uv / 1000 ==> other <= BatRegOffset(uv)
  {
  }

  // The two current codes are the largest steps not above the request.
  lemma InputCurrentNeverAbove(ma: nat)
    requires 100 <= ma <= 3275
    ensures InputCurrentMa(InputCurrentReg(ma)) <= ma < InputCurrentMa(InputCurrentReg(ma)) + 25
  {
  }

  lemma FastCurrentNeverAbove(ma: nat)
    requires 110 <= ma <= 3500
    ensures FastCurrentUa(FastCurrentReg(ma)) <= ma * 1000 < FastCurrentUa(FastCurrentReg(ma)) + 15625
  {
  }

  // Outside those ranges: a limit below 100 mA wraps to the top code, as does one above
  // 3275; the charge current saturates; a float voltage out of range gives 4.2 V.
  lemma CodesSaturate(v: nat)
    requires v < 100_000
    ensures v < 100 || v >= 3275 ==> InputCurrentMa(InputCurrentReg(v)) == 3275
    ensures v <= 109 ==> FastCurrentReg(v) == 7
    ensures v >= 3500 ==> FastCurrentReg(v) == 0xe0
    ensures v <= 3700 ==> BatRegMv(BatRegOffset(1000 * v)) == 3700
    ensures v >= 4630 ==> BatRegMv(BatRegOffset(1000 * v)) == 4200
  {
  }

  /** Thermal hysteresis, temperatures in 0.1 degC. */
  datatype Thermal = Normal | Reduced | Stop

  function NextThermal(state: Thermal, temp: int): Thermal {
    if state == Stop && temp >= 460 then Stop
    else if state == Stop && temp > 420 then Reduced
    else if state == Reduced && temp > 420 then
      if temp >= 500 then Stop else Reduced
    else if temp >= 500 then Stop
    else if temp >= 460 then Reduced
    else Normal
  }

  // The state after a history of readings, oldest first, from Normal.
  function ThermalAfter(temps: seq<int>): Thermal {
    if temps == [] then Normal
    else NextThermal(ThermalAfter(temps[..|temps| - 1]), temps[|temps| - 1])
  }

  // Some reading reached `trip` and every later one stayed at or above `hold`.
  ghost predicate Latched(temps: seq<int>, trip: int, hold: int) {
    exists i :: 0 <= i < |temps| && temps[i] >= trip && forall j :: i < j < |temps| ==> temps[j] >= hold
  }

  lemma LatchedStep(temps: seq<int>, trip: int, hold: int)
    requires temps != [] && hold <= trip
    ensures Latched(temps, trip, hold) <==>
            temps[|temps| - 1] >= trip || (temps[|temps| - 1] >= hold && Latched(temps[..|temps| - 1], trip, hold))
  {
    var n := |temps| - 1;
    var init := temps[..n];
    if Latched(temps, trip, hold) && temps[n] < trip {
      var i :| 0 <= i < |temps| && temps[i] >= trip && forall j :: i < j < |temps| ==> temps[j] >= hold;
      assert init[i] >= trip && forall j :: i < j < |init| ==> init[j] == temps[j];
    }
    if temps[n] >= hold && Latched(init, trip, hold) {
      var i :| 0 <= i < |init| && init[i] >= trip && forall j :: i < j < |init| ==> init[j] >= hold;
      forall j | i < j < |temps| ensures temps[j] >= hold {
        assert j < n ==> temps[j] == init[j];
      }
      assert temps[i] >= trip;
    }
  }

  // Closed form of the hysteresis over every reading history.
  lemma {:induction false} HysteresisClosedForm(temps: seq<int>)
    ensures ThermalAfter(temps) == Stop <==> Latched(temps, 500, 460)
    ensures ThermalAfter(temps) != Normal <==> Latched(temps, 460, 421)
  {
    if temps != [] {
      HysteresisClosedForm(temps[..|temps| - 1]);
      LatchedStep(temps, 500, 460);
      LatchedStep(temps, 460, 421);
    }
  }

  function Severity(state: Thermal): nat {
    match state case Normal => 0 case Reduced => 1 case Stop => 2
  }

  // A pointwise hotter history never ends in a less restrictive state.
  lemma {:induction false} HotterIsStricter(cool: seq<int>, hot: seq<int>)
    requires |cool| == |hot|
    requires forall i :: 0 <= i < |cool| ==> cool[i] <= hot[i]
    ensures Severity(ThermalAfter(cool)) <= Severity(ThermalAfter(hot))
  {
    if cool != [] {
      HotterIsStricter(cool[..|cool| - 1], hot[..|hot| - 1]);
    }
  }
}
