/**
 * The per-symbol decision of `volume_spike_scanner`: the volume threshold
 * test, the zero-guarded price change, the alert identity used for
 * de-duplication and the data an alert carries.
 */
module Spike {
  import opened PyStr
  import opened MexcApi

  /** The previous minute must be strictly below this volume (USDT). */
  const QuietVolumeCeiling: int := 1000
  /** The current minute must be strictly above this volume (USDT). */
  const SpikeVolumeFloor: int := 2000

  predicate IsSpike(prevVol: int, currVol: int) {
    prevVol < QuietVolumeCeiling && currVol > SpikeVolumeFloor
  }

  /** Percentage change of the close, 0 when the previous close is not positive. */
  function ChangePct(prevPrice: real, currPrice: real): real {
    if prevPrice > 0.0 then (currPrice - prevPrice) / prevPrice * 100.0 else 0.0
  }

  datatype Direction = Up | Down

  function DirectionOf(changePct: real): Direction {
    if changePct >= 0.0 then Up else Down
  }

  /** `f"{symbol}_{minute_key}"`. */
  function AlertId(symbol: string, minuteKey: string): string {
    symbol + "_" + minuteKey
  }

  /** The contract named in the alert's trading link: `symbol[:-4] + "_USDT"`. */
  function TradeLinkSymbol(symbol: string): string {
    DropLast(symbol, 4) + "_USDT"
  }

  /** What an alert message is built from (its wording and number formatting are not modelled). */
  datatype Alert = Alert(
    symbol: string, prevVol: int, currVol: int, prevPrice: real, currPrice: real,
    changePct: real, direction: Direction, linkSymbol: string)

  function AlertFor(symbol: string, s: Sample): Alert {
    var pct := ChangePct(s.prevPrice, s.currPrice);
    Alert(symbol, s.prevVol, s.currVol, s.prevPrice, s.currPrice, pct, DirectionOf(pct),
          TradeLinkSymbol(symbol))
  }

  // ---------------------------------------------------------------- properties

  /** Both thresholds are strict: 1000 before, or 2000 now, does not fire. */
  lemma SpikeBoundaries(prevVol: int, currVol: int)
    ensures !IsSpike(QuietVolumeCeiling, currVol) && !IsSpike(prevVol, SpikeVolumeFloor)
    ensures IsSpike(QuietVolumeCeiling - 1, SpikeVolumeFloor + 1)
  {
  }

  /**
   * On the raw amounts the exchange reports, truncation toward zero makes the
   * test fire iff the previous amount is below 1000 and the current one is
   * at least 2001: 2000.9 does not fire.
   */
  lemma {:induction false} SpikeOnAmounts(prevAmount: real, currAmount: real)
    ensures IsSpike(Trunc(prevAmount), Trunc(currAmount)) <==>
      prevAmount < QuietVolumeCeiling as real && currAmount >= (SpikeVolumeFloor + 1) as real
  {
    TruncBelow(prevAmount, QuietVolumeCeiling);
    TruncAbove(currAmount, SpikeVolumeFloor);
  }

  lemma TruncBelow(x: real, n: nat)
    requires n > 0
    ensures Trunc(x) < n <==> x < n as real
  {
    var r := Trunc(x);
    if r < n {
      assert (r + 1) as real <= n as real;
    } else {
      assert n as real <= r as real;
    }
  }

  lemma TruncAbove(x: real, n: nat)
    ensures Trunc(x) > n <==> x >= (n + 1) as real
  {
  }

  /** A non-positive previous close never divides: the change is 0 and the alert says UP. */
  lemma ZeroGuard(prevPrice: real, currPrice: real)
    requires prevPrice <= 0.0
    ensures ChangePct(prevPrice, currPrice) == 0.0
    ensures DirectionOf(ChangePct(prevPrice, currPrice)) == Up
  {
  }

  /** The label is UP iff the close did not fall (or the guard applied). */
  lemma {:induction false} DirectionMatchesPrices(prevPrice: real, currPrice: real)
    ensures DirectionOf(ChangePct(prevPrice, currPrice)) == Up <==>
      prevPrice <= 0.0 || currPrice >= prevPrice
  {
    if prevPrice > 0.0 {
      var q := (currPrice - prevPrice) / prevPrice;
      assert q * prevPrice == currPrice - prevPrice;
    }
  }

  /** For minute keys of one length (one `strftime` format), an alert id determines its symbol and minute. */
  lemma {:induction false} AlertIdInjective(s1: string, k1: string, s2: string, k2: string)
    requires |k1| == |k2| && AlertId(s1, k1) == AlertId(s2, k2)
    ensures s1 == s2 && k1 == k2
  {
    var id := AlertId(s1, k1);
    assert |s1| == |s2|;
    assert id[..|s1|] == s1 && id[..|s2|] == s2;
    assert id[|s1| + 1..] == k1 && id[|s2| + 1..] == k2;
  }
}
