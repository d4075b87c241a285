/**
 * Clients of the models: client proofs whose outcomes follow from the
 * contracts alone.
 */
module Scenarios {
  import opened Wrappers
  import opened PyStr
  import opened MexcApi
  import opened Universe
  import opened Spike
  import opened VolumeScanner
  import opened SimpleDatabase

  /** A kline reply whose two windows have the given amounts and closes. */
  function Klines(prevAmount: real, currAmount: real, prevClose: real, currClose: real): KlineFetch {
    KlineReply(200, KlineJson(true, Some(KlineData(
      Some([Number(prevClose), Number(currClose)]),
      Some([Number(prevAmount), Number(currAmount)])))))
  }

  /** The kline oracle of a minute in which every symbol spikes from 500 to 2500 USDT, price up 10%. */
  function SpikingExchange(symbol: string): KlineFetch {
    Klines(500.0, 2500.0, 1.0, 1.1)
  }

  /** The kline oracle of a minute in which every symbol goes from 2500 to 100 USDT. */
  function QuietExchange(symbol: string): KlineFetch {
    Klines(2500.0, 100.0, 1.0, 1.0)
  }

  /** A chat bot that accepts every message. */
  function AlwaysSent(alertId: string): bool {
    true
  }

  const FirstMinute: string := "202401011200"
  const NextMinute: string := "202401011201"

  /** A listing of the single active contract `A_USDT` with 5000 USDT of daily volume. */
  function OneContractListing(): ContractFetch {
    ContractsReply(200, ContractsJson(true, Some([Contract(Some("A_USDT"), Some(1), Some(Number(5000.0)))])))
  }

  lemma OneContractListingTracksA()
    ensures Load(OneContractListing(), Universe({}, {})) == LoadOutcome(true, Universe({"AUSDT"}, {"AUSDT"}))
  {
    var c := Contract(Some("A_USDT"), Some(1), Some(Number(5000.0)));
    assert "A_USDT"[1..] == "_USDT";
    LoadSingleTracked(c, Universe({}, {}));
    ShorterHasNoOccurrence("A", "USDT");
    SymbolRoundTrip("A");
    assert "A" + "_USDT" == "A_USDT" && "A" + "USDT" == "AUSDT";
  }

  lemma SpikeIsDelivered()
    ensures Delivered({"AUSDT"}, SpikingExchange, FirstMinute, AlwaysSent, {}) == {"AUSDT"}
    ensures AlertFor("AUSDT", SampleFor(SpikingExchange, "AUSDT").value).direction == Up
  {
    assert SampleFor(SpikingExchange, "AUSDT") == Some(Sample(500, 2500, 1.0, 1.1));
  }

  lemma QuietIsNotDelivered(sent: set<string>)
    ensures Delivered({"AUSDT"}, QuietExchange, NextMinute, AlwaysSent, sent) == {}
  {
    assert SampleFor(QuietExchange, "AUSDT") == Some(Sample(2500, 100, 1.0, 1.0));
  }

  /** Loading the single-contract listing from the empty start state tracks `AUSDT`. */
  method LoadScenario() returns (scanner: Scanner)
    ensures scanner.lowVolumeSymbols == {"AUSDT"} && scanner.sentAlerts == {}
  {
    scanner := new Scanner();
    OneContractListingTracksA();
    var ok := scanner.LoadSymbols(OneContractListing());
    assert ok;
  }

  /**
   * One tracked symbol: a spike is alerted once, a second tick in the same
   * minute alerts nothing, and a loud-then-quiet pattern next minute does not fire.
   */
  method TickScenario(scanner: Scanner)
    requires scanner.lowVolumeSymbols == {"AUSDT"} && scanner.sentAlerts == {}
    modifies scanner
  {
    SpikeIsDelivered();
    var first := scanner.Tick(SpikingExchange, FirstMinute, AlwaysSent);
    assert first[0] in first;
    assert |first| == 1 && first[0].symbol == "AUSDT" && first[0].direction == Up;

    AtMostOncePerMinute({"AUSDT"}, SpikingExchange, AlwaysSent, {"AUSDT"}, SpikingExchange, AlwaysSent,
                        FirstMinute, {}, scanner.sentAlerts);
    var second := scanner.Tick(SpikingExchange, FirstMinute, AlwaysSent);
    assert second == [];

    QuietIsNotDelivered(scanner.sentAlerts);
    var third := scanner.Tick(QuietExchange, NextMinute, AlwaysSent);
    assert third == [];
  }

  /** Blacklist and pause lists are independent sets; the history keeps the newest record last. */
  method StoreScenario() {
    var db := new Database();
    db.AddToBlacklist("AUSDT");
    db.AddToBlacklist("AUSDT");
    db.RemoveFromBlacklist("BUSDT");
    db.AddPausedAlert("BUSDT");
    var blacklist := db.GetBlacklist();
    var paused := db.GetPausedAlerts();
    assert blacklist == {"AUSDT"} && paused == {"BUSDT"};
    db.RemovePausedAlert("BUSDT");
    db.SaveAlert("AUSDT", 500, 2500, 1.0, 1.1, 400.0, 10.0);
    var recent := db.GetRecentAlerts(24);
    assert recent == [AlertRecord("AUSDT", 500, 2500, 400.0, 10.0)];
    assert db.pausedAlerts == {} && db.blacklist == {"AUSDT"};
  }
}
