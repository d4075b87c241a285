/**
 * The scanner's state and its two state-changing steps: the loader that
 * reassigns ALL_SYMBOLS and LOW_VOLUME_SYMBOLS, and one pass of the
 * `volume_spike_scanner` loop over the tracked set, which records in
 * `sent_alerts` the ids of the alerts whose delivery succeeded.
 *
 * The kline endpoint and the chat bot are oracles: `exchange` gives the reply
 * to a kline request for an exchange symbol, `sendOk` says whether sending
 * the alert with a given id succeeds. The clock is the `minuteKey` argument.
 */
module VolumeScanner {
  import opened Wrappers
  import opened PyStr
  import opened MexcApi
  import opened Universe
  import opened Spike

  /** What `get_1m_data(symbol)` returns this tick. */
  function SampleFor(exchange: string -> KlineFetch, symbol: string): Option<Sample> {
    OneMinuteSample(exchange(ApiSymbol(symbol)))
  }

  /** The symbol has data this tick and its volumes pass the spike test. */
  predicate Fires(exchange: string -> KlineFetch, symbol: string) {
    SampleFor(exchange, symbol).Some? &&
    IsSpike(SampleFor(exchange, symbol).value.prevVol, SampleFor(exchange, symbol).value.currVol)
  }

  /**
   * The symbols a tick over `tracked` alerts about: those that fire, were not
   * yet alerted about in this minute and whose send succeeds.
   */
  function Delivered(tracked: set<string>, exchange: string -> KlineFetch, minuteKey: string,
                     sendOk: string -> bool, sent: set<string>): (r: set<string>)
    ensures r <= tracked
  {
    set s | s in tracked && Fires(exchange, s) && AlertId(s, minuteKey) !in sent && sendOk(AlertId(s, minuteKey))
  }

  /** The alert ids of `symbols` in minute `minuteKey`. */
  function Recorded(symbols: set<string>, minuteKey: string): set<string> {
    set s | s in symbols :: AlertId(s, minuteKey)
  }

  /** The alert is the one built from its symbol's sample this tick. */
  predicate Reports(exchange: string -> KlineFetch, a: Alert) {
    SampleFor(exchange, a.symbol).Some? && a == AlertFor(a.symbol, SampleFor(exchange, a.symbol).value)
  }

  function SymbolsOf(alerts: seq<Alert>): set<string> {
    set a | a in alerts :: a.symbol
  }

  class Scanner {
    /** ALL_SYMBOLS */
    var allSymbols: set<string>
    /** LOW_VOLUME_SYMBOLS: the tracked set */
    var lowVolumeSymbols: set<string>
    /** sent_alerts: ids `symbol_minuteKey` of alerts delivered so far */
    var sentAlerts: set<string>

    /** The module-level state at import time: three empty sets. */
    constructor ()
      ensures allSymbols == {} && lowVolumeSymbols == {} && sentAlerts == {}
    {
      allSymbols, lowVolumeSymbols, sentAlerts := {}, {}, {};
    }

    /** `load_symbols_and_filter_low_volume` on the reply `f`. */
    method LoadSymbols(f: ContractFetch) returns (ok: bool)
      modifies this`allSymbols, this`lowVolumeSymbols
      ensures LoadOutcome(ok, Universe(allSymbols, lowVolumeSymbols))
           == Load(f, Universe(old(allSymbols), old(lowVolumeSymbols)))
      ensures sentAlerts == old(sentAlerts)
    {
      if f.ContractsUnreachable? || f.status != OkStatus || f.body.ContractsUndecodable? {
        return false;
      }
      if !f.body.success || f.body.data.None? {
        return false;
      }
      var cs := f.body.data.value;
      var all := AllSymbolsOf(cs);
      if all.None? {
        return false;
      }
      allSymbols := all.value;
      var low := LowVolumeSymbolsOf(cs);
      if low.None? {
        return false;
      }
      lowVolumeSymbols := low.value;
      return true;
    }

    /**
     * The body of the scanner loop for one symbol: fetch, test, skip an id
     * already sent this minute, build the alert, send it and record the id
     * only when the send succeeded. Returns the alert when it was delivered.
     */
    method VisitSymbol(symbol: string, exchange: string -> KlineFetch, minuteKey: string, sendOk: string -> bool)
      returns (delivered: Option<Alert>)
      modifies this`sentAlerts
      ensures delivered.Some? <==>
        Fires(exchange, symbol) && AlertId(symbol, minuteKey) !in old(sentAlerts) && sendOk(AlertId(symbol, minuteKey))
      ensures delivered.Some? ==> delivered.value == AlertFor(symbol, SampleFor(exchange, symbol).value)
      ensures sentAlerts == old(sentAlerts) + (if delivered.Some? then {AlertId(symbol, minuteKey)} else {})
    {
      delivered := None;
      var sample := SampleFor(exchange, symbol);
      if sample.None? {
        return;
      }
      if IsSpike(sample.value.prevVol, sample.value.currVol) {
        var alertId := AlertId(symbol, minuteKey);
        if alertId in sentAlerts {
          return;
        }
        var alert := AlertFor(symbol, sample.value);
        if sendOk(alertId) {
          sentAlerts := sentAlerts + {alertId};
          delivered := Some(alert);
        }
      }
    }

    /**
     * One pass of the scanner loop over a snapshot of the tracked set: each
     * tracked symbol is fetched, tested, checked against `sentAlerts` and, on
     * a successful send, recorded. Returns the alerts delivered.
     */
    method Tick(exchange: string -> KlineFetch, minuteKey: string, sendOk: string -> bool)
      returns (alerts: seq<Alert>)
      modifies this`sentAlerts
      ensures sentAlerts == old(sentAlerts) +
        Recorded(Delivered(lowVolumeSymbols, exchange, minuteKey, sendOk, old(sentAlerts)), minuteKey)
      ensures SymbolsOf(alerts) == Delivered(lowVolumeSymbols, exchange, minuteKey, sendOk, old(sentAlerts))
      ensures |alerts| == |Delivered(lowVolumeSymbols, exchange, minuteKey, sendOk, old(sentAlerts))|
      ensures forall a :: a in alerts ==> Reports(exchange, a)
      ensures allSymbols == old(allSymbols) && lowVolumeSymbols == old(lowVolumeSymbols)
    {
      var remaining := lowVolumeSymbols;
      ghost var sent0 := sentAlerts;
      ghost var done: set<string> := {};
      ghost var delivered: set<string> := {};
      alerts := [];
      TickStart(lowVolumeSymbols, exchange, minuteKey, sendOk, sent0);
      while remaining != {}
        invariant TickProgress(lowVolumeSymbols, remaining, done, delivered, exchange, minuteKey, sendOk,
                               sent0, sentAlerts, alerts)
        decreases remaining
      {
        var symbol :| symbol in remaining;
        ghost var sentBefore := sentAlerts;
        ghost var alertsBefore := alerts;
        var alert := VisitSymbol(symbol, exchange, minuteKey, sendOk);
        if alert.Some? {
          alerts := alerts + [alert.value];
        }
        delivered := VisitStep(lowVolumeSymbols, remaining, done, delivered, symbol, exchange, minuteKey, sendOk,
                               sent0, sentBefore, alertsBefore, alert, sentAlerts, alerts);
        remaining := remaining - {symbol};
        done := done + {symbol};
      }
      TickEnd(lowVolumeSymbols, done, delivered, exchange, minuteKey, sendOk, sent0, sentAlerts, alerts);
    }
  }

  // ---------------------------------------------------------------- tick helpers

  lemma NotYetRecorded(symbols: set<string>, s: string, minuteKey: string)
    requires s !in symbols
    ensures AlertId(s, minuteKey) !in Recorded(symbols, minuteKey)
  {
    forall t | t in symbols ensures AlertId(t, minuteKey) != AlertId(s, minuteKey) {
      if AlertId(t, minuteKey) == AlertId(s, minuteKey) {
        AlertIdInjective(t, minuteKey, s, minuteKey);
      }
    }
  }

  /**
   * The loop's bookkeeping part-way through a tick: `done` symbols are
   * processed, `delivered` are those among them alerted about, and both the
   * sent set and the alert list are exactly what `Delivered` predicts.
   */
  ghost predicate TickProgress(snapshot: set<string>, remaining: set<string>, done: set<string>,
                               delivered: set<string>, exchange: string -> KlineFetch, minuteKey: string,
                               sendOk: string -> bool, sent0: set<string>, sent: set<string>,
                               alerts: seq<Alert>)
  {
    && remaining + done == snapshot && remaining !! done
    && delivered == Delivered(done, exchange, minuteKey, sendOk, sent0)
    && sent == sent0 + Recorded(delivered, minuteKey)
    && SymbolsOf(alerts) == delivered && |alerts| == |delivered|
    && forall a :: a in alerts ==> Reports(exchange, a)
  }

  lemma TickStart(snapshot: set<string>, exchange: string -> KlineFetch, minuteKey: string,
                  sendOk: string -> bool, sent0: set<string>)
    ensures TickProgress(snapshot, snapshot, {}, {}, exchange, minuteKey, sendOk, sent0, sent0, [])
  {
    assert Delivered({}, exchange, minuteKey, sendOk, sent0) == {};
    assert Recorded({}, minuteKey) == {};
    assert SymbolsOf([]) == {};
  }

  /** With nothing remaining, the bookkeeping is the outcome of the whole snapshot. */
  lemma TickEnd(snapshot: set<string>, done: set<string>, delivered: set<string>,
                exchange: string -> KlineFetch, minuteKey: string, sendOk: string -> bool,
                sent0: set<string>, sent: set<string>, alerts: seq<Alert>)
    requires TickProgress(snapshot, {}, done, delivered, exchange, minuteKey, sendOk, sent0, sent, alerts)
    ensures sent == sent0 + Recorded(Delivered(snapshot, exchange, minuteKey, sendOk, sent0), minuteKey)
    ensures SymbolsOf(alerts) == Delivered(snapshot, exchange, minuteKey, sendOk, sent0)
    ensures |alerts| == |Delivered(snapshot, exchange, minuteKey, sendOk, sent0)|
    ensures forall a :: a in alerts ==> Reports(exchange, a)
  {
    assert done == snapshot;
  }

  /** One symbol visited: the bookkeeping after it, whether it was delivered or skipped. */
  lemma VisitStep(snapshot: set<string>, remaining: set<string>, done: set<string>, delivered: set<string>,
                  s: string, exchange: string -> KlineFetch, minuteKey: string, sendOk: string -> bool,
                  sent0: set<string>, sent: set<string>, alerts: seq<Alert>, alert: Option<Alert>,
                  sent': set<string>, alerts': seq<Alert>)
    returns (delivered': set<string>)
    requires TickProgress(snapshot, remaining, done, delivered, exchange, minuteKey, sendOk, sent0, sent, alerts)
    requires s in remaining
    requires alert.Some? <==> Fires(exchange, s) && AlertId(s, minuteKey) !in sent && sendOk(AlertId(s, minuteKey))
    requires alert.Some? ==> alert.value == AlertFor(s, SampleFor(exchange, s).value)
    requires sent' == sent + (if alert.Some? then {AlertId(s, minuteKey)} else {})
    requires alerts' == if alert.Some? then alerts + [alert.value] else alerts
    ensures TickProgress(snapshot, remaining - {s}, done + {s}, delivered', exchange, minuteKey, sendOk,
                         sent0, sent', alerts')
  {
    if alert.Some? {
      DeliverStep(snapshot, remaining, done, delivered, s, exchange, minuteKey, sendOk, sent0, sent, alerts, alert.value);
      delivered' := delivered + {s};
    } else {
      SkipStep(snapshot, remaining, done, delivered, s, exchange, minuteKey, sendOk, sent0, sent, alerts);
      delivered' := delivered;
    }
  }

  /** A symbol alerted about this tick: the bookkeeping gains it, its id and its alert. */
  lemma DeliverStep(snapshot: set<string>, remaining: set<string>, done: set<string>, delivered: set<string>,
                    s: string, exchange: string -> KlineFetch, minuteKey: string, sendOk: string -> bool,
                    sent0: set<string>, sent: set<string>, alerts: seq<Alert>, alert: Alert)
    requires TickProgress(snapshot, remaining, done, delivered, exchange, minuteKey, sendOk, sent0, sent, alerts)
    requires s in remaining
    requires Fires(exchange, s) && AlertId(s, minuteKey) !in sent && sendOk(AlertId(s, minuteKey))
    requires alert == AlertFor(s, SampleFor(exchange, s).value)
    ensures TickProgress(snapshot, remaining - {s}, done + {s}, delivered + {s}, exchange, minuteKey, sendOk,
                         sent0, sent + {AlertId(s, minuteKey)}, alerts + [alert])
  {
    NotYetRecorded(delivered, s, minuteKey);
    DeliveredStep(done, s, exchange, minuteKey, sendOk, sent0);
    assert s !in delivered;
    RecordedStep(sent0, delivered, s, minuteKey, sent);
    AppendAlert(alerts, delivered, alert, exchange);
  }

  /** A symbol skipped this tick (no data, no spike, already sent, or the send failed). */
  lemma SkipStep(snapshot: set<string>, remaining: set<string>, done: set<string>, delivered: set<string>,
                 s: string, exchange: string -> KlineFetch, minuteKey: string, sendOk: string -> bool,
                 sent0: set<string>, sent: set<string>, alerts: seq<Alert>)
    requires TickProgress(snapshot, remaining, done, delivered, exchange, minuteKey, sendOk, sent0, sent, alerts)
    requires s in remaining
    requires !(Fires(exchange, s) && AlertId(s, minuteKey) !in sent && sendOk(AlertId(s, minuteKey)))
    ensures TickProgress(snapshot, remaining - {s}, done + {s}, delivered, exchange, minuteKey, sendOk,
                         sent0, sent, alerts)
  {
    NotYetRecorded(delivered, s, minuteKey);
    DeliveredStep(done, s, exchange, minuteKey, sendOk, sent0);
  }

  lemma DeliveredStep(done: set<string>, s: string, exchange: string -> KlineFetch, minuteKey: string,
                      sendOk: string -> bool, sent: set<string>)
    ensures Delivered(done + {s}, exchange, minuteKey, sendOk, sent) ==
      Delivered(done, exchange, minuteKey, sendOk, sent) +
      (if Fires(exchange, s) && AlertId(s, minuteKey) !in sent && sendOk(AlertId(s, minuteKey))
       then {s} else {})
  {
  }

  lemma RecordedStep(sent0: set<string>, symbols: set<string>, s: string, minuteKey: string, sent: set<string>)
    requires sent == sent0 + Recorded(symbols, minuteKey)
    ensures sent + {AlertId(s, minuteKey)} == sent0 + Recorded(symbols + {s}, minuteKey)
  {
    assert Recorded(symbols + {s}, minuteKey) == Recorded(symbols, minuteKey) + {AlertId(s, minuteKey)};
  }

  lemma AppendAlert(alerts: seq<Alert>, symbols: set<string>, a: Alert, exchange: string -> KlineFetch)
    requires SymbolsOf(alerts) == symbols && |alerts| == |symbols| && a.symbol !in symbols
    requires forall b :: b in alerts ==> Reports(exchange, b)
    requires Reports(exchange, a)
    ensures SymbolsOf(alerts + [a]) == symbols + {a.symbol} && |alerts + [a]| == |symbols + {a.symbol}|
    ensures forall b :: b in alerts + [a] ==> Reports(exchange, b)
  {
    AppendSymbol(alerts, a);
  }

  lemma AppendSymbol(alerts: seq<Alert>, a: Alert)
    ensures SymbolsOf(alerts + [a]) == SymbolsOf(alerts) + {a.symbol}
  {
    assert forall b :: b in alerts + [a] <==> b in alerts || b == a;
  }

  // ---------------------------------------------------------------- properties

  /**
   * At most one delivered alert per symbol per minute: whatever a first tick
   * delivered, any later tick in the same minute, whose sent set still holds
   * those ids (it only grows), delivers none of them again.
   */
  lemma AtMostOncePerMinute(tracked1: set<string>, exchange1: string -> KlineFetch, sendOk1: string -> bool,
                            tracked2: set<string>, exchange2: string -> KlineFetch, sendOk2: string -> bool,
                            minuteKey: string, sent: set<string>, later: set<string>)
    requires sent + Recorded(Delivered(tracked1, exchange1, minuteKey, sendOk1, sent), minuteKey) <= later
    ensures Delivered(tracked1, exchange1, minuteKey, sendOk1, sent)
         !! Delivered(tracked2, exchange2, minuteKey, sendOk2, later)
  {
    var first := Delivered(tracked1, exchange1, minuteKey, sendOk1, sent);
    forall s | s in first ensures AlertId(s, minuteKey) in Recorded(first, minuteKey) {
    }
  }

  /**
   * A failed send records nothing, so a later tick in the same minute whose
   * send succeeds alerts about the symbol after all.
   */
  lemma {:induction false} FailedSendIsRetried(
    tracked: set<string>, exchange: string -> KlineFetch, sendOk: string -> bool,
    exchange2: string -> KlineFetch, sendOk2: string -> bool,
    minuteKey: string, sent: set<string>, s: string)
    requires s in tracked && Fires(exchange, s) && AlertId(s, minuteKey) !in sent
    requires !sendOk(AlertId(s, minuteKey))
    requires Fires(exchange2, s) && sendOk2(AlertId(s, minuteKey))
    ensures
      var after := sent + Recorded(Delivered(tracked, exchange, minuteKey, sendOk, sent), minuteKey);
      && AlertId(s, minuteKey) !in after
      && s in Delivered(tracked, exchange2, minuteKey, sendOk2, after)
  {
    var first := Delivered(tracked, exchange, minuteKey, sendOk, sent);
    assert s !in first;
    NotYetRecorded(first, s, minuteKey);
  }

  /**
   * A new minute is a new bucket: a symbol delivered in one minute is alerted
   * about again in the next when it fires and the send succeeds (minute keys
   * of one format have one length).
   */
  lemma {:induction false} NextMinuteAlertsAgain(
    tracked: set<string>, exchange1: string -> KlineFetch, sendOk1: string -> bool,
    exchange2: string -> KlineFetch, sendOk2: string -> bool,
    minute1: string, minute2: string, sent: set<string>, s: string)
    requires |minute1| == |minute2| && minute1 != minute2
    requires s in tracked && AlertId(s, minute2) !in sent
    requires Fires(exchange2, s) && sendOk2(AlertId(s, minute2))
    ensures
      var after := sent + Recorded(Delivered(tracked, exchange1, minute1, sendOk1, sent), minute1);
      s in Delivered(tracked, exchange2, minute2, sendOk2, after)
  {
    var first := Delivered(tracked, exchange1, minute1, sendOk1, sent);
    forall t | t in first ensures AlertId(t, minute1) != AlertId(s, minute2) {
      if AlertId(t, minute1) == AlertId(s, minute2) {
        AlertIdInjective(t, minute1, s, minute2);
      }
    }
  }

  /**
   * For a listing symbol `BASE_USDT` whose base does not contain "USDT", the
   * scanner name is `BASEUSDT`, and both the kline request and the trading
   * link name the original contract again.
   */
  lemma {:induction false} SymbolRoundTrip(base: string)
    requires !Occurs(base, "USDT")
    ensures ScannerName(base + "_USDT") == base + "USDT"
    ensures ApiSymbol(ScannerName(base + "_USDT")) == base + "_USDT"
    ensures TradeLinkSymbol(ScannerName(base + "_USDT")) == base + "_USDT"
  {
    ScannerNameOfPlainBase(base);
    UsdtOverlapFree();
    ReplaceAllAppend(base, "USDT", "_USDT");
    ReplaceAllAbsent(base, "USDT", "_USDT");
    assert DropLast(base + "USDT", 4) == base;
  }
}
