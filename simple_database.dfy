/**
 * The in-memory store of database_simple.py: a blacklist, a set of symbols
 * whose alerts are paused, and an alert history that keeps only the most
 * recent records. The methods are `async` in the source; nothing in them
 * awaits, so each is one atomic step here.
 */
module SimpleDatabase {

  /** The history keeps at most this many records. */
  const MaxHistory: nat := 1000

  /** One saved alert: the prices passed to `save_alert` are not kept. */
  datatype AlertRecord = AlertRecord(
    symbol: string, prevVolume: int, currVolume: int, volumeChangePct: real, priceChangePct: real)

  /** The last `MaxHistory` entries of `h` (all of `h` when it is short enough). */
  function Trimmed<T>(h: seq<T>): (r: seq<T>)
    ensures |r| == if |h| > MaxHistory then MaxHistory else |h|
    ensures r == h[|h| - |r|..]
  {
    if |h| > MaxHistory then h[|h| - MaxHistory..] else h
  }

  /** The history after saving the records `rs` one by one, starting from `h`. */
  function SaveAll(h: seq<AlertRecord>, rs: seq<AlertRecord>): seq<AlertRecord>
    decreases |rs|
  {
    if rs == [] then h else SaveAll(Trimmed(h + [rs[0]]), rs[1..])
  }

  class Database {
    var blacklist: set<string>
    var pausedAlerts: set<string>
    var alertHistory: seq<AlertRecord>

    /** The class invariant: the history never holds more than `MaxHistory` records. */
    ghost predicate Valid()
      reads this
    {
      |alertHistory| <= MaxHistory
    }

    constructor ()
      ensures Valid()
      ensures blacklist == {} && pausedAlerts == {} && alertHistory == []
    {
      blacklist, pausedAlerts, alertHistory := {}, {}, [];
    }

    /** `get_blacklist` */
    method GetBlacklist() returns (r: set<string>)
      ensures r == blacklist
    {
      r := blacklist;
    }

    /** `add_to_blacklist`: set insertion, so adding twice is adding once. */
    method AddToBlacklist(symbol: string)
      modifies this`blacklist
      requires Valid()
      ensures Valid()
      ensures blacklist == old(blacklist) + {symbol}
      ensures pausedAlerts == old(pausedAlerts) && alertHistory == old(alertHistory)
    {
      blacklist := blacklist + {symbol};
    }

    /** `remove_from_blacklist`: `discard`, so removing an absent symbol is allowed and changes nothing. */
    method RemoveFromBlacklist(symbol: string)
      modifies this`blacklist
      requires Valid()
      ensures Valid()
      ensures blacklist == old(blacklist) - {symbol}
      ensures pausedAlerts == old(pausedAlerts) && alertHistory == old(alertHistory)
    {
      blacklist := blacklist - {symbol};
    }

    /** `get_paused_alerts` */
    method GetPausedAlerts() returns (r: set<string>)
      ensures r == pausedAlerts
    {
      r := pausedAlerts;
    }

    /** `add_paused_alert` */
    method AddPausedAlert(symbol: string)
      modifies this`pausedAlerts
      requires Valid()
      ensures Valid()
      ensures pausedAlerts == old(pausedAlerts) + {symbol}
      ensures blacklist == old(blacklist) && alertHistory == old(alertHistory)
    {
      pausedAlerts := pausedAlerts + {symbol};
    }

    /** `remove_paused_alert` (`discard`) */
    method RemovePausedAlert(symbol: string)
      modifies this`pausedAlerts
      requires Valid()
      ensures Valid()
      ensures pausedAlerts == old(pausedAlerts) - {symbol}
      ensures blacklist == old(blacklist) && alertHistory == old(alertHistory)
    {
      pausedAlerts := pausedAlerts - {symbol};
    }

    /** `save_alert`: append the record, then keep only the last `MaxHistory`. */
    method SaveAlert(symbol: string, prevVolume: int, currVolume: int, prevPrice: real, currPrice: real,
                     volumeChangePct: real, priceChangePct: real)
      modifies this`alertHistory
      requires Valid()
      ensures Valid()
      ensures alertHistory ==
        Trimmed(old(alertHistory) + [AlertRecord(symbol, prevVolume, currVolume, volumeChangePct, priceChangePct)])
      ensures blacklist == old(blacklist) && pausedAlerts == old(pausedAlerts)
    {
      alertHistory := alertHistory + [AlertRecord(symbol, prevVolume, currVolume, volumeChangePct, priceChangePct)];
      if |alertHistory| > MaxHistory {
        alertHistory := alertHistory[|alertHistory| - MaxHistory..];
      }
    }

    /** `get_recent_alerts`: the whole history, whatever `hours` is. */
    method GetRecentAlerts(hours: int) returns (r: seq<AlertRecord>)
      ensures r == alertHistory
    {
      r := alertHistory;
    }
  }

  // ---------------------------------------------------------------- properties

  /** The record just saved is the newest entry of the history. */
  lemma SavedRecordIsLast(h: seq<AlertRecord>, rec: AlertRecord)
    ensures |Trimmed(h + [rec])| > 0 && Trimmed(h + [rec])[|Trimmed(h + [rec])| - 1] == rec
  {
  }

  /** While the history is short, saving only appends. */
  lemma SaveBelowCapAppends(h: seq<AlertRecord>, rec: AlertRecord)
    requires |h| < MaxHistory
    ensures Trimmed(h + [rec]) == h + [rec]
  {
  }

  /** At the cap, saving drops exactly the oldest record. */
  lemma SaveAtCapDropsOldest(h: seq<AlertRecord>, rec: AlertRecord)
    requires |h| == MaxHistory
    ensures Trimmed(h + [rec]) == h[1..] + [rec]
  {
    assert (h + [rec])[1..] == h[1..] + [rec];
  }

  /** Trimming before appending loses nothing that trimming afterwards would keep. */
  lemma {:induction false} TrimThenSave(h: seq<AlertRecord>, rec: AlertRecord)
    ensures Trimmed(Trimmed(h) + [rec]) == Trimmed(h + [rec])
  {
    if |h| > MaxHistory {
      var t := h[|h| - MaxHistory..];
      assert Trimmed(h) == t;
      assert (t + [rec])[1..] == (h + [rec])[|h| + 1 - MaxHistory..];
    }
  }

  /**
   * Any run of saves from a valid history leaves the last `MaxHistory`
   * records of the old history followed by everything saved, oldest first.
   */
  lemma {:induction false} SavesKeepSlidingWindow(h: seq<AlertRecord>, rs: seq<AlertRecord>)
    ensures SaveAll(Trimmed(h), rs) == Trimmed(h + rs)
    decreases |rs|
  {
    if rs == [] {
      assert h + rs == h;
      TrimmedIdempotent(h);
    } else {
      calc {
        SaveAll(Trimmed(h), rs);
        SaveAll(Trimmed(Trimmed(h) + [rs[0]]), rs[1..]);
        { TrimThenSave(h, rs[0]); }
        SaveAll(Trimmed(h + [rs[0]]), rs[1..]);
        { SavesKeepSlidingWindow(h + [rs[0]], rs[1..]); }
        Trimmed(h + [rs[0]] + rs[1..]);
        { assert h + [rs[0]] + rs[1..] == h + rs; }
        Trimmed(h + rs);
      }
    }
  }

  lemma TrimmedIdempotent<T>(h: seq<T>)
    ensures Trimmed(Trimmed(h)) == Trimmed(h)
  {
  }
}
