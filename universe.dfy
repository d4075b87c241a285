/**
 * The universe filter of Mexcnewbot.py: the two set comprehensions that turn
 * the contract-detail listing into ALL_SYMBOLS and LOW_VOLUME_SYMBOLS, and
 * the loader that either reassigns them or reports failure. Python's
 * evaluation order is kept, including where an exception escapes a
 * comprehension: the loader's `except` turns it into `False`.
 */
module Universe {
  import opened Wrappers
  import opened PyStr
  import opened MexcApi

  /** DAILY_VOLUME_LIMIT: the largest 24h volume (USDT) a tracked contract may have. */
  const DailyVolumeLimit: real := 2000000.0

  /** The two module-level sets the loader reassigns. */
  datatype Universe = Universe(all: set<string>, low: set<string>)

  /** The loader's boolean result together with the sets as they are afterwards. */
  datatype LoadOutcome = LoadOutcome(ok: bool, universe: Universe)

  /** The scanner's name for a listing symbol: `symbol.replace("_USDT", "USDT")`. */
  function ScannerName(symbol: string): string {
    ReplaceAll(symbol, "_USDT", "USDT")
  }

  /** Admitted to ALL_SYMBOLS: a USDT-margined contract whose `state` is 1. */
  predicate Listed(c: Contract)
    requires c.symbol.Some?
  {
    EndsWith(c.symbol.value, "_USDT") && c.state == Some(1)
  }

  /** `float(s.get("volume24h", 0))`: a missing key reads as 0, a value that does not convert raises. */
  function Volume24h(c: Contract): Option<real> {
    match c.volume24h
    case None => Some(0.0)
    case Some(Number(v)) => Some(v)
    case Some(NotNumeric) => None
  }

  predicate LowVolume(c: Contract)
    requires Volume24h(c).Some?
  {
    Volume24h(c).value <= DailyVolumeLimit
  }

  /** The first comprehension raises (KeyError) when some entry has no symbol. */
  predicate AllSymbolsRaises(cs: seq<Contract>) {
    exists i :: 0 <= i < |cs| && cs[i].symbol.None?
  }

  /**
   * The second comprehension evaluates `float(volume24h)` first, then (only
   * when that is within the limit) `s["symbol"]`; either can raise.
   */
  predicate LowVolumeRaises(cs: seq<Contract>) {
    exists i :: 0 <= i < |cs| &&
      (Volume24h(cs[i]).None? || (LowVolume(cs[i]) && cs[i].symbol.None?))
  }

  /** ALL_SYMBOLS as the first comprehension builds it. */
  function AllSymbolsOf(cs: seq<Contract>): Option<set<string>> {
    if AllSymbolsRaises(cs) then None
    else Some(set i | 0 <= i < |cs| && Listed(cs[i]) :: ScannerName(cs[i].symbol.value))
  }

  /** LOW_VOLUME_SYMBOLS as the second comprehension builds it. */
  function LowVolumeSymbolsOf(cs: seq<Contract>): Option<set<string>> {
    if LowVolumeRaises(cs) then None
    else Some(set i | 0 <= i < |cs| && LowVolume(cs[i]) && Listed(cs[i]) :: ScannerName(cs[i].symbol.value))
  }

  /** The listing a fetch carries, if the loader gets as far as reading it. */
  function Listing(f: ContractFetch): Option<seq<Contract>> {
    match f
    case ContractsUnreachable => None
    case ContractsReply(status, body) =>
      if status != OkStatus then None
      else match body
        case ContractsUndecodable => None
        case ContractsJson(success, data) => if success then data else None
  }

  /**
   * `load_symbols_and_filter_low_volume` on a fetch, from universe `u`.
   * ALL_SYMBOLS is assigned as soon as its comprehension finishes, before the
   * second comprehension runs.
   */
  function Load(f: ContractFetch, u: Universe): LoadOutcome {
    match Listing(f)
    case None => LoadOutcome(false, u)
    case Some(cs) =>
      match AllSymbolsOf(cs)
      case None => LoadOutcome(false, u)
      case Some(all) =>
        match LowVolumeSymbolsOf(cs)
        case None => LoadOutcome(false, Universe(all, u.low))
        case Some(low) => LoadOutcome(true, Universe(all, low))
  }

  // ---------------------------------------------------------------- properties

  /** Transport failures, non-200 statuses, undecodable bodies and unsuccessful payloads change nothing. */
  lemma RejectedReplyChangesNothing(f: ContractFetch, u: Universe)
    requires f.ContractsUnreachable? || f.status != OkStatus || f.body.ContractsUndecodable? || !f.body.success
    ensures Load(f, u) == LoadOutcome(false, u)
  {
  }

  /** A failed load never touches the tracked set. */
  lemma FailedLoadKeepsTracked(f: ContractFetch, u: Universe)
    ensures !Load(f, u).ok ==> Load(f, u).universe.low == u.low
  {
  }

  /** A successful load is exactly a well-formed listing in which no comprehension raises. */
  lemma LoadSucceedsIff(f: ContractFetch, u: Universe)
    ensures Load(f, u).ok <==>
      Listing(f).Some? && !AllSymbolsRaises(Listing(f).value) && !LowVolumeRaises(Listing(f).value)
  {
  }

  /** Every listed contract is in ALL_SYMBOLS, under its scanner name, and nothing else is. */
  lemma AllSymbolsExactly(f: ContractFetch, u: Universe, n: string)
    requires Load(f, u).ok
    ensures n in Load(f, u).universe.all <==>
      exists i :: 0 <= i < |Listing(f).value| && Listing(f).value[i].symbol.Some? &&
        Listed(Listing(f).value[i]) && ScannerName(Listing(f).value[i].symbol.value) == n
  {
  }

  /**
   * A name is tracked iff some listed contract under that name has a 24h
   * volume of at most the limit (inclusive).
   */
  lemma TrackedExactly(f: ContractFetch, u: Universe, n: string)
    requires Load(f, u).ok
    ensures n in Load(f, u).universe.low <==>
      exists i :: 0 <= i < |Listing(f).value| && Listing(f).value[i].symbol.Some? &&
        Listed(Listing(f).value[i]) && Volume24h(Listing(f).value[i]).Some? &&
        Volume24h(Listing(f).value[i]).value <= DailyVolumeLimit &&
        ScannerName(Listing(f).value[i].symbol.value) == n
  {
  }

  /** After a successful load the tracked set is a subset of ALL_SYMBOLS. */
  lemma {:induction false} TrackedWithinAll(f: ContractFetch, u: Universe)
    requires Load(f, u).ok
    ensures Load(f, u).universe.low <= Load(f, u).universe.all
  {
    var cs := Listing(f).value;
    var r := Load(f, u).universe;
    forall n | n in r.low ensures n in r.all {
      var i :| 0 <= i < |cs| && LowVolume(cs[i]) && Listed(cs[i]) && ScannerName(cs[i].symbol.value) == n;
      assert n in AllSymbolsOf(cs).value;
    }
  }

  /**
   * From the empty start-up state, the only state the program ever loads
   * from, the tracked set is a subset of ALL_SYMBOLS whatever the fetch.
   */
  lemma {:induction false} StartupLoadKeepsSubset(f: ContractFetch)
    ensures Load(f, Universe({}, {})).universe.low <= Load(f, Universe({}, {})).universe.all
  {
    if Load(f, Universe({}, {})).ok {
      TrackedWithinAll(f, Universe({}, {}));
    }
  }

  /** After a successful load every name in ALL_SYMBOLS ends with "USDT". */
  lemma {:induction false} AllSymbolsEndWithUsdt(f: ContractFetch, u: Universe, n: string)
    requires Load(f, u).ok && n in Load(f, u).universe.all
    ensures EndsWith(n, "USDT")
  {
    var cs := Listing(f).value;
    var i :| 0 <= i < |cs| && Listed(cs[i]) && ScannerName(cs[i].symbol.value) == n;
    ScannerNameEndsWithUsdt(cs[i].symbol.value);
  }

  /** Replacing "_USDT" by "USDT" in a symbol that ends with "_USDT" gives a name that ends with "USDT". */
  lemma ScannerNameEndsWithUsdt(symbol: string)
    requires EndsWith(symbol, "_USDT")
    ensures ScannerName(symbol) == ScannerName(symbol[..|symbol| - 5]) + "USDT"
    ensures EndsWith(ScannerName(symbol), "USDT")
  {
    var base := symbol[..|symbol| - 5];
    assert symbol == base + "_USDT";
    UsdtOverlapFree();
    ReplaceAllAppend(base, "_USDT", "USDT");
    var n := ScannerName(symbol);
    assert n[|n| - 4..] == "USDT";
  }

  /** A base free of "USDT" (hence of "_USDT") keeps its spelling: `BASE_USDT` becomes `BASEUSDT`. */
  lemma {:induction false} ScannerNameOfPlainBase(base: string)
    requires !Occurs(base, "USDT")
    ensures ScannerName(base + "_USDT") == base + "USDT"
  {
    UsdtOverlapFree();
    if Occurs(base, "_USDT") {
      assert "_USDT" == "_" + "USDT";
      OccursSuffixOfPattern(base, "_", "USDT");
    }
    ReplaceAllAppend(base, "_USDT", "USDT");
    ReplaceAllAbsent(base, "_USDT", "USDT");
  }

  /** A one-entry listing of a listed contract names exactly that contract. */
  lemma SingleListing(c: Contract)
    requires c.symbol.Some? && Listed(c)
    ensures (set i | 0 <= i < |[c]| && Listed([c][i]) :: ScannerName([c][i].symbol.value))
      == {ScannerName(c.symbol.value)}
    ensures Volume24h(c).Some? && LowVolume(c) ==>
      (set i | 0 <= i < |[c]| && LowVolume([c][i]) && Listed([c][i]) :: ScannerName([c][i].symbol.value))
      == {ScannerName(c.symbol.value)}
  {
    assert [c][0] == c;
  }

  /** A one-entry listing of a listed, low-volume contract tracks exactly its scanner name. */
  lemma LoadSingleTracked(c: Contract, u: Universe)
    requires c.symbol.Some? && Listed(c) && Volume24h(c).Some? && LowVolume(c)
    ensures Load(ContractsReply(200, ContractsJson(true, Some([c]))), u)
      == LoadOutcome(true, Universe({ScannerName(c.symbol.value)}, {ScannerName(c.symbol.value)}))
  {
    SingleListing(c);
    assert !AllSymbolsRaises([c]) && !LowVolumeRaises([c]);
  }

  lemma XyzName()
    ensures ScannerName("XYZ_USDT") == "XYZUSDT" && EndsWith("XYZ_USDT", "_USDT")
  {
    ShorterHasNoOccurrence("XYZ", "USDT");
    ScannerNameOfPlainBase("XYZ");
    assert "XYZ" + "_USDT" == "XYZ_USDT" && "XYZ" + "USDT" == "XYZUSDT";
    assert "XYZ_USDT"[3..] == "_USDT";
  }

  /** The limit is inclusive: a contract at exactly 2,000,000 USDT is tracked. */
  lemma AtLimitIsTracked()
    ensures
      var c := Contract(Some("XYZ_USDT"), Some(1), Some(Number(2000000.0)));
      Load(ContractsReply(200, ContractsJson(true, Some([c]))), Universe({}, {}))
        == LoadOutcome(true, Universe({"XYZUSDT"}, {"XYZUSDT"}))
  {
    var c := Contract(Some("XYZ_USDT"), Some(1), Some(Number(2000000.0)));
    XyzName();
    SingleListing(c);
  }

  /** One unit over the limit is listed but not tracked. */
  lemma OverLimitIsNotTracked()
    ensures
      var c := Contract(Some("XYZ_USDT"), Some(1), Some(Number(2000001.0)));
      Load(ContractsReply(200, ContractsJson(true, Some([c]))), Universe({}, {}))
        == LoadOutcome(true, Universe({"XYZUSDT"}, {}))
  {
    var c := Contract(Some("XYZ_USDT"), Some(1), Some(Number(2000001.0)));
    XyzName();
    SingleListing(c);
  }

  /**
   * The loader is not atomic: a `volume24h` that does not convert makes it
   * return false after ALL_SYMBOLS has already been replaced, so a tracked
   * name can be left outside ALL_SYMBOLS.
   */
  lemma PartialLoadBreaksSubset()
    ensures
      var c := Contract(Some("NEW_USDT"), Some(1), Some(NotNumeric));
      var u := Universe({"OLDUSDT"}, {"OLDUSDT"});
      var r := Load(ContractsReply(200, ContractsJson(true, Some([c]))), u);
      && !r.ok && r.universe == Universe({"NEWUSDT"}, {"OLDUSDT"})
      && !(r.universe.low <= r.universe.all)
  {
    var c := Contract(Some("NEW_USDT"), Some(1), Some(NotNumeric));
    ShorterHasNoOccurrence("NEW", "USDT");
    ScannerNameOfPlainBase("NEW");
    assert "NEW" + "_USDT" == "NEW_USDT" && "NEW" + "USDT" == "NEWUSDT";
    assert "NEW_USDT"[3..] == "_USDT";
    SingleListing(c);
    assert LowVolumeRaises([c]);
  }
}
