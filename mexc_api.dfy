/**
 * What the exchange's REST endpoints hand back, as far as Mexcnewbot.py looks
 * at it, and the normalisation `get_1m_data` applies to a kline reply. The
 * network call itself is not modelled: a fetch is an input value.
 */
module MexcApi {
  import opened Wrappers
  import opened PyStr

  /** A JSON field read through `float(...)`: either it converts, with that value, or the conversion raises. */
  datatype JsonNum = Number(x: real) | NotNumeric

  /** One entry of the contract-detail listing (`symbol`, `state`, `volume24h`); `None` is a missing key. */
  datatype Contract = Contract(symbol: Option<string>, state: Option<int>, volume24h: Option<JsonNum>)

  /** The decoded body of the contract-detail endpoint: the truthiness of `success`, and `data` when present. */
  datatype ContractsBody = ContractsUndecodable | ContractsJson(success: bool, data: Option<seq<Contract>>)

  /** One call to the contract-detail endpoint: a transport failure, or an HTTP status and a body. */
  datatype ContractFetch = ContractsUnreachable | ContractsReply(status: int, body: ContractsBody)

  /** The `close` and `amount` columns of a kline reply, each possibly missing. */
  datatype KlineData = KlineData(close: Option<seq<JsonNum>>, amount: Option<seq<JsonNum>>)

  datatype KlineBody = KlineUndecodable | KlineJson(success: bool, data: Option<KlineData>)

  /** One call to the kline endpoint for a symbol. */
  datatype KlineFetch = KlineUnreachable | KlineReply(status: int, body: KlineBody)

  /** The four values `get_1m_data` returns when it has data: volumes are whole USDT, prices are closes. */
  datatype Sample = Sample(prevVol: int, currVol: int, prevPrice: real, currPrice: real)

  const OkStatus := 200

  /** Python's `int(x)` on a float: truncation toward zero. */
  function Trunc(x: real): (r: int)
    ensures 0.0 <= x ==> r as real <= x < r as real + 1.0
    ensures x < 0.0 ==> r as real - 1.0 < x <= r as real
  {
    if x >= 0.0 then x.Floor else -((-x).Floor)
  }

  /** The exchange's spelling of a scanner symbol: `symbol.replace("USDT", "_USDT")`. */
  function ApiSymbol(symbol: string): string {
    ReplaceAll(symbol, "USDT", "_USDT")
  }

  predicate IsNumber(n: JsonNum) { n.Number? }

  /** The numeric columns of a kline reply are usable: two closes and two amounts that all convert. */
  predicate HasTwoWindows(d: KlineData) {
    && d.close.Some? && |d.close.value| >= 2
    && d.amount.Some? && |d.amount.value| >= 2
    && IsNumber(d.close.value[0]) && IsNumber(d.close.value[1])
    && IsNumber(d.amount.value[0]) && IsNumber(d.amount.value[1])
  }

  /**
   * `get_1m_data` after the request: every failure (transport, a status other
   * than 200, an undecodable body, `success` false, fewer than two closes, a
   * missing or short `amount` column, a value that does not convert) gives "no
   * data"; otherwise the first two windows, volumes truncated to integers.
   */
  function OneMinuteSample(f: KlineFetch): (r: Option<Sample>)
    ensures r.Some? <==>
      f.KlineReply? && f.status == OkStatus && f.body.KlineJson? && f.body.success
      && f.body.data.Some? && HasTwoWindows(f.body.data.value)
    ensures r.Some? ==>
      var d := f.body.data.value;
      && r.value.prevVol == Trunc(d.amount.value[0].x)
      && r.value.currVol == Trunc(d.amount.value[1].x)
      && r.value.prevPrice == d.close.value[0].x
      && r.value.currPrice == d.close.value[1].x
  {
    match f
    case KlineUnreachable => None
    case KlineReply(status, body) =>
      if status != OkStatus then None
      else match body
        case KlineUndecodable => None
        case KlineJson(success, data) =>
          if !success || data.None? then None
          else
            var d := data.value;
            if d.close.None? || |d.close.value| < 2 then None
            else if d.amount.None? || |d.amount.value| < 2 then None
            else if !IsNumber(d.amount.value[0]) || !IsNumber(d.amount.value[1]) then None
            else if !IsNumber(d.close.value[0]) || !IsNumber(d.close.value[1]) then None
            else Some(Sample(Trunc(d.amount.value[0].x), Trunc(d.amount.value[1].x),
                             d.close.value[0].x, d.close.value[1].x))
  }
}
