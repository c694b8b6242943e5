/**
 * The row normaliser of `process_data` (pump_fun_scraper.py:195-211): an
 * untyped inbound event becomes a fixed fifteen-column row in which every
 * absent key takes its default.
 */
module Record {
  import opened Wrappers
  import opened Config

  /** A JSON value as it appears in an event and, unchanged, in a CSV cell. */
  datatype Cell = Text(s: string) | Num(x: real) | Null

  /** The decoded inbound frame: an untyped key/value object. */
  type RawEvent = map<string, Cell>

  /** Python's `data.get(key, default)`. */
  function Get(ev: RawEvent, key: string, fallback: Cell): Cell {
    if key in ev then ev[key] else fallback
  }

  /** One row of the log, one field per column, in the file's column order. */
  datatype Row = Row(
    signature: Cell,
    mint: Cell,
    traderPublicKey: Cell,
    txType: Cell,
    initialBuy: Cell,
    solAmount: Cell,
    bondingCurveKey: Cell,
    vTokensInBondingCurve: Cell,
    vSolInBondingCurve: Cell,
    marketCapSol: Cell,
    name: Cell,
    symbol: Cell,
    uri: Cell,
    pool: Cell,
    twitter: Cell)

  /** The header row written when the log file is created: the column names in order. */
  const Header: seq<Cell> := [
    Text("Signature"), Text("Mint"), Text("Trader Public Key"), Text("Transaction Type"),
    Text("Initial Buy"), Text("SOL Amount"), Text("Bonding Curve Key"),
    Text("vTokens In Bonding Curve"), Text("vSol In Bonding Curve"), Text("Market Cap (SOL)"),
    Text("Token Name"), Text("Symbol"), Text("Metadata URI"), Text("Pool"), Text("Twitter")]

  /** The event key read for each of the first fourteen columns. */
  const EventKeys: seq<string> := [
    "signature", "mint", "traderPublicKey", "txType", "initialBuy",
    "solAmount", "bondingCurveKey", "vTokensInBondingCurve",
    "vSolInBondingCurve", "marketCapSol", "name", "symbol", "uri", "pool"]

  /** The columns whose default is the number 0 rather than "N/A". */
  predicate IsNumericColumn(i: int) {
    i == 4 || i == 5 || i == 7 || i == 8 || i == 9
  }

  /** The default of column `i` when its key is absent. */
  function Default(i: int): Cell {
    if IsNumericColumn(i) then Num(0.0) else Text(NotAvailable)
  }

  /** The Twitter column: the fetched URL, or None (an empty cell). */
  function TwitterCell(url: Option<string>): Cell {
    match url
    case Some(u) => Text(u)
    case None => Null
  }

  /**
   * The dict literal at pump_fun_scraper.py:195-211. `twitter` is what
   * `get_twitter_url` returned for this event's metadata URI.
   */
  function Normalize(ev: RawEvent, twitter: Option<string>): Row {
    Row(
      Get(ev, "signature", Text(NotAvailable)),
      Get(ev, "mint", Text(NotAvailable)),
      Get(ev, "traderPublicKey", Text(NotAvailable)),
      Get(ev, "txType", Text(NotAvailable)),
      Get(ev, "initialBuy", Num(0.0)),
      Get(ev, "solAmount", Num(0.0)),
      Get(ev, "bondingCurveKey", Text(NotAvailable)),
      Get(ev, "vTokensInBondingCurve", Num(0.0)),
      Get(ev, "vSolInBondingCurve", Num(0.0)),
      Get(ev, "marketCapSol", Num(0.0)),
      Get(ev, "name", Text(NotAvailable)),
      Get(ev, "symbol", Text(NotAvailable)),
      Get(ev, "uri", Text(NotAvailable)),
      Get(ev, "pool", Text(NotAvailable)),
      TwitterCell(twitter))
  }

  /** The cells of a row in column order, as the CSV writer lays them out. */
  function Cells(row: Row): (cells: seq<Cell>)
    ensures |cells| == |Header|
    ensures cells[0] == row.signature && cells[4] == row.initialBuy
    ensures cells[5] == row.solAmount && cells[9] == row.marketCapSol
  {
    [row.signature, row.mint, row.traderPublicKey, row.txType, row.initialBuy,
     row.solAmount, row.bondingCurveKey, row.vTokensInBondingCurve,
     row.vSolInBondingCurve, row.marketCapSol, row.name, row.symbol,
     row.uri, row.pool, row.twitter]
  }

  /**
   * Normalisation is total and follows the column table: every column i < 14
   * holds the event's value under EventKeys[i] when that key is present, and
   * otherwise "N/A" for a text column or 0 for a numeric one; the last column
   * holds the Twitter URL.
   */
  lemma NormalizeFollowsColumnTable(ev: RawEvent, twitter: Option<string>)
    ensures |Cells(Normalize(ev, twitter))| == |Header| == |EventKeys| + 1
    ensures forall i :: 0 <= i < |EventKeys| ==>
      Cells(Normalize(ev, twitter))[i] == (if EventKeys[i] in ev then ev[EventKeys[i]] else Default(i))
    ensures Cells(Normalize(ev, twitter))[|EventKeys|] == TwitterCell(twitter)
  {
    var cells := Cells(Normalize(ev, twitter));
    forall i | 0 <= i < |EventKeys|
      ensures cells[i] == (if EventKeys[i] in ev then ev[EventKeys[i]] else Default(i))
    {
      if i == 0 {} else if i == 1 {} else if i == 2 {} else if i == 3 {}
      else if i == 4 {} else if i == 5 {} else if i == 6 {} else if i == 7 {}
      else if i == 8 {} else if i == 9 {} else if i == 10 {} else if i == 11 {}
      else if i == 12 {} else {}
    }
  }

  /** An empty event still yields a full row of defaults. */
  lemma EmptyEventTakesDefaults(twitter: Option<string>)
    ensures forall i :: 0 <= i < |EventKeys| ==>
      Cells(Normalize(map[], twitter))[i] == Default(i)
    ensures Normalize(map[], twitter).signature == Text(NotAvailable)
  {
    NormalizeFollowsColumnTable(map[], twitter);
  }
}
