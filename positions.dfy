/**
 * The paper-position ledger: the process-wide list of open positions and the
 * paper cash balance, with the summary read (GET), close-one (POST) and
 * close-all (DELETE). Prices, quantities and PnL are exact reals.
 */
module Positions {
  import opened Json
  import Environment

  datatype Side = Buy | Sell

  function SideName(s: Side): string {
    match s
    case Buy => "BUY"
    case Sell => "SELL"
  }

  /** One open paper trade. `id`, `entryPrice` and `environment` are carried but never read. */
  datatype Position = Position(
    id: string,
    symbol: string,
    side: Side,
    quantity: real,
    entryPrice: real,
    currentPrice: real,
    unrealizedPnl: real,
    environment: Environment.Env)

  const StartingBalance: real := 100000.0

  function MarketValue(p: Position): real { p.currentPrice * p.quantity }

  function Pnl(p: Position): real { p.unrealizedPnl }

  /** What closing `p` adds to the balance. */
  function Settlement(p: Position): real { p.currentPrice * p.quantity + p.unrealizedPnl }

  // ---------------------------------------------------------------------------
  // Sums over the list

  /** The mathematical sum of `f` over `ps`. */
  function Sum(ps: seq<Position>, f: Position -> real): real
    decreases |ps|
  {
    if ps == [] then 0.0 else f(ps[0]) + Sum(ps[1..], f)
  }

  /** `ps.reduce((sum, p) => sum + f(p), acc)`: a left fold from `acc`. */
  function Reduce(ps: seq<Position>, f: Position -> real, acc: real): real
    decreases |ps|
  {
    if ps == [] then acc else Reduce(ps[1..], f, acc + f(ps[0]))
  }

  lemma {:induction false} ReduceIsSum(ps: seq<Position>, f: Position -> real, acc: real)
    ensures Reduce(ps, f, acc) == acc + Sum(ps, f)
    decreases |ps|
  {
    if ps != [] {
      ReduceIsSum(ps[1..], f, acc + f(ps[0]));
    }
  }

  lemma {:induction false} SumAppend(a: seq<Position>, b: seq<Position>, f: Position -> real)
    ensures Sum(a + b, f) == Sum(a, f) + Sum(b, f)
    decreases |a|
  {
    if a == [] {
      assert a + b == b;
    } else {
      assert (a + b)[1..] == a[1..] + b;
      SumAppend(a[1..], b, f);
    }
  }

  /** `ps` with index `i` spliced out; the other entries keep their order. */
  function RemoveAt(ps: seq<Position>, i: nat): (r: seq<Position>)
    requires i < |ps|
    ensures |r| == |ps| - 1
    ensures forall k :: 0 <= k < i ==> r[k] == ps[k]
    ensures forall k :: i <= k < |r| ==> r[k] == ps[k + 1]
  {
    ps[..i] + ps[i + 1..]
  }

  lemma SumRemoveAt(ps: seq<Position>, i: nat, f: Position -> real)
    requires i < |ps|
    ensures Sum(RemoveAt(ps, i), f) == Sum(ps, f) - f(ps[i])
  {
    var before, after := ps[..i], ps[i + 1..];
    var from := [ps[i]] + after;
    assert ps == before + from;
    assert from[0] == ps[i] && from[1..] == after;
    SumAppend(before, from, f);
    SumAppend(before, after, f);
    assert RemoveAt(ps, i) == before + after;
  }

  /** Settling the whole list pays out its market value plus its unrealized PnL. */
  lemma {:induction false} SettlementIsValuePlusPnl(ps: seq<Position>)
    ensures Sum(ps, Settlement) == Sum(ps, MarketValue) + Sum(ps, Pnl)
    decreases |ps|
  {
    if ps != [] {
      SettlementIsValuePlusPnl(ps[1..]);
    }
  }

  // ---------------------------------------------------------------------------
  // GET: the listing and its summary

  datatype Summary = Summary(count: nat, totalValue: real, totalUnrealizedPnl: real, paperBalance: real)

  datatype Listing = Listing(positions: seq<Position>, environment: Environment.Env, summary: Summary)

  /** The GET answer for list `ps` and balance `balance`. */
  function List(ps: seq<Position>, balance: real): (r: Listing)
    ensures r.positions == ps && r.environment == Environment.Paper
    ensures r.summary.count == |ps|
    ensures r.summary.totalValue == Sum(ps, MarketValue)
    ensures r.summary.totalUnrealizedPnl == Sum(ps, Pnl)
    ensures r.summary.paperBalance == balance
  {
    ReduceIsSum(ps, MarketValue, 0.0);
    ReduceIsSum(ps, Pnl, 0.0);
    Listing(ps, Environment.Paper, Summary(|ps|, Reduce(ps, MarketValue, 0.0), Reduce(ps, Pnl, 0.0), balance))
  }

  // ---------------------------------------------------------------------------
  // POST: closing one position

  function UpperChar(c: char): char {
    if 'a' <= c <= 'z' then (c as int - 32) as char else c
  }

  /** ASCII `toUpperCase`. */
  function Upper(s: string): (r: string)
    ensures |r| == |s|
    ensures forall k :: 0 <= k < |s| ==> r[k] == UpperChar(s[k])
    ensures forall k :: 0 <= k < |r| ==> !('a' <= r[k] <= 'z')
    decreases |s|
  {
    if s == [] then [] else [UpperChar(s[0])] + Upper(s[1..])
  }

  /** The `findIndex` callback: `p.symbol === symbol.toUpperCase() && p.side === side`. */
  predicate Matches(p: Position, symbol: string, side: Value) {
    p.symbol == Upper(symbol) && side == JString(SideName(p.side))
  }

  /** `findIndex`: the lowest matching index, or -1. */
  function FindIndex(ps: seq<Position>, symbol: string, side: Value): (i: int)
    ensures -1 <= i < |ps|
    ensures i == -1 <==> forall k :: 0 <= k < |ps| ==> !Matches(ps[k], symbol, side)
    ensures 0 <= i ==> Matches(ps[i], symbol, side)
    ensures 0 <= i ==> forall k :: 0 <= k < i ==> !Matches(ps[k], symbol, side)
    decreases |ps|
  {
    if ps == [] then -1
    else if Matches(ps[0], symbol, side) then 0
    else
      var j := FindIndex(ps[1..], symbol, side);
      if j == -1 then -1 else j + 1
  }

  /**
   * The answer of POST. `Closed` carries the index that is settled and
   * spliced out; `Crashed` is a thrown exception, which the framework turns
   * into a 500.
   */
  datatype CloseOutcome = Closed(index: nat, message: string) | MissingFields | NotFound | Crashed

  function CloseStatus(r: CloseOutcome): nat {
    match r
    case Closed(_, _) => 200
    case MissingFields => 400
    case NotFound => 404
    case Crashed => 500
  }

  /**
   * The request's `symbol` and `side` are both present and truthy, `symbol`
   * is the string `symbol`, and `side` is `side`.
   */
  predicate Requests(body: Body, symbol: string, side: Value) {
    Destructurable(body) &&
    Field(body.value, "symbol") == Some(JString(symbol)) && symbol != "" &&
    Field(body.value, "side") == Some(side) && Truthy(Some(side))
  }

  /** The answer POST gives to `body` while the list is `ps`. */
  function DecideClose(ps: seq<Position>, body: Body): (r: CloseOutcome)
    ensures r == Crashed <==>
      !Destructurable(body) ||
      (Truthy(Field(body.value, "symbol")) && Truthy(Field(body.value, "side")) &&
       !Field(body.value, "symbol").value.JString? && ps != [])
    ensures r == MissingFields <==>
      Destructurable(body) &&
      !(Truthy(Field(body.value, "symbol")) && Truthy(Field(body.value, "side")))
    ensures r.Closed? ==>
      r.index < |ps| &&
      Requests(body, Field(body.value, "symbol").value.s, Field(body.value, "side").value)
    ensures r.Closed? ==>
      var symbol := Field(body.value, "symbol").value.s;
      var side := Field(body.value, "side").value;
      && Matches(ps[r.index], symbol, side)
      && (forall k :: 0 <= k < r.index ==> !Matches(ps[k], symbol, side))
      && r.message == "Closed " + symbol + " position"
    ensures forall symbol, side :: Requests(body, symbol, side) ==>
      (r == NotFound <==> forall k :: 0 <= k < |ps| ==> !Matches(ps[k], symbol, side))
  {
    if !Destructurable(body) then Crashed
    else
      var symbol := Field(body.value, "symbol");
      var side := Field(body.value, "side");
      if !Truthy(symbol) || !Truthy(side) then MissingFields
      else if !symbol.value.JString? then
        // `symbol.toUpperCase()` throws on a non-string, but only once the
        // callback runs, that is, only on a non-empty list.
        if ps == [] then NotFound else Crashed
      else
        var i := FindIndex(ps, symbol.value.s, side.value);
        if i == -1 then NotFound else Closed(i, "Closed " + symbol.value.s + " position")
  }

  /**
   * Close-one answers 500 only on a body that cannot be destructured or a
   * non-string symbol: a parsed request whose symbol is a string never crashes.
   */
  lemma CloseStatusCodes(ps: seq<Position>, body: Body)
    ensures (Destructurable(body) && Field(body.value, "symbol").Some? &&
             Field(body.value, "symbol").value.JString?) ==>
      CloseStatus(DecideClose(ps, body)) != 500
    ensures CloseStatus(DecideClose(ps, body)) == 500 ==>
      !Destructurable(body) ||
      (Truthy(Field(body.value, "symbol")) && !Field(body.value, "symbol").value.JString? && ps != [])
  {
  }

  // ---------------------------------------------------------------------------
  // The module-level state

  class Ledger {
    var positions: seq<Position>
    var balance: real

    constructor ()
      ensures positions == [] && balance == StartingBalance
    {
      positions := [];
      balance := StartingBalance;
    }

    /** Cash plus what every open position would settle for. */
    ghost function Equity(): real
      reads this
    {
      balance + Sum(positions, Settlement)
    }

    /** GET: a pure read of the list and the balance. */
    method Get() returns (r: Listing)
      ensures r == List(positions, balance)
    {
      r := List(positions, balance);
    }

    /** POST: settle the first match into the balance and splice it out. */
    method Close(body: Body) returns (r: CloseOutcome)
      modifies this
      ensures r == DecideClose(old(positions), body)
      ensures r.Closed? ==>
        balance == old(balance) + Settlement(old(positions)[r.index]) &&
        positions == RemoveAt(old(positions), r.index)
      ensures !r.Closed? ==> positions == old(positions) && balance == old(balance)
      ensures Equity() == old(Equity())
    {
      r := DecideClose(positions, body);
      if r.Closed? {
        var position := positions[r.index];
        SumRemoveAt(positions, r.index, Settlement);
        balance := balance + Settlement(position);
        positions := RemoveAt(positions, r.index);
      }
    }

    /** DELETE: settle every position in list order, then empty the list. */
    method CloseAll() returns (closed: nat, failed: nat)
      modifies this
      ensures closed == |old(positions)| && failed == 0
      ensures balance == old(balance) + Sum(old(positions), Settlement)
      ensures positions == []
      ensures Equity() == old(Equity())
    {
      closed := |positions|;
      var i := 0;
      while i < |positions|
        invariant 0 <= i <= |positions|
        invariant positions == old(positions)
        invariant balance == old(balance) + Sum(positions[..i], Settlement)
      {
        assert positions[..i + 1] == positions[..i] + [positions[i]];
        SumAppend(positions[..i], [positions[i]], Settlement);
        balance := balance + Settlement(positions[i]);
        i := i + 1;
      }
      assert positions[..i] == positions;
      positions := [];
      failed := 0;
    }
  }

  /** What close-all adds to the balance is what GET reported as value plus PnL. */
  lemma CloseAllPaysSummary(ps: seq<Position>, balance: real)
    ensures Sum(ps, Settlement) ==
      List(ps, balance).summary.totalValue + List(ps, balance).summary.totalUnrealizedPnl
  {
    SettlementIsValuePlusPnl(ps);
  }

  /** The position and the request of the worked example: ES/BUY, quantity 2, price 100, PnL 10. */
  function ExamplePosition(): Position {
    Position("1", "ES", Buy, 2.0, 95.0, 100.0, 10.0, Environment.Paper)
  }

  function ExampleRequest(): Body {
    Parsed(JObject(map["symbol" := JString("es"), "side" := JString("BUY")]))
  }

  /** Closing ("es", "BUY") picks the ES/BUY entry: the symbol is upper-cased first. */
  lemma ExampleDecision()
    ensures DecideClose([ExamplePosition()], ExampleRequest()) == Closed(0, "Closed es position")
    ensures Settlement(ExamplePosition()) == 210.0
  {
  }

  /**
   * The starting balance with that one position; closing ("es", "BUY")
   * leaves balance 100210 and no positions.
   */
  method CloseExample() returns (outcome: CloseOutcome, balance: real, remaining: seq<Position>)
    ensures outcome == Closed(0, "Closed es position")
    ensures balance == 100210.0
    ensures remaining == []
  {
    var ledger := new Ledger();
    ledger.positions := [ExamplePosition()];
    ExampleDecision();
    outcome := ledger.Close(ExampleRequest());
    balance, remaining := ledger.balance, ledger.positions;
  }
}
