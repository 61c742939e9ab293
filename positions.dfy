/** The position store (crypto_stock_analyzer/src/position_manager.py): a
    dictionary from symbol to the list of that symbol's position records,
    changed in place by add, refresh, close and delete, with a price-versus-
    entry signal classifier and a portfolio summary. Every state change is
    specified by a pure transition function on the dictionary, so that
    sequences of operations can be reasoned about. */
module Positions {
  import opened Wrappers
  import opened SeqMath
  import Text

  datatype Side = Long | Short | OtherSide

  /** `position_type.upper()` read as a side. */
  function SideOf(positionType: string): (side: Side)
    ensures side == Long <==> Text.Upper(positionType) == "LONG"
    ensures side == Short <==> Text.Upper(positionType) == "SHORT"
  {
    var u := Text.Upper(positionType);
    if u == "LONG" then Long else if u == "SHORT" then Short else OtherSide
  }

  datatype Signal = WaitForDip | EntryZone | TakeProfit | Holding | StopLossWarning | WaitForRally | UnknownSignal

  /** `ACTIVE`, or `CLOSED_<suffix>` (TP, SL, or the upper-cased manual reason). */
  datatype Status = Active | Closed(suffix: string)

  /** One position record; the entry, update and close timestamps are left out. */
  datatype Position = Position(
    id: int, symbol: string, entryPrice: real, side: Side, quantity: real,
    takeProfit: Option<real>, currentPrice: real, status: Status, notes: string,
    pnl: real, pnlPct: real, signal: Signal, atrStopLoss: real, originalStopLoss: real,
    closeReason: Option<string>, closePrice: Option<real>,
    finalPnl: Option<real>, finalPnlPct: Option<real>)

  type Book = map<string, seq<Position>>

  function ListOf(book: Book, symbol: string): seq<Position> {
    if symbol in book then book[symbol] else []
  }

  // ---------------------------------------------------------------- signals

  /** `calculate_trading_signal`; the LONG and SHORT rules divide by the entry price. */
  function TradingSignal(current: real, entry: real, side: Side): (r: Signal)
    requires side != OtherSide ==> entry != 0.0
    ensures r == UnknownSignal <==> side == OtherSide
    ensures r == WaitForDip ==> side == Long && current > entry * 1.02
    ensures r == WaitForRally ==> side == Short && current < entry * 0.98
    ensures r == EntryZone ==> side != OtherSide && Abs(current - entry) / entry <= 0.02
    ensures entry > 0.0 ==> r != TakeProfit && r != Holding
  {
    match side
    case Long =>
      EntryRatios(current, entry);
      var pct := (current - entry) / entry * 100.0;
      if current > entry * 1.02 then WaitForDip
      else if Abs(current - entry) / entry <= 0.02 then EntryZone
      else if pct >= 5.0 then TakeProfit
      else if pct <= -2.0 then StopLossWarning
      else Holding
    case Short =>
      EntryRatios(current, entry);
      var pct := (entry - current) / entry * 100.0;
      if current < entry * 0.98 then WaitForRally
      else if Abs(current - entry) / entry <= 0.02 then EntryZone
      else if pct >= 5.0 then TakeProfit
      else if pct <= -2.0 then StopLossWarning
      else Holding
    case OtherSide => UnknownSignal
  }

  /** The classifier's ratio tests in terms of prices, for a positive entry. */
  lemma EntryRatios(current: real, entry: real)
    requires entry != 0.0
    ensures entry > 0.0 ==>
      && (Abs(current - entry) / entry > 0.02 <==> Abs(current - entry) > 0.02 * entry)
      && ((current - entry) / entry > -0.02 <==> current - entry > -0.02 * entry)
      && ((entry - current) / entry > -0.02 <==> entry - current > -0.02 * entry)
  {
    if entry > 0.0 {
      RatioAbove(Abs(current - entry), entry, 0.02);
      RatioAbove(current - entry, entry, -0.02);
      RatioAbove(entry - current, entry, -0.02);
    }
  }

  /** For a positive entry price the classifier has only three outcomes per
      side: TAKE_PROFIT and HOLDING are unreachable, because any price more
      than 2 % away from the entry on the profitable side is caught first. */
  lemma TradingSignalThreeValued(current: real, entry: real, side: Side)
    requires entry > 0.0
    ensures side == Long ==>
      && (TradingSignal(current, entry, side) == WaitForDip <==> current > entry * 1.02)
      && (TradingSignal(current, entry, side) == EntryZone <==> Abs(current - entry) <= entry * 0.02)
      && (TradingSignal(current, entry, side) == StopLossWarning <==> current < entry * 0.98)
    ensures side == Short ==>
      && (TradingSignal(current, entry, side) == WaitForRally <==> current < entry * 0.98)
      && (TradingSignal(current, entry, side) == EntryZone <==> Abs(current - entry) <= entry * 0.02)
      && (TradingSignal(current, entry, side) == StopLossWarning <==> current > entry * 1.02)
    ensures side == OtherSide ==> TradingSignal(current, entry, side) == UnknownSignal
    ensures TradingSignal(current, entry, side) != TakeProfit && TradingSignal(current, entry, side) != Holding
  {
    RatioAbove(Abs(current - entry), entry, 0.02);
    RatioAbove(current - entry, entry, -0.02);
    RatioAbove(entry - current, entry, -0.02);
    assert (current - entry) / entry * 100.0 <= -2.0 <==> (current - entry) / entry <= -0.02;
    assert (entry - current) / entry * 100.0 <= -2.0 <==> (entry - current) / entry <= -0.02;
  }

  /** An entry of 100 and a price of 106 (a 6 % gain) reads WAIT_FOR_DIP, not TAKE_PROFIT. */
  lemma SixPercentGainWaitsForDip()
    ensures TradingSignal(106.0, 100.0, Long) == WaitForDip
  {
  }

  datatype Advice = WaitDoNotBuy | EnterOrAdd | TakeGains | Keep | ReviewPosition | WaitDoNotCover | Review
  datatype Tint = OrangeTint | GreenTint | BlueTint | GrayTint | RedTint | BlackTint
  datatype Interpretation = Interpretation(advice: Advice, tint: Tint)

  /** `get_signals_interpretation` (the emoji and description texts are left
      out); an unknown signal gets the black REVIEW entry. */
  function SignalInterpretation(signal: Signal): (r: Interpretation)
    ensures r.tint == BlackTint <==> signal == UnknownSignal
  {
    match signal
    case WaitForDip => Interpretation(WaitDoNotBuy, OrangeTint)
    case EntryZone => Interpretation(EnterOrAdd, GreenTint)
    case TakeProfit => Interpretation(TakeGains, BlueTint)
    case Holding => Interpretation(Keep, GrayTint)
    case StopLossWarning => Interpretation(ReviewPosition, RedTint)
    case WaitForRally => Interpretation(WaitDoNotCover, OrangeTint)
    case UnknownSignal => Interpretation(Review, BlackTint)
  }

  /** The blue TAKE_PROFIT and gray HOLDING entries are never shown for a
      position with a positive entry price. */
  lemma ReachableInterpretations(current: real, entry: real, side: Side)
    requires entry > 0.0
    ensures SignalInterpretation(TradingSignal(current, entry, side)).tint in {OrangeTint, GreenTint, RedTint, BlackTint}
  {
    TradingSignalThreeValued(current, entry, side);
  }

  // ---------------------------------------------------------------- add

  /** The record `add_position` builds. */
  function NewPosition(id: int, symbol: string, entry: real, positionType: string, quantity: real,
                       takeProfit: Option<real>, notes: string): (p: Position)
    ensures p.id == id && p.status == Active && p.pnl == 0.0 && p.signal == EntryZone
    ensures p.currentPrice == entry && p.entryPrice == entry && p.side == SideOf(positionType)
    ensures p.symbol == Text.Upper(symbol)
  {
    Position(id, Text.Upper(symbol), entry, SideOf(positionType), quantity, takeProfit, entry, Active, notes,
             0.0, 0.0, EntryZone, 0.0, 0.0, None, None, None, None)
  }

  /** The id `add_position` gives the next record of a list. */
  function NextId(list: seq<Position>): int {
    |list| + 1
  }

  function Added(book: Book, symbol: string, p: Position): (r: Book)
    ensures r.Keys == book.Keys + {symbol}
    ensures r[symbol] == ListOf(book, symbol) + [p]
    ensures forall k :: k in book && k != symbol ==> r[k] == book[k]
  {
    book[symbol := ListOf(book, symbol) + [p]]
  }

  // ---------------------------------------------------------------- refresh

  /** The P&L of a quantity bought (LONG) or sold short (any other side) at
      `entry`, priced at `price`. */
  function SidePnl(side: Side, entry: real, price: real, quantity: real): real {
    if side == Long then (price - entry) * quantity else (entry - price) * quantity
  }

  /** The same as a percentage of the entry price. */
  function SidePnlPct(side: Side, entry: real, price: real): real
    requires entry != 0.0
  {
    if side == Long then (price - entry) / entry * 100.0 else (entry - price) / entry * 100.0
  }

  /** For a positive quantity a LONG gains exactly when the price is above
      the entry, any other side exactly when it is below. */
  lemma SidePnlSign(side: Side, entry: real, price: real, quantity: real)
    requires quantity > 0.0
    ensures SidePnl(side, entry, price, quantity) > 0.0 <==>
      (if side == Long then price > entry else price < entry)
  {
    MulSign(price - entry, quantity);
    MulSign(entry - price, quantity);
  }

  predicate Refreshable(list: seq<Position>) {
    forall i :: 0 <= i < |list| && list[i].status == Active ==> list[i].entryPrice != 0.0
  }

  /** The automatic closures, checked only when a take-profit price is
      set (truthy): LONG closes at or above it, or else at or below the ATR
      stop; SHORT mirrors this. */
  function AutoClose(q: Position, current: real): Position {
    if Truthy(q.takeProfit) && q.side == Long then
      if current >= q.takeProfit.value then q.(status := Closed("TP"), closeReason := Some("TAKE_PROFIT_HIT"))
      else if current <= q.atrStopLoss then q.(status := Closed("SL"), closeReason := Some("ATR_STOP_LOSS_HIT"))
      else q
    else if Truthy(q.takeProfit) && q.side == Short then
      if current <= q.takeProfit.value then q.(status := Closed("TP"), closeReason := Some("TAKE_PROFIT_HIT"))
      else if current >= q.atrStopLoss then q.(status := Closed("SL"), closeReason := Some("ATR_STOP_LOSS_HIT"))
      else q
    else q
  }

  /** One pass of the `update_position_signals` loop over a record. Any side
      other than LONG is priced as SHORT. */
  function Refresh(p: Position, current: real, atr: real): (r: Position)
    requires p.status == Active ==> p.entryPrice != 0.0
    ensures p.status != Active ==> r == p
    ensures p.status == Active ==>
      && r.currentPrice == current
      && r.signal == TradingSignal(current, p.entryPrice, p.side)
      && r.atrStopLoss == (if p.side == Long then p.entryPrice - 2.0 * atr else p.entryPrice + 2.0 * atr)
      && r.pnl == SidePnl(p.side, p.entryPrice, current, p.quantity)
      && r.pnlPct == SidePnlPct(p.side, p.entryPrice, current)
      && r.(status := p.status, closeReason := p.closeReason, currentPrice := p.currentPrice,
            signal := p.signal, atrStopLoss := p.atrStopLoss, pnl := p.pnl, pnlPct := p.pnlPct) == p
      && (r.status == Active ==> r.closeReason == p.closeReason)
      && (r.status == Closed("TP") ==> r.closeReason == Some("TAKE_PROFIT_HIT"))
      && (r.status == Closed("SL") ==> r.closeReason == Some("ATR_STOP_LOSS_HIT"))
      && (r.status == Active || r.status == Closed("TP") || r.status == Closed("SL"))
    ensures p.status == Active && r.status != Active ==> Truthy(p.takeProfit) && p.side != OtherSide
    ensures p.status == Active && Truthy(p.takeProfit) && p.side == Long ==>
      && (r.status == Closed("TP") <==> current >= p.takeProfit.value)
      && (r.status == Closed("SL") <==> current < p.takeProfit.value && current <= r.atrStopLoss)
      && (r.status == Active <==> current < p.takeProfit.value && current > r.atrStopLoss)
    ensures p.status == Active && Truthy(p.takeProfit) && p.side == Short ==>
      && (r.status == Closed("TP") <==> current <= p.takeProfit.value)
      && (r.status == Closed("SL") <==> current > p.takeProfit.value && current >= r.atrStopLoss)
      && (r.status == Active <==> current > p.takeProfit.value && current < r.atrStopLoss)
  {
    if p.status != Active then p
    else
      var e := p.entryPrice;
      var atrStop := if p.side == Long then e - 2.0 * atr else e + 2.0 * atr;
      AutoClose(p.(currentPrice := current, signal := TradingSignal(current, e, p.side),
                   atrStopLoss := atrStop, pnl := SidePnl(p.side, e, current, p.quantity),
                   pnlPct := SidePnlPct(p.side, e, current)), current)
  }

  function RefreshAll(list: seq<Position>, current: real, atr: real): (r: seq<Position>)
    requires Refreshable(list)
    ensures |r| == |list|
    ensures forall i :: 0 <= i < |list| ==> r[i] == Refresh(list[i], current, atr)
  {
    seq(|list|, i requires 0 <= i < |list| => Refresh(list[i], current, atr))
  }

  /** `update_position_prices`: every record of the symbol refreshed in
      place, the other symbols untouched. */
  function Refreshed(book: Book, symbol: string, current: real, atr: real): (r: Book)
    requires symbol in book ==> Refreshable(book[symbol])
    ensures r.Keys == book.Keys
    ensures forall k :: k in book && k != symbol ==> r[k] == book[k]
    ensures symbol in book ==>
      && |r[symbol]| == |book[symbol]|
      && (forall i :: 0 <= i < |book[symbol]| ==> r[symbol][i] == Refresh(book[symbol][i], current, atr))
      && (forall i :: 0 <= i < |book[symbol]| && book[symbol][i].status != Active ==>
            r[symbol][i] == book[symbol][i])
      && (forall i :: 0 <= i < |book[symbol]| ==> r[symbol][i].id == book[symbol][i].id)
  {
    if symbol in book then book[symbol := RefreshAll(book[symbol], current, atr)] else book
  }

  // ---------------------------------------------------------------- close

  /** The index of the first ACTIVE record with the given id. */
  function FirstActive(list: seq<Position>, id: int): (r: Option<nat>)
    ensures r.Some? ==> r.value < |list| && list[r.value].id == id && list[r.value].status == Active
    ensures r.Some? ==> forall j :: 0 <= j < r.value ==> !(list[j].id == id && list[j].status == Active)
    ensures r.None? ==> forall j :: 0 <= j < |list| ==> !(list[j].id == id && list[j].status == Active)
    decreases |list|
  {
    if |list| == 0 then None
    else if list[0].id == id && list[0].status == Active then Some(0)
    else
      var rest := FirstActive(list[1..], id);
      if rest.Some? then Some(rest.value + 1) else None
  }

  /** The record `close_position` closes, if any, has a non-zero entry
      price: its P&L percentage divides by it. */
  predicate Closable(book: Book, symbol: string, id: int) {
    symbol in book && FirstActive(book[symbol], id).Some? ==>
      book[symbol][FirstActive(book[symbol], id).value].entryPrice != 0.0
  }

  /** The manual close of one record: a falsy closing price means the last
      seen price; the final P&L is priced by side (any non-LONG as SHORT).
      The running `pnl` is left as it was. */
  function Close(p: Position, closePrice: Option<real>, reason: string): (r: Position)
    requires p.entryPrice != 0.0
    ensures r.status == Closed(Text.Upper(reason)) && r.closeReason == Some(reason)
    ensures r.closePrice == Some(if Truthy(closePrice) then closePrice.value else p.currentPrice)
    ensures r.finalPnl == Some(SidePnl(p.side, p.entryPrice, r.closePrice.value, p.quantity))
    ensures r.finalPnlPct == Some(SidePnlPct(p.side, p.entryPrice, r.closePrice.value))
    ensures r.(status := p.status, closePrice := p.closePrice, closeReason := p.closeReason,
               finalPnl := p.finalPnl, finalPnlPct := p.finalPnlPct) == p
  {
    var price := if Truthy(closePrice) then closePrice.value else p.currentPrice;
    p.(status := Closed(Text.Upper(reason)), closePrice := Some(price), closeReason := Some(reason),
       finalPnl := Some(SidePnl(p.side, p.entryPrice, price, p.quantity)),
       finalPnlPct := Some(SidePnlPct(p.side, p.entryPrice, price)))
  }

  /** Whether `close_position` finds a record to close. */
  predicate CloseSucceeds(book: Book, symbol: string, id: int) {
    symbol in book && FirstActive(book[symbol], id).Some?
  }

  /** `close_position`: the first ACTIVE record with the id is closed;
      nothing else changes, and nothing at all when there is none. */
  function ClosedBook(book: Book, symbol: string, id: int, closePrice: Option<real>, reason: string): (r: Book)
    requires Closable(book, symbol, id)
    ensures r.Keys == book.Keys
    ensures forall k :: k in book && k != symbol ==> r[k] == book[k]
    ensures !CloseSucceeds(book, symbol, id) ==> r == book
    ensures CloseSucceeds(book, symbol, id) ==>
      var list, i := book[symbol], FirstActive(book[symbol], id).value;
      && |r[symbol]| == |list|
      && r[symbol][i].id == id && r[symbol][i].status == Closed(Text.Upper(reason))
      && r[symbol][i] == Close(list[i], closePrice, reason)
      && (forall j :: 0 <= j < |list| && j != i ==> r[symbol][j] == list[j])
  {
    if CloseSucceeds(book, symbol, id) then
      var list := book[symbol];
      var i := FirstActive(list, id).value;
      book[symbol := list[i := Close(list[i], closePrice, reason)]]
    else book
  }

  // ---------------------------------------------------------------- delete and filters

  /** The record selections of the source: ACTIVE records, closed records,
      closed records with a positive P&L (the summary's winners), ACTIVE
      records with a given signal, and records with an id other than the
      given one. */
  datatype Criterion = IsActive | IsClosed | IsWinner | ActiveWith(signal: Signal) | IdIsNot(id: int)

  predicate Keeps(c: Criterion, p: Position) {
    match c
    case IsActive => p.status == Active
    case IsClosed => p.status.Closed?
    case IsWinner => p.status.Closed? && p.pnl > 0.0
    case ActiveWith(signal) => p.status == Active && p.signal == signal
    case IdIsNot(id) => p.id != id
  }

  /** The records of `list` that satisfy `c`, in order. */
  function Filter(list: seq<Position>, c: Criterion): (r: seq<Position>)
    ensures |r| <= |list|
    ensures forall p :: p in r <==> p in list && Keeps(c, p)
    ensures forall p :: Count(r, p) == if Keeps(c, p) then Count(list, p) else 0
    decreases |list|
  {
    if |list| == 0 then []
    else
      var rest, x := Filter(list[..|list| - 1], c), list[|list| - 1];
      assert list == list[..|list| - 1] + [x];
      assert (rest + [x])[..|rest + [x]| - 1] == rest;
      if Keeps(c, x) then rest + [x] else rest
  }

  /** Filtering keeps the relative order: the records kept from a
      concatenation are those kept from its first part, then those kept
      from its second part. */
  lemma {:induction false} FilterAppend(a: seq<Position>, b: seq<Position>, c: Criterion)
    ensures Filter(a + b, c) == Filter(a, c) + Filter(b, c)
    decreases |b|
  {
    if |b| == 0 {
      assert a + b == a;
    } else {
      var b', x := b[..|b| - 1], b[|b| - 1];
      var kept := if Keeps(c, x) then [x] else [];
      assert b == b' + [x];
      AppendAssoc(a, b', [x]);
      FilterSnoc(a + b', x, c);
      FilterSnoc(b', x, c);
      FilterAppend(a, b', c);
      AppendAssoc(Filter(a, c), Filter(b', c), kept);
    }
  }

  /** One more record at the end is kept or dropped on its own. */
  lemma FilterSnoc(s: seq<Position>, x: Position, c: Criterion)
    ensures Filter(s + [x], c) == Filter(s, c) + (if Keeps(c, x) then [x] else [])
  {
    assert (s + [x])[..|s + [x]| - 1] == s;
  }

  function WithoutId(list: seq<Position>, id: int): (r: seq<Position>)
    ensures forall p :: p in r <==> p in list && p.id != id
    ensures forall p :: Count(r, p) == if p.id != id then Count(list, p) else 0
  {
    Filter(list, IdIsNot(id))
  }

  /** `delete_position`: every record with the id goes; an emptied symbol is dropped. */
  function Deleted(book: Book, symbol: string, id: int): (r: Book)
    ensures symbol !in book ==> r == book
    ensures symbol in book ==>
      && (symbol in r <==> |WithoutId(book[symbol], id)| > 0)
      && (symbol in r ==> r[symbol] == WithoutId(book[symbol], id))
      && (forall k :: k in book && k != symbol ==> k in r && r[k] == book[k])
      && r.Keys <= book.Keys
  {
    if symbol !in book then book
    else
      var rest := WithoutId(book[symbol], id);
      if |rest| == 0 then book - {symbol} else book[symbol := rest]
  }

  /** Ids are list positions, not unique keys: after deleting id 1 of two
      records, the next record added gets id 2, the id of the survivor. */
  lemma IdsCanCollide(first: Position, second: Position)
    requires first.id == 1 && second.id == 2
    ensures WithoutId([first, second], 1) == [second]
    ensures NextId(WithoutId([first, second], 1)) == second.id
  {
    assert [first][..0] == [];
    assert Filter([first], IdIsNot(1)) == [];
    assert [first, second][..1] == [first];
    assert Filter([first, second], IdIsNot(1)) == Filter([first], IdIsNot(1)) + [second];
  }

  /** Closing is one-way: no transition makes a closed record ACTIVE again,
      and a refresh leaves every non-ACTIVE record as it was. */
  lemma RefreshKeepsClosedRecords(list: seq<Position>, current: real, atr: real, i: int)
    requires Refreshable(list) && 0 <= i < |list| && list[i].status != Active
    ensures RefreshAll(list, current, atr)[i] == list[i]
  {
  }

  // ---------------------------------------------------------------- summary

  datatype SignalCounts = SignalCounts(waitForDip: nat, entryZone: nat, takeProfit: nat, holding: nat, stopLossWarning: nat)

  /** The per-list accumulators of `get_position_summary`. */
  datatype Tally = Tally(
    total: nat, active: nat, closed: nat,
    pnl: real, activePnl: real, closedPnl: real, winners: nat, signals: SignalCounts)

  const NoSignals := SignalCounts(0, 0, 0, 0, 0)
  const EmptyTally := Tally(0, 0, 0, 0.0, 0.0, 0.0, 0, NoSignals)

  /** An ACTIVE record's signal, counted only for the five tracked signals. */
  function SignalCount(s: Signal): SignalCounts {
    match s
    case WaitForDip => SignalCounts(1, 0, 0, 0, 0)
    case EntryZone => SignalCounts(0, 1, 0, 0, 0)
    case TakeProfit => SignalCounts(0, 0, 1, 0, 0)
    case Holding => SignalCounts(0, 0, 0, 1, 0)
    case StopLossWarning => SignalCounts(0, 0, 0, 0, 1)
    case WaitForRally => NoSignals
    case UnknownSignal => NoSignals
  }

  function AddSignals(a: SignalCounts, b: SignalCounts): SignalCounts {
    SignalCounts(a.waitForDip + b.waitForDip, a.entryZone + b.entryZone, a.takeProfit + b.takeProfit,
                 a.holding + b.holding, a.stopLossWarning + b.stopLossWarning)
  }

  function Tracked(c: SignalCounts): nat {
    c.waitForDip + c.entryZone + c.takeProfit + c.holding + c.stopLossWarning
  }

  function One(p: Position): Tally {
    if p.status == Active then Tally(1, 1, 0, p.pnl, p.pnl, 0.0, 0, SignalCount(p.signal))
    else Tally(1, 0, 1, p.pnl, 0.0, p.pnl, if p.pnl > 0.0 then 1 else 0, NoSignals)
  }

  function Plus(a: Tally, b: Tally): Tally {
    Tally(a.total + b.total, a.active + b.active, a.closed + b.closed,
          a.pnl + b.pnl, a.activePnl + b.activePnl, a.closedPnl + b.closedPnl,
          a.winners + b.winners, AddSignals(a.signals, b.signals))
  }

  function TallyOf(list: seq<Position>): Tally
    decreases |list|
  {
    if |list| == 0 then EmptyTally else Plus(TallyOf(list[..|list| - 1]), One(list[|list| - 1]))
  }

  /** The P&L of the records of a list, added up. */
  function SumPnl(list: seq<Position>): real
    decreases |list|
  {
    if |list| == 0 then 0.0 else SumPnl(list[..|list| - 1]) + list[|list| - 1].pnl
  }

  lemma SumPnlSnoc(list: seq<Position>, x: Position)
    ensures SumPnl(list + [x]) == SumPnl(list) + x.pnl
  {
    assert (list + [x])[..|list + [x]| - 1] == list;
  }

  /** The tally of a list: every record is ACTIVE or closed, the P&L splits
      the same way, winners are closed records, and at most the active
      records carry a tracked signal. */
  lemma {:induction false} TallyFacts(list: seq<Position>)
    ensures var t := TallyOf(list);
      && t.total == |list| == t.active + t.closed
      && t.pnl == t.activePnl + t.closedPnl
      && t.winners <= t.closed
      && Tracked(t.signals) <= t.active
    decreases |list|
  {
    if |list| > 0 {
      TallyFacts(list[..|list| - 1]);
    }
  }

  /** The tally counts the ACTIVE, the closed and the winning records. */
  lemma {:induction false} TallyCounts(list: seq<Position>)
    ensures var t := TallyOf(list);
      && t.active == |Filter(list, IsActive)| && t.closed == |Filter(list, IsClosed)|
      && t.winners == |Filter(list, IsWinner)|
    decreases |list|
  {
    if |list| > 0 {
      var init, x := list[..|list| - 1], list[|list| - 1];
      assert list == init + [x];
      TallyCounts(init);
      FilterSnoc(init, x, IsActive);
      FilterSnoc(init, x, IsClosed);
      FilterSnoc(init, x, IsWinner);
    }
  }

  /** The tally adds up the P&L of all records, of the ACTIVE ones and of
      the closed ones. */
  lemma TallySums(list: seq<Position>)
    ensures var t := TallyOf(list);
      && t.pnl == SumPnl(list)
      && t.activePnl == SumPnl(Filter(list, IsActive)) && t.closedPnl == SumPnl(Filter(list, IsClosed))
  {
    TallyPnl(list);
    TallyGroupPnl(list);
  }

  lemma {:induction false} TallyPnl(list: seq<Position>)
    ensures TallyOf(list).pnl == SumPnl(list)
    decreases |list|
  {
    if |list| > 0 {
      TallyPnl(list[..|list| - 1]);
    }
  }

  lemma TallyGroupPnl(list: seq<Position>)
    ensures TallyOf(list).activePnl == SumPnl(Filter(list, IsActive))
    ensures TallyOf(list).closedPnl == SumPnl(Filter(list, IsClosed))
  {
    TallyActivePnl(list);
    TallyClosedPnl(list);
  }

  lemma {:induction false} TallyActivePnl(list: seq<Position>)
    ensures TallyOf(list).activePnl == SumPnl(Filter(list, IsActive))
    decreases |list|
  {
    if |list| > 0 {
      var init, x := list[..|list| - 1], list[|list| - 1];
      assert list == init + [x];
      TallyActivePnl(init);
      FilterSnoc(init, x, IsActive);
      assert TallyOf(list).activePnl == TallyOf(init).activePnl + One(x).activePnl;
      if Keeps(IsActive, x) {
        SumPnlSnoc(Filter(init, IsActive), x);
      }
    }
  }

  lemma {:induction false} TallyClosedPnl(list: seq<Position>)
    ensures TallyOf(list).closedPnl == SumPnl(Filter(list, IsClosed))
    decreases |list|
  {
    if |list| > 0 {
      var init, x := list[..|list| - 1], list[|list| - 1];
      assert list == init + [x];
      TallyClosedPnl(init);
      FilterSnoc(init, x, IsClosed);
      assert TallyOf(list).closedPnl == TallyOf(init).closedPnl + One(x).closedPnl;
      if Keeps(IsClosed, x) {
        SumPnlSnoc(Filter(init, IsClosed), x);
      }
    }
  }

  /** The signal counts of a list, one ACTIVE record at a time. */
  function SignalsOf(list: seq<Position>): SignalCounts {
    SignalCounts(|Filter(list, ActiveWith(WaitForDip))|, |Filter(list, ActiveWith(EntryZone))|,
                 |Filter(list, ActiveWith(TakeProfit))|, |Filter(list, ActiveWith(Holding))|,
                 |Filter(list, ActiveWith(StopLossWarning))|)
  }

  /** The count a `SignalCounts` keeps for one signal; the untracked
      signals have none. */
  function CountFor(c: SignalCounts, s: Signal): nat {
    match s
    case WaitForDip => c.waitForDip
    case EntryZone => c.entryZone
    case TakeProfit => c.takeProfit
    case Holding => c.holding
    case StopLossWarning => c.stopLossWarning
    case WaitForRally => 0
    case UnknownSignal => 0
  }

  /** The tally counts, for each tracked signal, the ACTIVE records that
      carry it. */
  lemma TallySignals(list: seq<Position>)
    ensures TallyOf(list).signals == SignalsOf(list)
  {
    TallySignal(list, WaitForDip);
    TallySignal(list, EntryZone);
    TallySignal(list, TakeProfit);
    TallySignal(list, Holding);
    TallySignal(list, StopLossWarning);
  }

  lemma {:induction false} TallySignal(list: seq<Position>, s: Signal)
    requires s != WaitForRally && s != UnknownSignal
    ensures CountFor(TallyOf(list).signals, s) == |Filter(list, ActiveWith(s))|
    decreases |list|
  {
    if |list| > 0 {
      var init, x := list[..|list| - 1], list[|list| - 1];
      assert list == init + [x];
      TallySignal(init, s);
      FilterSnoc(init, x, ActiveWith(s));
      assert TallyOf(list).signals == AddSignals(TallyOf(init).signals, One(x).signals);
      OneSignal(x, s);
    }
  }

  lemma OneSignal(x: Position, s: Signal)
    requires s != WaitForRally && s != UnknownSignal
    ensures CountFor(One(x).signals, s) == if Keeps(ActiveWith(s), x) then 1 else 0
  {
  }

  lemma PlusEmpty(t: Tally)
    ensures Plus(t, EmptyTally) == t
  {
  }

  lemma PlusAssociative(x: Tally, y: Tally, z: Tally)
    ensures Plus(Plus(x, y), z) == Plus(x, Plus(y, z))
  {
  }

  /** Tallying a concatenation adds the tallies. */
  lemma {:induction false} TallyAppend(a: seq<Position>, b: seq<Position>)
    ensures TallyOf(a + b) == Plus(TallyOf(a), TallyOf(b))
    decreases |b|
  {
    if |b| == 0 {
      assert a + b == a;
      PlusEmpty(TallyOf(a));
    } else {
      var init, last := b[..|b| - 1], b[|b| - 1];
      var ab := a + b;
      assert ab[..|ab| - 1] == a + init;
      assert ab[|ab| - 1] == last;
      TallyAppend(a, init);
      assert TallyOf(ab) == Plus(TallyOf(a + init), One(last));
      assert TallyOf(b) == Plus(TallyOf(init), One(last));
      PlusAssociative(TallyOf(a), TallyOf(init), One(last));
    }
  }

  datatype SymbolSummary = SymbolSummary(total: nat, active: nat, closed: nat, pnl: real)

  datatype PositionSummary = PositionSummary(
    totalPositions: nat, activePositions: nat, closedPositions: nat,
    totalPnl: real, activePnl: real, closedPnl: real, winRate: real,
    bySymbol: map<string, SymbolSummary>, signals: SignalCounts)

  function SymbolSummaryOf(t: Tally): SymbolSummary {
    SymbolSummary(t.total, t.active, t.closed, t.pnl)
  }

  /** Winning closed trades as a percentage of closed trades, 0 when none closed. */
  function WinRate(t: Tally): (rate: real)
    requires t.winners <= t.closed
    ensures 0.0 <= rate <= 100.0
    ensures t.closed == 0 ==> rate == 0.0
    ensures t.closed > 0 ==> rate * t.closed as real == 100.0 * t.winners as real
  {
    if t.closed > 0 then
      DivBetween(t.winners as real, t.closed as real, 0.0, 1.0);
      t.winners as real / t.closed as real * 100.0
    else 0.0
  }

  /** The accumulated tally over the symbols in insertion order. */
  function TotalTally(book: Book, keys: seq<string>): (t: Tally)
    requires forall k :: k in keys ==> k in book
    ensures t.winners <= t.closed
    decreases |keys|
  {
    if |keys| == 0 then EmptyTally
    else
      TallyFacts(book[keys[|keys| - 1]]);
      Plus(TotalTally(book, keys[..|keys| - 1]), TallyOf(book[keys[|keys| - 1]]))
  }

  /** The per-symbol entries of the summary. */
  function BySymbol(book: Book, keys: seq<string>): map<string, SymbolSummary>
    requires forall k :: k in keys ==> k in book
  {
    map k | k in keys :: SymbolSummaryOf(TallyOf(book[k]))
  }

  lemma BySymbolSnoc(book: Book, keys: seq<string>, k: string)
    requires forall x :: x in keys ==> x in book
    requires k in book
    ensures BySymbol(book, keys + [k]) == BySymbol(book, keys)[k := SymbolSummaryOf(TallyOf(book[k]))]
  {
  }

  /** Each symbol's entry counts its records, its ACTIVE and its closed
      records, and adds up their P&L. */
  lemma BySymbolValues(book: Book, keys: seq<string>)
    requires forall k :: k in keys ==> k in book
    ensures forall k :: k in keys ==>
      BySymbol(book, keys)[k] ==
        SymbolSummary(|book[k]|, |Filter(book[k], IsActive)|, |Filter(book[k], IsClosed)|, SumPnl(book[k]))
  {
    forall k | k in keys
      ensures BySymbol(book, keys)[k] ==
        SymbolSummary(|book[k]|, |Filter(book[k], IsActive)|, |Filter(book[k], IsClosed)|, SumPnl(book[k]))
    {
      TallyFacts(book[k]);
      TallyCounts(book[k]);
      TallyPnl(book[k]);
    }
  }

  /** All records, symbol after symbol. */
  function Flatten(book: Book, keys: seq<string>): seq<Position>
    requires forall k :: k in keys ==> k in book
    decreases |keys|
  {
    if |keys| == 0 then [] else Flatten(book, keys[..|keys| - 1]) + book[keys[|keys| - 1]]
  }

  /** The summary's totals are the tally of all records taken together. */
  lemma {:induction false} TotalTallyIsTallyOfAll(book: Book, keys: seq<string>)
    requires forall k :: k in keys ==> k in book
    ensures TotalTally(book, keys) == TallyOf(Flatten(book, keys))
    decreases |keys|
  {
    if |keys| > 0 {
      TotalTallyIsTallyOfAll(book, keys[..|keys| - 1]);
      TallyAppend(Flatten(book, keys[..|keys| - 1]), book[keys[|keys| - 1]]);
    }
  }

  /** `get_position_summary`. It counts every record once, as ACTIVE or
      closed, adds up the P&L of each group, and its win rate is the share
      of closed records with a positive P&L, as a percentage. */
  function SummaryOf(book: Book, keys: seq<string>): (s: PositionSummary)
    requires forall k :: k in keys ==> k in book
    ensures s.totalPositions == |Flatten(book, keys)| == s.activePositions + s.closedPositions
    ensures s.activePositions == |Filter(Flatten(book, keys), IsActive)|
    ensures s.closedPositions == |Filter(Flatten(book, keys), IsClosed)|
    ensures s.totalPnl == SumPnl(Flatten(book, keys))
    ensures s.activePnl == SumPnl(Filter(Flatten(book, keys), IsActive))
    ensures s.closedPnl == SumPnl(Filter(Flatten(book, keys), IsClosed))
    ensures s.closedPositions > 0 ==>
      s.winRate == |Filter(Flatten(book, keys), IsWinner)| as real / s.closedPositions as real * 100.0
    ensures s.totalPnl == s.activePnl + s.closedPnl
    ensures s.signals == SignalsOf(Flatten(book, keys)) && Tracked(s.signals) <= s.activePositions
    ensures 0.0 <= s.winRate <= 100.0
    ensures s.closedPositions == 0 ==> s.winRate == 0.0
    ensures s.bySymbol.Keys == set k | k in keys
    ensures forall k :: k in keys ==>
      s.bySymbol[k] == SymbolSummary(|book[k]|, |Filter(book[k], IsActive)|, |Filter(book[k], IsClosed)|, SumPnl(book[k]))
  {
    var t := TotalTally(book, keys);
    TotalTallyIsTallyOfAll(book, keys);
    TallyFacts(Flatten(book, keys));
    TallyCounts(Flatten(book, keys));
    TallySums(Flatten(book, keys));
    TallySignals(Flatten(book, keys));
    BySymbolValues(book, keys);
    PositionSummary(t.total, t.active, t.closed, t.pnl, t.activePnl, t.closedPnl, WinRate(t),
                    BySymbol(book, keys), t.signals)
  }

  // ---------------------------------------------------------------- the store

  predicate Distinct(keys: seq<string>) {
    forall i, j :: 0 <= i < j < |keys| ==> keys[i] != keys[j]
  }

  function Remove(keys: seq<string>, k: string): (r: seq<string>)
    ensures forall x :: x in r <==> x in keys && x != k
    ensures Distinct(keys) ==> Distinct(r)
    decreases |keys|
  {
    if |keys| == 0 then []
    else
      var init := keys[..|keys| - 1];
      var rest := Remove(init, k);
      assert keys == init + [keys[|keys| - 1]];
      assert Distinct(keys) ==> Distinct(init) && keys[|keys| - 1] !in init;
      if keys[|keys| - 1] == k then rest else rest + [keys[|keys| - 1]]
  }

  /** The `PositionManager` object: the positions dictionary and, since a
      Python dictionary remembers insertion order, its key order. Loading
      from and saving to the JSON file are left out; the store starts empty. */
  class PositionManager {
    var positions: Book
    var order: seq<string>

    ghost predicate Valid()
      reads this
    {
      (forall k :: k in order <==> k in positions) && Distinct(order)
    }

    constructor()
      ensures Valid() && positions == map[] && order == []
    {
      positions := map[];
      order := [];
    }

    /** `add_position`. */
    method AddPosition(symbol: string, entry: real, positionType: string, quantity: real,
                       takeProfit: Option<real>, notes: string) returns (p: Position)
      requires Valid()
      modifies this
      ensures Valid()
      ensures p == NewPosition(NextId(ListOf(old(positions), symbol)), symbol, entry, positionType,
                               quantity, takeProfit, notes)
      ensures positions == Added(old(positions), symbol, p)
      ensures order == if symbol in old(positions) then old(order) else old(order) + [symbol]
    {
      if symbol !in positions {
        positions := positions[symbol := []];
        order := order + [symbol];
      }
      p := NewPosition(|positions[symbol]| + 1, symbol, entry, positionType, quantity, takeProfit, notes);
      positions := positions[symbol := positions[symbol] + [p]];
    }

    /** `update_position_signals`; the analysis may carry an `atr`, and
        defaults to 2 % of the price. */
    method UpdatePositionSignals(symbol: string, current: real, analysisAtr: Option<real>)
      requires Valid()
      requires symbol in positions ==> Refreshable(positions[symbol])
      modifies this
      ensures Valid() && order == old(order)
      ensures positions == Refreshed(old(positions), symbol, current, analysisAtr.GetOr(current * 0.02))
    {
      if symbol !in positions {
        return;
      }
      var list := positions[symbol];
      var atr := analysisAtr.GetOr(current * 0.02);
      var i := 0;
      while i < |list|
        invariant 0 <= i <= |list| == |positions[symbol]|
        invariant forall j :: 0 <= j < i ==> list[j] == Refresh(positions[symbol][j], current, atr)
        invariant forall j :: i <= j < |list| ==> list[j] == positions[symbol][j]
      {
        list := list[i := Refresh(list[i], current, atr)];
        i := i + 1;
      }
      assert list == RefreshAll(positions[symbol], current, atr);
      positions := positions[symbol := list];
    }

    /** `get_active_positions`: every symbol with its ACTIVE records. */
    function ActivePositions(): (r: Book)
      reads this
      ensures r.Keys == positions.Keys
      ensures forall k :: k in r ==> forall p :: p in r[k] <==> p in positions[k] && p.status == Active
      ensures forall k :: k in r ==> forall p ::
        Count(r[k], p) == if p.status == Active then Count(positions[k], p) else 0
    {
      map k | k in positions :: Filter(positions[k], IsActive)
    }

    /** The tally of one symbol's records: the inner loop. */
    static method TallyList(list: seq<Position>) returns (t: Tally)
      ensures t == TallyOf(list)
    {
      t := EmptyTally;
      var i := 0;
      while i < |list|
        invariant 0 <= i <= |list|
        invariant t == TallyOf(list[..i])
      {
        assert list[..i + 1][..i] == list[..i];
        t := Plus(t, One(list[i]));
        i := i + 1;
      }
      assert list[..|list|] == list;
    }

    /** `get_position_summary`. */
    method GetPositionSummary() returns (summary: PositionSummary)
      requires Valid()
      ensures summary == SummaryOf(positions, order)
    {
      var total := EmptyTally;
      var bySymbol: map<string, SymbolSummary> := map[];
      var i := 0;
      while i < |order|
        invariant 0 <= i <= |order|
        invariant total == TotalTally(positions, order[..i])
        invariant bySymbol == BySymbol(positions, order[..i])
      {
        var k := order[i];
        assert order[..i + 1][..i] == order[..i];
        assert order[..i + 1] == order[..i] + [k];
        BySymbolSnoc(positions, order[..i], k);
        var t := TallyList(positions[k]);
        bySymbol := bySymbol[k := SymbolSummaryOf(t)];
        total := Plus(total, t);
        i := i + 1;
      }
      assert order[..|order|] == order;
      assert total == TotalTally(positions, order) && bySymbol == BySymbol(positions, order);
      summary := PositionSummary(total.total, total.active, total.closed, total.pnl, total.activePnl,
                                 total.closedPnl, WinRate(total), bySymbol, total.signals);
    }

    /** `close_position`. */
    method ClosePosition(symbol: string, id: int, closePrice: Option<real>, reason: string) returns (closed: bool)
      requires Valid()
      requires Closable(positions, symbol, id)
      modifies this
      ensures Valid() && order == old(order)
      ensures closed == CloseSucceeds(old(positions), symbol, id)
      ensures positions == ClosedBook(old(positions), symbol, id, closePrice, reason)
    {
      if symbol !in positions {
        return false;
      }
      var list := positions[symbol];
      var i := 0;
      while i < |list|
        invariant 0 <= i <= |list|
        invariant forall j :: 0 <= j < i ==> !(list[j].id == id && list[j].status == Active)
      {
        if list[i].id == id && list[i].status == Active {
          assert FirstActive(list, id) == Some(i);
          positions := positions[symbol := list[i := Close(list[i], closePrice, reason)]];
          return true;
        }
        i := i + 1;
      }
      return false;
    }

    /** `delete_position`. */
    method DeletePosition(symbol: string, id: int) returns (deleted: bool)
      requires Valid()
      modifies this
      ensures Valid()
      ensures deleted <==> symbol in old(positions)
      ensures positions == Deleted(old(positions), symbol, id)
      ensures order == if symbol in positions || symbol !in old(positions) then old(order) else Remove(old(order), symbol)
    {
      if symbol !in positions {
        return false;
      }
      var rest := WithoutId(positions[symbol], id);
      if |rest| == 0 {
        positions := positions - {symbol};
        order := Remove(order, symbol);
      } else {
        positions := positions[symbol := rest];
      }
      return true;
    }
  }
}
