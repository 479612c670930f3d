/**
 * `SpotMarketStream`: rolling trade windows over a pruned deque.  The ghost
 * history keeps every accepted trade; the windows are exact over it.
 */
module SpotStreams {
  import opened Basics

  datatype Trade = Trade(id: int, received: real, time: int, quote: real, maker: bool)

  datatype Book = Book(bid: real, ask: real, received: real)

  predicate Sorted(rows: seq<Trade>) {
    forall i, j :: 0 <= i < j < |rows| ==> rows[i].received <= rows[j].received
  }

  predicate Consecutive(rows: seq<Trade>) {
    forall i :: 0 < i < |rows| ==> rows[i].id == rows[i - 1].id + 1
  }

  /** The rows received at or after `floor`, in order. */
  function Since(rows: seq<Trade>, floor: real): seq<Trade> {
    if rows == [] then []
    else Since(rows[..|rows| - 1], floor) + (if rows[|rows| - 1].received >= floor then [rows[|rows| - 1]] else [])
  }

  function Quote(rows: seq<Trade>, maker: bool): real {
    if rows == [] then 0.0
    else Quote(rows[..|rows| - 1], maker) + (if rows[|rows| - 1].maker == maker then rows[|rows| - 1].quote else 0.0)
  }

  datatype Metrics = Metrics(buy: real, sell: real, ratio: real, cvd: real, count: nat,
                             first: Option<int>, last: Option<int>, seconds: int, ready: bool)

  /** `_window`. */
  function Window(rows: seq<Trade>, seconds: int, ready: bool): Metrics {
    var buy, sell := Quote(rows, false), Quote(rows, true);
    Metrics(buy, sell, if buy + sell > 0.0 then buy / (buy + sell) else 0.0, buy - sell, |rows|,
            if rows == [] then None else Some(rows[0].id), if rows == [] then None else Some(rows[|rows| - 1].id),
            seconds, ready)
  }

  const WINDOW_SECONDS: seq<int> := [15, 30, 60]

  lemma {:induction false} SinceOfOld(rows: seq<Trade>, floor: real)
    requires forall i :: 0 <= i < |rows| ==> rows[i].received < floor
    ensures Since(rows, floor) == []
  {
    if rows != [] {
      SinceOfOld(rows[..|rows| - 1], floor);
    }
  }

  /** Rows too old for the window may be forgotten. */
  lemma {:induction false} SinceIgnoresOld(old_: seq<Trade>, rows: seq<Trade>, floor: real)
    requires forall i :: 0 <= i < |old_| ==> old_[i].received < floor
    ensures Since(old_ + rows, floor) == Since(rows, floor)
  {
    if rows == [] {
      assert old_ + rows == old_;
      SinceOfOld(old_, floor);
    } else {
      assert (old_ + rows)[..|old_ + rows| - 1] == old_ + rows[..|rows| - 1];
      SinceIgnoresOld(old_, rows[..|rows| - 1], floor);
    }
  }

  lemma {:induction false} SinceOfRecent(rows: seq<Trade>, floor: real)
    requires forall i :: 0 <= i < |rows| ==> rows[i].received >= floor
    ensures Since(rows, floor) == rows
  {
    if rows != [] {
      SinceOfRecent(rows[..|rows| - 1], floor);
      assert rows == rows[..|rows| - 1] + [rows[|rows| - 1]];
    }
  }

  /** Where the window of `floor` starts in sorted rows. */
  function StartOf(rows: seq<Trade>, floor: real): (k: nat)
    ensures k <= |rows|
    ensures forall i :: 0 <= i < k ==> rows[i].received < floor
    ensures k < |rows| ==> rows[k].received >= floor
  {
    if rows == [] || rows[0].received >= floor then 0 else 1 + StartOf(rows[1..], floor)
  }

  /** A window over sorted rows is a suffix of them. */
  lemma SinceIsSuffix(rows: seq<Trade>, floor: real)
    requires Sorted(rows)
    ensures Since(rows, floor) == rows[StartOf(rows, floor)..]
  {
    var k := StartOf(rows, floor);
    assert rows == rows[..k] + rows[k..];
    SinceIgnoresOld(rows[..k], rows[k..], floor);
    SinceOfRecent(rows[k..], floor);
  }

  lemma {:induction false} IdsCount(rows: seq<Trade>, i: nat)
    requires Consecutive(rows) && i < |rows|
    ensures rows[i].id == rows[0].id + i
  {
    if i > 0 {
      IdsCount(rows, i - 1);
    }
  }

  /** In a window of a gap-free history the ids leave no trade out. */
  lemma WindowIsGapFree(rows: seq<Trade>, floor: real, seconds: int, ready: bool)
    requires Sorted(rows) && Consecutive(rows)
    ensures
      var w := Window(Since(rows, floor), seconds, ready);
      w.count > 0 ==> w.first.Some? && w.last.Some? && w.count == w.last.value - w.first.value + 1
  {
    SinceIsSuffix(rows, floor);
    var k := StartOf(rows, floor);
    if k < |rows| {
      IdsCount(rows[k..], |rows| - k - 1);
    }
  }

  /** The deque is the history from `k` on, and what it dropped is too old. */
  ghost predicate Tail(history: seq<Trade>, trades: seq<Trade>, k: nat, floor: real) {
    && k <= |history| && trades == history[k..]
    && forall i :: 0 <= i < k ==> history[i].received < floor
  }

  lemma PopKeepsTail(history: seq<Trade>, trades: seq<Trade>, k: nat, floor: real)
    requires Tail(history, trades, k, floor) && trades != [] && trades[0].received < floor
    ensures Tail(history, trades[1..], k + 1, floor)
  {
  }

  lemma PushKeepsTail(history: seq<Trade>, trades: seq<Trade>, k: nat, floor: real, later: real, t: Trade)
    requires Tail(history, trades, k, floor) && floor <= later
    ensures Tail(history + [t], trades + [t], k, later)
  {
  }

  lemma FrontIsOldest(history: seq<Trade>, trades: seq<Trade>, k: nat, floor: real)
    requires Tail(history, trades, k, floor) && Sorted(history) && trades != [] && trades[0].received >= floor
    ensures forall i :: 0 <= i < |trades| ==> trades[i].received >= floor
  {
    assert forall i :: 0 <= i < |trades| ==> trades[i] == history[k + i];
  }

  /** What is known about one sample: the trades accepted since the last reset. */
  ghost predicate Sample(history: seq<Trade>, lastId: Option<int>, started: Option<real>, clock: real) {
    && Sorted(history) && Consecutive(history)
    && (forall i :: 0 <= i < |history| ==> history[i].received <= clock)
    && (lastId == if history == [] then None else Some(history[|history| - 1].id))
    && (started.None? ==> history == [])
    && (started.Some? ==> started.value <= clock && forall i :: 0 <= i < |history| ==> history[i].received >= started.value)
  }

  /** What came before the last reset lies at or before the start of the sample. */
  ghost predicate Earlier(before: seq<Trade>, resets: seq<real>, started: Option<real>) {
    if started.None? then before == [] && resets == []
    else (forall k :: 0 <= k < |resets| ==> resets[k] <= started.value)
         && (forall i :: 0 <= i < |before| ==> before[i].received <= started.value)
  }

  lemma TimePasses(history: seq<Trade>, lastId: Option<int>, started: Option<real>, trades: seq<Trade>, k: nat,
                   clock: real, now: real)
    requires Sample(history, lastId, started, clock) && Tail(history, trades, k, clock - 60.0) && clock <= now
    ensures Sample(history, lastId, started, now) && Tail(history, trades, k, now - 60.0)
  {
  }

  lemma SampleGrows(history: seq<Trade>, lastId: Option<int>, started: Option<real>, clock: real, now: real, t: Trade)
    requires Sample(history, lastId, started, clock) && clock <= now && started.Some? && t.received == now
    requires lastId.Some? ==> t.id == lastId.value + 1
    ensures Sample(history + [t], Some(t.id), started, now)
  {
  }

  lemma ResetKeepsEarlier(before: seq<Trade>, history: seq<Trade>, resets: seq<real>, lastId: Option<int>,
                          started: Option<real>, clock: real, now: real)
    requires Earlier(before, resets, started) && Sample(history, lastId, started, clock) && clock <= now
    ensures Earlier(before + history, resets + [now], Some(now))
  {
  }

  /** A window whose time has been up since before it began was not interrupted. */
  ghost predicate Whole(before: seq<Trade>, resets: seq<real>, floor: real) {
    && (forall k :: 0 <= k < |resets| ==> resets[k] <= floor)
    && (forall i :: 0 <= i < |before| ==> before[i].received <= floor)
  }

  /** A window measured now is the aggregate over the whole accepted history,
      leaves no aggregate id out, and is ready only if it was not interrupted. */
  ghost predicate Exact(m: Metrics, history: seq<Trade>, before: seq<Trade>, resets: seq<real>, now: real, seconds: int) {
    && m == Window(Since(history, now - seconds as real), seconds, m.ready)
    && (m.ready ==> Whole(before, resets, now - seconds as real))
    && (m.count > 0 ==> m.first.Some? && m.last.Some? && m.count == m.last.value - m.first.value + 1)
  }

  function TradeOf(e: TradeEvent, now: real): Trade {
    Trade(e.id, now, e.time, e.price * e.quantity, e.maker)
  }

  datatype TradeEvent = TradeEvent(id: int, price: real, quantity: real, time: int, maker: bool, symbol: Option<string>)

  datatype Ingested = Accepted | Ignored | Invalid

  datatype Snapshot = Snapshot(live: bool, ready: bool, windows: seq<Metrics>)

  class SpotMarketStream {
    const staleAfter: int
    var symbol: string
    var trades: seq<Trade>
    var book: Option<Book>
    var started: Option<real>
    var lastMessage: Option<real>
    var lastId: Option<int>
    var duplicates: nat
    var gaps: nat
    var connected: bool
    var generation: nat
    // the monotonic clock, all trades accepted since the last reset, those
    // accepted before it, and the moments the sample was reset
    ghost var clock: real
    ghost var history: seq<Trade>
    ghost var before: seq<Trade>
    ghost var resets: seq<real>
    ghost var dropped: nat

    ghost predicate Valid()
      reads this
    {
      && Sample(history, lastId, started, clock) && Earlier(before, resets, started)
      && Tail(history, trades, dropped, clock - 60.0)
    }

    constructor (staleAfter: int, now: real)
      ensures Valid() && history == [] && resets == [] && clock == now && generation == 0
    {
      this.staleAfter := staleAfter;
      symbol, trades, book, started, lastMessage, lastId := "", [], None, None, None, None;
      duplicates, gaps, connected, generation := 0, 0, false, 0;
      clock, history, before, resets, dropped := now, [], [], [], 0;
    }

    /** `_reset_sample`. */
    method ResetSample(now: real)
      requires Valid() && clock <= now
      modifies this
      ensures Valid() && clock == now && trades == [] && history == [] && started == Some(now) && lastId.None?
      ensures before == old(before) + old(history) && resets == old(resets) + [now]
      ensures unchanged(`symbol, `duplicates, `gaps, `connected, `generation) && book.None? && lastMessage.None?
    {
      ResetKeepsEarlier(before, history, resets, lastId, started, clock, now);
      trades, book, started, lastMessage, lastId := [], None, Some(now), None, None;
      before, history, resets, clock, dropped := before + history, [], resets + [now], now, 0;
    }

    /** `_prune`. */
    method Prune(now: real)
      requires Valid() && clock <= now
      modifies `trades, `clock, `dropped
      ensures Valid() && clock == now
      ensures forall i :: 0 <= i < |trades| ==> trades[i].received >= now - 60.0
    {
      TimePasses(history, lastId, started, trades, dropped, clock, now);
      clock := now;
      while trades != [] && trades[0].received < now - 60.0
        invariant clock == now && Tail(history, trades, dropped, now - 60.0)
        decreases |trades|
      {
        PopKeepsTail(history, trades, dropped, now - 60.0);
        trades, dropped := trades[1..], dropped + 1;
      }
      if trades != [] {
        FrontIsOldest(history, trades, dropped, now - 60.0);
      }
    }

    /** `_on_open`: a reconnection starts a new sample. */
    method OnOpen(now: real, gen: nat, first: bool)
      requires Valid() && clock <= now
      modifies this
      ensures Valid()
      ensures gen == old(generation) && !first ==>
                connected && history == [] && started == Some(now) && resets == old(resets) + [now]
      ensures gen == old(generation) && first ==> connected && history == old(history) && resets == old(resets)
      ensures gen != old(generation) ==> connected == old(connected) && history == old(history) && resets == old(resets)
    {
      if gen != generation {
        return;
      }
      connected := true;
      if !first {
        ResetSample(now);
      }
    }

    /** `ensure_symbol`: a new symbol starts a new generation and a new sample. */
    method EnsureSymbol(now: real, name: string, running: bool)
      requires Valid() && clock <= now
      modifies this
      ensures Valid()
      ensures old(symbol) == name && running ==> generation == old(generation) && history == old(history)
      ensures old(symbol) != name || !running ==>
                generation == old(generation) + 1 && symbol == name && !connected && history == [] && resets == old(resets) + [now]
    {
      if symbol == name && running {
        return;
      }
      generation := generation + 1;
      symbol, connected := name, false;
      ResetSample(now);
    }

    /** `ingest_trade`: a repeat is ignored, a gap starts a new sample. */
    method IngestTrade(e: TradeEvent, now: real, gen: Option<nat>) returns (r: Ingested)
      requires Valid() && clock <= now
      modifies this
      ensures Valid()
      ensures !r.Accepted? ==> history == old(history) && resets == old(resets) && before == old(before)
      ensures r.Accepted? ==>
                && clock == now && lastId == Some(e.id)
                && history == (if old(lastId).Some? && e.id != old(lastId).value + 1 then [] else old(history)) +
                              [TradeOf(e, now)]
      ensures r.Accepted? && old(lastId).Some? ==>
                e.id > old(lastId).value && gaps == old(gaps) + (if e.id == old(lastId).value + 1 then 0 else 1)
      ensures r.Ignored? && (gen.None? || gen.value == old(generation)) ==>
                old(lastId).Some? && e.id <= old(lastId).value && duplicates == old(duplicates) + 1
    {
      if e.id < 0 || e.time <= 0 || e.price <= 0.0 || e.quantity <= 0.0 {
        return Invalid;
      }
      if gen.Some? && gen.value != generation {
        return Ignored;
      }
      if e.symbol.Some? && e.symbol.value != symbol {
        return Invalid;
      }
      r := IngestValid(TradeOf(e, now), now);
    }

    method IngestValid(t: Trade, now: real) returns (r: Ingested)
      requires Valid() && clock <= now && t.received == now
      modifies this
      ensures Valid() && !r.Invalid?
      ensures r.Ignored? <==> old(lastId).Some? && t.id <= old(lastId).value
      ensures r.Ignored? ==>
                history == old(history) && resets == old(resets) && before == old(before) && duplicates == old(duplicates) + 1
      ensures r.Accepted? ==>
                var gap := old(lastId).Some? && t.id != old(lastId).value + 1;
                && clock == now && lastId == Some(t.id)
                && history == (if gap then [] else old(history)) + [t]
                && gaps == old(gaps) + (if gap then 1 else 0)
    {
      Begin(now);
      if lastId.Some? && t.id <= lastId.value {
        duplicates := duplicates + 1;
        return Ignored;
      }
      Accept(t, now);
      return Accepted;
    }

    /** A trade that does not follow the last one starts a new sample. */
    method Accept(t: Trade, now: real)
      requires Valid() && clock <= now && started.Some? && t.received == now
      modifies this
      ensures Valid() && clock == now && lastId == Some(t.id)
      ensures
        var gap := old(lastId).Some? && t.id != old(lastId).value + 1;
        && history == (if gap then [] else old(history)) + [t]
        && gaps == old(gaps) + (if gap then 1 else 0)
    {
      if lastId.Some? && t.id != lastId.value + 1 {
        gaps := gaps + 1;
        ResetSample(now);
      }
      Append(t, now);
    }

    /** `ingest_book`: a crossed book is refused; trades are left alone. */
    method IngestBook(bid: real, ask: real, name: Option<string>, now: real, gen: Option<nat>) returns (r: Ingested)
      requires Valid() && clock <= now
      modifies `book, `lastMessage
      ensures Valid()
      ensures r.Accepted? <==> 0.0 < bid < ask && (gen.None? || gen.value == generation) && (name.None? || name.value == symbol)
      ensures if r.Accepted? then book == Some(Book(bid, ask, now)) && lastMessage == Some(now)
              else book == old(book) && lastMessage == old(lastMessage)
    {
      if bid <= 0.0 || ask <= 0.0 || bid >= ask {
        return Invalid;
      }
      if gen.Some? && gen.value != generation {
        return Ignored;
      }
      if name.Some? && name.value != symbol {
        return Invalid;
      }
      book, lastMessage := Some(Book(bid, ask, now)), Some(now);
      return Accepted;
    }

    /** `_on_pong`. */
    method OnPong(now: real, gen: nat)
      requires Valid() && clock <= now
      modifies `lastMessage
      ensures Valid() && lastMessage == if gen == generation then Some(now) else old(lastMessage)
    {
      if gen == generation {
        lastMessage := Some(now);
      }
    }

    /** `_on_close`. */
    method OnClose(gen: nat)
      requires Valid()
      modifies `connected
      ensures Valid() && connected == (gen != generation && old(connected))
    {
      if gen == generation {
        connected := false;
      }
    }

    method Begin(now: real)
      requires Valid() && clock <= now
      modifies `started, `clock
      ensures Valid() && started.Some? && clock <= now
    {
      if started.None? {
        started, clock := Some(now), now;
      }
    }

    method Append(t: Trade, now: real)
      requires Valid() && clock <= now && started.Some? && t.received == now
      requires lastId.Some? ==> t.id == lastId.value + 1
      modifies `trades, `lastId, `lastMessage, `history, `clock, `dropped
      ensures Valid() && clock == now && history == old(history) + [t] && lastId == Some(t.id)
    {
      SampleGrows(history, lastId, started, clock, now, t);
      PushKeepsTail(history, trades, dropped, clock - 60.0, now - 60.0, t);
      trades := trades + [t];
      history := history + [t];
      lastId, lastMessage, clock := Some(t.id), Some(now), now;
      Prune(now);
    }

    /** Both a window of the deque and the simple window over the history. */
    lemma WindowsAgree(now: real, seconds: int)
      requires Valid() && clock == now && 0 < seconds <= 60
      ensures Since(trades, now - seconds as real) == Since(history, now - seconds as real)
    {
      assert history == history[..dropped] + trades;
      SinceIgnoresOld(history[..dropped], trades, now - seconds as real);
    }

    method Measure(now: real, seconds: int) returns (m: Metrics)
      requires Valid() && clock == now && 0 < seconds <= 60
      ensures Exact(m, history, before, resets, now, seconds)
      ensures m.ready <==> started.Some? && now - started.value >= seconds as real
    {
      WindowsAgree(now, seconds);
      var ready := started.Some? && now - started.value >= seconds as real;
      WindowIsGapFree(history, now - seconds as real, seconds, ready);
      m := Window(Since(trades, now - seconds as real), seconds, ready);
    }

    method MeasureAll(now: real) returns (windows: seq<Metrics>)
      requires Valid() && clock == now
      ensures |windows| == 3 && forall i :: 0 <= i < 3 ==> Exact(windows[i], history, before, resets, now, WINDOW_SECONDS[i])
    {
      windows := [];
      while |windows| < 3
        invariant |windows| <= 3
        invariant forall i :: 0 <= i < |windows| ==> Exact(windows[i], history, before, resets, now, WINDOW_SECONDS[i])
        decreases 3 - |windows|
      {
        var m := Measure(now, WINDOW_SECONDS[|windows|]);
        windows := windows + [m];
      }
    }

    /** Connected, with a recent message and a recent book. */
    predicate Live(now: real)
      reads this
    {
      && connected && lastMessage.Some? && now - lastMessage.value <= staleAfter as real
      && book.Some? && now - book.value.received <= staleAfter as real
    }

    /** `snapshot`. */
    method TakeSnapshot(now: real) returns (s: Snapshot)
      requires Valid() && clock <= now
      modifies `trades, `clock, `dropped
      ensures Valid() && clock == now
      ensures |s.windows| == 3 && forall i :: 0 <= i < 3 ==> Exact(s.windows[i], history, before, resets, now, WINDOW_SECONDS[i])
      ensures s.ready <==> s.live && s.windows[2].ready && s.windows[2].count > 0
      ensures s.live <==> Live(now)
    {
      Prune(now);
      var windows := MeasureAll(now);
      var live := Live(now);
      s := Snapshot(live, live && windows[2].ready && windows[2].count > 0, windows);
    }
  }
}
