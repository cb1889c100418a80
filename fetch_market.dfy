/**
 * The daily market snapshot of scripts/fetch-market.js: one quote per
 * symbol, a fallback to the previous snapshot or the baseline for each symbol
 * whose quote is missing, the baselines carried forward, and the last 30
 * dates of all symbols' histories merged into one table with a value for
 * every symbol on every date.
 *
 * Prices are integers counted in thousandths, the precision the script
 * rounds every price to; a date is the `YYYY-MM-DD` string of a day.
 */
module FetchMarket {
  import opened Wrappers
  import opened StringOrder

  /** A JSON number, or `undefined` / `null`. */
  type Val = Option<int>

  /** JavaScript truthiness of a number: present and not zero. */
  predicate Truthy(v: Val) {
    v.Some? && v.value != 0
  }

  /** `a || b` on numbers. */
  function Or(a: Val, b: Val): (r: Val)
    ensures r == a || r == b
    ensures Truthy(a) ==> r == a
    ensures Truthy(r) <==> Truthy(a) || Truthy(b)
  {
    if Truthy(a) then a else b
  }

  /** `m[k]` on an object of numbers, `undefined` when the key is absent. */
  function Get(m: map<string, Val>, k: string): (v: Val)
    ensures v.Some? ==> k in m && m[k] == v
  {
    if k in m then m[k] else None
  }

  /** `m?.[k]` on an object that may itself be missing. */
  function Lookup(m: Option<map<string, Val>>, k: string): (v: Val)
    ensures v.Some? ==> m.Some? && Get(m.value, k) == v
  {
    match m
    case None => None
    case Some(o) => Get(o, k)
  }

  // ---------------------------------------------------------------------
  // getQuote

  /** One day of a symbol's history. */
  datatype Point = Point(date: string, value: int)

  /** `result.meta` of a chart response. */
  datatype Meta = Meta(regularMarketPrice: Val, previousClose: Val)

  /**
   * `result` of a chart response: its `meta` (missing makes `getQuote`
   * throw), the `timestamp` array and the first quote's `close` array, an
   * absent array being empty.
   */
  datatype Chart = Chart(meta: Option<Meta>, timestamps: seq<int>, closes: seq<Val>)

  /** What `fetchJSON` delivers: nothing (an error), or the `chart.result` array. */
  datatype Response = Failed | Received(result: seq<Chart>)

  /** `{ current, history }` as `getQuote` returns it. */
  datatype Quote = Quote(current: Val, history: seq<Point>)

  /** `closes[i]`, `undefined` past the end of the array. */
  function Close(closes: seq<Val>, i: nat): (v: Val)
    ensures v.Some? ==> i < |closes| && closes[i] == v
  {
    if i < |closes| then closes[i] else None
  }

  /** The history `getQuote` has built after the first `n` timestamps. */
  function HistoryUpTo(c: Chart, day: int -> string, n: nat): (h: seq<Point>)
    requires n <= |c.timestamps|
    ensures |h| <= n
    decreases n
  {
    if n == 0 then []
    else
      var h := HistoryUpTo(c, day, n - 1);
      match Close(c.closes, n - 1)
      case Some(v) => h + [Point(day(c.timestamps[n - 1]), v)]
      case None => h
  }

  /** The indices below `n` whose close is present, in increasing order. */
  function KeptIndices(closes: seq<Val>, n: nat): (ks: seq<nat>)
    ensures |ks| <= n
    ensures forall k :: 0 <= k < |ks| ==> ks[k] < n && Close(closes, ks[k]).Some?
    ensures forall k, l :: 0 <= k < l < |ks| ==> ks[k] < ks[l]
    ensures forall i :: 0 <= i < n && Close(closes, i).Some? ==> i in ks
    decreases n
  {
    if n == 0 then []
    else KeptIndices(closes, n - 1) + (if Close(closes, n - 1).Some? then [n - 1] else [])
  }

  /**
   * The history has exactly one point per timestamp whose close is present,
   * in timestamp order, dated by that timestamp and valued by that close.
   */
  lemma {:induction false} HistoryFollowsCloses(c: Chart, day: int -> string, n: nat)
    requires n <= |c.timestamps|
    ensures var h := HistoryUpTo(c, day, n);
      var ks := KeptIndices(c.closes, n);
      |h| == |ks| &&
      forall k :: 0 <= k < |ks| ==> h[k] == Point(day(c.timestamps[ks[k]]), Close(c.closes, ks[k]).value)
    decreases n
  {
    if n > 0 {
      HistoryFollowsCloses(c, day, n - 1);
      var h, h' := HistoryUpTo(c, day, n - 1), HistoryUpTo(c, day, n);
      var ks, ks' := KeptIndices(c.closes, n - 1), KeptIndices(c.closes, n);
      match Close(c.closes, n - 1)
      case Some(v) =>
        assert h' == h + [Point(day(c.timestamps[n - 1]), v)];
        assert ks' == ks + [n - 1];
        forall k | 0 <= k < |ks'|
          ensures h'[k] == Point(day(c.timestamps[ks'[k]]), Close(c.closes, ks'[k]).value)
        {
          if k < |ks| {
            assert h'[k] == h[k] && ks'[k] == ks[k];
          }
        }
      case None =>
        assert h' == h && ks' == ks;
    }
  }

  /** `getQuote(symbol)` as a function of the response. */
  function QuoteOf(response: Response, day: int -> string): (q: Option<Quote>)
    ensures q.None? <==> response.Failed? || response.result == [] || response.result[0].meta.None?
    ensures q.Some? ==> |q.value.history| <= |response.result[0].timestamps|
  {
    match response
    case Failed => None
    case Received(result) =>
      if result == [] then None
      else
        match result[0].meta
        case None => None
        case Some(meta) =>
          Some(Quote(Or(meta.regularMarketPrice, meta.previousClose),
                     HistoryUpTo(result[0], day, |result[0].timestamps|)))
  }

  /**
   * `getQuote(symbol)`, given the response of its request and the calendar
   * day of each timestamp: null without a first chart result or its meta,
   * else the market price (or the previous close) and the history.
   */
  method GetQuote(response: Response, day: int -> string) returns (q: Option<Quote>)
    ensures q == QuoteOf(response, day)
  {
    if response.Failed? || response.result == [] {
      return None;
    }
    var result := response.result[0];
    if result.meta.None? {
      return None;
    }
    var lastClose := Or(result.meta.value.regularMarketPrice, result.meta.value.previousClose);
    var history: seq<Point> := [];
    var i := 0;
    while i < |result.timestamps|
      invariant 0 <= i <= |result.timestamps|
      invariant history == HistoryUpTo(result, day, i)
    {
      if i < |result.closes| && result.closes[i].Some? {
        history := history + [Point(day(result.timestamps[i]), result.closes[i].value)];
      }
      i := i + 1;
    }
    q := Some(Quote(lastClose, history));
  }

  // ---------------------------------------------------------------------
  // main: symbols, baselines, fallback

  /** `Object.keys(SYMBOLS)`, in declaration order. */
  const SymbolKeys: seq<string> := ["nikkei", "usdjpy", "brent", "copper", "jgb10y"]

  /** A character that can stand in a URL path segment as it is: an ASCII letter, a digit or `%`. */
  predicate PathSafe(c: char) {
    ('A' <= c <= 'Z') || ('a' <= c <= 'z') || ('0' <= c <= '9') || c == '%'
  }

  /**
   * `SYMBOLS[key]`: the quoted symbol requested for each key. Each is already
   * percent-encoded, so splicing it into the request path adds no `/`, `?`
   * or `#`.
   */
  function Symbol(key: string): (r: string)
    ensures r != [] && forall i :: 0 <= i < |r| ==> PathSafe(r[i])
  {
    if key == "nikkei" then "%5EN225"
    else if key == "usdjpy" then "USDJPY%3DX"
    else if key == "brent" then "BZ%3DF"
    else if key == "copper" then "HG%3DF"
    else "%5EIRXX"
  }

  /** Each key requests a symbol of its own, so no two quotes answer the same request. */
  lemma SymbolsDistinct(k1: string, k2: string)
    requires k1 in SymbolKeys && k2 in SymbolKeys && k1 != k2
    ensures Symbol(k1) != Symbol(k2)
  {
  }

  /** The baselines used when the previous snapshot has none. */
  const DefaultBase: map<string, Val> :=
    map["nikkei" := Some(27500000), "usdjpy" := Some(131000), "brent" := Some(95000),
        "copper" := Some(4300), "jgb10y" := Some(200)]

  const DefaultBaseDate := "2026-02-18"

  /** How many dates the merged history keeps. */
  const HistoryDays := 30

  /** One merged history row: a date and a value per symbol key. */
  datatype Entry = Entry(date: string, values: map<string, Val>)

  /** `data/latest.json`, as far as this script reads or writes it. */
  datatype Snapshot = Snapshot(
    baseDate: Option<string>,
    baseValues: Option<map<string, Val>>,
    currentValues: Option<map<string, Val>>,
    history30d: seq<Entry>)

  /** The previous snapshot when the file is missing or unreadable: `{}`. */
  const NoSnapshot := Snapshot(None, None, None, [])

  /** `existing.baseValues || {…defaults}`. */
  function Baselines(existing: Snapshot): (base: map<string, Val>)
    ensures existing.baseValues.Some? ==> base == existing.baseValues.value
    ensures existing.baseValues.None? ==> base == DefaultBase
  {
    existing.baseValues.GetOr(DefaultBase)
  }

  /** `existing.baseDate || '2026-02-18'`: never empty. */
  function BaseDate(existing: Snapshot): (d: string)
    ensures d != ""
    ensures existing.baseDate.Some? && existing.baseDate.value != "" ==> d == existing.baseDate.value
  {
    if existing.baseDate.Some? && existing.baseDate.value != "" then existing.baseDate.value
    else DefaultBaseDate
  }

  /** What one symbol contributes: its current value and its history. */
  datatype Outcome = Outcome(current: Val, history: seq<Point>)

  /** Whether the quote counts as fetched: present with a truthy current value. */
  predicate Fetched(q: Option<Quote>) {
    q.Some? && Truthy(q.value.current)
  }

  /**
   * One turn of the symbol loop: the fetched value and history, or else the
   * previous current value if truthy, the baseline otherwise, and no history.
   */
  function Resolve(q: Option<Quote>, prior: Option<map<string, Val>>, base: map<string, Val>, key: string): (r: Outcome)
    ensures Fetched(q) ==> r.current == q.value.current && r.history == q.value.history
    ensures !Fetched(q) ==> r.history == []
    ensures !Fetched(q) && Truthy(Lookup(prior, key)) ==> r.current == Lookup(prior, key)
    ensures !Fetched(q) && !Truthy(Lookup(prior, key)) ==> r.current == Get(base, key)
    ensures Truthy(r.current) <==> Fetched(q) || Truthy(Lookup(prior, key)) || Truthy(Get(base, key))
  {
    if Fetched(q) then Outcome(q.value.current, q.value.history)
    else Outcome(Or(Lookup(prior, key), Get(base, key)), [])
  }

  /** The outcome for `key`, whose quote comes from `fetch` of its symbol. */
  function OutcomeFor(key: string, existing: Snapshot, base: map<string, Val>,
                      fetch: string -> Response, day: int -> string): Outcome
  {
    Resolve(QuoteOf(fetch(Symbol(key)), day), existing.currentValues, base, key)
  }

  /** `results` once the loop has visited `keys`. */
  function CurrentsOver(keys: seq<string>, existing: Snapshot, base: map<string, Val>,
                        fetch: string -> Response, day: int -> string): map<string, Val>
  {
    map k | k in keys :: OutcomeFor(k, existing, base, fetch, day).current
  }

  /** `history30d` once the loop has visited `keys`. */
  function HistoriesOver(keys: seq<string>, existing: Snapshot, base: map<string, Val>,
                         fetch: string -> Response, day: int -> string): map<string, seq<Point>>
  {
    map k | k in keys :: OutcomeFor(k, existing, base, fetch, day).history
  }

  /** Visiting one more key records exactly that key's outcome. */
  lemma OverSnoc(keys: seq<string>, key: string, existing: Snapshot, base: map<string, Val>,
                 fetch: string -> Response, day: int -> string)
    ensures var o := OutcomeFor(key, existing, base, fetch, day);
      CurrentsOver(keys + [key], existing, base, fetch, day) == CurrentsOver(keys, existing, base, fetch, day)[key := o.current] &&
      HistoriesOver(keys + [key], existing, base, fetch, day) == HistoriesOver(keys, existing, base, fetch, day)[key := o.history]
  {
  }

  /** `results` after the symbol loop. */
  function Currents(existing: Snapshot, base: map<string, Val>,
                    fetch: string -> Response, day: int -> string): map<string, Val>
  {
    CurrentsOver(SymbolKeys, existing, base, fetch, day)
  }

  /** `history30d` after the symbol loop. */
  function Histories(existing: Snapshot, base: map<string, Val>,
                     fetch: string -> Response, day: int -> string): map<string, seq<Point>>
  {
    HistoriesOver(SymbolKeys, existing, base, fetch, day)
  }

  /** The `for (const [key, symbol] of Object.entries(SYMBOLS))` loop. */
  method ResolveSymbols(existing: Snapshot, base: map<string, Val>,
                        fetch: string -> Response, day: int -> string)
    returns (results: map<string, Val>, history30d: map<string, seq<Point>>)
    ensures results == Currents(existing, base, fetch, day)
    ensures history30d == Histories(existing, base, fetch, day)
  {
    results := map[];
    history30d := map[];
    for i := 0 to |SymbolKeys|
      invariant results == CurrentsOver(SymbolKeys[..i], existing, base, fetch, day)
      invariant history30d == HistoriesOver(SymbolKeys[..i], existing, base, fetch, day)
    {
      var key := SymbolKeys[i];
      var q := GetQuote(fetch(Symbol(key)), day);
      ghost var o := OutcomeFor(key, existing, base, fetch, day);
      assert o == Resolve(q, existing.currentValues, base, key);
      OverSnoc(SymbolKeys[..i], key, existing, base, fetch, day);
      assert SymbolKeys[..i + 1] == SymbolKeys[..i] + [key];
      if q.Some? && Truthy(q.value.current) {
        results := results[key := q.value.current];
        history30d := history30d[key := q.value.history];
      } else {
        var fallback := Or(Lookup(existing.currentValues, key), Get(base, key));
        assert fallback == o.current;
        results := results[key := fallback];
        history30d := history30d[key := []];
      }
    }
    assert SymbolKeys[..|SymbolKeys|] == SymbolKeys;
  }

  // ---------------------------------------------------------------------
  // main: the set of dates

  /** The dates of a history. */
  function DatesOf(ps: seq<Point>): set<string> {
    set p | p in ps :: p.date
  }

  /** The dates of all histories. */
  function AllDates(hs: seq<seq<Point>>): set<string> {
    set i, p | 0 <= i < |hs| && p in hs[i] :: p.date
  }

  /** `allDates.add(date)` on a set kept in insertion order. */
  function AddDate(dates: seq<string>, date: string): (r: seq<string>)
    ensures forall x :: x in r <==> x in dates || x == date
    ensures Distinct(dates) ==> Distinct(r)
  {
    if date in dates then dates else dates + [date]
  }

  /** `allDates` after adding the dates of `ps`, in order. */
  function AddDates(dates: seq<string>, ps: seq<Point>): (r: seq<string>)
    ensures forall x :: x in r <==> x in dates || x in DatesOf(ps)
    ensures Distinct(dates) ==> Distinct(r)
  {
    if ps == [] then dates
    else
      var init := ps[..|ps| - 1];
      assert ps == init + [ps[|ps| - 1]];
      assert DatesOf(ps) == DatesOf(init) + {ps[|ps| - 1].date};
      AddDate(AddDates(dates, init), ps[|ps| - 1].date)
  }

  /** `allDates` after visiting every history of `hs`, in order. */
  function Gathered(hs: seq<seq<Point>>): (r: seq<string>)
    ensures Distinct(r)
    ensures forall x :: x in r <==> x in AllDates(hs)
  {
    if hs == [] then []
    else
      var init := hs[..|hs| - 1];
      assert AllDates(hs) == AllDates(init) + DatesOf(hs[|hs| - 1]);
      AddDates(Gathered(init), hs[|hs| - 1])
  }

  /** `Object.values(history30d).forEach(arr => arr.forEach(d => allDates.add(d.date)))`. */
  method CollectDates(hs: seq<seq<Point>>) returns (dates: seq<string>)
    ensures dates == Gathered(hs)
  {
    dates := [];
    for i := 0 to |hs|
      invariant dates == Gathered(hs[..i])
    {
      var ps := hs[i];
      for j := 0 to |ps|
        invariant dates == AddDates(Gathered(hs[..i]), ps[..j])
      {
        assert ps[..j + 1][..j] == ps[..j];
        dates := AddDate(dates, ps[j].date);
      }
      assert ps[..|ps|] == ps;
      assert hs[..i + 1][..i] == hs[..i];
    }
    assert hs[..|hs|] == hs;
  }

  /** `Object.values(history30d)`, in key order. */
  function HistoryList(h: map<string, seq<Point>>): (r: seq<seq<Point>>)
    ensures |r| == |SymbolKeys|
    ensures forall i :: 0 <= i < |r| && SymbolKeys[i] !in h ==> r[i] == []
  {
    seq(|SymbolKeys|, i requires 0 <= i < |SymbolKeys| =>
      if SymbolKeys[i] in h then h[SymbolKeys[i]] else [])
  }

  /**
   * A date is among those gathered from `HistoryList(h)` exactly when some
   * key's history in `h` has a point on it; keys outside the symbols add none.
   */
  lemma HistoryListDates(h: map<string, seq<Point>>, x: string)
    ensures x in AllDates(HistoryList(h)) <==>
      exists k :: k in SymbolKeys && k in h && x in DatesOf(h[k])
  {
    var hs := HistoryList(h);
    if x in AllDates(hs) {
      var i: int, p: Point :| 0 <= i < |hs| && p in hs[i] && p.date == x;
      assert SymbolKeys[i] in SymbolKeys && SymbolKeys[i] in h && x in DatesOf(h[SymbolKeys[i]]);
    }
    if exists k :: k in SymbolKeys && k in h && x in DatesOf(h[k]) {
      var k :| k in SymbolKeys && k in h && x in DatesOf(h[k]);
      var i :| 0 <= i < |SymbolKeys| && SymbolKeys[i] == k;
      var p: Point :| p in h[k] && p.date == x;
      assert p in hs[i];
    }
  }

  /** `[...allDates].sort().slice(-30)`. */
  function KeptDates(h: map<string, seq<Point>>): (r: seq<string>)
    ensures |r| <= HistoryDays
  {
    Last(HistoryDays, Sort(Gathered(HistoryList(h))))
  }

  // ---------------------------------------------------------------------
  // main: the merged history

  /** `arr.find(d => d.date === date)`, as the index of the first match. */
  function FindFirst(ps: seq<Point>, date: string): (r: Option<nat>)
    ensures r.Some? ==>
      r.value < |ps| && ps[r.value].date == date && (forall j :: 0 <= j < r.value ==> ps[j].date != date)
    ensures r.None? ==> forall j :: 0 <= j < |ps| ==> ps[j].date != date
  {
    if ps == [] then None
    else if ps[0].date == date then Some(0)
    else
      match FindFirst(ps[1..], date)
      case None => None
      case Some(i) => Some(i + 1)
  }

  /**
   * `entry[key]`: the value of the first point of the key's history on that
   * date, or else the key's current result, or the baseline if that is falsy.
   */
  function Fill(h: map<string, seq<Point>>, results: map<string, Val>, base: map<string, Val>,
                key: string, date: string): (v: Val)
    ensures (key in h && exists j :: 0 <= j < |h[key]| && h[key][j].date == date) ==>
      v.Some? &&
      exists j :: 0 <= j < |h[key]| && h[key][j].date == date && h[key][j].value == v.value &&
        (forall l :: 0 <= l < j ==> h[key][l].date != date)
    ensures !(key in h && exists j :: 0 <= j < |h[key]| && h[key][j].date == date) ==>
      v == Or(Get(results, key), Get(base, key))
  {
    var found := if key in h then FindFirst(h[key], date) else None;
    if found.Some? then Some(h[key][found.value].value)
    else Or(Get(results, key), Get(base, key))
  }

  /** The values a row holds once the keys `keys` are filled in. */
  function ValuesOver(keys: seq<string>, date: string, h: map<string, seq<Point>>,
                      results: map<string, Val>, base: map<string, Val>): map<string, Val>
  {
    map k | k in keys :: Fill(h, results, base, k, date)
  }

  /** Filling in one more key sets exactly that key. */
  lemma ValuesSnoc(keys: seq<string>, key: string, date: string, h: map<string, seq<Point>>,
                   results: map<string, Val>, base: map<string, Val>)
    ensures ValuesOver(keys + [key], date, h, results, base)
      == ValuesOver(keys, date, h, results, base)[key := Fill(h, results, base, key, date)]
  {
  }

  /** The row `sortedDates.map` builds for one date. */
  function EntryFor(date: string, h: map<string, seq<Point>>,
                    results: map<string, Val>, base: map<string, Val>): Entry
  {
    Entry(date, ValuesOver(SymbolKeys, date, h, results, base))
  }

  /** The rows for all dates, in the same order. */
  function MergedFor(dates: seq<string>, h: map<string, seq<Point>>,
                     results: map<string, Val>, base: map<string, Val>): seq<Entry>
  {
    seq(|dates|, i requires 0 <= i < |dates| => EntryFor(dates[i], h, results, base))
  }

  /** The callback of `sortedDates.map`: one row, filled key by key. */
  method MergeEntry(date: string, h: map<string, seq<Point>>,
                    results: map<string, Val>, base: map<string, Val>) returns (entry: Entry)
    ensures entry == EntryFor(date, h, results, base)
  {
    var values: map<string, Val> := map[];
    for i := 0 to |SymbolKeys|
      invariant values == ValuesOver(SymbolKeys[..i], date, h, results, base)
    {
      var key := SymbolKeys[i];
      ValuesSnoc(SymbolKeys[..i], key, date, h, results, base);
      assert SymbolKeys[..i + 1] == SymbolKeys[..i] + [key];
      var found := if key in h then FindFirst(h[key], date) else None;
      if found.Some? {
        values := values[key := Some(h[key][found.value].value)];
      } else {
        values := values[key := Or(Get(results, key), Get(base, key))];
      }
    }
    assert SymbolKeys[..|SymbolKeys|] == SymbolKeys;
    entry := Entry(date, values);
  }

  /** `sortedDates.map(...)`. */
  method Merge(dates: seq<string>, h: map<string, seq<Point>>,
               results: map<string, Val>, base: map<string, Val>) returns (merged: seq<Entry>)
    ensures merged == MergedFor(dates, h, results, base)
  {
    merged := [];
    for i := 0 to |dates|
      invariant merged == MergedFor(dates[..i], h, results, base)
    {
      var entry := MergeEntry(dates[i], h, results, base);
      merged := merged + [entry];
    }
    assert dates[..|dates|] == dates;
  }

  // ---------------------------------------------------------------------
  // main as a whole

  /** The snapshot `main` writes, as a function of the previous one and the responses. */
  function RunSpec(existing: Snapshot, fetch: string -> Response, day: int -> string): Snapshot {
    var base := Baselines(existing);
    var results := Currents(existing, base, fetch, day);
    var h := Histories(existing, base, fetch, day);
    Snapshot(Some(BaseDate(existing)), Some(base), Some(results),
             MergedFor(KeptDates(h), h, results, base))
  }

  /**
   * `main()` from reading the previous snapshot to building the output:
   * `fetch` answers the request for each symbol, `day` gives the calendar
   * day of a timestamp.
   */
  method Run(existing: Snapshot, fetch: string -> Response, day: int -> string) returns (out: Snapshot)
    ensures out == RunSpec(existing, fetch, day)
  {
    var base := Baselines(existing);
    var results, history30d := ResolveSymbols(existing, base, fetch, day);
    var allDates := CollectDates(HistoryList(history30d));
    var sortedDates := Last(HistoryDays, Sort(allDates));
    var merged := Merge(sortedDates, history30d, results, base);
    out := Snapshot(Some(BaseDate(existing)), Some(base), Some(results), merged);
  }

  // ---------------------------------------------------------------------
  // Properties of a run

  /** Only the empty sequence has no elements. */
  lemma ElementsEmpty(s: seq<string>)
    ensures (forall x :: x !in s) ==> s == []
  {
    if s != [] {
      assert s[0] in s;
    }
  }

  /**
   * The kept dates are strictly ascending and at most 30, all of them dates of
   * some symbol's history; every history date left out is earlier than every
   * kept one, and with fewer than 30 kept none is left out.
   */
  lemma KeptDatesGreatest(h: map<string, seq<Point>>)
    ensures var ds := KeptDates(h);
      var all := AllDates(HistoryList(h));
      |ds| <= HistoryDays && Ascending(ds) &&
      (forall y :: y in ds ==> y in all) &&
      (forall x, y :: x in all && x !in ds && y in ds ==> Less(x, y)) &&
      (|ds| < HistoryDays ==> forall x :: x in all ==> x in ds)
  {
    var g := Gathered(HistoryList(h));
    var s := Sort(g);
    SortDistinct(g);
    assert forall x :: x in s <==> x in g by {
      forall x
        ensures x in s <==> x in g
      {
        assert x in s <==> x in multiset(s);
        assert x in g <==> x in multiset(g);
      }
    }
    SortedDistinctAscending(s);
    LastGreatest(HistoryDays, s);
  }

  /** The merged history has one row per kept date, in the same order, each row complete. */
  lemma MergedRows(dates: seq<string>, h: map<string, seq<Point>>,
                   results: map<string, Val>, base: map<string, Val>)
    ensures var m := MergedFor(dates, h, results, base);
      |m| == |dates| &&
      forall i :: 0 <= i < |m| ==>
        m[i].date == dates[i] &&
        (forall k :: k in m[i].values <==> k in SymbolKeys) &&
        (forall k :: k in SymbolKeys ==> m[i].values[k] == Fill(h, results, base, k, dates[i]))
  {
  }

  /**
   * When every baseline is truthy, every cell of the merged history holds a
   * number: a history value, a truthy current result, or the baseline.
   */
  lemma MergedCellsDefined(dates: seq<string>, h: map<string, seq<Point>>,
                           results: map<string, Val>, base: map<string, Val>)
    requires forall k :: k in SymbolKeys ==> Truthy(Get(base, k))
    ensures var m := MergedFor(dates, h, results, base);
      forall i, k :: 0 <= i < |m| && k in SymbolKeys ==> k in m[i].values && m[i].values[k].Some?
  {
    MergedRows(dates, h, results, base);
  }

  /** The default baselines are all truthy. */
  lemma DefaultBaseTruthy()
    ensures forall k :: k in SymbolKeys ==> Truthy(Get(DefaultBase, k))
  {
  }

  /**
   * Without a baseline or a truthy result for a symbol, a date that symbol
   * has no point on gets an undefined cell, which `JSON.stringify` omits.
   */
  lemma UndefinedCell(h: map<string, seq<Point>>, results: map<string, Val>, base: map<string, Val>,
                      key: string, date: string)
    requires key in h ==> forall j :: 0 <= j < |h[key]| ==> h[key][j].date != date
    requires key !in base && !Truthy(Get(results, key))
    ensures Fill(h, results, base, key, date) == None
  {
  }

  /**
   * A run whose baselines are all truthy (the defaults are) writes a number
   * for every symbol on every merged date, and a truthy current value for
   * every symbol.
   */
  lemma RunCellsDefined(existing: Snapshot, fetch: string -> Response, day: int -> string)
    requires forall k :: k in SymbolKeys ==> Truthy(Get(Baselines(existing), k))
    ensures var out := RunSpec(existing, fetch, day);
      (forall i, k :: 0 <= i < |out.history30d| && k in SymbolKeys ==>
        k in out.history30d[i].values && out.history30d[i].values[k].Some?) &&
      (forall k :: k in SymbolKeys ==> Truthy(out.currentValues.value[k]))
  {
    var base := Baselines(existing);
    var h := Histories(existing, base, fetch, day);
    var results := Currents(existing, base, fetch, day);
    MergedCellsDefined(KeptDates(h), h, results, base);
    RunCurrentValues(existing, fetch, day);
  }

  /** A run without stored baselines uses the defaults, so its merged history is complete. */
  lemma DefaultRunCellsDefined(existing: Snapshot, fetch: string -> Response, day: int -> string)
    requires existing.baseValues.None?
    ensures var out := RunSpec(existing, fetch, day);
      forall i, k :: 0 <= i < |out.history30d| && k in SymbolKeys ==>
        k in out.history30d[i].values && out.history30d[i].values[k].Some?
  {
    DefaultBaseTruthy();
    RunCellsDefined(existing, fetch, day);
  }

  /**
   * The merged history's dates are strictly ascending and at most 30, each a
   * date of some symbol's history; a history date left out is earlier than
   * every merged one, and with fewer than 30 rows none is left out.
   */
  lemma MergedDates(h: map<string, seq<Point>>, results: map<string, Val>, base: map<string, Val>)
    ensures var m := MergedFor(KeptDates(h), h, results, base);
      var all := AllDates(HistoryList(h));
      |m| <= HistoryDays &&
      (forall i, j :: 0 <= i < j < |m| ==> Less(m[i].date, m[j].date)) &&
      (forall i :: 0 <= i < |m| ==> m[i].date in all) &&
      (forall x, i :: x in all && 0 <= i < |m| && (forall j :: 0 <= j < |m| ==> m[j].date != x) ==>
        Less(x, m[i].date)) &&
      (|m| < HistoryDays ==> forall x :: x in all ==> exists i :: 0 <= i < |m| && m[i].date == x)
  {
    var ds := KeptDates(h);
    KeptDatesGreatest(h);
    MergedRows(ds, h, results, base);
    var m := MergedFor(ds, h, results, base);
    forall x | |m| < HistoryDays && x in AllDates(HistoryList(h))
      ensures exists i :: 0 <= i < |m| && m[i].date == x
    {
      var j :| 0 <= j < |ds| && ds[j] == x;
      assert m[j].date == x;
    }
  }

  /**
   * A run writes the baselines it started from (the previous snapshot's, or
   * the defaults), whatever the responses were, so the next run starts from
   * them too.
   */
  lemma RunCarriesBaselines(existing: Snapshot, fetch: string -> Response, day: int -> string)
    ensures var out := RunSpec(existing, fetch, day);
      out.baseValues == Some(Baselines(existing)) && Baselines(out) == Baselines(existing)
  {
  }

  /** A run writes a current value for every key, and only for the keys: that key's outcome. */
  lemma RunCurrentValues(existing: Snapshot, fetch: string -> Response, day: int -> string)
    ensures var out := RunSpec(existing, fetch, day);
      var base := Baselines(existing);
      out.currentValues.Some? &&
      (forall k :: k in out.currentValues.value <==> k in SymbolKeys) &&
      (forall k :: k in SymbolKeys ==>
        out.currentValues.value[k] == OutcomeFor(k, existing, base, fetch, day).current)
  {
  }

  /** Changing the response for other symbols changes nothing about this key. */
  lemma KeyIndependent(existing: Snapshot, fetch1: string -> Response, fetch2: string -> Response,
                       day: int -> string, key: string)
    requires key in SymbolKeys && fetch1(Symbol(key)) == fetch2(Symbol(key))
    ensures var base := Baselines(existing);
      Currents(existing, base, fetch1, day)[key] == Currents(existing, base, fetch2, day)[key] &&
      Histories(existing, base, fetch1, day)[key] == Histories(existing, base, fetch2, day)[key]
  {
  }

  /** `x || b || b` is `x || b`. */
  lemma OrAbsorb(a: Val, b: Val)
    ensures Or(Or(a, b), b) == Or(a, b)
  {
  }

  /**
   * The snapshot an offline run writes: the previous current values, or the
   * baselines where those are falsy, and no history.
   */
  function OfflineSnapshot(existing: Snapshot): Snapshot {
    var base := Baselines(existing);
    Snapshot(Some(BaseDate(existing)), Some(base),
             Some(map k | k in SymbolKeys :: Or(Lookup(existing.currentValues, k), Get(base, k))), [])
  }

  /** With every request failing, a run writes the offline snapshot. */
  lemma OfflineRun(existing: Snapshot, fetch: string -> Response, day: int -> string)
    requires forall s :: fetch(s).Failed?
    ensures RunSpec(existing, fetch, day) == OfflineSnapshot(existing)
  {
    var base := Baselines(existing);
    var h := Histories(existing, base, fetch, day);
    var results := Currents(existing, base, fetch, day);
    OfflineHistoryEmpty(existing, base, fetch, day);
    assert MergedFor(KeptDates(h), h, results, base) == [];
    var fallback := map k | k in SymbolKeys :: Or(Lookup(existing.currentValues, k), Get(base, k));
    forall k | k in SymbolKeys
      ensures OutcomeFor(k, existing, base, fetch, day).current == fallback[k]
    {
      assert QuoteOf(fetch(Symbol(k)), day) == None;
    }
    assert results == fallback;
  }

  /** The offline snapshot of an offline snapshot is itself. */
  lemma OfflineSnapshotIdempotent(existing: Snapshot)
    ensures OfflineSnapshot(OfflineSnapshot(existing)) == OfflineSnapshot(existing)
  {
    var out := OfflineSnapshot(existing);
    var base := Baselines(existing);
    var results := out.currentValues.value;
    assert BaseDate(out) == BaseDate(existing);
    var again := map k | k in SymbolKeys :: Or(Lookup(out.currentValues, k), Get(base, k));
    forall k | k in SymbolKeys
      ensures again[k] == results[k]
    {
      OrAbsorb(Lookup(existing.currentValues, k), Get(base, k));
    }
    assert again == results;
  }

  /** Running offline again on the output of an offline run changes nothing. */
  lemma OfflineRunStable(existing: Snapshot, fetch: string -> Response, day: int -> string)
    requires forall s :: fetch(s).Failed?
    ensures var out := RunSpec(existing, fetch, day);
      RunSpec(out, fetch, day) == out
  {
    OfflineRun(existing, fetch, day);
    OfflineRun(OfflineSnapshot(existing), fetch, day);
    OfflineSnapshotIdempotent(existing);
  }

  /** With every request failing, no history and no merged rows. */
  lemma OfflineHistoryEmpty(existing: Snapshot, base: map<string, Val>,
                            fetch: string -> Response, day: int -> string)
    requires forall s :: fetch(s).Failed?
    ensures KeptDates(Histories(existing, base, fetch, day)) == []
  {
    var h := Histories(existing, base, fetch, day);
    var hs := HistoryList(h);
    assert forall i :: 0 <= i < |hs| ==> hs[i] == [];
    assert AllDates(hs) == {};
    ElementsEmpty(Gathered(hs));
  }
}
