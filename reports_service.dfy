/**
 * The report service: three read-through reports over the TTL cache. Each report builds a
 * deterministic cache key from its parameters, answers from the cache when a live entry of the
 * right type is there, and otherwise runs its stored procedure, collects the rows in order and
 * stores a fresh response under the key. The database is an oracle that answers each stored
 * procedure call with rows or an error and records every call it receives.
 */
module Reports {
  import opened Wrappers
  import opened Decimal
  import opened Dates
  import opened TtlCache

  // ---------------------------------------------------------------- rows

  datatype ProfitLossRow = ProfitLossRow(
    categoryName: string, categoryType: string, totalAmount: real, transactionCount: int)

  datatype RevenueByCategoryRow = RevenueByCategoryRow(
    categoryName: string, revenueAmount: real, transactionCount: int, averageTransaction: real)

  datatype TopCustomerRow = TopCustomerRow(
    customerId: string, customerName: string, totalRevenue: real, transactionCount: int, averageTransaction: real)

  /** A top-customers row as the database returns it: the customer id column is nullable. */
  datatype TopCustomerScan = TopCustomerScan(
    customerId: Option<string>, customerName: string, totalRevenue: real, transactionCount: int, averageTransaction: real)

  /** A NULL customer id becomes "", a present one is copied; the other columns are copied. */
  function ToTopCustomerRow(s: TopCustomerScan): (row: TopCustomerRow)
    ensures s.customerId.None? ==> row.customerId == ""
    ensures s.customerId.Some? ==> row.customerId == s.customerId.value
    ensures row.customerName == s.customerName && row.totalRevenue == s.totalRevenue
    ensures row.transactionCount == s.transactionCount && row.averageTransaction == s.averageTransaction
  {
    var id := if s.customerId.Some? then s.customerId.value else "";
    TopCustomerRow(id, s.customerName, s.totalRevenue, s.transactionCount, s.averageTransaction)
  }

  function TopCustomerRows(raw: seq<TopCustomerScan>): (rows: seq<TopCustomerRow>)
    ensures |rows| == |raw|
    ensures forall j {:trigger rows[j]} :: 0 <= j < |raw| ==> rows[j] == ToTopCustomerRow(raw[j])
  {
    if raw == [] then [] else [ToTopCustomerRow(raw[0])] + TopCustomerRows(raw[1..])
  }

  // ---------------------------------------------------------------- database oracle

  /** One row delivered by the result cursor: it either scans into a row or fails to. */
  datatype Scan<R> = Scanned(row: R) | ScanFailed(reason: string)

  /**
   * What a stored procedure call yields: a failed query, or the rows the cursor delivered
   * followed by the cursor's final error, if any.
   */
  datatype QueryResult<R> =
    | QueryFailed(reason: string)
    | Rows(scans: seq<Scan<R>>, iterationError: Option<string>)

  /** The stored procedure calls the service issues. */
  datatype Query =
    | ProfitLossQuery(startDate: CalendarDate, endDate: CalendarDate)
    | RevenueByCategoryQuery(startDate: CalendarDate, endDate: CalendarDate)
    | TopCustomersQuery(startDate: CalendarDate, endDate: CalendarDate, limit: int)

  class Database {
    const profitLoss: (CalendarDate, CalendarDate) -> QueryResult<ProfitLossRow>
    const revenueByCategory: (CalendarDate, CalendarDate) -> QueryResult<RevenueByCategoryRow>
    const topCustomers: (CalendarDate, CalendarDate, int) -> QueryResult<TopCustomerScan>
    /** Every call received so far, oldest first. */
    var log: seq<Query>

    constructor (
      profitLoss: (CalendarDate, CalendarDate) -> QueryResult<ProfitLossRow>,
      revenueByCategory: (CalendarDate, CalendarDate) -> QueryResult<RevenueByCategoryRow>,
      topCustomers: (CalendarDate, CalendarDate, int) -> QueryResult<TopCustomerScan>)
      ensures this.profitLoss == profitLoss && this.revenueByCategory == revenueByCategory
      ensures this.topCustomers == topCustomers && log == []
    {
      this.profitLoss := profitLoss;
      this.revenueByCategory := revenueByCategory;
      this.topCustomers := topCustomers;
      log := [];
    }

    /** `SELECT * FROM sp_profit_loss($1, $2)` */
    method QueryProfitLoss(startDate: CalendarDate, endDate: CalendarDate) returns (r: QueryResult<ProfitLossRow>)
      modifies this
      ensures log == old(log) + [ProfitLossQuery(startDate, endDate)]
      ensures r == profitLoss(startDate, endDate)
    {
      log := log + [ProfitLossQuery(startDate, endDate)];
      r := profitLoss(startDate, endDate);
    }

    /** `SELECT * FROM sp_revenue_by_category($1, $2)` */
    method QueryRevenueByCategory(startDate: CalendarDate, endDate: CalendarDate) returns (r: QueryResult<RevenueByCategoryRow>)
      modifies this
      ensures log == old(log) + [RevenueByCategoryQuery(startDate, endDate)]
      ensures r == revenueByCategory(startDate, endDate)
    {
      log := log + [RevenueByCategoryQuery(startDate, endDate)];
      r := revenueByCategory(startDate, endDate);
    }

    /** `SELECT * FROM sp_top_customers($1, $2, $3)` */
    method QueryTopCustomers(startDate: CalendarDate, endDate: CalendarDate, limit: int) returns (r: QueryResult<TopCustomerScan>)
      modifies this
      ensures log == old(log) + [TopCustomersQuery(startDate, endDate, limit)]
      ensures r == topCustomers(startDate, endDate, limit)
    {
      log := log + [TopCustomersQuery(startDate, endDate, limit)];
      r := topCustomers(startDate, endDate, limit);
    }
  }

  // ---------------------------------------------------------------- collecting rows

  /** Position of the first row that failed to scan, or the number of rows when none did. */
  function FirstScanFailure<R>(scans: seq<Scan<R>>): (i: nat)
    ensures i <= |scans|
    ensures forall j :: 0 <= j < i ==> scans[j].Scanned?
    ensures i < |scans| ==> scans[i].ScanFailed?
  {
    if scans == [] then 0
    else if scans[0].ScanFailed? then 0
    else 1 + FirstScanFailure(scans[1..])
  }

  predicate AllScanned<R>(scans: seq<Scan<R>>) {
    forall j :: 0 <= j < |scans| ==> scans[j].Scanned?
  }

  function RowsOf<R>(scans: seq<Scan<R>>): (rows: seq<R>)
    requires AllScanned(scans)
    ensures |rows| == |scans|
    ensures forall j {:trigger rows[j]} :: 0 <= j < |scans| ==> rows[j] == scans[j].row
  {
    if scans == [] then [] else RowsOf(scans[..|scans| - 1]) + [scans[|scans| - 1].row]
  }

  /**
   * The outcome of one report query: the first failure (query, then the scan of some row,
   * then the cursor) as an error with its message, otherwise every row in delivery order.
   */
  function Collected<R>(q: QueryResult<R>): (r: Result<seq<R>, string>)
    ensures r.Success? <==> q.Rows? && AllScanned(q.scans) && q.iterationError.None?
    ensures r.Success? ==> |r.value| == |q.scans| && forall j {:trigger r.value[j]} :: 0 <= j < |q.scans| ==> r.value[j] == q.scans[j].row
    ensures q.QueryFailed? ==> r == Failure("failed to execute stored procedure: " + q.reason)
    ensures q.Rows? && !AllScanned(q.scans) ==>
      r == Failure("failed to scan row: " + q.scans[FirstScanFailure(q.scans)].reason)
    ensures q.Rows? && AllScanned(q.scans) && q.iterationError.Some? ==>
      r == Failure("error iterating rows: " + q.iterationError.value)
  {
    match q
    case QueryFailed(reason) => Failure("failed to execute stored procedure: " + reason)
    case Rows(scans, iterationError) =>
      var i := FirstScanFailure(scans);
      if i < |scans| then Failure("failed to scan row: " + scans[i].reason)
      else if iterationError.Some? then Failure("error iterating rows: " + iterationError.value)
      else Success(RowsOf(scans))
  }

  /** The `for rows.Next()` loop of the profit-and-loss and revenue reports. */
  method ReadRows<R>(q: QueryResult<R>) returns (r: Result<seq<R>, string>)
    ensures r == Collected(q)
  {
    if q.QueryFailed? {
      return Failure("failed to execute stored procedure: " + q.reason);
    }
    var results: seq<R> := [];
    var i := 0;
    while i < |q.scans|
      invariant 0 <= i <= |q.scans|
      invariant AllScanned(q.scans[..i])
      invariant results == RowsOf(q.scans[..i])
    {
      match q.scans[i]
      case ScanFailed(reason) =>
        assert FirstScanFailure(q.scans) == i;
        return Failure("failed to scan row: " + reason);
      case Scanned(row) =>
        assert q.scans[..i + 1][..i] == q.scans[..i];
        results := results + [row];
      i := i + 1;
    }
    assert q.scans[..i] == q.scans;
    if q.iterationError.Some? {
      return Failure("error iterating rows: " + q.iterationError.value);
    }
    return Success(results);
  }

  /** Rows converted one by one, in order, are the conversion of all the scanned rows. */
  lemma ConvertedRows(scans: seq<Scan<TopCustomerScan>>, results: seq<TopCustomerRow>)
    requires AllScanned(scans) && |results| == |scans|
    requires forall j :: 0 <= j < |scans| ==> results[j] == ToTopCustomerRow(scans[j].row)
    ensures results == TopCustomerRows(RowsOf(scans))
  {
  }

  /** The `for rows.Next()` loop of the top-customers report, which maps NULL ids to "". */
  method ReadTopCustomers(q: QueryResult<TopCustomerScan>) returns (r: Result<seq<TopCustomerRow>, string>)
    ensures Collected(q).Failure? ==> r == Failure(Collected(q).error)
    ensures Collected(q).Success? ==> r == Success(TopCustomerRows(Collected(q).value))
  {
    if q.QueryFailed? {
      return Failure("failed to execute stored procedure: " + q.reason);
    }
    var results: seq<TopCustomerRow> := [];
    var i := 0;
    while i < |q.scans|
      invariant 0 <= i <= |q.scans|
      invariant AllScanned(q.scans[..i])
      invariant |results| == i
      invariant forall j :: 0 <= j < i ==> results[j] == ToTopCustomerRow(q.scans[j].row)
    {
      match q.scans[i]
      case ScanFailed(reason) =>
        assert FirstScanFailure(q.scans) == i;
        return Failure("failed to scan row: " + reason);
      case Scanned(scan) =>
        assert q.scans[..i + 1][..i] == q.scans[..i];
        results := results + [ToTopCustomerRow(scan)];
      i := i + 1;
    }
    assert q.scans[..i] == q.scans;
    if q.iterationError.Some? {
      return Failure("error iterating rows: " + q.iterationError.value);
    }
    ConvertedRows(q.scans, results);
    return Success(results);
  }

  // ---------------------------------------------------------------- cache keys

  /** `profit_loss:S:E`, with S and E the YYYY-MM-DD texts of the two dates. */
  function ProfitLossKey(startDate: CalendarDate, endDate: CalendarDate): (key: string)
    ensures |key| == 33 && key[..12] == "profit_loss:"
    ensures key[12..22] == Format(startDate) && key[22] == ':' && key[23..] == Format(endDate)
  {
    "profit_loss:" + Format(startDate) + ":" + Format(endDate)
  }

  /** `revenue_category:S:E`, with S and E the YYYY-MM-DD texts of the two dates. */
  function RevenueByCategoryKey(startDate: CalendarDate, endDate: CalendarDate): (key: string)
    ensures |key| == 38 && key[..17] == "revenue_category:"
    ensures key[17..27] == Format(startDate) && key[27] == ':' && key[28..] == Format(endDate)
  {
    "revenue_category:" + Format(startDate) + ":" + Format(endDate)
  }

  /** `top_customers:S:E:L`, with L the `%d` text of the limit. */
  function TopCustomersKey(startDate: CalendarDate, endDate: CalendarDate, limit: int): (key: string)
    ensures |key| == 36 + |FormatInt(limit)| && key[..14] == "top_customers:"
    ensures key[14..24] == Format(startDate) && key[24] == ':' && key[25..35] == Format(endDate)
    ensures key[35] == ':' && key[36..] == FormatInt(limit)
  {
    "top_customers:" + Format(startDate) + ":" + Format(endDate) + ":" + FormatInt(limit)
  }

  /** Keys of different report kinds never coincide: they already differ in their first letter. */
  lemma KeyKindsDisjoint(s1: CalendarDate, e1: CalendarDate, s2: CalendarDate, e2: CalendarDate,
                         s3: CalendarDate, e3: CalendarDate, limit: int)
    ensures ProfitLossKey(s1, e1) != RevenueByCategoryKey(s2, e2)
    ensures ProfitLossKey(s1, e1) != TopCustomersKey(s3, e3, limit)
    ensures RevenueByCategoryKey(s2, e2) != TopCustomersKey(s3, e3, limit)
  {
    assert ProfitLossKey(s1, e1)[0] == 'p';
    assert RevenueByCategoryKey(s2, e2)[0] == 'r';
    assert TopCustomersKey(s3, e3, limit)[0] == 't';
  }

  /** A profit-and-loss key determines its date range. */
  lemma ProfitLossKeyInjective(s1: CalendarDate, e1: CalendarDate, s2: CalendarDate, e2: CalendarDate)
    requires ProfitLossKey(s1, e1) == ProfitLossKey(s2, e2)
    ensures s1 == s2 && e1 == e2
  {
    FormatInjective(s1, s2);
    FormatInjective(e1, e2);
  }

  /** A revenue-by-category key determines its date range. */
  lemma RevenueByCategoryKeyInjective(s1: CalendarDate, e1: CalendarDate, s2: CalendarDate, e2: CalendarDate)
    requires RevenueByCategoryKey(s1, e1) == RevenueByCategoryKey(s2, e2)
    ensures s1 == s2 && e1 == e2
  {
    FormatInjective(s1, s2);
    FormatInjective(e1, e2);
  }

  /** A top-customers key determines its date range and its limit. */
  lemma TopCustomersKeyInjective(s1: CalendarDate, e1: CalendarDate, l1: int, s2: CalendarDate, e2: CalendarDate, l2: int)
    requires TopCustomersKey(s1, e1, l1) == TopCustomersKey(s2, e2, l2)
    ensures s1 == s2 && e1 == e2 && l1 == l2
  {
    FormatInjective(s1, s2);
    FormatInjective(e1, e2);
    FormatIntInjective(l1, l2);
  }

  /** For dates read from request text, the key holds that text verbatim. */
  lemma KeysOfRequestText(startText: string, endText: string, limit: int)
    requires Parse(startText).Some? && Parse(endText).Some?
    ensures ProfitLossKey(Parse(startText).value, Parse(endText).value) == "profit_loss:" + startText + ":" + endText
    ensures RevenueByCategoryKey(Parse(startText).value, Parse(endText).value) == "revenue_category:" + startText + ":" + endText
    ensures TopCustomersKey(Parse(startText).value, Parse(endText).value, limit)
            == "top_customers:" + startText + ":" + endText + ":" + FormatInt(limit)
  {
    FormatParse(startText);
    FormatParse(endText);
  }

  // ---------------------------------------------------------------- responses

  class ProfitLossResponse {
    var data: seq<ProfitLossRow>
    var cached: bool

    constructor (data: seq<ProfitLossRow>)
      ensures this.data == data && !cached
    {
      this.data := data;
      cached := false;
    }
  }

  class RevenueByCategoryResponse {
    var data: seq<RevenueByCategoryRow>
    var cached: bool

    constructor (data: seq<RevenueByCategoryRow>)
      ensures this.data == data && !cached
    {
      this.data := data;
      cached := false;
    }
  }

  class TopCustomersResponse {
    var data: seq<TopCustomerRow>
    var cached: bool

    constructor (data: seq<TopCustomerRow>)
      ensures this.data == data && !cached
    {
      this.data := data;
      cached := false;
    }
  }

  /** What the service stores in the cache: a reference to a response, tagged with its type. */
  datatype CachedValue =
    | ProfitLoss(profitLoss: ProfitLossResponse)
    | RevenueByCategory(revenueByCategory: RevenueByCategoryResponse)
    | TopCustomers(topCustomers: TopCustomersResponse)

  function ObjectsOf<T>(r: Result<T, string>): set<T> {
    if r.Success? then {r.value} else {}
  }

  // ---------------------------------------------------------------- service

  class Service {
    const db: Database
    const cache: Cache<CachedValue>

    constructor (db: Database, cache: Cache<CachedValue>)
      ensures this.db == db && this.cache == cache
    {
      this.db := db;
      this.cache := cache;
    }

    /**
     * The hit test of `GetProfitLoss`: the response found when `Get` hits and the value passes the
     * type assertion; a live value of another report's type is a miss.
     */
    function CachedProfitLoss(key: string, now: int): (r: set<ProfitLossResponse>)
      reads cache
      ensures r != {} <==> Lookup(cache.entries, key, now).Some? && Lookup(cache.entries, key, now).value.ProfitLoss?
      ensures r != {} ==> r == {Lookup(cache.entries, key, now).value.profitLoss}
    {
      var found: Option<CachedValue> := Lookup(cache.entries, key, now);
      if found.Some? && found.value.ProfitLoss? then {found.value.profitLoss} else {}
    }

    /** The hit test of `GetRevenueByCategory`. */
    function CachedRevenueByCategory(key: string, now: int): (r: set<RevenueByCategoryResponse>)
      reads cache
      ensures r != {} <==> Lookup(cache.entries, key, now).Some? && Lookup(cache.entries, key, now).value.RevenueByCategory?
      ensures r != {} ==> r == {Lookup(cache.entries, key, now).value.revenueByCategory}
    {
      var found: Option<CachedValue> := Lookup(cache.entries, key, now);
      if found.Some? && found.value.RevenueByCategory? then {found.value.revenueByCategory} else {}
    }

    /** The hit test of `GetTopCustomers`. */
    function CachedTopCustomers(key: string, now: int): (r: set<TopCustomersResponse>)
      reads cache
      ensures r != {} <==> Lookup(cache.entries, key, now).Some? && Lookup(cache.entries, key, now).value.TopCustomers?
      ensures r != {} ==> r == {Lookup(cache.entries, key, now).value.topCustomers}
    {
      var found: Option<CachedValue> := Lookup(cache.entries, key, now);
      if found.Some? && found.value.TopCustomers? then {found.value.topCustomers} else {}
    }

    /**
     * The contract of `GetProfitLoss` at time now. A hit answers with the cached object itself,
     * now marked cached, and neither queries the database nor changes the cache. A miss (no
     * live entry, or one of another type) issues exactly one query; an error is returned and
     * the cache is untouched; rows give a fresh uncached response stored under the key.
     */
    twostate predicate ProfitLossServed(startDate: CalendarDate, endDate: CalendarDate, now: int,
                                        new r: Result<ProfitLossResponse, string>)
      reads cache, db, ObjectsOf(r)
    {
      var key := ProfitLossKey(startDate, endDate);
      if old(CachedProfitLoss(key, now)) != {} then
        && r.Success? && old(CachedProfitLoss(key, now)) == {r.value}
        && r.value.cached && r.value.data == old(r.value.data)
        && cache.entries == old(cache.entries) && db.log == old(db.log)
      else
        && db.log == old(db.log) + [ProfitLossQuery(startDate, endDate)]
        && match Collected(db.profitLoss(startDate, endDate))
           case Failure(e) => r == Failure(e) && cache.entries == old(cache.entries)
           case Success(rows) =>
             && r.Success? && fresh(r.value) && r.value.data == rows && !r.value.cached
             && cache.entries == old(cache.entries)[key := Entry(ProfitLoss(r.value), now + cache.ttl)]
    }

    twostate predicate RevenueByCategoryServed(startDate: CalendarDate, endDate: CalendarDate, now: int,
                                               new r: Result<RevenueByCategoryResponse, string>)
      reads cache, db, ObjectsOf(r)
    {
      var key := RevenueByCategoryKey(startDate, endDate);
      if old(CachedRevenueByCategory(key, now)) != {} then
        && r.Success? && old(CachedRevenueByCategory(key, now)) == {r.value}
        && r.value.cached && r.value.data == old(r.value.data)
        && cache.entries == old(cache.entries) && db.log == old(db.log)
      else
        && db.log == old(db.log) + [RevenueByCategoryQuery(startDate, endDate)]
        && match Collected(db.revenueByCategory(startDate, endDate))
           case Failure(e) => r == Failure(e) && cache.entries == old(cache.entries)
           case Success(rows) =>
             && r.Success? && fresh(r.value) && r.value.data == rows && !r.value.cached
             && cache.entries == old(cache.entries)[key := Entry(RevenueByCategory(r.value), now + cache.ttl)]
    }

    twostate predicate TopCustomersServed(startDate: CalendarDate, endDate: CalendarDate, limit: int, now: int,
                                          new r: Result<TopCustomersResponse, string>)
      reads cache, db, ObjectsOf(r)
    {
      var key := TopCustomersKey(startDate, endDate, limit);
      if old(CachedTopCustomers(key, now)) != {} then
        && r.Success? && old(CachedTopCustomers(key, now)) == {r.value}
        && r.value.cached && r.value.data == old(r.value.data)
        && cache.entries == old(cache.entries) && db.log == old(db.log)
      else
        && db.log == old(db.log) + [TopCustomersQuery(startDate, endDate, limit)]
        && match Collected(db.topCustomers(startDate, endDate, limit))
           case Failure(e) => r == Failure(e) && cache.entries == old(cache.entries)
           case Success(raw) =>
             && r.Success? && fresh(r.value) && r.value.data == TopCustomerRows(raw) && !r.value.cached
             && cache.entries == old(cache.entries)[key := Entry(TopCustomers(r.value), now + cache.ttl)]
    }

    method GetProfitLoss(startDate: CalendarDate, endDate: CalendarDate, now: int)
      returns (r: Result<ProfitLossResponse, string>)
      modifies cache, db, CachedProfitLoss(ProfitLossKey(startDate, endDate), now)
      ensures ProfitLossServed(startDate, endDate, now, r)
    {
      var key := ProfitLossKey(startDate, endDate);
      var found := cache.Get(key, now);
      if found.Some? && found.value.ProfitLoss? {
        var data := found.value.profitLoss;
        assert CachedProfitLoss(key, now) == {data};
        data.cached := true;
        return Success(data);
      }
      assert CachedProfitLoss(key, now) == {};
      var rows := db.QueryProfitLoss(startDate, endDate);
      var results := ReadRows(rows);
      if results.Failure? {
        return Failure(results.error);
      }
      var response := new ProfitLossResponse(results.value);
      cache.Set(key, ProfitLoss(response), now);
      return Success(response);
    }

    method GetRevenueByCategory(startDate: CalendarDate, endDate: CalendarDate, now: int)
      returns (r: Result<RevenueByCategoryResponse, string>)
      modifies cache, db, CachedRevenueByCategory(RevenueByCategoryKey(startDate, endDate), now)
      ensures RevenueByCategoryServed(startDate, endDate, now, r)
    {
      var key := RevenueByCategoryKey(startDate, endDate);
      var found := cache.Get(key, now);
      if found.Some? && found.value.RevenueByCategory? {
        var data := found.value.revenueByCategory;
        assert CachedRevenueByCategory(key, now) == {data};
        data.cached := true;
        return Success(data);
      }
      assert CachedRevenueByCategory(key, now) == {};
      var rows := db.QueryRevenueByCategory(startDate, endDate);
      var results := ReadRows(rows);
      if results.Failure? {
        return Failure(results.error);
      }
      var response := new RevenueByCategoryResponse(results.value);
      cache.Set(key, RevenueByCategory(response), now);
      return Success(response);
    }

    method GetTopCustomers(startDate: CalendarDate, endDate: CalendarDate, limit: int, now: int)
      returns (r: Result<TopCustomersResponse, string>)
      modifies cache, db, CachedTopCustomers(TopCustomersKey(startDate, endDate, limit), now)
      ensures TopCustomersServed(startDate, endDate, limit, now, r)
    {
      var key := TopCustomersKey(startDate, endDate, limit);
      var found := cache.Get(key, now);
      if found.Some? && found.value.TopCustomers? {
        var data := found.value.topCustomers;
        assert CachedTopCustomers(key, now) == {data};
        data.cached := true;
        return Success(data);
      }
      assert CachedTopCustomers(key, now) == {};
      var rows := db.QueryTopCustomers(startDate, endDate, limit);
      var results := ReadTopCustomers(rows);
      if results.Failure? {
        return Failure(results.error);
      }
      assert rows == db.topCustomers(startDate, endDate, limit);
      assert results.value == TopCustomerRows(Collected(rows).value);
      ghost var log := db.log;
      var response := new TopCustomersResponse(results.value);
      cache.Set(key, TopCustomers(response), now);
      assert db.log == log;
      r := Success(response);
    }
  }

  /**
   * The read-through property across two calls: a profit-and-loss request that misses and
   * succeeds fills the cache, so the same request up to ttl later is answered with the same
   * object, now marked cached, and the database sees only the first query.
   */
  method RepeatedProfitLoss(service: Service, startDate: CalendarDate, endDate: CalendarDate, now: int, later: int)
    returns (first: Result<ProfitLossResponse, string>, second: Result<ProfitLossResponse, string>)
    requires now <= later <= now + service.cache.ttl
    modifies service.cache, service.db, service.CachedProfitLoss(ProfitLossKey(startDate, endDate), now)
    ensures old(service.CachedProfitLoss(ProfitLossKey(startDate, endDate), now)) == {} && first.Success? ==>
      && second == first && first.value.cached
      && service.db.log == old(service.db.log) + [ProfitLossQuery(startDate, endDate)]
  {
    first := service.GetProfitLoss(startDate, endDate, now);
    second := service.GetProfitLoss(startDate, endDate, later);
  }
}
