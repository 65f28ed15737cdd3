/** The API client: one axios instance whose default header is
    `Content-Type: application/json`, a request interceptor that adds the
    bearer token from storage, and one exported function per backend
    endpoint, each a fixed HTTP method and path. */
module Api {
  import opened Outcomes
  import Storage

  datatype Method = Get | Post | Put | Delete

  /** A request body: the form records the pages send are flat objects of
      string fields. */
  type Body = map<string, string>

  /** The exported endpoint functions, with their arguments. Ids are the
      strings interpolated into the path. */
  datatype Endpoint =
    | Login(credentials: Body)
    | Register(userData: Body)
    | GetProfile
    | GetAllInventory
    | GetInventoryById(id: string)
    | AddInventory(data: Body)
    | UpdateInventory(id: string, data: Body)
    | DeleteInventory(id: string)
    | SearchInventory(query: string)
    | GetLowStock
    | GetAllTransactions
    | StockIn(data: Body)
    | StockOut(data: Body)
    | RecordWaste(data: Body)
    | GetTransactionSummary
    | GetAllAlerts
    | GetAlertById(id: string)
    | ReviewAlert(id: string, data: Body)
    | GetFraudStatistics
    | GetPendingCount
    | GetDailyInventory
    | GetWeeklyFraud
    | GetMonthlyAnalytics
    | GetUserActivity
    | GetLowStockAlert
    | GetWasteAnalysis
    | GetDashboardSummary

  /** What goes on the wire, before the interceptor adds headers. */
  datatype Route = Route(verb: Method, path: string, body: Option<Body>)

  const AuthPrefix := "/auth/"
  const InventoryPrefix := "/inventory/"
  const TransactionsPrefix := "/transactions/"
  const FraudPrefix := "/fraud/"
  const ReportsPrefix := "/reports/"

  /** The endpoint table. Id paths and the search path are built by plain
      concatenation, with no encoding of the interpolated text. */
  function RouteOf(e: Endpoint): (r: Route)
    ensures r.body.Some? <==> r.verb == Post || r.verb == Put
    ensures |r.path| > 1 && r.path[0] == '/'
  {
    match e
    case Login(c) => Route(Post, AuthPrefix + "login", Some(c))
    case Register(d) => Route(Post, AuthPrefix + "register", Some(d))
    case GetProfile => Route(Get, AuthPrefix + "profile", None)
    case GetAllInventory => Route(Get, InventoryPrefix, None)
    case GetInventoryById(id) => Route(Get, InventoryPrefix + id, None)
    case AddInventory(d) => Route(Post, InventoryPrefix, Some(d))
    case UpdateInventory(id, d) => Route(Put, InventoryPrefix + id, Some(d))
    case DeleteInventory(id) => Route(Delete, InventoryPrefix + id, None)
    case SearchInventory(q) => Route(Get, InventoryPrefix + "search?q=" + q, None)
    case GetLowStock => Route(Get, InventoryPrefix + "low-stock", None)
    case GetAllTransactions => Route(Get, TransactionsPrefix, None)
    case StockIn(d) => Route(Post, TransactionsPrefix + "stock-in", Some(d))
    case StockOut(d) => Route(Post, TransactionsPrefix + "stock-out", Some(d))
    case RecordWaste(d) => Route(Post, TransactionsPrefix + "waste", Some(d))
    case GetTransactionSummary => Route(Get, TransactionsPrefix + "summary", None)
    case GetAllAlerts => Route(Get, FraudPrefix, None)
    case GetAlertById(id) => Route(Get, FraudPrefix + id, None)
    case ReviewAlert(id, d) => Route(Put, FraudPrefix + id + "/review", Some(d))
    case GetFraudStatistics => Route(Get, FraudPrefix + "statistics", None)
    case GetPendingCount => Route(Get, FraudPrefix + "pending-count", None)
    case GetDailyInventory => Route(Get, ReportsPrefix + "daily-inventory", None)
    case GetWeeklyFraud => Route(Get, ReportsPrefix + "weekly-fraud", None)
    case GetMonthlyAnalytics => Route(Get, ReportsPrefix + "monthly-analytics", None)
    case GetUserActivity => Route(Get, ReportsPrefix + "user-activity", None)
    case GetLowStockAlert => Route(Get, ReportsPrefix + "low-stock-alert", None)
    case GetWasteAnalysis => Route(Get, ReportsPrefix + "waste-analysis", None)
    case GetDashboardSummary => Route(Get, ReportsPrefix + "dashboard-summary", None)
  }

  predicate IsDigit(c: char) { '0' <= c <= '9' }

  /** A record id as the backend hands it out: a non-empty decimal numeral. */
  predicate ValidId(id: string)
  {
    |id| > 0 && forall k :: 0 <= k < |id| ==> IsDigit(id[k])
  }

  /** An endpoint whose interpolated ids are record ids. */
  predicate WellFormed(e: Endpoint)
  {
    match e
    case GetInventoryById(id) => ValidId(id)
    case UpdateInventory(id, _) => ValidId(id)
    case DeleteInventory(id) => ValidId(id)
    case GetAlertById(id) => ValidId(id)
    case ReviewAlert(id, _) => ValidId(id)
    case _ => true
  }

  lemma PrefixSplit(prefix: string, path: string)
    requires prefix <= path
    ensures path == prefix + path[|prefix|..]
  {
  }

  /** GET paths under `/inventory/`, given the text after that prefix. */
  function ParseInventoryGet(rest: string): (p: Option<Endpoint>)
    ensures p.Some? ==> WellFormed(p.value) && RouteOf(p.value) == Route(Get, InventoryPrefix + rest, None)
  {
    if rest == "" then Some(GetAllInventory)
    else if rest == "low-stock" then Some(GetLowStock)
    else if "search?q=" <= rest then
      PrefixSplit("search?q=", rest);
      assert InventoryPrefix + rest == "/inventory/search?q=" + rest[9..];
      Some(SearchInventory(rest[9..]))
    else if ValidId(rest) then Some(GetInventoryById(rest))
    else None
  }

  /** GET paths under `/transactions/`. */
  function ParseTransactionsGet(rest: string): (p: Option<Endpoint>)
    ensures p.Some? ==> WellFormed(p.value) && RouteOf(p.value) == Route(Get, TransactionsPrefix + rest, None)
  {
    if rest == "" then Some(GetAllTransactions)
    else if rest == "summary" then Some(GetTransactionSummary)
    else None
  }

  /** GET paths under `/fraud/`. */
  function ParseFraudGet(rest: string): (p: Option<Endpoint>)
    ensures p.Some? ==> WellFormed(p.value) && RouteOf(p.value) == Route(Get, FraudPrefix + rest, None)
  {
    if rest == "" then Some(GetAllAlerts)
    else if rest == "statistics" then Some(GetFraudStatistics)
    else if rest == "pending-count" then Some(GetPendingCount)
    else if ValidId(rest) then Some(GetAlertById(rest))
    else None
  }

  /** GET paths under `/reports/`. */
  function ParseReportsGet(rest: string): (p: Option<Endpoint>)
    ensures p.Some? ==> WellFormed(p.value) && RouteOf(p.value) == Route(Get, ReportsPrefix + rest, None)
  {
    if rest == "daily-inventory" then Some(GetDailyInventory)
    else if rest == "weekly-fraud" then Some(GetWeeklyFraud)
    else if rest == "monthly-analytics" then Some(GetMonthlyAnalytics)
    else if rest == "user-activity" then Some(GetUserActivity)
    else if rest == "low-stock-alert" then Some(GetLowStockAlert)
    else if rest == "waste-analysis" then Some(GetWasteAnalysis)
    else if rest == "dashboard-summary" then Some(GetDashboardSummary)
    else None
  }

  /** Reads back which endpoint a GET path belongs to. */
  function ParseGet(path: string): (p: Option<Endpoint>)
    ensures p.Some? ==> WellFormed(p.value) && RouteOf(p.value) == Route(Get, path, None)
  {
    if path == AuthPrefix + "profile" then Some(GetProfile)
    else if InventoryPrefix <= path then
      PrefixSplit(InventoryPrefix, path);
      ParseInventoryGet(path[11..])
    else if TransactionsPrefix <= path then
      PrefixSplit(TransactionsPrefix, path);
      ParseTransactionsGet(path[14..])
    else if FraudPrefix <= path then
      PrefixSplit(FraudPrefix, path);
      ParseFraudGet(path[7..])
    else if ReportsPrefix <= path then
      PrefixSplit(ReportsPrefix, path);
      ParseReportsGet(path[9..])
    else None
  }

  /** Reads back which endpoint a POST path belongs to. */
  function ParsePost(path: string, body: Body): (p: Option<Endpoint>)
    ensures p.Some? ==> WellFormed(p.value) && RouteOf(p.value) == Route(Post, path, Some(body))
  {
    if path == AuthPrefix + "login" then Some(Login(body))
    else if path == AuthPrefix + "register" then Some(Register(body))
    else if path == InventoryPrefix then Some(AddInventory(body))
    else if path == TransactionsPrefix + "stock-in" then Some(StockIn(body))
    else if path == TransactionsPrefix + "stock-out" then Some(StockOut(body))
    else if path == TransactionsPrefix + "waste" then Some(RecordWaste(body))
    else None
  }

  /** Reads back which endpoint a PUT path belongs to. */
  function ParsePut(path: string, body: Body): (p: Option<Endpoint>)
    ensures p.Some? ==> WellFormed(p.value) && RouteOf(p.value) == Route(Put, path, Some(body))
  {
    if InventoryPrefix <= path then
      PrefixSplit(InventoryPrefix, path);
      if ValidId(path[11..]) then Some(UpdateInventory(path[11..], body)) else None
    else if FraudPrefix <= path && |path| >= 14 && path[|path| - 7..] == "/review" then
      var id := path[7..|path| - 7];
      assert path == FraudPrefix + id + "/review";
      if ValidId(id) then Some(ReviewAlert(id, body)) else None
    else None
  }

  /** Reads back which endpoint a DELETE path belongs to. */
  function ParseDelete(path: string): (p: Option<Endpoint>)
    ensures p.Some? ==> WellFormed(p.value) && RouteOf(p.value) == Route(Delete, path, None)
  {
    if InventoryPrefix <= path then
      PrefixSplit(InventoryPrefix, path);
      if ValidId(path[11..]) then Some(DeleteInventory(path[11..])) else None
    else None
  }

  /** Which endpoint, if any, a request on the wire was issued by. */
  function ParseRoute(r: Route): (p: Option<Endpoint>)
    ensures p.Some? ==> WellFormed(p.value) && RouteOf(p.value) == r
  {
    match (r.verb, r.body)
    case (Get, None) => ParseGet(r.path)
    case (Post, Some(b)) => ParsePost(r.path, b)
    case (Put, Some(b)) => ParsePut(r.path, b)
    case (Delete, None) => ParseDelete(r.path)
    case _ => None
  }

  /** A record id never collides with a fixed path segment. */
  lemma IdIsNotAName(id: string)
    requires ValidId(id)
    ensures id != "" && id != "low-stock" && id != "statistics" && id != "pending-count"
    ensures !("search?q=" <= id)
  {
    assert IsDigit(id[0]);
  }

  /** ParseGet hands a path under a prefix to that prefix's parser. */
  lemma ParseGetInventory(rest: string)
    ensures ParseGet(InventoryPrefix + rest) == ParseInventoryGet(rest)
  {
    var path := InventoryPrefix + rest;
    assert path[1] == 'i' && (AuthPrefix + "profile")[1] == 'a';
    assert InventoryPrefix <= path && path[11..] == rest;
  }

  lemma ParseGetTransactions(rest: string)
    ensures ParseGet(TransactionsPrefix + rest) == ParseTransactionsGet(rest)
  {
    var path := TransactionsPrefix + rest;
    assert path[1] == 't' && (AuthPrefix + "profile")[1] == 'a' && InventoryPrefix[1] == 'i';
    assert TransactionsPrefix <= path && path[14..] == rest;
  }

  lemma ParseGetFraud(rest: string)
    ensures ParseGet(FraudPrefix + rest) == ParseFraudGet(rest)
  {
    var path := FraudPrefix + rest;
    assert path[1] == 'f' && (AuthPrefix + "profile")[1] == 'a' && InventoryPrefix[1] == 'i';
    assert TransactionsPrefix[1] == 't';
    assert FraudPrefix <= path && path[7..] == rest;
  }

  lemma ParseGetReports(rest: string)
    ensures ParseGet(ReportsPrefix + rest) == ParseReportsGet(rest)
  {
    var path := ReportsPrefix + rest;
    assert path[1] == 'r' && (AuthPrefix + "profile")[1] == 'a' && InventoryPrefix[1] == 'i';
    assert TransactionsPrefix[1] == 't' && FraudPrefix[1] == 'f';
    assert ReportsPrefix <= path && path[9..] == rest;
  }

  lemma AuthRoundTrip(b: Body)
    ensures ParseRoute(RouteOf(Login(b))) == Some(Login(b))
    ensures ParseRoute(RouteOf(Register(b))) == Some(Register(b))
    ensures ParseRoute(RouteOf(GetProfile)) == Some(GetProfile)
  {
  }

  lemma InventoryRoundTrip(id: string, q: string, b: Body)
    ensures ParseRoute(RouteOf(GetAllInventory)) == Some(GetAllInventory)
    ensures ParseRoute(RouteOf(AddInventory(b))) == Some(AddInventory(b))
    ensures ParseRoute(RouteOf(GetLowStock)) == Some(GetLowStock)
    ensures ParseRoute(RouteOf(SearchInventory(q))) == Some(SearchInventory(q))
    ensures ValidId(id) ==> ParseRoute(RouteOf(GetInventoryById(id))) == Some(GetInventoryById(id))
    ensures ValidId(id) ==> ParseRoute(RouteOf(UpdateInventory(id, b))) == Some(UpdateInventory(id, b))
    ensures ValidId(id) ==> ParseRoute(RouteOf(DeleteInventory(id))) == Some(DeleteInventory(id))
  {
    ParseGetInventory("");
    ParseGetInventory("low-stock");
    assert InventoryPrefix[1] != (AuthPrefix + "login")[1];
    var rest := "search?q=" + q;
    assert InventoryPrefix + "search?q=" + q == InventoryPrefix + rest;
    ParseGetInventory(rest);
    assert rest[0] == 's' && rest != "" && rest != "low-stock" && rest[9..] == q;
    if ValidId(id) {
      IdIsNotAName(id);
      ParseGetInventory(id);
      assert (InventoryPrefix + id)[11..] == id;
    }
  }

  lemma TransactionsRoundTrip(b: Body)
    ensures ParseRoute(RouteOf(GetAllTransactions)) == Some(GetAllTransactions)
    ensures ParseRoute(RouteOf(StockIn(b))) == Some(StockIn(b))
    ensures ParseRoute(RouteOf(StockOut(b))) == Some(StockOut(b))
    ensures ParseRoute(RouteOf(RecordWaste(b))) == Some(RecordWaste(b))
    ensures ParseRoute(RouteOf(GetTransactionSummary)) == Some(GetTransactionSummary)
  {
    ParseGetTransactions("");
    ParseGetTransactions("summary");
  }

  lemma FraudRoundTrip(id: string, b: Body)
    ensures ParseRoute(RouteOf(GetAllAlerts)) == Some(GetAllAlerts)
    ensures ParseRoute(RouteOf(GetFraudStatistics)) == Some(GetFraudStatistics)
    ensures ParseRoute(RouteOf(GetPendingCount)) == Some(GetPendingCount)
    ensures ValidId(id) ==> ParseRoute(RouteOf(GetAlertById(id))) == Some(GetAlertById(id))
  {
    ParseGetFraud("");
    ParseGetFraud("statistics");
    ParseGetFraud("pending-count");
    if ValidId(id) {
      IdIsNotAName(id);
      ParseGetFraud(id);
    }
  }

  lemma ReviewRoundTrip(id: string, b: Body)
    requires ValidId(id)
    ensures ParseRoute(RouteOf(ReviewAlert(id, b))) == Some(ReviewAlert(id, b))
  {
    var path := FraudPrefix + id + "/review";
    assert path[1] == 'f' && InventoryPrefix[1] == 'i';
    assert FraudPrefix <= path;
    assert path[|path| - 7..] == "/review";
    assert path[7..|path| - 7] == id;
  }

  lemma ReportsRoundTrip()
    ensures ParseRoute(RouteOf(GetDailyInventory)) == Some(GetDailyInventory)
    ensures ParseRoute(RouteOf(GetWeeklyFraud)) == Some(GetWeeklyFraud)
    ensures ParseRoute(RouteOf(GetMonthlyAnalytics)) == Some(GetMonthlyAnalytics)
    ensures ParseRoute(RouteOf(GetUserActivity)) == Some(GetUserActivity)
    ensures ParseRoute(RouteOf(GetLowStockAlert)) == Some(GetLowStockAlert)
    ensures ParseRoute(RouteOf(GetWasteAnalysis)) == Some(GetWasteAnalysis)
    ensures ParseRoute(RouteOf(GetDashboardSummary)) == Some(GetDashboardSummary)
  {
    ParseGetReports("daily-inventory");
    ParseGetReports("weekly-fraud");
    ParseGetReports("monthly-analytics");
    ParseGetReports("user-activity");
    ParseGetReports("low-stock-alert");
    ParseGetReports("waste-analysis");
    ParseGetReports("dashboard-summary");
  }

  /** The endpoint table is one-to-one on well-formed endpoints: the
      endpoint, its arguments and its body can be read back from the
      request it issues. */
  lemma RouteRoundTrip(e: Endpoint)
    requires WellFormed(e)
    ensures ParseRoute(RouteOf(e)) == Some(e)
  {
    match e
    case Login(b) => AuthRoundTrip(b);
    case Register(b) => AuthRoundTrip(b);
    case GetProfile => AuthRoundTrip(map[]);
    case GetAllInventory => InventoryRoundTrip("", "", map[]);
    case GetInventoryById(id) => InventoryRoundTrip(id, "", map[]);
    case AddInventory(b) => InventoryRoundTrip("", "", b);
    case UpdateInventory(id, b) => InventoryRoundTrip(id, "", b);
    case DeleteInventory(id) => InventoryRoundTrip(id, "", map[]);
    case SearchInventory(q) => InventoryRoundTrip("", q, map[]);
    case GetLowStock => InventoryRoundTrip("", "", map[]);
    case GetAllTransactions => TransactionsRoundTrip(map[]);
    case StockIn(b) => TransactionsRoundTrip(b);
    case StockOut(b) => TransactionsRoundTrip(b);
    case RecordWaste(b) => TransactionsRoundTrip(b);
    case GetTransactionSummary => TransactionsRoundTrip(map[]);
    case GetAllAlerts => FraudRoundTrip("", map[]);
    case GetAlertById(id) => FraudRoundTrip(id, map[]);
    case ReviewAlert(id, b) => ReviewRoundTrip(id, b);
    case GetFraudStatistics => FraudRoundTrip("", map[]);
    case GetPendingCount => FraudRoundTrip("", map[]);
    case GetDailyInventory => ReportsRoundTrip();
    case GetWeeklyFraud => ReportsRoundTrip();
    case GetMonthlyAnalytics => ReportsRoundTrip();
    case GetUserActivity => ReportsRoundTrip();
    case GetLowStockAlert => ReportsRoundTrip();
    case GetWasteAnalysis => ReportsRoundTrip();
    case GetDashboardSummary => ReportsRoundTrip();
  }

  /** Different well-formed endpoints never issue the same request. */
  lemma RouteInjective(e1: Endpoint, e2: Endpoint)
    requires WellFormed(e1) && WellFormed(e2) && RouteOf(e1) == RouteOf(e2)
    ensures e1 == e2
  {
    RouteRoundTrip(e1);
    RouteRoundTrip(e2);
  }

  /** Because ids are interpolated unencoded, an id that is not a record id
      can reach a different endpoint. */
  lemma UnencodedIdsAlias()
    ensures RouteOf(GetInventoryById("low-stock")) == RouteOf(GetLowStock)
    ensures RouteOf(GetInventoryById("search?q=x")) == RouteOf(SearchInventory("x"))
    ensures RouteOf(GetAlertById("statistics")) == RouteOf(GetFraudStatistics)
  {
  }

  type Headers = map<string, string>

  const ContentType := "Content-Type"
  const Authorization := "Authorization"

  /** The headers the axios instance is created with. */
  const DefaultHeaders: Headers := map[ContentType := "application/json"]

  /** The request interceptor's effect on the headers: a bearer header when
      the stored token is a non-empty string, nothing otherwise. */
  function Authorize(headers: Headers, token: Option<string>): (h: Headers)
    ensures token.Some? && token.value != "" ==>
      Authorization in h && h[Authorization] == "Bearer " + token.value
    ensures token.None? || token.value == "" ==> h == headers
    ensures h.Keys - {Authorization} == headers.Keys - {Authorization}
    ensures forall k :: k in headers && k != Authorization ==> k in h && h[k] == headers[k]
  {
    if token.Some? && token.value != "" then headers[Authorization := "Bearer " + token.value]
    else headers
  }

  /** The headers every request leaves with, given the storage at the time
      it is sent: JSON content, and a bearer header exactly when a non-empty
      token is stored. No request is refused for want of a token. */
  function OutgoingHeaders(items: Storage.Items): (h: Headers)
    ensures ContentType in h && h[ContentType] == "application/json"
    ensures Authorization in h <==> Storage.TokenKey in items && items[Storage.TokenKey] != ""
    ensures Authorization in h ==> h[Authorization] == "Bearer " + items[Storage.TokenKey]
    ensures h.Keys <= {ContentType, Authorization}
  {
    Authorize(DefaultHeaders, Storage.Get(items, Storage.TokenKey))
  }

  /** The config object an endpoint function hands to the interceptor. */
  class RequestConfig {
    var route: Route
    var headers: Headers

    constructor (e: Endpoint)
      ensures route == RouteOf(e) && headers == DefaultHeaders
    {
      route := RouteOf(e);
      headers := DefaultHeaders;
    }

    /** The request interceptor: reads the token from storage and, when it
        is non-empty, sets the `Authorization` header in place. */
    method Intercept(store: Storage.LocalStorage)
      modifies this`headers
      ensures headers == Authorize(old(headers), Storage.Get(store.items, Storage.TokenKey))
    {
      var token := Storage.Get(store.items, Storage.TokenKey);
      if token.Some? && token.value != "" {
        headers := headers[Authorization := "Bearer " + token.value];
      }
    }
  }

  /** What calling an endpoint function puts on the wire: the table's route
      with the headers left by the interceptor. */
  method Send(e: Endpoint, store: Storage.LocalStorage) returns (config: RequestConfig)
    ensures fresh(config)
    ensures config.route == RouteOf(e) && config.headers == OutgoingHeaders(store.items)
  {
    config := new RequestConfig(e);
    config.Intercept(store);
  }
}
