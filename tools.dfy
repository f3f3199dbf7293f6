/**
 * The agent-facing tools: what each hands to the request helper (method
 * name, endpoint, query parameters, JSON dictionary), and the whole tool
 * call. The JSON text the tools return is left out; a tool's result here is
 * the parsed JSON value.
 */
module Tools {
  import opened Wrappers
  import opened Http
  import opened TokenCache
  import opened Gateway
  import Paths

  /** One tool invocation with its arguments (`Option` for Python's optional `None` defaults). */
  datatype Tool =
    | GetAccounts
    | GetAccountBalance(accountId: string)
    | GetAccountTransactions(accountId: string, fromDate: string, toDate: string,
                             transactionType: Option<string>, includePending: Option<bool>)
    | GetPendingTransactions(accountId: string)
    | GetProfiles
    | GetProfileAccounts(profileId: string)
    | GetBeneficiaries
    | GetBeneficiaryCategories
    | GetProfileBeneficiaries(profileId: string, accountId: string)
    | GetAuthorisationSetupDetails(profileId: string, accountId: string)
    | TransferMultiple(accountId: string, transferList: seq<map<string, string>>, optProfileId: Option<string>)
    | PayMultiple(accountId: string, paymentList: seq<Json>)
    | GetDocuments(accountId: string, fromDate: string, toDate: string)
    | GetDocument(accountId: string, documentType: string, documentDate: string)

  /** The endpoint each tool addresses. */
  function RouteOf(t: Tool): Paths.Route {
    match t
    case GetAccounts => Paths.Accounts
    case GetAccountBalance(a) => Paths.Balance(a)
    case GetAccountTransactions(a, _, _, _, _) => Paths.Transactions(a)
    case GetPendingTransactions(a) => Paths.PendingTransactions(a)
    case GetProfiles => Paths.Profiles
    case GetProfileAccounts(p) => Paths.ProfileAccounts(p)
    case GetBeneficiaries => Paths.Beneficiaries
    case GetBeneficiaryCategories => Paths.BeneficiaryCategories
    case GetProfileBeneficiaries(p, a) => Paths.ProfileBeneficiaries(p, a)
    case GetAuthorisationSetupDetails(p, a) => Paths.AuthorisationSetupDetails(p, a)
    case TransferMultiple(a, _, _) => Paths.TransferMultiple(a)
    case PayMultiple(a, _) => Paths.PayMultiple(a)
    case GetDocuments(a, _, _) => Paths.Documents(a)
    case GetDocument(a, t, d) => Paths.Document(a, t, d)
  }

  /** The arguments of one call of the request helper. */
  datatype ApiCall = ApiCall(
    httpMethod: string,
    endpoint: string,
    params: Option<map<string, string>>,
    jsonData: Option<map<string, Json>>)

  /** `m` with `key` set to `value` when `supplied`, unchanged otherwise. */
  function Include<V>(m: map<string, V>, supplied: bool, key: string, value: V): map<string, V> {
    if supplied then m[key := value] else m
  }

  /**
   * The query of the transactions tool: one entry per supplied filter (a
   * non-empty date or type, `includePending` when true), no other key.
   */
  function TransactionQuery(fromDate: string, toDate: string, transactionType: Option<string>,
                            includePending: Option<bool>): (q: map<string, string>)
    ensures q.Keys <= {"fromDate", "toDate", "transactionType", "includePending"}
    ensures "fromDate" in q <==> fromDate != ""
    ensures "toDate" in q <==> toDate != ""
    ensures "transactionType" in q <==> Truthy(transactionType)
    ensures "includePending" in q <==> includePending == Some(true)
    ensures "fromDate" in q ==> q["fromDate"] == fromDate
    ensures "toDate" in q ==> q["toDate"] == toDate
    ensures "transactionType" in q ==> q["transactionType"] == transactionType.value
    ensures "includePending" in q ==> q["includePending"] == "true"
  {
    var q0 := Include(map[], fromDate != "", "fromDate", fromDate);
    var q1 := Include(q0, toDate != "", "toDate", toDate);
    var q2 := Include(q1, Truthy(transactionType), "transactionType", if Truthy(transactionType) then transactionType.value else "");
    Include(q2, includePending == Some(true), "includePending", "true")
  }

  /** The query built key by key, as the transactions tool does. */
  method TransactionParams(fromDate: string, toDate: string, transactionType: Option<string>,
                           includePending: Option<bool>) returns (params: map<string, string>)
    ensures params == TransactionQuery(fromDate, toDate, transactionType, includePending)
  {
    params := map[];
    if fromDate != "" {
      params := params["fromDate" := fromDate];
    }
    if toDate != "" {
      params := params["toDate" := toDate];
    }
    if transactionType.Some? && transactionType.value != "" {
      params := params["transactionType" := transactionType.value];
    }
    if includePending == Some(true) {
      params := params["includePending" := "true"];
    }
  }

  /** A dictionary of strings as a JSON object. */
  function StringObject(m: map<string, string>): Json {
    JObject(map k | k in m :: JString(m[k]))
  }

  function TransferListJson(transferList: seq<map<string, string>>): Json {
    JArray(seq(|transferList|, i requires 0 <= i < |transferList| => StringObject(transferList[i])))
  }

  /**
   * The transfer body: always `transferList`, and `profileId` exactly when
   * one was given; the test is `is not None`, so an empty id is sent.
   */
  function TransferPayload(transferList: seq<map<string, string>>, profileId: Option<string>): (data: map<string, Json>)
    ensures data.Keys == {"transferList"} + (if profileId.Some? then {"profileId"} else {})
    ensures data["transferList"] == TransferListJson(transferList)
    ensures profileId.Some? ==> data["profileId"] == JString(profileId.value)
  {
    var data := map["transferList" := TransferListJson(transferList)];
    if profileId.Some? then data["profileId" := JString(profileId.value)] else data
  }

  /** The body built as the transfer tool does: the list first, then the id if present. */
  method TransferBody(transferList: seq<map<string, string>>, profileId: Option<string>)
    returns (data: map<string, Json>)
    ensures data == TransferPayload(transferList, profileId)
  {
    data := map["transferList" := TransferListJson(transferList)];
    if profileId.Some? {
      data := data["profileId" := JString(profileId.value)];
    }
  }

  /** What each tool hands to the request helper. */
  function CallOf(t: Tool): (c: ApiCall)
    ensures c.endpoint == Paths.Path(RouteOf(t))
    ensures ParseVerb(c.httpMethod) == Some(if t.TransferMultiple? || t.PayMultiple? then Post else Get)
    ensures c.jsonData.Some? <==> t.TransferMultiple? || t.PayMultiple?
    ensures c.params.Some? <==> t.GetAccountTransactions? || t.GetDocuments?
  {
    ParseVerbGet("GET");
    ParseVerbPost("POST");
    var endpoint := Paths.Path(RouteOf(t));
    match t
    case GetAccountTransactions(_, fromDate, toDate, transactionType, includePending) =>
      ApiCall("GET", endpoint, Some(TransactionQuery(fromDate, toDate, transactionType, includePending)), None)
    case TransferMultiple(_, transferList, profileId) =>
      ApiCall("POST", endpoint, None, Some(TransferPayload(transferList, profileId)))
    case PayMultiple(_, paymentList) =>
      ApiCall("POST", endpoint, None, Some(map["paymentList" := JArray(paymentList)]))
    case GetDocuments(_, fromDate, toDate) =>
      ApiCall("GET", endpoint, Some(map["fromDate" := fromDate, "toDate" := toDate]), None)
    case _ =>
      ApiCall("GET", endpoint, None, None)
  }

  /** The argument-building part of each tool body. */
  method PrepareCall(t: Tool) returns (c: ApiCall)
    ensures c == CallOf(t)
  {
    var endpoint := Paths.Path(RouteOf(t));
    match t {
      case GetAccountTransactions(_, fromDate, toDate, transactionType, includePending) =>
        var params := TransactionParams(fromDate, toDate, transactionType, includePending);
        c := ApiCall("GET", endpoint, Some(params), None);
      case TransferMultiple(_, transferList, profileId) =>
        var data := TransferBody(transferList, profileId);
        c := ApiCall("POST", endpoint, None, Some(data));
      case PayMultiple(_, paymentList) =>
        c := ApiCall("POST", endpoint, None, Some(map["paymentList" := JArray(paymentList)]));
      case GetDocuments(_, fromDate, toDate) =>
        c := ApiCall("GET", endpoint, Some(map["fromDate" := fromDate, "toDate" := toDate]), None);
      case _ =>
        c := ApiCall("GET", endpoint, None, None);
    }
  }

  /** A whole tool call: build the arguments, then run the request helper. */
  method InvokeTool(store: TokenStore, t: Tool, now: int, now2: int, tokenReply: TokenReply, apiReply: ApiReply)
    returns (r: Result<Json, GatewayError>, sent: Option<HttpRequest>)
    modifies store
    ensures var o := Obtain(old(store.State()), now, now2, tokenReply);
      var c := CallOf(t);
      store.State() == o.cache &&
      store.tokenRequests == old(store.tokenRequests) + (if o.requested then [ExchangeRequest(store.settings)] else []) &&
      ApiOutcome(r, sent) == Issue(store.settings.Url(), o.result, c.httpMethod, c.endpoint, c.params, c.jsonData, apiReply)
  {
    var c := PrepareCall(t);
    r, sent := MakeApiRequest(store, c.httpMethod, c.endpoint, c.params, c.jsonData, now, now2, tokenReply, apiReply);
  }

  // ------------------------------------------------------------- properties

  /**
   * No tool can reach the unsupported-method error: with a token in hand,
   * every tool sends its request, to the base URL followed by its endpoint.
   */
  lemma ToolsAlwaysSend(baseUrl: string, t: Tool, token: Option<string>, reply: ApiReply)
    ensures var c := CallOf(t);
      var out := Issue(baseUrl, Ok(token), c.httpMethod, c.endpoint, c.params, c.jsonData, reply);
      out.sent.Some? && out.sent.value.url == baseUrl + Paths.Path(RouteOf(t))
  {
  }

  /**
   * A transfer is a POST to the account's transfer endpoint whose JSON body
   * holds the list, and holds `profileId` exactly when one was given.
   */
  lemma TransferRequestShape(baseUrl: string, token: Option<string>, accountId: string,
                             transferList: seq<map<string, string>>, profileId: Option<string>, reply: ApiReply)
    ensures var c := CallOf(TransferMultiple(accountId, transferList, profileId));
      var req := Issue(baseUrl, Ok(token), c.httpMethod, c.endpoint, c.params, c.jsonData, reply).sent.value;
      req.verb == Post &&
      req.url == baseUrl + Paths.Path(Paths.TransferMultiple(accountId)) &&
      req.params == None &&
      req.json == Some(JObject(TransferPayload(transferList, profileId))) &&
      ("profileId" in req.json.value.fields <==> profileId.Some?)
  {
  }

  /** With no filter supplied the transactions query is an empty dictionary, not an absent one. */
  lemma TransactionQueryDefaults(accountId: string)
    ensures CallOf(GetAccountTransactions(accountId, "", "", None, Some(false))).params == Some(map[])
    ensures CallOf(GetAccountTransactions(accountId, "", "", Some(""), None)).params == Some(map[])
  {
  }

  /** The documents query always carries both dates, even empty ones, and nothing else. */
  lemma DocumentQueryFixed(accountId: string, fromDate: string, toDate: string)
    ensures var q := CallOf(GetDocuments(accountId, fromDate, toDate)).params.value;
      q.Keys == {"fromDate", "toDate"} && q["fromDate"] == fromDate && q["toDate"] == toDate
  {
  }

  /** The payment body is exactly `{"paymentList": paymentList}`. */
  lemma PaymentBodyFixed(accountId: string, paymentList: seq<Json>)
    ensures var d := CallOf(PayMultiple(accountId, paymentList)).jsonData.value;
      d.Keys == {"paymentList"} && d["paymentList"] == JArray(paymentList)
  {
  }

  /** Two tools with slash-free identifiers that address the same endpoint address the same route. */
  lemma EndpointDeterminesRoute(t1: Tool, t2: Tool)
    requires Paths.IdsSlashFree(RouteOf(t1)) && Paths.IdsSlashFree(RouteOf(t2))
    requires CallOf(t1).endpoint == CallOf(t2).endpoint
    ensures RouteOf(t1) == RouteOf(t2)
  {
    Paths.PathInjective(RouteOf(t1), RouteOf(t2));
  }
}
