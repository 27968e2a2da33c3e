/**
 * The three HTTP-backed tools of the file-listing server: `get_groups`,
 * `get_usercount` and `get_repoteams`. Each validates its configuration,
 * sends one GET request and shapes the JSON response (or the exception the
 * request raised) into a result record. The request is returned as a value
 * so that "no request was sent" can be stated; the server's answer to it is
 * a parameter.
 */
module ServerTools {
  import opened Wrappers
  import opened Text
  import opened AppConfig

  /** A JSON value as `response.json()` returns it (integers only). */
  datatype Json =
    | JNull
    | JBool(b: bool)
    | JInt(i: int)
    | JStr(s: string)
    | JArray(items: seq<Json>)
    | JObject(fields: map<string, Json>)

  /** The `page` object of a paginated response; an absent key is `None`. */
  datatype PageInfo = PageInfo(pageIndex: Option<int>, pageSize: Option<int>, total: Option<int>)

  /** The keys of an authorizations response body that the tools read. */
  datatype ApiBody = ApiBody(groups: Option<seq<Json>>, data: Option<seq<Json>>, page: Option<PageInfo>)

  /** How the request ended when it did not produce a response, by the handler that catches it. */
  datatype RequestFailure =
    | ConnectionFailed(message: string)
    | TimedOut
    | RequestFailed(message: string)
    | Unexpected(message: string)

  /**
   * The outcome of `requests.get`: an exception, or a response with its
   * status, its `Date` header and its body (`None` when it is not JSON).
   */
  datatype Exchange<B> =
    | Failed(failure: RequestFailure)
    | Received(status: int, date: Option<string>, body: Option<B>)

  /** The request a tool sends: URL, query parameters and bearer token. */
  datatype HttpGet = HttpGet(url: string, params: seq<(string, string)>, bearer: string)

  /** The `status_code` a failure reports: a number, or the string "Unknown". */
  datatype Status = Code(code: int) | UnknownStatus

  /** `response.raise_for_status()` raises exactly for client and server errors. */
  predicate IsHttpError(status: int) {
    400 <= status < 600
  }

  /** `response.headers.get("Date", "Unknown")`. */
  function Timestamp(date: Option<string>): string {
    if date.Some? then date.value else "Unknown"
  }

  /** `str(x)` for an optional string argument: `None` prints as "None". */
  function PyStr(x: Option<string>): string {
    if x.Some? then x.value else "None"
  }

  function StatusText(s: Status): string {
    if s.Code? then IntToString(s.code) else "Unknown"
  }

  /**
   * The status an HTTP error reports, as the handlers compute it:
   * `e.response.status_code if e.response else "Unknown"`. A `Response` is
   * truthy only when it is `ok`, i.e. when `raise_for_status` would not raise.
   */
  function StatusAsWritten(status: int): (s: Status)
    ensures s.Code? <==> !IsHttpError(status)
    ensures s.Code? ==> s.code == status
  {
    if !IsHttpError(status) then Code(status) else UnknownStatus
  }

  /**
   * The status an HTTP error is meant to report, `e.response.status_code`
   * whenever a response is attached: it departs from the handlers' status
   * exactly on the statuses `raise_for_status` raises for.
   */
  function HttpErrorStatus(status: int): (s: Status)
    ensures s.Code? && s.code == status
    ensures s != StatusAsWritten(status) <==> IsHttpError(status)
  {
    Code(status)
  }

  const AuthFailedMessage: string := "Authentication failed. Please check your bearer token."
  const RateLimitMessage: string := "Rate limit exceeded. Please wait and try again."

  /** The status table of `get_groups` and `get_repoteams`. */
  function StatusMessage(s: Status): (m: string)
    ensures s == Code(401) ==> m == AuthFailedMessage
    ensures s == Code(403) ==> m == "Access forbidden. Check your permissions."
    ensures s == Code(404) ==> m == "API endpoint not found. Check your API URL."
    ensures s == Code(429) ==> m == RateLimitMessage
    ensures s !in {Code(401), Code(403), Code(404), Code(429)} ==>
      m == "API request failed with status " + StatusText(s)
  {
    match s
    case Code(401) => AuthFailedMessage
    case Code(403) => "Access forbidden. Check your permissions."
    case Code(404) => "API endpoint not found. Check your API URL."
    case Code(429) => RateLimitMessage
    case _ => "API request failed with status " + StatusText(s)
  }

  /** The status table of `get_usercount`: 403 and 404 speak of the group. */
  function GroupStatusMessage(s: Status, groupId: string): (m: string)
    ensures s == Code(401) ==> m == AuthFailedMessage
    ensures s == Code(403) ==> m == "Access forbidden. Check your permissions for this group."
    ensures s == Code(404) ==> m == "Group not found or memberships endpoint not accessible for group ID: " + groupId
    ensures s == Code(429) ==> m == RateLimitMessage
    ensures s !in {Code(401), Code(403), Code(404), Code(429)} ==>
      m == "API request failed with status " + StatusText(s)
  {
    match s
    case Code(401) => AuthFailedMessage
    case Code(403) => "Access forbidden. Check your permissions for this group."
    case Code(404) => "Group not found or memberships endpoint not accessible for group ID: " + groupId
    case Code(429) => RateLimitMessage
    case _ => "API request failed with status " + StatusText(s)
  }

  /** As written, every error status raised by `raise_for_status` is reported as "Unknown". */
  lemma AsWrittenStatusAlwaysUnknown(status: int, groupId: string)
    requires IsHttpError(status)
    ensures StatusAsWritten(status) == UnknownStatus
    ensures StatusMessage(StatusAsWritten(status)) == "API request failed with status Unknown"
    ensures GroupStatusMessage(StatusAsWritten(status), groupId) == "API request failed with status Unknown"
  {
  }

  /** A 404 from the groups API, as written: the dedicated message is never produced. */
  lemma AsWrittenNotFoundIsGeneric()
    ensures StatusMessage(StatusAsWritten(404)) != "API endpoint not found. Check your API URL."
  {
    AsWrittenStatusAlwaysUnknown(404, "");
    assert "API endpoint not found. Check your API URL."[0] == 'A';
    assert "API request failed with status Unknown"[4] == 'r';
  }

  /** With the response's own code, each listed error status gets its own message and the others name their code. */
  lemma CorrectedStatusMessages(status: int, groupId: string)
    requires IsHttpError(status)
    ensures status == 401 ==> StatusMessage(HttpErrorStatus(status)) == AuthFailedMessage
    ensures status == 403 ==> StatusMessage(HttpErrorStatus(status)) == "Access forbidden. Check your permissions."
    ensures status == 404 ==> StatusMessage(HttpErrorStatus(status)) == "API endpoint not found. Check your API URL."
    ensures status == 404 ==>
      GroupStatusMessage(HttpErrorStatus(status), groupId) == "Group not found or memberships endpoint not accessible for group ID: " + groupId
    ensures status == 429 ==> StatusMessage(HttpErrorStatus(status)) == RateLimitMessage
    ensures status !in {401, 403, 404, 429} ==>
      StatusMessage(HttpErrorStatus(status)) == "API request failed with status " + IntToString(status)
  {
  }

  /** The message of the handler that catches a failed request. */
  function FailureMessage(f: RequestFailure): string {
    match f
    case ConnectionFailed(m) => "Failed to connect to API: " + m
    case TimedOut => "API request timed out. Please try again."
    case RequestFailed(m) => "Request failed: " + m
    case Unexpected(m) => "Unexpected error: " + m
  }

  const InvalidJsonMessage: string := "Invalid JSON response from API"

  // ---------------------------------------------------------------- groups

  /** A group record: a JSON object carrying both "name" and "id". */
  predicate IsGroup(g: Json) {
    g.JObject? && "name" in g.fields && "id" in g.fields
  }

  /** Python can use a value as a dict key unless it is a list or a dict. */
  predicate Hashable(j: Json) {
    !j.JArray? && !j.JObject?
  }

  /** Some group's name cannot be a dict key, so building the map raises `TypeError`. */
  predicate HasUnhashableName(gs: seq<Json>) {
    exists i :: 0 <= i < |gs| && IsGroup(gs[i]) && !Hashable(gs[i].fields["name"])
  }

  /** The name → id map built from the groups in order: a later name overwrites an earlier one. */
  function GroupsDict(gs: seq<Json>): map<Json, Json> {
    if gs == [] then map[]
    else
      var m := GroupsDict(gs[..|gs| - 1]);
      var g := gs[|gs| - 1];
      if IsGroup(g) then m[g.fields["name"] := g.fields["id"]] else m
  }

  /** Python's `TypeError` message for an unhashable key. */
  function UnhashableMessage(j: Json): string {
    if j.JArray? then "unhashable type: 'list'" else "unhashable type: 'dict'"
  }

  /** The name of the first group, in array order, that cannot be a dict key. */
  function FirstUnhashable(gs: seq<Json>): (r: Option<Json>)
    ensures r.Some? ==> !Hashable(r.value)
  {
    if gs == [] then None
    else if IsGroup(gs[0]) && !Hashable(gs[0].fields["name"]) then Some(gs[0].fields["name"])
    else FirstUnhashable(gs[1..])
  }

  /** The loop that fills `groups_dict`; it raises at the first unhashable name. */
  method BuildGroups(gs: seq<Json>) returns (r: Result<map<Json, Json>, string>)
    ensures r.Failure? <==> HasUnhashableName(gs)
    ensures r.Failure? ==> FirstUnhashable(gs).Some? && r.error == UnhashableMessage(FirstUnhashable(gs).value)
    ensures r.Success? ==> r.value == GroupsDict(gs)
  {
    var m: map<Json, Json> := map[];
    var i := 0;
    while i < |gs|
      invariant 0 <= i <= |gs|
      invariant m == GroupsDict(gs[..i])
      invariant !HasUnhashableName(gs[..i])
      invariant FirstUnhashable(gs[i..]) == FirstUnhashable(gs)
    {
      var g := gs[i];
      assert gs[..i + 1][..i] == gs[..i];
      assert gs[i..][0] == g && gs[i..][1..] == gs[i + 1..];
      if g.JObject? && "name" in g.fields && "id" in g.fields {
        var name := g.fields["name"];
        if name.JArray? || name.JObject? {
          assert gs[i] == gs[..i + 1][i];
          assert HasUnhashableName(gs[..i + 1]);
          assert HasUnhashableName(gs) by {
            assert gs[i] == g;
          }
          return Failure(UnhashableMessage(name));
        }
        m := m[name := g.fields["id"]];
      }
      ghost var done := gs[..i + 1];
      assert !HasUnhashableName(done) by {
        forall k | 0 <= k < i + 1 && IsGroup(done[k]) ensures Hashable(done[k].fields["name"]) {
          if k < i {
            assert done[k] == gs[..i][k];
          }
        }
      }
      i := i + 1;
    }
    assert gs[..i] == gs;
    return Success(m);
  }

  /** A name is a key of the map exactly when some group carries it. */
  lemma {:induction false} GroupsDictKeys(gs: seq<Json>, k: Json)
    ensures k in GroupsDict(gs) <==> exists i :: 0 <= i < |gs| && IsGroup(gs[i]) && gs[i].fields["name"] == k
  {
    if gs != [] {
      var init := gs[..|gs| - 1];
      GroupsDictKeys(init, k);
      if k in GroupsDict(init) {
        var i :| 0 <= i < |init| && IsGroup(init[i]) && init[i].fields["name"] == k;
        assert gs[i] == init[i];
      }
      if exists i :: 0 <= i < |gs| && IsGroup(gs[i]) && gs[i].fields["name"] == k {
        var i :| 0 <= i < |gs| && IsGroup(gs[i]) && gs[i].fields["name"] == k;
        if i < |gs| - 1 {
          assert init[i] == gs[i];
        }
      }
    }
  }

  /** The id stored under a name is that of the last group carrying the name. */
  lemma {:induction false} GroupsDictLastWins(gs: seq<Json>, i: nat)
    requires i < |gs| && IsGroup(gs[i])
    requires forall j :: i < j < |gs| && IsGroup(gs[j]) ==> gs[j].fields["name"] != gs[i].fields["name"]
    ensures gs[i].fields["name"] in GroupsDict(gs)
    ensures GroupsDict(gs)[gs[i].fields["name"]] == gs[i].fields["id"]
  {
    var init := gs[..|gs| - 1];
    if i < |gs| - 1 {
      assert init[i] == gs[i];
      forall j | i < j < |init| && IsGroup(init[j]) ensures init[j].fields["name"] != init[i].fields["name"] {
        assert init[j] == gs[j];
      }
      GroupsDictLastWins(init, i);
    }
  }

  /** `groups_count` never exceeds the length of the groups array. */
  lemma {:induction false} GroupsDictSize(gs: seq<Json>)
    ensures |GroupsDict(gs)| <= |gs|
  {
    if gs != [] {
      var init := gs[..|gs| - 1];
      var m := GroupsDict(init);
      GroupsDictSize(init);
      var g := gs[|gs| - 1];
      if IsGroup(g) {
        assert m[g.fields["name"] := g.fields["id"]].Keys == m.Keys + {g.fields["name"]};
        assert |m.Keys + {g.fields["name"]}| <= |m.Keys| + |{g.fields["name"]}|;
      }
    }
  }

  /** Two groups with the same name count once: `groups_count` is the map's size, not the array's length. */
  lemma DuplicateNamesCountOnce(name: Json, id1: Json, id2: Json)
    ensures var gs := [JObject(map["name" := name, "id" := id1]), JObject(map["name" := name, "id" := id2])];
      GroupsDict(gs) == map[name := id2] && |GroupsDict(gs)| == 1
  {
    var gs := [JObject(map["name" := name, "id" := id1]), JObject(map["name" := name, "id" := id2])];
    assert gs[..1] == [gs[0]];
    assert gs[..1][..0] == [];
    assert GroupsDict(gs[..1]) == map[name := id1];
    assert GroupsDict(gs) == map[name := id1][name := id2];
    assert map[name := id1][name := id2] == map[name := id2];
    assert map[name := id2].Keys == {name};
  }

  /** Pagination metadata of a groups response. */
  datatype Paging = Paging(page: int, pageSize: int, total: int, totalPages: int, hasNext: bool, hasPrevious: bool)

  /**
   * `total_pages = max(1, ceil(total / page_size))` when the page size is
   * positive, else 1; Python's `//` floors, as Dafny's `/` does for a
   * positive divisor.
   */
  function Pagination(pageIndex: int, pageSize: int, total: int): (p: Paging)
    ensures p.page == pageIndex && p.pageSize == pageSize && p.total == total
    ensures p.totalPages >= 1
    ensures pageSize > 0 && total > 0 ==> (p.totalPages - 1) * pageSize < total <= p.totalPages * pageSize
    ensures pageSize <= 0 || total <= 0 ==> p.totalPages == 1
    ensures p.hasNext <==> pageIndex < p.totalPages
    ensures p.hasPrevious <==> pageIndex > 1
  {
    var totalPages := if pageSize > 0 then Max1((total + pageSize - 1) / pageSize) else 1;
    CeilingBounds(pageSize, total);
    Paging(pageIndex, pageSize, total, totalPages, pageIndex < totalPages, pageIndex > 1)
  }

  function Max1(x: int): int {
    if x < 1 then 1 else x
  }

  lemma CeilingBounds(pageSize: int, total: int)
    ensures pageSize > 0 && total > 0 ==>
      var q := (total + pageSize - 1) / pageSize;
      q >= 1 && (q - 1) * pageSize < total <= q * pageSize
    ensures pageSize > 0 && total <= 0 ==> (total + pageSize - 1) / pageSize <= 0
  {
    if pageSize > 0 {
      var n := total + pageSize - 1;
      var q := n / pageSize;
      var rem := n % pageSize;
      assert n == q * pageSize + rem && 0 <= rem < pageSize;
      if total > 0 {
        assert q * pageSize > 0;
        assert (q - 1) * pageSize == q * pageSize - pageSize;
      } else {
        assert q * pageSize < pageSize;
      }
    }
  }

  /** The page after the last is never announced: `has_next` fails on the last page. */
  lemma LastPageHasNoNext(pageSize: int, total: int)
    requires pageSize > 0 && total > 0
    ensures var last := Pagination(1, pageSize, total).totalPages;
      !Pagination(last, pageSize, total).hasNext && Pagination(last, pageSize, total).totalPages == last
  {
  }

  /** `data.get("groups", data.get("data", []))`. */
  function GroupsArray(b: ApiBody): seq<Json> {
    if b.groups.Some? then b.groups.value else if b.data.Some? then b.data.value else []
  }

  /** `data.get("page", {})`. */
  function PageOf(b: ApiBody): PageInfo {
    if b.page.Some? then b.page.value else PageInfo(None, None, None)
  }

  function OrDefault(x: Option<int>, d: int): int {
    if x.Some? then x.value else d
  }

  datatype GroupsResult =
    | GroupsOk(groups: map<Json, Json>, groupsCount: nat, originalGroups: seq<Json>, pagination: Paging,
               search: Option<string>, timestamp: string)
    | GroupsFailed(error: string, statusCode: Option<Status>)

  const ApiEndpointVar: string := "API_ENDPOINT"
  const BearerTokenVar: string := "BEARER_TOKEN"
  const GroupsUrlMissing: string := "Groups API URL not configured. Please set API_ENDPOINT in .env file."
  const TokenMissing: string := "Bearer token not configured. Please set BEARER_TOKEN in .env file."

  function GroupsUrl(api: string, page: int, pageSize: int, search: Option<string>): string {
    api + "/api/v2/authorizations/groups?managed=true&q=" + PyStr(search)
      + "&pageSize=" + IntToString(pageSize) + "&pageIndex=" + IntToString(page)
  }

  /** The query parameters: page and size always, the search term only when it is non-empty. */
  function GroupsParams(page: int, pageSize: int, search: Option<string>): (ps: seq<(string, string)>)
    ensures |ps| == if Truthy(search) then 3 else 2
    ensures ps[0] == ("page", IntToString(page)) && ps[1] == ("page_size", IntToString(pageSize))
    ensures Truthy(search) ==> ps[2] == ("search", search.value)
  {
    [("page", IntToString(page)), ("page_size", IntToString(pageSize))]
      + (if Truthy(search) then [("search", search.value)] else [])
  }

  /** `get_groups`. */
  method GetGroups(env: Env, page: int, pageSize: int, search: Option<string>, exchange: Exchange<ApiBody>)
    returns (r: GroupsResult, sent: Option<HttpGet>)
    ensures !Truthy(GetEnv(env, ApiEndpointVar)) ==> r == GroupsFailed(GroupsUrlMissing, None) && sent == None
    ensures Truthy(GetEnv(env, ApiEndpointVar)) && !Truthy(GetEnv(env, BearerTokenVar)) ==>
      r == GroupsFailed(TokenMissing, None) && sent == None
    ensures Truthy(GetEnv(env, ApiEndpointVar)) && Truthy(GetEnv(env, BearerTokenVar)) ==>
      sent == Some(HttpGet(GroupsUrl(env[ApiEndpointVar], page, pageSize, search),
                           GroupsParams(page, pageSize, search), env[BearerTokenVar]))
    ensures sent.Some? && exchange.Failed? ==> r == GroupsFailed(FailureMessage(exchange.failure), None)
    ensures sent.Some? && exchange.Received? && IsHttpError(exchange.status) ==>
      r == GroupsFailed(StatusMessage(StatusAsWritten(exchange.status)), Some(StatusAsWritten(exchange.status)))
      && r == GroupsFailed("API request failed with status Unknown", Some(UnknownStatus))
    ensures sent.Some? && exchange.Received? && !IsHttpError(exchange.status) && exchange.body.None? ==>
      r == GroupsFailed(InvalidJsonMessage, None)
    ensures r.GroupsOk? <==>
      sent.Some? && exchange.Received? && !IsHttpError(exchange.status) && exchange.body.Some?
      && !HasUnhashableName(GroupsArray(exchange.body.value))
    ensures (sent.Some? && exchange.Received? && !IsHttpError(exchange.status) && exchange.body.Some?
             && HasUnhashableName(GroupsArray(exchange.body.value))) ==>
      var name := FirstUnhashable(GroupsArray(exchange.body.value));
      name.Some? && r == GroupsFailed("Unexpected error: " + UnhashableMessage(name.value), None)
    ensures r.GroupsOk? ==>
      var arr := GroupsArray(exchange.body.value);
      var info := PageOf(exchange.body.value);
      && r.groups == GroupsDict(arr)
      && r.groupsCount == |r.groups| <= |arr|
      && r.originalGroups == arr
      && r.pagination == Pagination(OrDefault(info.pageIndex, page), OrDefault(info.pageSize, pageSize),
                                    OrDefault(info.total, |arr|))
      && r.search == search
      && r.timestamp == Timestamp(exchange.date)
  {
    var api := GetEnv(env, ApiEndpointVar);
    var token := GetEnv(env, BearerTokenVar);
    if !Truthy(api) {
      return GroupsFailed(GroupsUrlMissing, None), None;
    }
    if !Truthy(token) {
      return GroupsFailed(TokenMissing, None), None;
    }
    sent := Some(HttpGet(GroupsUrl(api.value, page, pageSize, search), GroupsParams(page, pageSize, search), token.value));
    match exchange
    case Failed(f) =>
      r := GroupsFailed(FailureMessage(f), None);
    case Received(status, date, body) =>
      if IsHttpError(status) {
        var code := StatusAsWritten(status);
        r := GroupsFailed(StatusMessage(code), Some(code));
      } else if body.None? {
        r := GroupsFailed(InvalidJsonMessage, None);
      } else {
        var arr := GroupsArray(body.value);
        var built := BuildGroups(arr);
        match built
        case Failure(e) =>
          r := GroupsFailed("Unexpected error: " + e, None);
        case Success(groups) =>
          var info := PageOf(body.value);
          var paging := Pagination(OrDefault(info.pageIndex, page), OrDefault(info.pageSize, pageSize),
                                   OrDefault(info.total, |arr|));
          GroupsDictSize(arr);
          r := GroupsOk(groups, |groups|, arr, paging, search, Timestamp(date));
      }
  }

  // ------------------------------------------------------------- usercount

  datatype UsercountResult =
    | CountOk(userCount: int, groupId: string, timestamp: string)
    | CountFailed(error: string, statusCode: Option<Status>, echoedGroupId: Option<string>)

  const UsercountUrlMissing: string := "API URL not configured. Please set API_ENDPOINT in .env file."
  const GroupIdRequired: string := "group_id parameter is required and cannot be empty"

  function MembershipsUrl(api: string, groupId: string): string {
    api + "/api/v2/authorizations/group-memberships?groupId=" + groupId + "&pageIndex=1&pageSize=0"
  }

  /**
   * `get_usercount`: configuration first, then the group id, then one
   * request; the count is `page.total`, 0 when absent. Errors raised by the
   * request echo the group id, configuration and argument errors do not.
   */
  function GetUsercount(env: Env, groupId: string, exchange: Exchange<ApiBody>): (out: (UsercountResult, Option<HttpGet>))
    ensures !Truthy(GetEnv(env, ApiEndpointVar)) ==> out == (CountFailed(UsercountUrlMissing, None, None), None)
    ensures Truthy(GetEnv(env, ApiEndpointVar)) && !Truthy(GetEnv(env, BearerTokenVar)) ==>
      out == (CountFailed(TokenMissing, None, None), None)
    ensures Truthy(GetEnv(env, ApiEndpointVar)) && Truthy(GetEnv(env, BearerTokenVar)) && IsBlank(groupId) ==>
      out == (CountFailed(GroupIdRequired, None, None), None)
    ensures out.1.Some? <==>
      Truthy(GetEnv(env, ApiEndpointVar)) && Truthy(GetEnv(env, BearerTokenVar)) && !IsBlank(groupId)
    ensures out.1.Some? ==> out.1.value == HttpGet(MembershipsUrl(env[ApiEndpointVar], groupId), [], env[BearerTokenVar])
    ensures out.1.Some? && out.0.CountFailed? ==> out.0.echoedGroupId == Some(groupId)
    ensures out.1.Some? && exchange.Failed? ==>
      out.0 == CountFailed(FailureMessage(exchange.failure), None, Some(groupId))
    ensures out.1.Some? && exchange.Received? && !IsHttpError(exchange.status) && exchange.body.None? ==>
      out.0 == CountFailed(InvalidJsonMessage, None, Some(groupId))
    ensures out.1.Some? && exchange.Received? && IsHttpError(exchange.status) ==>
      out.0 == CountFailed(GroupStatusMessage(StatusAsWritten(exchange.status), groupId),
                           Some(StatusAsWritten(exchange.status)), Some(groupId))
      && out.0 == CountFailed("API request failed with status Unknown", Some(UnknownStatus), Some(groupId))
    ensures out.0.CountOk? <==>
      out.1.Some? && exchange.Received? && !IsHttpError(exchange.status) && exchange.body.Some?
    ensures out.0.CountOk? ==>
      && out.0.userCount == OrDefault(PageOf(exchange.body.value).total, 0)
      && out.0.groupId == groupId
      && out.0.timestamp == Timestamp(exchange.date)
  {
    var api := GetEnv(env, ApiEndpointVar);
    var token := GetEnv(env, BearerTokenVar);
    StripEmptyIffBlank(groupId);
    if !Truthy(api) then (CountFailed(UsercountUrlMissing, None, None), None)
    else if !Truthy(token) then (CountFailed(TokenMissing, None, None), None)
    else if groupId == [] || Strip(groupId) == [] then (CountFailed(GroupIdRequired, None, None), None)
    else
      var sent := Some(HttpGet(MembershipsUrl(api.value, groupId), [], token.value));
      match exchange
      case Failed(f) => (CountFailed(FailureMessage(f), None, Some(groupId)), sent)
      case Received(status, date, body) =>
        if IsHttpError(status) then
          var code := StatusAsWritten(status);
          AsWrittenStatusAlwaysUnknown(status, groupId);
          (CountFailed(GroupStatusMessage(code, groupId), Some(code), Some(groupId)), sent)
        else if body.None? then (CountFailed(InvalidJsonMessage, None, Some(groupId)), sent)
        else (CountOk(OrDefault(PageOf(body.value).total, 0), groupId, Timestamp(date)), sent)
  }

  // ------------------------------------------------------------------ teams

  /** A team record: a JSON object carrying "name". */
  predicate IsTeam(t: Json) {
    t.JObject? && "name" in t.fields
  }

  /** The names of the team records, in response order. */
  function TeamNamesOf(items: seq<Json>): (r: seq<Json>)
    ensures |r| <= |items|
  {
    if items == [] then []
    else
      var init := TeamNamesOf(items[..|items| - 1]);
      var t := items[|items| - 1];
      if IsTeam(t) then init + [t.fields["name"]] else init
  }

  /** Names of a concatenation are the names of each part, in order. */
  lemma {:induction false} TeamNamesAppend(a: seq<Json>, b: seq<Json>)
    ensures TeamNamesOf(a + b) == TeamNamesOf(a) + TeamNamesOf(b)
    decreases |b|
  {
    if b == [] {
      assert a + b == a;
    } else {
      var b' := b[..|b| - 1];
      assert (a + b)[..|a + b| - 1] == a + b';
      TeamNamesAppend(a, b');
    }
  }

  /** Each name comes from a team record, and every team record's name is listed. */
  lemma {:induction false} TeamNamesMembers(items: seq<Json>, x: Json)
    ensures x in TeamNamesOf(items) <==> exists i :: 0 <= i < |items| && IsTeam(items[i]) && items[i].fields["name"] == x
  {
    if items != [] {
      var init := items[..|items| - 1];
      TeamNamesMembers(init, x);
      if x in TeamNamesOf(init) {
        var i :| 0 <= i < |init| && IsTeam(init[i]) && init[i].fields["name"] == x;
        assert items[i] == init[i];
      }
      if exists i :: 0 <= i < |items| && IsTeam(items[i]) && items[i].fields["name"] == x {
        var i :| 0 <= i < |items| && IsTeam(items[i]) && items[i].fields["name"] == x;
        if i < |items| - 1 {
          assert init[i] == items[i];
        }
      }
    }
  }

  /** The loop that fills `team_names`; a response that is not a list yields none. */
  method TeamNames(data: Json) returns (names: seq<Json>)
    ensures names == if data.JArray? then TeamNamesOf(data.items) else []
  {
    names := [];
    if data.JArray? {
      var items := data.items;
      for i := 0 to |items|
        invariant names == TeamNamesOf(items[..i])
      {
        var team := items[i];
        assert items[..i + 1][..i] == items[..i];
        if team.JObject? && "name" in team.fields {
          names := names + [team.fields["name"]];
        }
      }
      assert items[..|items|] == items;
    }
  }

  datatype TeamsResult =
    | TeamsOk(repo: Option<string>, teams: seq<Json>, teamCount: nat, timestamp: string)
    | TeamsFailed(error: string, statusCode: Option<Status>)

  const GitHubApiVar: string := "GITHUB_API_ENDPOINT"
  const GitHubTokenVar: string := "GITHUB_BEARER_TOKEN"
  const DefaultOrg: string := "Hogarth-Worldwide"
  const TeamsUrlMissing: string := "API URL not configured. Please set GITHUB_API_ENDPOINT in .env file."
  const TeamsTokenMissing: string := "Bearer token not configured. Please set GITHUB_BEARER_TOKEN in .env file."

  /** `os.getenv("GITHUB_ORG_NAME", default)`: the default applies only when the variable is unset. */
  function TeamsOrg(env: Env): string {
    if OrgVar in env then env[OrgVar] else DefaultOrg
  }

  function TeamsUrl(api: string, org: string, repoSlug: Option<string>): string {
    api + "/repos/" + org + "/" + PyStr(repoSlug) + "/teams"
  }

  /** `get_repoteams`. */
  method GetRepoTeams(env: Env, repoSlug: Option<string>, exchange: Exchange<Json>)
    returns (r: TeamsResult, sent: Option<HttpGet>)
    ensures !Truthy(GetEnv(env, GitHubApiVar)) ==> r == TeamsFailed(TeamsUrlMissing, None) && sent == None
    ensures Truthy(GetEnv(env, GitHubApiVar)) && !Truthy(GetEnv(env, GitHubTokenVar)) ==>
      r == TeamsFailed(TeamsTokenMissing, None) && sent == None
    ensures Truthy(GetEnv(env, GitHubApiVar)) && Truthy(GetEnv(env, GitHubTokenVar)) ==>
      sent == Some(HttpGet(TeamsUrl(env[GitHubApiVar], TeamsOrg(env), repoSlug), [], env[GitHubTokenVar]))
    ensures sent.Some? && exchange.Failed? ==> r == TeamsFailed(FailureMessage(exchange.failure), None)
    ensures sent.Some? && exchange.Received? && IsHttpError(exchange.status) ==>
      r == TeamsFailed(StatusMessage(StatusAsWritten(exchange.status)), Some(StatusAsWritten(exchange.status)))
      && r == TeamsFailed("API request failed with status Unknown", Some(UnknownStatus))
    ensures sent.Some? && exchange.Received? && !IsHttpError(exchange.status) && exchange.body.None? ==>
      r == TeamsFailed(InvalidJsonMessage, None)
    ensures r.TeamsOk? <==> sent.Some? && exchange.Received? && !IsHttpError(exchange.status) && exchange.body.Some?
    ensures r.TeamsOk? ==>
      var data := exchange.body.value;
      && r.teams == (if data.JArray? then TeamNamesOf(data.items) else [])
      && r.teamCount == |r.teams|
      && r.repo == repoSlug
      && r.timestamp == Timestamp(exchange.date)
  {
    var api := GetEnv(env, GitHubApiVar);
    var token := GetEnv(env, GitHubTokenVar);
    if !Truthy(api) {
      return TeamsFailed(TeamsUrlMissing, None), None;
    }
    if !Truthy(token) {
      return TeamsFailed(TeamsTokenMissing, None), None;
    }
    sent := Some(HttpGet(TeamsUrl(api.value, TeamsOrg(env), repoSlug), [], token.value));
    match exchange
    case Failed(f) =>
      r := TeamsFailed(FailureMessage(f), None);
    case Received(status, date, body) =>
      if IsHttpError(status) {
        var code := StatusAsWritten(status);
        r := TeamsFailed(StatusMessage(code), Some(code));
      } else if body.None? {
        r := TeamsFailed(InvalidJsonMessage, None);
      } else {
        var names := TeamNames(body.value);
        r := TeamsOk(repoSlug, names, |names|, Timestamp(date));
      }
  }
}
