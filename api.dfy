/**
 * The API client of services/api.ts: the HTTP outcome rule of `fetchJson` and
 * the unwrapping each endpoint applies to the loosely-shaped JSON it receives.
 * The network exchange itself is an input: the `Reply` the server gave.
 */
module Api {
  import opened Wrappers
  import opened Strings
  import opened JsonValue

  /** The endpoints the client calls; the first six answer with a list. */
  datatype Endpoint =
    | Sports
    | AllMatches
    | LiveMatches
    | TodayMatches
    | PopularMatches
    | MatchesBySport(sportId: string)
    | Detail(matchId: string)
  {
    /** The path each endpoint requests under the API base; it records the source's routes and is not used by the model. */
    function Path(): string {
      match this
      case Sports => "/sports"
      case AllMatches => "/matches"
      case LiveMatches => "/matches/live"
      case TodayMatches => "/matches/all-today"
      case PopularMatches => "/matches/popular"
      case MatchesBySport(id) => "/matches/" + id
      case Detail(id) => "/matches/" + id + "/detail"
    }

    predicate IsList() {
      !Detail?
    }

    /** The wrapper key tried after a bare array: `sports` for the sports list, `matches` otherwise. */
    function ListKey(): string
      requires IsList()
    {
      if Sports? then "sports" else "matches"
    }
  }

  /** What `response.json()` gives: a value, or the parse error's message. */
  datatype Body = Parsed(json: Json) | Unparsable(message: string)

  /** What `fetch(url)` gives: a rejected promise, or a response. */
  datatype Reply =
    | NetworkError(message: string)
    | Response(status: nat, statusText: string, body: Body)

  /** `response.ok`: a status in the 200-299 range. */
  predicate IsOk(status: nat)
    ensures IsOk(status) <==> status / 100 == 2
  {
    200 <= status <= 299
  }

  /** The message of the Error thrown for a non-ok response. */
  function HttpErrorMessage(status: nat, statusText: string): (r: string)
    ensures StartsWith(r, "API Error: ")
    ensures Contains(r, NatToString(status))
    ensures EndsWith(r, " " + statusText)
  {
    var prefix := "API Error: ";
    var r := prefix + NatToString(status) + " " + statusText;
    assert r == prefix + NatToString(status) + (" " + statusText);
    ContainsMiddle(prefix, NatToString(status), " " + statusText);
    assert r[..|prefix|] == prefix;
    assert r[|r| - |" " + statusText|..] == " " + statusText;
    r
  }

  /** `fetchJson`: the parsed body of an ok response; every other outcome is rethrown as an Err. */
  function FetchJson(reply: Reply): (r: Result<Json>)
    ensures r.Ok? <==> reply.Response? && IsOk(reply.status) && reply.body.Parsed?
    ensures r.Ok? ==> r.value == reply.body.json
    ensures reply.NetworkError? ==> r == Err(reply.message)
    ensures reply.Response? && !IsOk(reply.status) ==> r == Err(HttpErrorMessage(reply.status, reply.statusText))
    ensures reply.Response? && IsOk(reply.status) && reply.body.Unparsable? ==> r == Err(reply.body.message)
    ensures reply.Response? && !IsOk(reply.status) ==>
              r.Err? && StartsWith(r.message, "API Error: ") && Contains(r.message, NatToString(reply.status))
  {
    match reply
    case NetworkError(m) => Err(m)
    case Response(status, text, body) =>
      if !IsOk(status) then Err(HttpErrorMessage(status, text))
      else
        match body
        case Parsed(j) => Ok(j)
        case Unparsable(m) => Err(m)
  }

  /** A 404 response becomes an Error whose message mentions 404. */
  lemma NotFoundMessageMentions404(statusText: string, body: Body)
    ensures FetchJson(Response(404, statusText, body)).Err?
    ensures Contains(FetchJson(Response(404, statusText, body)).message, "404")
  {
    assert NatToString(404) == NatToString(40) + ['4'];
    assert NatToString(40) == ['4', '0'];
    assert NatToString(404) == "404";
  }

  /** The list shape unwrapping shared by the list endpoints: a bare array, then `data[key]`, then `data.data`. */
  function NormaliseList(data: Json, key: string): (r: seq<Json>)
    ensures data.JArr? ==> r == data.items
    ensures r == [] || data.JArr? || Field(data, key).JArr? || Field(data, "data").JArr?
  {
    if data.JArr? then data.items
    else if Truthy(data) && Field(data, key).JArr? then Field(data, key).items
    else if Truthy(data) && Field(data, "data").JArr? then Field(data, "data").items
    else []
  }

  /** Reference reading: the items of the first candidate that is an array, or nothing. */
  function FirstArray(candidates: seq<Json>): seq<Json> {
    if candidates == [] then []
    else if candidates[0].JArr? then candidates[0].items
    else FirstArray(candidates[1..])
  }

  /** List normalisation takes the first array among the value itself, its `key` field and its `data` field. */
  lemma NormaliseListIsFirstArray(data: Json, key: string)
    ensures NormaliseList(data, key) == FirstArray([data, Field(data, key), Field(data, "data")])
  {
    var c := [data, Field(data, key), Field(data, "data")];
    assert c[1..] == [Field(data, key), Field(data, "data")];
    assert c[1..][1..] == [Field(data, "data")];
    assert c[1..][1..][1..] == [];
    assert FirstArray(c[1..][1..]) == if Field(data, "data").JArr? then Field(data, "data").items else [];
    assert FirstArray(c[1..]) == if Field(data, key).JArr? then Field(data, key).items else FirstArray(c[1..][1..]);
    assert !data.JArr? && (Field(data, key).JArr? || Field(data, "data").JArr?) ==> data.JObj? && Truthy(data);
  }

  /** Any shape without an array in one of the three places gives the empty list. */
  lemma NormaliseListOtherwiseEmpty(data: Json, key: string)
    requires !data.JArr? && !Field(data, key).JArr? && !Field(data, "data").JArr?
    ensures NormaliseList(data, key) == []
  {
  }

  /** An array under the endpoint's own key is preferred over one under `data`. */
  lemma NormaliseListKeyBeforeData(fields: map<string, Json>, key: string)
    requires key in fields && fields[key].JArr?
    ensures NormaliseList(JObj(fields), key) == fields[key].items
  {
  }

  /** A list endpoint's result: the normalised list, or the error `fetchJson` threw. */
  function FetchList(e: Endpoint, reply: Reply): (r: Result<seq<Json>>)
    requires e.IsList()
    ensures r.Ok? <==> FetchJson(reply).Ok?
    ensures r.Err? ==> r.message == FetchJson(reply).message
    ensures r.Ok? ==> r.value == NormaliseList(FetchJson(reply).value, e.ListKey())
    ensures reply.Response? && IsOk(reply.status) && reply.body.Parsed? && reply.body.json.JArr? ==>
              r == Ok(reply.body.json.items)
  {
    match FetchJson(reply)
    case Ok(data) => Ok(NormaliseList(data, e.ListKey()))
    case Err(m) => Err(m)
  }

  /** The five match-list endpoints normalise a reply identically; only their paths differ. */
  lemma MatchListsShareNormalisation(e1: Endpoint, e2: Endpoint, reply: Reply)
    requires e1.IsList() && e2.IsList() && !e1.Sports? && !e2.Sports?
    ensures FetchList(e1, reply) == FetchList(e2, reply)
  {
  }

  /** The sports list uses `sports` where the match lists use `matches`. */
  lemma SportsListUsesSportsKey(fields: map<string, Json>)
    requires "sports" in fields && fields["sports"].JArr?
    requires "matches" in fields && fields["matches"].JArr?
    ensures FetchList(Sports, Response(200, "OK", Parsed(JObj(fields)))) == Ok(fields["sports"].items)
    ensures FetchList(AllMatches, Response(200, "OK", Parsed(JObj(fields)))) == Ok(fields["matches"].items)
  {
  }

  /** `getMatchDetail`'s unwrapping: the value itself, `.match` or `.data`, whichever first has a truthy id. */
  function UnwrapDetail(data: Json): (r: Json)
    ensures HasId(r) || r == data
    ensures r == data || r == Field(data, "match") || r == Field(data, "data")
    ensures HasId(data) ==> r == data
  {
    if Truthy(data) && HasId(data) then data
    else if Truthy(data) && Truthy(Field(data, "match")) && HasId(Field(data, "match")) then Field(data, "match")
    else if Truthy(data) && Truthy(Field(data, "data")) && HasId(Field(data, "data")) then Field(data, "data")
    else data
  }

  /** Reference reading: the first candidate with a truthy id, or `fallback`. */
  function FirstWithId(candidates: seq<Json>, fallback: Json): Json {
    if candidates == [] then fallback
    else if HasId(candidates[0]) then candidates[0]
    else FirstWithId(candidates[1..], fallback)
  }

  /** Detail unwrapping picks the first of data, data.match, data.data with an id, else the raw data. */
  lemma UnwrapDetailIsFirstWithId(data: Json)
    ensures UnwrapDetail(data) == FirstWithId([data, Field(data, "match"), Field(data, "data")], data)
  {
    var c := [data, Field(data, "match"), Field(data, "data")];
    assert c[1..] == [Field(data, "match"), Field(data, "data")];
    assert c[1..][1..] == [Field(data, "data")];
    assert c[1..][1..][1..] == [];
    assert FirstWithId(c[1..][1..], data) == if HasId(Field(data, "data")) then Field(data, "data") else data;
    assert FirstWithId(c[1..], data) == if HasId(Field(data, "match")) then Field(data, "match") else FirstWithId(c[1..][1..], data);
    assert HasId(Field(data, "match")) ==> Truthy(Field(data, "match")) && data.JObj?;
    assert HasId(Field(data, "data")) ==> Truthy(Field(data, "data")) && data.JObj?;
  }

  /** Unwrapping an already unwrapped detail changes nothing. */
  lemma UnwrapDetailIdempotent(data: Json)
    ensures UnwrapDetail(UnwrapDetail(data)) == UnwrapDetail(data)
  {
  }

  /** The detail endpoint's result, for the reply to the request for `Detail(matchId).Path()`. */
  function FetchMatchDetail(reply: Reply): (r: Result<Json>)
    ensures r.Ok? <==> FetchJson(reply).Ok?
    ensures r.Err? ==> r.message == FetchJson(reply).message
    ensures r.Ok? ==> r.value == UnwrapDetail(FetchJson(reply).value)
    ensures r.Ok? ==> HasId(r.value) || r.value == FetchJson(reply).value
  {
    match FetchJson(reply)
    case Ok(data) => Ok(UnwrapDetail(data))
    case Err(m) => Err(m)
  }
}
