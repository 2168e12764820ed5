/** The Geo API side of `ingestion/API/fetch_communes.py`: how the API key is
    attached to the requests, and how communes are fetched one department at a
    time (or all at once) and concatenated. The HTTP GET is a function-typed
    oracle from a request to its outcome. */
module FetchCommunes {
  import opened Common
  import opened Json

  type Dict = map<string, string>

  const DefaultFields := "nom,code,codesPostaux,population,surface,centre,contour,codeDepartement,codeRegion,departement,region"
  const DefaultDepartements: seq<string> := ["02", "59", "60", "62", "80"]
  const DefaultGeometry := "contour"

  // ---------------------------------------------------------------------------
  // Authentication

  /** `build_auth_payload`: the headers and query parameters that carry the API key. */
  method BuildAuthPayload(apiKey: Option<string>, header: Option<string>, param: Option<string>, prefix: string)
    returns (headers: Dict, params: Dict)
    ensures !Truthy(apiKey) ==> headers == map[] && params == map[]
    ensures Truthy(apiKey) && Truthy(header) ==> headers == map[header.value := prefix + apiKey.value]
    ensures Truthy(apiKey) && Truthy(param) ==> params == map[param.value := prefix + apiKey.value]
    ensures Truthy(apiKey) && !Truthy(param) ==> params == map[]
    ensures Truthy(apiKey) && !Truthy(header) && Truthy(param) ==> headers == map[]
    ensures Truthy(apiKey) && !Truthy(header) && !Truthy(param) ==>
              headers == map["Authorization" := if prefix != "" then prefix + apiKey.value else "Bearer " + apiKey.value]
  {
    headers := map[];
    params := map[];
    if !Truthy(apiKey) {
      return;
    }
    var key := apiKey.value;
    if Truthy(header) {
      headers := headers[header.value := prefix + key];
    }
    if Truthy(param) {
      params := params[param.value := prefix + key];
    }
    if !Truthy(header) && !Truthy(param) {
      headers := headers["Authorization" := if prefix != "" then prefix + key else "Bearer " + key];
    }
  }

  // ---------------------------------------------------------------------------
  // Requests

  datatype Request = Request(params: Dict, headers: Dict)

  /** One planned GET: the department it is for (none when unpartitioned) and the request. */
  datatype Call = Call(department: Option<string>, request: Request)

  /** What `session.get(...)` followed by `raise_for_status()` and `json()` gives. */
  datatype Response = Received(body: Value) | HttpFailure(reason: string)

  datatype FetchError =
    | HttpError(department: Option<string>, reason: string)
    | UnexpectedFormat(department: Option<string>, data: Value)

  /** The query parameters every request starts from; the key parameters are
      merged in last (`base_params.update(key_query_params)`). */
  function BaseParams(fields: string, geometry: string, keyParams: Dict): (r: Dict)
    ensures forall k :: k in keyParams ==> k in r && r[k] == keyParams[k]
    ensures r.Keys == keyParams.Keys + {"fields", "format", "geometry"}
    ensures "fields" !in keyParams ==> r["fields"] == fields
    ensures "format" !in keyParams ==> r["format"] == "json"
    ensures "geometry" !in keyParams ==> r["geometry"] == geometry
  {
    map["fields" := fields, "format" := "json", "geometry" := geometry] + keyParams
  }

  /** The department codes that lead to a request: the non-empty ones, in order. */
  function NonEmptyCodes(codes: seq<string>): (r: seq<string>)
    ensures forall k :: 0 <= k < |r| ==> r[k] != ""
    ensures forall c :: c in r <==> c in codes && c != ""
  {
    if codes == [] then []
    else if codes[0] == "" then NonEmptyCodes(codes[1..])
    else [codes[0]] + NonEmptyCodes(codes[1..])
  }

  /** Whether `if departements:` takes the partitioned branch. */
  predicate Partitioned(departements: Option<seq<string>>) {
    departements.Some? && departements.value != []
  }

  /** The GETs `fetch_communes` issues when every one of them succeeds. */
  function PlannedCalls(base: Dict, headers: Dict, departements: Option<seq<string>>): (r: seq<Call>)
    ensures |r| == if Partitioned(departements) then |NonEmptyCodes(departements.value)| else 1
    ensures forall k :: 0 <= k < |r| ==> r[k].request.headers == headers
    ensures forall k :: 0 <= k < |r| ==> (r[k].department.Some? <==> Partitioned(departements))
    ensures forall k :: 0 <= k < |r| && r[k].department.Some? ==>
              && r[k].department.value in departements.value && r[k].department.value != ""
              && r[k].request.params == base["codeDepartement" := r[k].department.value]
    ensures !Partitioned(departements) ==> r[0].request.params == base
  {
    if Partitioned(departements) then PlannedCallsFor(base, headers, NonEmptyCodes(departements.value))
    else
      [Call(None, Request(base, headers))]
  }

  /** The error a call raises for a response that is not a JSON list, or none. */
  function CheckResponse(call: Call, response: Response): Result<seq<Value>, FetchError>
  {
    match response
    case HttpFailure(reason) => Err(HttpError(call.department, reason))
    case Received(body) =>
      if body.Arr? then Ok(body.items) else Err(UnexpectedFormat(call.department, body))
  }

  /** Issuing `calls` in order until one fails: the requests sent and the outcome,
      the payload being the concatenation of the lists received. */
  function Collect(calls: seq<Call>, get: Request -> Response): (r: (seq<Request>, Result<seq<Value>, FetchError>))
    ensures |r.0| <= |calls|
    ensures forall k :: 0 <= k < |r.0| ==> r.0[k] == calls[k].request
    ensures r.1.Ok? ==> |r.0| == |calls|
    ensures r.1.Err? ==> r.0 != [] && CheckResponse(calls[|r.0| - 1], get(calls[|r.0| - 1].request)) == Err(r.1.error)
  {
    if calls == [] then ([], Ok([]))
    else
      var (sent, outcome) := Collect(calls[..|calls| - 1], get);
      var last := calls[|calls| - 1];
      if outcome.Err? then (sent, outcome)
      else match CheckResponse(last, get(last.request))
        case Err(e) => (sent + [last.request], Err(e))
        case Ok(items) => (sent + [last.request], Ok(outcome.value + items))
  }

  /** `fetch_communes`: one GET per non-empty department code, or a single GET
      without `codeDepartement` when there are no departments. */
  method FetchCommunes(fields: string, geometry: string, departements: Option<seq<string>>,
                       headers: Dict, keyParams: Dict, get: Request -> Response)
    returns (sent: seq<Request>, result: Result<seq<Value>, FetchError>)
    ensures (sent, result) == Collect(PlannedCalls(BaseParams(fields, geometry, keyParams), headers, departements), get)
  {
    var base := BaseParams(fields, geometry, keyParams);
    ghost var calls := PlannedCalls(base, headers, departements);
    sent := [];
    if Partitioned(departements) {
      sent, result := FetchByDepartement(base, headers, departements.value, get);
    } else {
      var request := Request(base, headers);
      var response := get(request);
      sent := [request];
      CollectSnoc([], Call(None, request), get);
      assert [] + [Call(None, request)] == calls;
      assert Collect([], get) == ([], Ok([]));
      match CheckResponse(Call(None, request), response) {
        case Err(e) =>
          result := Err(e);
          assert Collect(calls, get) == ([] + [request], Err(e));
          assert sent == [] + [request];
          assert (sent, result) == Collect(calls, get);
          return;
        case Ok(items) =>
          assert [] + items == items;
          assert Collect(calls, get) == ([] + [request], Ok([] + items));
          result := Ok(items);
          assert sent == [] + [request];
      }
    }
  }

  /** The department loop of `fetch_communes`: one GET per non-empty code,
      in order, stopping at the first one that fails. */
  method FetchByDepartement(base: Dict, headers: Dict, codes: seq<string>, get: Request -> Response)
    returns (sent: seq<Request>, result: Result<seq<Value>, FetchError>)
    ensures (sent, result) == Collect(PlannedCallsFor(base, headers, NonEmptyCodes(codes)), get)
  {
    ghost var calls := PlannedCallsFor(base, headers, NonEmptyCodes(codes));
    sent := [];
    var payload: seq<Value> := [];
    ghost var issued := [];
    var i := 0;
    while i < |codes|
      invariant 0 <= i <= |codes|
      invariant issued == NonEmptyCodes(codes[..i])
      invariant (sent, Ok(payload)) == Collect(PlannedCallsFor(base, headers, issued), get)
    {
      SnocSlice(codes, i);
      NonEmptyCodesSnoc(codes[..i], codes[i]);
      PlannedPrefix(base, headers, codes, i + 1);
      var code := codes[i];
      if code != "" {
        var request := Request(base["codeDepartement" := code], headers);
        var response := get(request);
        var call := Call(Some(code), request);
        ghost var before := PlannedCallsFor(base, headers, issued);
        PlannedCallsForSnoc(base, headers, issued, code);
        CollectSnoc(before, call, get);
        issued := issued + [code];
        sent := sent + [request];
        match CheckResponse(call, response) {
          case Err(e) =>
            result := Err(e);
            assert Collect(PlannedCallsFor(base, headers, issued), get) == (sent, result);
            CollectStaysFailed(PlannedCallsFor(base, headers, issued), calls, get);
            return;
          case Ok(items) =>
            payload := payload + items;
        }
      }
      i := i + 1;
    }
    assert codes[..i] == codes;
    result := Ok(payload);
  }

  /** One more call: what `Collect` does with the last call. */
  lemma CollectSnoc(calls: seq<Call>, call: Call, get: Request -> Response)
    ensures Collect(calls + [call], get) ==
      var (sent, outcome) := Collect(calls, get);
      if outcome.Err? then (sent, outcome)
      else match CheckResponse(call, get(call.request))
        case Err(e) => (sent + [call.request], Err(e))
        case Ok(items) => (sent + [call.request], Ok(outcome.value + items))
  {
    assert (calls + [call])[..|calls|] == calls;
  }

  /** The partitioned plan for an already filtered list of codes. */
  function PlannedCallsFor(base: Dict, headers: Dict, codes: seq<string>): (r: seq<Call>)
    ensures |r| == |codes|
  {
    seq(|codes|, k requires 0 <= k < |codes| =>
      Call(Some(codes[k]), Request(base["codeDepartement" := codes[k]], headers)))
  }

  lemma PlannedCallsForSnoc(base: Dict, headers: Dict, codes: seq<string>, code: string)
    ensures PlannedCallsFor(base, headers, codes + [code])
         == PlannedCallsFor(base, headers, codes) + [Call(Some(code), Request(base["codeDepartement" := code], headers))]
  {
  }

  lemma {:induction false} NonEmptyCodesSnoc(codes: seq<string>, code: string)
    ensures NonEmptyCodes(codes + [code]) == NonEmptyCodes(codes) + (if code == "" then [] else [code])
    decreases |codes|
  {
    if codes == [] {
      assert codes + [code] == [code];
    } else {
      assert (codes + [code])[1..] == codes[1..] + [code];
      NonEmptyCodesSnoc(codes[1..], code);
    }
  }

  lemma {:induction false} NonEmptyCodesAppend(a: seq<string>, b: seq<string>)
    ensures NonEmptyCodes(a + b) == NonEmptyCodes(a) + NonEmptyCodes(b)
    decreases |a|
  {
    if a == [] {
      assert a + b == b;
    } else {
      assert (a + b)[1..] == a[1..] + b;
      NonEmptyCodesAppend(a[1..], b);
    }
  }

  /** The calls planned for the first `i` codes begin the calls planned for all of them. */
  lemma PlannedPrefix(base: Dict, headers: Dict, codes: seq<string>, i: nat)
    requires i <= |codes|
    ensures PlannedCallsFor(base, headers, NonEmptyCodes(codes[..i])) <= PlannedCallsFor(base, headers, NonEmptyCodes(codes))
  {
    assert codes == codes[..i] + codes[i..];
    NonEmptyCodesAppend(codes[..i], codes[i..]);
  }

  /** Once a prefix of the calls has failed, the later calls change nothing. */
  lemma {:induction false} CollectStaysFailed(prefix: seq<Call>, calls: seq<Call>, get: Request -> Response)
    requires prefix <= calls
    requires Collect(prefix, get).1.Err?
    ensures Collect(calls, get) == Collect(prefix, get)
    decreases |calls|
  {
    if |calls| > |prefix| {
      var init := calls[..|calls| - 1];
      assert prefix <= init;
      CollectStaysFailed(prefix, init, get);
    } else {
      assert calls == prefix;
    }
  }

  // ---------------------------------------------------------------------------
  // Properties of the plan and of its execution

  /** The plan: one GET per non-empty code, in the caller's order, each carrying
      `codeDepartement`; or exactly one GET without it when there are no departments. */
  lemma PlannedCallsShape(base: Dict, headers: Dict, departements: Option<seq<string>>)
    ensures Partitioned(departements) ==>
      var codes := NonEmptyCodes(departements.value);
      var calls := PlannedCalls(base, headers, departements);
      && |calls| == |codes|
      && forall k :: 0 <= k < |calls| ==>
           && calls[k].department == Some(codes[k])
           && calls[k].request.params == base["codeDepartement" := codes[k]]
           && calls[k].request.headers == headers
    ensures !Partitioned(departements) ==>
      PlannedCalls(base, headers, departements) == [Call(None, Request(base, headers))]
  {
  }

  /** Every request carries `fields`, `format=json`, `geometry` (unless a key
      parameter of the same name replaces it) and every key parameter. */
  lemma RequestsCarryBaseParams(fields: string, geometry: string, keyParams: Dict, headers: Dict,
                                departements: Option<seq<string>>, k: nat)
    requires "codeDepartement" !in keyParams
    requires k < |PlannedCalls(BaseParams(fields, geometry, keyParams), headers, departements)|
    ensures var p := PlannedCalls(BaseParams(fields, geometry, keyParams), headers, departements)[k].request.params;
      && (forall key :: key in keyParams ==> key in p && p[key] == keyParams[key])
      && ("fields" !in keyParams ==> "fields" in p && p["fields"] == fields)
      && ("format" !in keyParams ==> "format" in p && p["format"] == "json")
      && ("geometry" !in keyParams ==> "geometry" in p && p["geometry"] == geometry)
  {
  }

  /** The lists received, concatenated in order, with nothing removed. */
  function Concat(calls: seq<Call>, get: Request -> Response): seq<Value>
    requires forall k :: 0 <= k < |calls| ==> AnswersList(get, calls[k])
  {
    if calls == [] then []
    else
      var last := calls[|calls| - 1];
      assert AnswersList(get, last);
      Concat(calls[..|calls| - 1], get) + get(last.request).body.items
  }

  predicate AnswersList(get: Request -> Response, call: Call) {
    get(call.request).Received? && get(call.request).body.Arr?
  }

  /** When every GET answers with a list, all are sent and the payload is their
      in-order concatenation (an empty list contributes nothing). */
  lemma {:induction false} CollectAllLists(calls: seq<Call>, get: Request -> Response)
    requires forall k :: 0 <= k < |calls| ==> AnswersList(get, calls[k])
    ensures Collect(calls, get).0 == seq(|calls|, k requires 0 <= k < |calls| => calls[k].request)
    ensures Collect(calls, get).1 == Ok(Concat(calls, get))
    decreases |calls|
  {
    if calls != [] {
      CollectAllLists(calls[..|calls| - 1], get);
    }
  }

  /** The first GET that fails or answers with something other than a list
      ends the fetch: it is the last request sent and the error names its department. */
  lemma {:induction false} CollectFirstFailure(calls: seq<Call>, get: Request -> Response, k: nat)
    requires k < |calls|
    requires forall j :: 0 <= j < k ==> AnswersList(get, calls[j])
    requires !AnswersList(get, calls[k])
    ensures Collect(calls, get).0 == seq(k + 1, j requires 0 <= j <= k => calls[j].request)
    ensures Collect(calls, get).1.Err?
    ensures Collect(calls, get).1.error.department == calls[k].department
  {
    var prefix := calls[..k + 1];
    CollectAllLists(calls[..k], get);
    assert prefix[..k] == calls[..k];
    CollectStaysFailed(prefix, calls, get);
  }

  // ---------------------------------------------------------------------------
  // `main`

  /** The department filter of `main`: empty codes dropped, and no list at all
      when the argument list is empty. */
  function MainDepartements(args: seq<string>): (r: Option<seq<string>>)
    ensures args == [] <==> r.None?
    ensures r.Some? ==> r.value == NonEmptyCodes(args)
  {
    if args != [] then Some(NonEmptyCodes(args)) else None
  }

  /** Through `main`, either one GET per non-empty code or, when there is no
      non-empty code (`--departements ""`), a single unpartitioned GET. */
  lemma MainCallCount(base: Dict, headers: Dict, args: seq<string>)
    ensures var calls := PlannedCalls(base, headers, MainDepartements(args));
            var codes := NonEmptyCodes(args);
            |calls| == (if codes == [] then 1 else |codes|)
            && (codes == [] <==> calls == [Call(None, Request(base, headers))])
  {
    var codes := NonEmptyCodes(args);
    if codes != [] {
      NonEmptyCodesIdempotent(args);
      assert PlannedCalls(base, headers, MainDepartements(args))[0].department != None;
    }
  }

  lemma {:induction false} NonEmptyCodesIdempotent(codes: seq<string>)
    ensures NonEmptyCodes(NonEmptyCodes(codes)) == NonEmptyCodes(codes)
    decreases |codes|
  {
    if codes != [] {
      NonEmptyCodesIdempotent(codes[1..]);
    }
  }
}
