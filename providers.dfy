/**
  The two configured thesaurus services of `SynonymAPI` and what one query
  to one of them yields (`get_synonyms_from_api`): the request it is sent,
  the status check, the per-service extraction and the single-token filter.
  The network is not modelled: a service's reply is an input.
 */
module Providers {
  import opened Wrappers
  import opened Text

  /** The configured services, keyed in the configuration by their names. */
  datatype Api = Datamuse | Ninjas

  /** The configuration's order, which every walk over the services follows. */
  const Apis: seq<Api> := [Datamuse, Ninjas]

  function Name(api: Api): string {
    match api
    case Datamuse => "datamuse"
    case Ninjas => "ninjas"
  }

  function Url(api: Api): string {
    match api
    case Datamuse => "https://api.datamuse.com/words"
    case Ninjas => "https://api.api-ninjas.com/v1/thesaurus"
  }

  /** The configured names, in configuration order. */
  function Names(): (r: seq<string>)
    ensures r == ["datamuse", "ninjas"]
  {
    seq(|Apis|, i requires 0 <= i < |Apis| => Name(Apis[i]))
  }

  /** A query-string value: text or a number. */
  datatype ParamValue = Str(text: string) | Int(number: int)

  /** The GET request sent to a service; `headers` is absent when the
      service's configuration has none, and a header value is absent when
      the environment variable it is read from is unset. */
  datatype Request = Request(
    url: string,
    params: map<string, ParamValue>,
    headers: Option<map<string, Option<string>>>)

  /** The request for `word`: datamuse gets the word as both its means-like
      and synonym-relation parameters and a cap of 15 results; ninjas gets the
      word alone and the API key header, `ninjasKey` being the value of the
      API_NINJAS_KEY environment variable at start-up. */
  function BuildRequest(api: Api, word: string, ninjasKey: Option<string>): (r: Request)
    ensures r.url == Url(api)
    ensures api == Datamuse ==>
      && r.params.Keys == {"ml", "rel_syn", "max"}
      && r.params["ml"] == r.params["rel_syn"] == Str(word)
      && r.params["max"] == Int(15)
      && r.headers == None
    ensures api == Ninjas ==>
      r.params == map["word" := Str(word)] && r.headers == Some(map["X-Api-Key" := ninjasKey])
  {
    match api
    case Datamuse =>
      Request(Url(api), map["ml" := Str(word), "rel_syn" := Str(word), "max" := Int(15)], None)
    case Ninjas =>
      Request(Url(api), map["word" := Str(word)], Some(map["X-Api-Key" := ninjasKey]))
  }

  /** Different words make different requests: the word queried is the word
      the service is sent. */
  lemma BuildRequestInjective(api: Api, w1: string, w2: string, key: Option<string>)
    requires BuildRequest(api, w1, key) == BuildRequest(api, w2, key)
    ensures w1 == w2
  {
    var p := if api == Datamuse then "rel_syn" else "word";
    assert BuildRequest(api, w1, key).params[p] == Str(w1);
    assert BuildRequest(api, w2, key).params[p] == Str(w2);
  }

  /** One object of datamuse's result array; `word` is None when the object
      has no "word" key. */
  datatype Item = Item(word: Option<string>)

  /** A reply body decoded from JSON, in the two shapes the services send. */
  datatype Body =
    | ItemArray(items: seq<Item>)                    // a JSON array of objects (datamuse)
    | SynonymObject(synonyms: Option<seq<string>>)   // a JSON object, with or without "synonyms" (ninjas)
    | Undecodable(cause: string)                     // `response.json()` raised

  /** What the HTTP client produced for one request. */
  datatype Reply =
    | Response(status: nat, body: Body)
    | TimedOut                     // the 5-second timeout expired
    | RequestFailed(cause: string) // a connection or transport error
    | Crashed(cause: string)       // any other exception the client raised

  /** `ExternalAPIError(api_name, message)`; `ToString()` is its `str()`. */
  datatype ExternalApiError = ExternalApiError(apiName: string, message: string) {
    function ToString(): string {
      apiName + ": " + message
    }
  }

  type Outcome = Result<seq<string>, ExternalApiError>

  /** httpx's `is_success`: a 2xx status. */
  predicate IsSuccess(status: nat) {
    200 <= status < 300
  }

  /** The single-token filter: `len(s.split()) == 1`. */
  predicate IsSingleToken(s: string) {
    |Split(s)| == 1
  }

  /** The raw candidates the service's extraction rule reads from a body, or
      the description of the exception that reading it raises.
      datamuse: the "word" of every object that has one; iterating a JSON
      object instead visits its keys, and the only key modelled, "synonyms",
      does not contain "word", so nothing is read.
      ninjas: the "synonyms" array, or nothing when the key is missing
      (`data.get("synonyms", [])`); a JSON array has no `get`. */
  function Candidates(api: Api, body: Body): (r: Result<seq<string>, string>)
    ensures r.Success? <==> !body.Undecodable? && !(api.Ninjas? && body.ItemArray?)
  {
    match body
    case Undecodable(cause) => Failure("Unexpected error: " + cause)
    case ItemArray(items) =>
      if api == Datamuse then Success(Words(items))
      else Failure(NoGetOnList)
    case SynonymObject(synonyms) =>
      if api == Datamuse then Success([])
      else Success(if synonyms.Some? then synonyms.value else [])
  }

  /** What Python says when `get` is called on a list. */
  const NoGetOnList: string := "Unexpected error: 'list' object has no attribute 'get'"

  /** `[item["word"] for item in data if "word" in item]` */
  function Words(items: seq<Item>): (r: seq<string>)
    ensures forall s :: s in r <==> exists i | 0 <= i < |items| :: items[i].word == Some(s)
  {
    if items == [] then []
    else
      var rest := Words(items[1..]);
      assert forall i | 1 <= i < |items| :: items[1..][i - 1] == items[i];
      if items[0].word.Some? then [items[0].word.value] + rest else rest
  }

  /** The candidates that are one whitespace-separated token, in order. */
  function FilterSingle(xs: seq<string>): (r: seq<string>)
    ensures |r| <= |xs|
    ensures forall i :: 0 <= i < |r| ==> IsSingleToken(r[i])
  {
    if xs == [] then []
    else if IsSingleToken(xs[0]) then [xs[0]] + FilterSingle(xs[1..])
    else FilterSingle(xs[1..])
  }

  /** The filter keeps a candidate exactly when it is one token. */
  lemma {:induction false} FilterSingleMembers(xs: seq<string>, s: string)
    ensures s in FilterSingle(xs) <==> s in xs && IsSingleToken(s)
  {
    if xs != [] {
      FilterSingleMembers(xs[1..], s);
      assert xs == [xs[0]] + xs[1..];
    }
  }

  /** `get_synonyms_from_api` once the client has produced `reply`: the
      synonyms the service contributes, or the error it raises. */
  function Query(api: Api, reply: Reply): (r: Outcome)
    ensures r.Failure? ==> r.error.apiName == Name(api)
    ensures r.Success? <==>
      reply.Response? && IsSuccess(reply.status) && Candidates(api, reply.body).Success?
    ensures reply.Response? && !IsSuccess(reply.status) ==>
      r.error.message == "HTTP " + Decimal(reply.status)
    ensures r.Success? ==> forall i :: 0 <= i < |r.value| ==> IsSingleToken(r.value[i])
  {
    match reply
    case TimedOut => Failure(ExternalApiError(Name(api), "Request timeout"))
    case RequestFailed(cause) => Failure(ExternalApiError(Name(api), "Request failed: " + cause))
    case Crashed(cause) => Failure(ExternalApiError(Name(api), "Unexpected error: " + cause))
    case Response(status, body) =>
      if !IsSuccess(status) then Failure(ExternalApiError(Name(api), "HTTP " + Decimal(status)))
      else
        match Candidates(api, body)
        case Success(candidates) => Success(FilterSingle(candidates))
        case Failure(message) => Failure(ExternalApiError(Name(api), message))
  }

  /** `get_synonyms_from_api` exactly as written: the status error raised
      inside the `try` is caught by its own `except Exception` clause and
      raised again with "Unexpected error: " and its full text in front. */
  function QueryAsWritten(api: Api, reply: Reply): (r: Outcome)
    ensures reply.Response? && !IsSuccess(reply.status) ==>
      r == Failure(ExternalApiError(Name(api), "Unexpected error: " + Query(api, reply).error.ToString()))
    ensures !(reply.Response? && !IsSuccess(reply.status)) ==> r == Query(api, reply)
  {
    match reply
    case Response(status, _) =>
      if !IsSuccess(status) then
        var raised := ExternalApiError(Name(api), "HTTP " + Decimal(status));
        Failure(ExternalApiError(Name(api), "Unexpected error: " + raised.ToString()))
      else Query(api, reply)
    case _ => Query(api, reply)
  }

  /** For every non-2xx status (a 500 from datamuse, say) the error recorded
      as written is "Unexpected error: <name>: HTTP <status>", where the
      corrected model records the reason "HTTP <status>". */
  lemma StatusErrorRewrapped(api: Api, status: nat, body: Body)
    requires !IsSuccess(status)
    ensures Query(api, Response(status, body)).error
      == ExternalApiError(Name(api), "HTTP " + Decimal(status))
    ensures QueryAsWritten(api, Response(status, body)).error
      == ExternalApiError(Name(api), "Unexpected error: " + (Name(api) + ": " + ("HTTP " + Decimal(status))))
    ensures QueryAsWritten(api, Response(status, body)).error.message
      != Query(api, Response(status, body)).error.message
  {
    var reason := "HTTP " + Decimal(status);
    assert |"Unexpected error: " + (Name(api) + ": " + reason)| > |reason|;
  }

  /** A successful datamuse reply yields the one-token "word" values;
      objects without a "word" key are skipped. */
  lemma DatamuseExtraction(status: nat, items: seq<Item>, s: string)
    requires IsSuccess(status)
    ensures Query(Datamuse, Response(status, ItemArray(items))).Success?
    ensures s in Query(Datamuse, Response(status, ItemArray(items))).value <==>
      IsSingleToken(s) && exists i | 0 <= i < |items| :: items[i].word == Some(s)
  {
    FilterSingleMembers(Words(items), s);
  }

  /** A successful ninjas reply yields the one-token members of its
      "synonyms" array; a reply without the key yields none, and that is not
      an error. */
  lemma NinjasExtraction(status: nat, synonyms: Option<seq<string>>, s: string)
    requires IsSuccess(status)
    ensures Query(Ninjas, Response(status, SynonymObject(synonyms))).Success?
    ensures s in Query(Ninjas, Response(status, SynonymObject(synonyms))).value <==>
      IsSingleToken(s) && synonyms.Some? && s in synonyms.value
    ensures synonyms == None ==> Query(Ninjas, Response(status, SynonymObject(synonyms))).value == []
  {
    FilterSingleMembers(if synonyms.Some? then synonyms.value else [], s);
  }

  /** A two-word phrase such as "well being" never survives the filter,
      and a plain word such as "content" always does. */
  lemma PhrasesDropped(a: string, b: string, xs: seq<string>)
    requires a != [] && NoSpace(a) && b != [] && NoSpace(b)
    ensures a + " " + b !in FilterSingle(xs)
    ensures a in FilterSingle(xs) <==> a in xs
  {
    SplitWord(a);
    SplitTwoWords(a, b, a + " " + b);
    FilterSingleMembers(xs, a);
    FilterSingleMembers(xs, a + " " + b);
  }

  /** Nor does the empty string. */
  lemma EmptyDropped(xs: seq<string>)
    ensures "" !in FilterSingle(xs)
  {
    FilterSingleMembers(xs, "");
  }
}
