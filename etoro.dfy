/**
 * The eToro API client: the query-string builder `add_url`, the URL and verb
 * each request helper uses, and the OR composition of audience behaviours.
 * The HTTP transport itself is not modelled; a request is described by a
 * `Request` value instead of being sent.
 */
module Etoro {
  import opened Wrappers

  /** Query parameters in the order the dictionary hands them out. */
  type Params = seq<(string, string)>

  /** `'{}={}'.format(k, v)`: one query pair. */
  function Pair(k: string, v: string): string {
    k + "=" + v
  }

  /** The pairs appended one after the other, with nothing between two pairs. */
  function Query(ps: Params): string {
    if ps == [] then "" else Query(ps[..|ps| - 1]) + Pair(ps[|ps| - 1].0, ps[|ps| - 1].1)
  }

  /** Total size of the pairs: each contributes its key, its value and one `=`. */
  function PairsSize(ps: Params): nat {
    if ps == [] then 0 else PairsSize(ps[..|ps| - 1]) + |ps[|ps| - 1].0| + 1 + |ps[|ps| - 1].1|
  }

  /** The one separator put between the base URL and the parameters. */
  function Separator(baseUrl: string): (c: char)
    ensures c == '&' <==> '?' in baseUrl
    ensures c == '?' <==> '?' !in baseUrl
  {
    if '?' in baseUrl then '&' else '?'
  }

  /** The URL `add_url(baseUrl, params)` returns. */
  function UrlWithParams(baseUrl: string, params: Option<Params>): (r: string)
    ensures params.None? ==> r == baseUrl
    ensures |r| >= |baseUrl| && r[..|baseUrl|] == baseUrl
    ensures params.Some? ==> |r| > |baseUrl| && r[|baseUrl|] == Separator(baseUrl)
  {
    match params
    case None => baseUrl
    case Some(ps) => baseUrl + [Separator(baseUrl)] + Query(ps)
  }

  /** `add_url`: extends the base URL in place, one pair per loop iteration. */
  method AddUrl(baseUrl: string, params: Option<Params>) returns (url: string)
    ensures url == UrlWithParams(baseUrl, params)
  {
    url := baseUrl;
    if params.Some? {
      var flag := if '?' in url then '&' else '?';
      url := url + [flag];
      var ps := params.value;
      for i := 0 to |ps|
        invariant url == baseUrl + [flag] + Query(ps[..i])
      {
        assert ps[..i + 1][..i] == ps[..i];
        url := url + Pair(ps[i].0, ps[i].1);
      }
      assert ps[..|ps|] == ps;
    }
  }

  lemma {:induction false} QueryLength(ps: Params)
    ensures |Query(ps)| == PairsSize(ps)
  {
    if ps != [] {
      QueryLength(ps[..|ps| - 1]);
    }
  }

  /** The URL grows by the separator and the pairs, and by nothing else. */
  lemma UrlLength(baseUrl: string, ps: Params)
    ensures |UrlWithParams(baseUrl, Some(ps))| == |baseUrl| + 1 + PairsSize(ps)
  {
    QueryLength(ps);
  }

  /** Appending parameters in two batches appends their pairs in two pieces. */
  lemma {:induction false} QueryConcat(a: Params, b: Params)
    ensures Query(a + b) == Query(a) + Query(b)
  {
    if b == [] {
      assert a + b == a;
    } else {
      assert (a + b)[..|a + b| - 1] == a + b[..|b| - 1];
      QueryConcat(a, b[..|b| - 1]);
    }
  }

  /**
   * No pair separator is ever written: when no key or value holds an `&`,
   * the query text holds none either, however many pairs there are.
   */
  lemma {:induction false} QueryHasNoAmpersand(ps: Params)
    requires forall i :: 0 <= i < |ps| ==> '&' !in ps[i].0 && '&' !in ps[i].1
    ensures '&' !in Query(ps)
  {
    if ps != [] {
      var init := ps[..|ps| - 1];
      QueryHasNoAmpersand(init);
      var last := ps[|ps| - 1];
      assert Query(ps) == Query(init) + (last.0 + "=" + last.1);
    }
  }

  /**
   * Because pairs are not separated, two different parameter lists can give
   * the same URL: `p=1` followed by `r=2` reads like the single pair `p=1r=2`.
   */
  lemma PairsRunTogether(baseUrl: string)
    ensures UrlWithParams(baseUrl, Some([("p", "1"), ("r", "2")]))
         == UrlWithParams(baseUrl, Some([("p", "1r=2")]))
         == baseUrl + [Separator(baseUrl)] + "p=1r=2"
  {
    var two: Params := [("p", "1"), ("r", "2")];
    assert two[..1] == [("p", "1")];
    assert Query(two) == "p=1r=2";
  }

  /** Worked examples of the builder on concrete URLs. */
  lemma UrlExamples()
    ensures UrlWithParams("http://x/a", Some([("p", "1")])) == "http://x/a?p=1"
    ensures UrlWithParams("http://x/a?q=1", Some([("p", "2")])) == "http://x/a?q=1&p=2"
    ensures UrlWithParams("http://x/a", Some([])) == "http://x/a?"
  {
    assert "http://x/a?q=1"[10] == '?';
  }

  /** The HTTP verbs the helpers issue. */
  datatype Verb = GET | POST

  /** What a helper sends: the verb, the full URL and the form body, if any. */
  datatype Request = Request(verb: Verb, url: string, body: Option<Params>)

  /** `Etoro.get`: a GET to the API base URL, the endpoint and the query. */
  function GetRequest(apiUrl: string, endpoint: string, params: Option<Params>): (r: Request)
    ensures r.verb == GET && r.body.None?
    ensures |r.url| >= |apiUrl + endpoint| && r.url[..|apiUrl + endpoint|] == apiUrl + endpoint
    ensures params.None? ==> r.url == apiUrl + endpoint
    ensures params.Some? ==> r.url == apiUrl + endpoint + [Separator(apiUrl + endpoint)] + Query(params.value)
  {
    Request(GET, UrlWithParams(apiUrl + endpoint, params), None)
  }

  /** `Etoro.delete`: builds its URL like `get` and also issues a GET. */
  function DeleteRequest(apiUrl: string, endpoint: string, params: Option<Params>): (r: Request)
    ensures r == GetRequest(apiUrl, endpoint, params)
  {
    Request(GET, UrlWithParams(apiUrl + endpoint, params), None)
  }

  /** `Etoro.post`: the payload is both the query of the URL and the form body. */
  function PostRequest(apiUrl: string, service: string, payload: Option<Params>): (r: Request)
    ensures r.verb == POST && r.body == payload
    ensures r.url == GetRequest(apiUrl, service, payload).url
  {
    Request(POST, UrlWithParams(apiUrl + service, payload), payload)
  }

  /** JSON-like values held by a wrapped object; floats are not modelled. */
  datatype Value =
    | Null
    | Bool(b: bool)
    | Number(n: int)
    | Str(s: string)
    | List(items: seq<Value>)
    | Dict(fields: map<string, Value>)
    | Wrapped(behavior: Behavior)

  /** A `Behavior` object: the attribute dictionary it was built from. */
  datatype Behavior = Behavior(entries: map<string, Value>)

  const OperandKey := "complexAudienceBehavior"
  const OperatorKey := "operator"
  const ComponentsKey := "components"

  /**
   * Reads an OR composition back: the two operands when `b` has exactly the
   * shape `a | b` builds, and nothing for any other behaviour.
   */
  function Operands(b: Behavior): Option<(Behavior, Behavior)> {
    if b.entries.Keys != {ComponentsKey} then None
    else match b.entries[ComponentsKey]
      case List(cs) =>
        if |cs| != 2 || !cs[0].Dict? || !cs[1].Dict? then None
        else
          var first, second := cs[0].fields, cs[1].fields;
          if first.Keys != {OperandKey} || second.Keys != {OperandKey, OperatorKey} then None
          else if second[OperatorKey] != Str("OR") then None
          else if !first[OperandKey].Wrapped? || !second[OperandKey].Wrapped? then None
          else Some((first[OperandKey].behavior, second[OperandKey].behavior))
      case _ => None
  }

  /** `Behavior.__or__`: fills a fresh components list with the two operands. */
  method Or(left: Behavior, other: Behavior) returns (r: Behavior)
    ensures r.entries.Keys == {ComponentsKey}
    ensures r.entries[ComponentsKey].List? && |r.entries[ComponentsKey].items| == 2
    ensures Operands(r) == Some((left, other))
  {
    var components: seq<Value> := [];
    components := components + [Dict(map[OperandKey := Wrapped(left)])];
    components := components + [Dict(map[OperandKey := Wrapped(other), OperatorKey := Str("OR")])];
    r := Behavior(map[ComponentsKey := List(components)]);
  }
}
