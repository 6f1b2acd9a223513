/**
 * The `/probe` endpoint: which response a GET request receives, and the
 * handler that builds a fresh collector for the requested target, collects
 * and hands the families to the exposition encoder.
 *
 * The request arrives already split: its path and its query as the map of
 * lists `parse_qs` builds. The target lookup, which the source calls as
 * `get_target_config` on a configuration store that does not define it, and
 * the encoder (`generate_latest`) are parameters.
 */
module Probe {
  import opened Wrappers
  import opened Values
  import opened Metrics
  import opened Entries
  import opened Collector

  /** The response body, with the content type it is sent under. */
  datatype Body =
    | PlainText(text: string)       // "text/plain"
    | Exposition(document: string)  // the exposition format's content type

  datatype Response = Response(code: int, body: Body)

  const NotFoundText: string := "Not Found: Use the /probe?target=... endpoint"
  const MissingTargetText: string := "Bad Request: 'target' parameter is required"

  function UnknownTargetText(name: string): string {
    "Target '" + name + "' not found in configuration"
  }

  /** The text before the exception's own message, which is not modelled. */
  function FailureText(name: string): string {
    "Failed to probe target '" + name + "': "
  }

  /** `query_params.get('target', [])`. */
  function TargetList(query: map<string, seq<string>>): seq<string> {
    if "target" in query then query["target"] else []
  }

  /** The name a probe is for: the first target value, when there is one. */
  function ProbedName(query: map<string, seq<string>>): string {
    if TargetList(query) == [] then "" else TargetList(query)[0]
  }

  /**
   * The response `do_GET` sends, given what the encoder produced for the
   * collected families (None when it raised).
   */
  function ProbeResponse(path: string, query: map<string, seq<string>>, lookup: string -> Json, exposition: Option<string>): Response {
    if path != "/probe" then Response(404, PlainText(NotFoundText))
    else if TargetList(query) == [] then Response(400, PlainText(MissingTargetText))
    else
      var name := TargetList(query)[0];
      var config := lookup(name);
      if !Truthy(config) then Response(404, PlainText(UnknownTargetText(name)))
      else if !config.Obj? then Response(500, PlainText(FailureText(name)))
      else match exposition
        case None => Response(500, PlainText(FailureText(name)))
        case Some(document) => Response(200, Exposition(document))
  }

  /**
   * The response as the handler is written: the configuration store defines
   * no `get_target_config`, so once a target is named the call at line 340
   * raises AttributeError outside the handler's `try`, and no response is
   * sent (None).
   */
  function ProbeResponseAsWritten(path: string, query: map<string, seq<string>>): Option<Response> {
    if path != "/probe" then Some(Response(404, PlainText(NotFoundText)))
    else if TargetList(query) == [] then Some(Response(400, PlainText(MissingTargetText)))
    else None
  }

  /**
   * As written, a request that names a target gets no response at all; the
   * others get the response of the intended handler, whatever its lookup.
   */
  lemma AsWrittenAnswersNoTarget(path: string, query: map<string, seq<string>>, lookup: string -> Json, exposition: Option<string>)
    ensures ProbeResponseAsWritten(path, query).None? <==> path == "/probe" && TargetList(query) != []
    ensures ProbeResponseAsWritten(path, query).Some? ==>
      ProbeResponseAsWritten(path, query).value == ProbeResponse(path, query, lookup, exposition)
  {
  }

  /** A probe of a configured target: no response as written, a 200 from the intended handler. */
  lemma AsWrittenProbeExample(lookup: string -> Json, document: string)
    requires lookup("prod") == Obj(map["api_url" := Str("https://backup.example")])
    ensures ProbeResponseAsWritten("/probe", map["target" := ["prod"]]) == None
    ensures ProbeResponse("/probe", map["target" := ["prod"]], lookup, Some(document)) == Response(200, Exposition(document))
  {
    var q := map["target" := ["prod"]];
    assert TargetList(q) == ["prod"];
    assert Truthy(lookup("prod")) by {
      assert "api_url" in lookup("prod").fields;
    }
  }

  /** Whether the request gets as far as collecting: the path, a target, and a non-empty dict for it. */
  predicate Collects(path: string, query: map<string, seq<string>>, lookup: string -> Json) {
    path == "/probe" && TargetList(query) != [] && Truthy(lookup(TargetList(query)[0])) && lookup(TargetList(query)[0]).Obj?
  }

  /** The endpoint answers with one of four codes; only a 200 carries an exposition document. */
  lemma ResponseCodes(path: string, query: map<string, seq<string>>, lookup: string -> Json, exposition: Option<string>)
    ensures var r := ProbeResponse(path, query, lookup, exposition);
      (r.code == 200 || r.code == 400 || r.code == 404 || r.code == 500) &&
      (r.code == 200 <==> r.body.Exposition?)
  {
  }

  /**
   * Each code, and its body, is chosen by exactly one condition, checked in
   * order: the path, the presence of a target, the lookup of the first
   * target, the client's construction, and the encoder.
   */
  lemma ResponseCases(path: string, query: map<string, seq<string>>, lookup: string -> Json, exposition: Option<string>)
    ensures var r := ProbeResponse(path, query, lookup, exposition);
      var name := ProbedName(query);
      (path != "/probe" ==> r == Response(404, PlainText(NotFoundText))) &&
      (r.code == 400 <==> path == "/probe" && TargetList(query) == []) &&
      (r.code == 400 ==> r.body == PlainText(MissingTargetText)) &&
      (r.code == 404 <==> path != "/probe" || (TargetList(query) != [] && !Truthy(lookup(name)))) &&
      (path == "/probe" && r.code == 404 ==> r.body == PlainText(UnknownTargetText(name))) &&
      (r.code == 500 <==>
        path == "/probe" && TargetList(query) != [] && Truthy(lookup(name)) && (!lookup(name).Obj? || exposition.None?)) &&
      (r.code == 500 ==> r.body == PlainText(FailureText(name))) &&
      (r.code == 200 <==> Collects(path, query, lookup) && exposition.Some?) &&
      (r.code == 200 ==> r.body == Exposition(exposition.value))
  {
  }

  /** Only the first target value counts: queries that agree on it get the same response. */
  lemma FirstTargetDecides(path: string, q: map<string, seq<string>>, q': map<string, seq<string>>, lookup: string -> Json, exposition: Option<string>)
    requires TargetList(q) != [] && TargetList(q') != [] && TargetList(q)[0] == TargetList(q')[0]
    ensures ProbeResponse(path, q, lookup, exposition) == ProbeResponse(path, q', lookup, exposition)
  {
  }

  /** Until the collector runs, nothing depends on the backend or the encoder. */
  lemma EarlyResponsesIgnoreEncoder(path: string, query: map<string, seq<string>>, lookup: string -> Json, exposition: Option<string>)
    requires !Collects(path, query, lookup)
    ensures ProbeResponse(path, query, lookup, exposition) == ProbeResponse(path, query, lookup, None)
  {
  }

  /**
   * `do_GET`, from the path check to writing the response. `families` is
   * what the encoder was given: nothing unless the request collects, and
   * otherwise the families of a fresh collector for the target.
   */
  method HandleProbe(path: string, query: map<string, seq<string>>, lookup: string -> Json,
                     vmResponse: Json, jobResponse: Json, duration: int, encode: seq<MetricFamily> -> Option<string>)
    returns (r: Response, families: seq<MetricFamily>)
    ensures r == ProbeResponse(path, query, lookup, encode(families))
    ensures !Collects(path, query, lookup) ==> families == []
    ensures Collects(path, query, lookup) ==>
      families == Scraped(ProbedName(query), lookup(ProbedName(query)), vmResponse, jobResponse, duration)
  {
    families := [];
    if path != "/probe" {
      r := Response(404, PlainText(NotFoundText));
      return;
    }
    var targetList := TargetList(query);
    if targetList == [] {
      r := Response(400, PlainText(MissingTargetText));
      return;
    }
    var name := targetList[0];
    var config := lookup(name);
    if !Truthy(config) {
      r := Response(404, PlainText(UnknownTargetText(name)));
      return;
    }
    var ok;
    ok, families := ScrapeTarget(name, config, vmResponse, jobResponse, duration);
    if !ok {
      r := Response(500, PlainText(FailureText(name)));
      return;
    }
    var output := encode(families);
    if output.None? {
      r := Response(500, PlainText(FailureText(name)));
      return;
    }
    r := Response(200, Exposition(output.value));
  }

  /**
   * Lines 353-359: a fresh collector for the target, its client, and one
   * collection. `ok` is false when building the collector or its client
   * raises, which happens exactly when the configuration is empty or not a dict.
   */
  method ScrapeTarget(name: string, config: Json, vmResponse: Json, jobResponse: Json, duration: int)
    returns (ok: bool, families: seq<MetricFamily>)
    ensures ok <==> Truthy(config) && config.Obj?
    ensures !ok ==> families == []
    ensures ok ==> families == Scraped(name, config, vmResponse, jobResponse, duration)
  {
    families := [];
    var collector;
    ok, collector := ClientCollector(name, config);
    if !ok {
      return;
    }
    families := collector.Collect(vmResponse, jobResponse, duration);
  }

  /** Lines 354-355: the collector as `__init__` builds it, once `initialize_client` has given it a client. */
  method ClientCollector(name: string, config: Json) returns (ok: bool, collector: CommvaultCollector?)
    ensures ok <==> Truthy(config) && config.Obj?
    ensures ok ==>
      collector != null && fresh(collector) && collector.targetName == name && collector.targetConfig == config &&
      collector.apiClient != null && collector.Declared() && collector.Valid()
  {
    ok := false;
    collector := NewCollector(name, config);
    if collector == null {
      return;
    }
    ok := collector.InitializeClient();
  }
}
