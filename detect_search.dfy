/** `detect_search.py`: scores each tool on parameter names, description keywords,
    name patterns and negative keywords, and classifies it as a definite search
    tool, a likely one or not a search tool. */
module DetectSearch {
  import opened Text
  import opened Signals

  /** A tool as the input describes it (missing fields read as `""`, `""` and `{}`). */
  datatype Tool = Tool(name: string, description: string, parameters: Values.Value)

  /** The `search_tool_detection` configuration. A parameter signal is given by
      its points: the `score` of a dict signal, or the signal itself. */
  datatype Config = Config(
    parameterSignals: map<string, int>,
    descriptionSignals: seq<Group>,
    namePatterns: Patterns,
    negativeSignals: seq<Group>,
    thresholds: map<string, int>)

  /** `_add`: a tier's score and evidence added to the running ones. */
  function Add(s: int, e: seq<string>, total: int, evidence: seq<string>): (r: (int, seq<string>))
    ensures r.0 - total == s && |r.1| == |evidence| + |e| && r.1[..|evidence|] == evidence && r.1[|evidence|..] == e
  {
    (total + s, evidence + e)
  }

  /** The `query_parameter` points: the configured ones, or 0 when the signal is absent. */
  function QueryPoints(signals: map<string, int>): (r: int)
    ensures "query_parameter" in signals ==> r == signals["query_parameter"]
    ensures "query_parameter" !in signals ==> r == 0
  {
    if "query_parameter" in signals then signals["query_parameter"] else 0
  }

  /** The parameter tier: one hit, even with 0 points, when `query` or `url` is a parameter. */
  function QueryHits(params: Values.Value, signals: map<string, int>): (r: seq<Hit>)
    ensures |r| <= 1
    ensures r != [] <==> "query" in ParamNames(params) || "url" in ParamNames(params)
    ensures r != [] ==> r == [("query_parameter", QueryPoints(signals))]
  {
    var keys := ParamNames(params);
    if "query" in keys || "url" in keys then [("query_parameter", QueryPoints(signals))] else []
  }

  /** For a parameter `dict`: the tier hits exactly when some key, or some nested
      `properties` name, lower-cased, is `query` or `url`. */
  lemma QueryParameterIff(m: Assoc.Entries<Values.Value>, signals: map<string, int>)
    ensures QueryHits(Values.Map(m), signals) != [] <==>
      exists i :: 0 <= i < |m| && (Lower(m[i].0) in {"query", "url"}
        || "query" in NestedNames(m[i].1) || "url" in NestedNames(m[i].1))
  {
    EntryNamesExactly(m, |m|);
  }

  /** `_check_parameters`. */
  method CheckParameters(params: Values.Value, signals: map<string, int>) returns (score: int, evidence: seq<string>)
    ensures score == Total(QueryHits(params, signals))
    ensures evidence == Labels(QueryHits(params, signals), true)
  {
    var keys := CollectParamNames(params);
    score, evidence := 0, [];
    var pts := QueryPoints(signals);
    if "query" in keys || "url" in keys {
      TotalSnoc([], ("query_parameter", pts));
      score := score + pts;
      evidence := evidence + [Label(("query_parameter", pts), true)];
    }
  }

  /** `_check_description`. */
  method CheckDescription(desc: string, signals: seq<Group>) returns (score: int, evidence: seq<string>)
    ensures score == Total(Hits(signals, Lower(desc)))
    ensures evidence == Labels(Hits(signals, Lower(desc)), true)
  {
    score, evidence := KeywordTier(signals, Lower(desc), true);
  }

  /** `_check_negative`. */
  method CheckNegative(name: string, desc: string, signals: seq<Group>) returns (score: int, evidence: seq<string>)
    ensures score == Total(Hits(signals, Lower(name + " " + desc)))
    ensures evidence == Labels(Hits(signals, Lower(name + " " + desc)), false)
  {
    score, evidence := KeywordTier(signals, Lower(name + " " + desc), false);
  }

  /** The name tier: one `name_pattern` hit when some pattern is found in the name. */
  function NameHits(p: Patterns, search: (string, string) -> bool, nameLower: string): (r: seq<Hit>)
    ensures |r| <= 1
    ensures r != [] <==> AnyPattern(p, search, nameLower)
    ensures r != [] ==> r == [("name_pattern", p.points)]
  {
    if AnyPattern(p, search, nameLower) then [("name_pattern", p.points)] else []
  }

  /** `_check_name`, with the regular-expression search `search` taken as given. */
  method CheckName(name: string, p: Patterns, search: (string, string) -> bool) returns (score: int, evidence: seq<string>)
    ensures score == Total(NameHits(p, search, Lower(name)))
    ensures evidence == Labels(NameHits(p, search, Lower(name)), true)
  {
    var found := MatchPatterns(p, search, Lower(name));
    if found {
      TotalSnoc([], ("name_pattern", p.points));
      return p.points, [Label(("name_pattern", p.points), true)];
    }
    return 0, [];
  }

  /** `_classify`, with the defaults 60 and 30. */
  function Classification(score: int, thresholds: map<string, int>): (b: Band)
    ensures b == Definite <==> score >= Threshold(thresholds, "definite_search", 60)
    ensures b == Likely <==>
      Threshold(thresholds, "not_search", 30) <= score < Threshold(thresholds, "definite_search", 60)
    ensures thresholds == map[] ==> (b == Definite <==> score >= 60) && (b == Likely <==> 30 <= score < 60)
  {
    Classify(score, Threshold(thresholds, "definite_search", 60), Threshold(thresholds, "not_search", 30))
  }

  function ParamTier(tool: Tool, config: Config): seq<Hit>
  {
    QueryHits(tool.parameters, config.parameterSignals)
  }

  function DescriptionTier(tool: Tool, config: Config): seq<Hit>
  {
    Hits(config.descriptionSignals, Lower(tool.description))
  }

  function NameTier(tool: Tool, config: Config, search: (string, string) -> bool): seq<Hit>
  {
    NameHits(config.namePatterns, search, Lower(tool.name))
  }

  function NegativeTier(tool: Tool, config: Config): seq<Hit>
  {
    Hits(config.negativeSignals, Lower(tool.name + " " + tool.description))
  }

  /** `score_tool`: the four tiers accumulated with `_add`, then classified. */
  method ScoreTool(tool: Tool, config: Config, search: (string, string) -> bool) returns (r: Report)
    ensures r.name == tool.name
    ensures r.score == Total(ParamTier(tool, config)) + Total(DescriptionTier(tool, config))
                     + Total(NameTier(tool, config, search)) + Total(NegativeTier(tool, config))
    ensures r.evidence == Labels(ParamTier(tool, config), true) + Labels(DescriptionTier(tool, config), true)
                        + Labels(NameTier(tool, config, search), true) + Labels(NegativeTier(tool, config), false)
    ensures r.band == Classification(r.score, config.thresholds)
  {
    var acc: (int, seq<string>) := (0, []);
    ghost var lp, ld := Labels(ParamTier(tool, config), true), Labels(DescriptionTier(tool, config), true);
    ghost var ln, lg := Labels(NameTier(tool, config, search), true), Labels(NegativeTier(tool, config), false);
    var s, e := CheckParameters(tool.parameters, config.parameterSignals);
    assert e == lp && acc.1 + e == lp;
    acc := Add(s, e, acc.0, acc.1);
    s, e := CheckDescription(tool.description, config.descriptionSignals);
    assert e == ld;
    acc := Add(s, e, acc.0, acc.1);
    s, e := CheckName(tool.name, config.namePatterns, search);
    assert e == ln;
    acc := Add(s, e, acc.0, acc.1);
    s, e := CheckNegative(tool.name, tool.description, config.negativeSignals);
    assert e == lg;
    acc := Add(s, e, acc.0, acc.1);
    r := Report(tool.name, acc.0, Classification(acc.0, config.thresholds), acc.1);
  }

  /** The filter and sort step of `main`: `search_tools` holds exactly the definite
      search tools and `confirmation_needed` exactly the likely ones, each best first. */
  function Triage(results: seq<Report>): (r: (seq<Report>, seq<Report>))
    ensures forall x :: x in r.0 <==> x in results && x.band == Definite
    ensures forall x :: x in r.1 <==> x in results && x.band == Likely
    ensures Descending(r.0) && Descending(r.1)
    ensures multiset(r.0) == multiset(Only(results, Definite))
    ensures multiset(r.1) == multiset(Only(results, Likely))
    ensures forall s :: WithScore(r.0, s) == WithScore(Only(results, Definite), s)
    ensures forall s :: WithScore(r.1, s) == WithScore(Only(results, Likely), s)
    ensures forall x :: multiset(r.0)[x] == if x.band == Definite then multiset(results)[x] else 0
    ensures forall x :: multiset(r.1)[x] == if x.band == Likely then multiset(results)[x] else 0
    ensures forall s :: WithScore(r.0, s) == Only(WithScore(results, s), Definite)
    ensures forall s :: WithScore(r.1, s) == Only(WithScore(results, s), Likely)
  {
    SelectCorrect(results, Definite);
    SelectCorrect(results, Likely);
    (Select(results, Definite), Select(results, Likely))
  }
}
