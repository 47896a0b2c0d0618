/** `detect_llms.py`: scores each tool on four tiers of signals (parameter names,
    description keywords, name patterns, negative keywords) and classifies it as
    a definite LLM, a likely LLM or not an LLM. */
module DetectLlms {
  import opened Common
  import opened Text
  import opened Values
  import opened Signals

  /** A tool as the input describes it: `name`, `description` and `parameters`
      (missing ones read as `""`, `""` and `{}`). */
  datatype Tool = Tool(name: string, description: string, parameters: Value)

  /** The `name_signals` of the configuration. */
  datatype NameSignals = NameSignals(explicit: Patterns, suggestive: Patterns)

  /** The `llm_tool_detection` configuration. A parameter signal is given by its
      points: the `score` of a dict signal, or the signal itself. */
  datatype Config = Config(
    parameterSignals: map<string, int>,
    descriptionSignals: seq<Group>,
    nameSignals: NameSignals,
    negativeSignals: seq<Group>,
    thresholds: map<string, int>)

  // ---------------------------------------------------------------- parameters

  /** `_param_is_required`: the value whose truth decides whether `name` is required. */
  function ParamIsRequired(params: Value, name: string): (r: Value)
    ensures !params.Map? ==> r == Bool(false)
    ensures params.Map? ==> (Truthy(r) <==>
      (var req := Field(params, "required", List([]));
       var def := Field(params, name, Map([]));
       (req.List? && Str(name) in req.items) || (def.Map? && Truthy(Field(def, "required", Bool(false))))))
  {
    if params.Map? then
      var req := Field(params, "required", List([]));
      if req.List? && Str(name) in req.items then Bool(true)
      else
        var def := Field(params, name, Map([]));
        if def.Map? then Field(def, "required", Bool(false)) else Bool(false)
    else Bool(false)
  }

  /** Python `s.replace(c, "")` for a one-character `c`. */
  function Without(s: string, c: char): (r: string)
    ensures c !in r && |r| <= |s|
    ensures c !in s ==> r == s
    decreases |s|
  {
    if |s| == 0 then ""
    else (if s[0] == c then "" else [s[0]]) + Without(s[1..], c)
  }

  /** Exactly the occurrences of `c` are removed: every other character keeps its count. */
  lemma {:induction false} WithoutExactly(s: string, c: char)
    ensures multiset(Without(s, c)) == multiset(s)[c := 0]
    ensures |Without(s, c)| + multiset(s)[c] == |s|
    decreases |s|
  {
    if |s| > 0 {
      var rest := Without(s[1..], c);
      WithoutExactly(s[1..], c);
      assert s == [s[0]] + s[1..];
      assert multiset(s) == multiset{s[0]} + multiset(s[1..]);
      if s[0] == c {
        assert Without(s, c) == rest;
      } else {
        assert Without(s, c) == [s[0]] + rest;
        assert multiset(Without(s, c)) == multiset{s[0]} + multiset(rest);
      }
    }
  }

  lemma {:induction false} WithoutAppend(a: string, b: string, c: char)
    ensures Without(a + b, c) == Without(a, c) + Without(b, c)
    decreases |a|
  {
    if |a| > 0 {
      assert (a + b)[1..] == a[1..] + b;
      WithoutAppend(a[1..], b, c);
    } else {
      assert a + b == b;
    }
  }

  /** Which of the two prompt signals a check is, or neither (Python `True`, `False`, `None`). */
  datatype RequiredFlag = RequiredPrompt | OptionalPrompt | NotPrompt

  /** The `checks` list of `_check_parameters`. */
  const Checks: seq<(string, string, RequiredFlag)> := [
    ("required_prompt", "prompt", RequiredPrompt),
    ("optional_prompt", "prompt", OptionalPrompt),
    ("model_parameter", "model", NotPrompt),
    ("temperature_parameter", "temperature", NotPrompt),
    ("max_tokens_parameter", "max_tokens", NotPrompt)]

  /** The `required_prompt` hit: the signal is configured, `prompt` is a parameter
      and `required` says it is required. */
  function RequiredHits(signals: map<string, int>, keys: set<string>, required: bool): seq<Hit>
  {
    if "required_prompt" in signals && "prompt" in keys && required
    then [("required_prompt", signals["required_prompt"])]
    else []
  }

  /** The prompt part of the tier: `required_prompt` when it applies, else
      `optional_prompt` when that is configured and `prompt` is a parameter. */
  function PromptHits(signals: map<string, int>, keys: set<string>, required: bool): seq<Hit>
  {
    if RequiredHits(signals, keys, required) != [] then RequiredHits(signals, keys, required)
    else if "optional_prompt" in signals && "prompt" in keys then [("optional_prompt", signals["optional_prompt"])]
    else []
  }

  /** A non-prompt check hits when it is configured and its parameter name, or that
      name without underscores, is a parameter. */
  function VariantHits(signals: map<string, int>, keys: set<string>, key: string, name: string): seq<Hit>
  {
    if key in signals && (name in keys || Without(name, '_') in keys) then [(key, signals[key])] else []
  }

  lemma VariantKey(signals: map<string, int>, keys: set<string>, key: string, name: string)
    ensures forall i :: 0 <= i < |VariantHits(signals, keys, key, name)| ==> VariantHits(signals, keys, key, name)[i].0 == key
  {
  }

  /** The tier for parameter names `keys`: the prompt, then model, temperature and maximum tokens. */
  function TierHits(signals: map<string, int>, keys: set<string>, required: bool): seq<Hit>
  {
    PromptHits(signals, keys, required)
    + VariantHits(signals, keys, "model_parameter", "model")
    + VariantHits(signals, keys, "temperature_parameter", "temperature")
    + VariantHits(signals, keys, "max_tokens_parameter", "max_tokens")
  }

  /** The tier holds at most one hit per check, and every hit is a configured
      signal with its configured points. */
  lemma TierHitsConfigured(signals: map<string, int>, keys: set<string>, required: bool)
    ensures |TierHits(signals, keys, required)| <= 4
    ensures var r := TierHits(signals, keys, required);
      forall i :: 0 <= i < |r| ==> r[i].0 in signals && r[i].1 == signals[r[i].0]
  {
    var p := PromptHits(signals, keys, required);
    var m := VariantHits(signals, keys, "model_parameter", "model");
    var t := VariantHits(signals, keys, "temperature_parameter", "temperature");
    var x := VariantHits(signals, keys, "max_tokens_parameter", "max_tokens");
    assert TierHits(signals, keys, required) == p + m + t + x;
    assert |p| <= 1;
  }

  /** The hits of the parameter tier of `params`. */
  function ParameterHits(params: Value, signals: map<string, int>): seq<Hit>
  {
    TierHits(signals, ParamNames(params), Truthy(ParamIsRequired(params, "prompt")))
  }

  /** The prompt contributes at most one hit, it comes first, and `required_prompt`
      is preferred to `optional_prompt`. */
  lemma PromptOnce(signals: map<string, int>, keys: set<string>, required: bool)
    ensures var ks := HitKeys(TierHits(signals, keys, required));
      !("required_prompt" in ks && "optional_prompt" in ks)
    ensures var hs := TierHits(signals, keys, required);
      ("required_prompt" in signals && "prompt" in keys && required)
      ==> (|hs| > 0 && hs[0] == ("required_prompt", signals["required_prompt"]))
    ensures var hs := TierHits(signals, keys, required);
      ("prompt" in keys && (("required_prompt" in signals && required) || "optional_prompt" in signals))
      <==> (|hs| > 0 && hs[0].0 in {"required_prompt", "optional_prompt"})
  {
    var p := PromptHits(signals, keys, required);
    var o1 := VariantHits(signals, keys, "model_parameter", "model");
    var o2 := VariantHits(signals, keys, "temperature_parameter", "temperature");
    var o3 := VariantHits(signals, keys, "max_tokens_parameter", "max_tokens");
    var o := o1 + o2 + o3;
    var hs := TierHits(signals, keys, required);
    assert hs == p + o;
    VariantKey(signals, keys, "model_parameter", "model");
    VariantKey(signals, keys, "temperature_parameter", "temperature");
    VariantKey(signals, keys, "max_tokens_parameter", "max_tokens");
    forall i | 0 <= i < |o|
      ensures o[i].0 in {"model_parameter", "temperature_parameter", "max_tokens_parameter"}
    {
      if i < |o1| {
        assert o[i] == o1[i];
      } else if i < |o1| + |o2| {
        assert o[i] == o2[i - |o1|];
      } else {
        assert o[i] == o3[i - |o1| - |o2|];
      }
    }
    AtMostOnePrompt(p, o);
    PromptShape(signals, keys, required);
    if p != [] {
      assert hs[0] == p[0];
    } else if o != [] {
      assert hs[0] == o[0];
    }
  }

  /** The prompt part has at most one hit, and which one it is. */
  lemma PromptShape(signals: map<string, int>, keys: set<string>, required: bool)
    ensures var p := PromptHits(signals, keys, required);
      |p| <= 1
      && (("required_prompt" in signals && "prompt" in keys && required)
          ==> p == [("required_prompt", signals["required_prompt"])])
      && (("prompt" in keys && (("required_prompt" in signals && required) || "optional_prompt" in signals))
          <==> p != [])
      && (p != [] ==> p[0].0 in {"required_prompt", "optional_prompt"})
  {
  }

  /** A single leading hit followed by non-prompt hits holds at most one prompt key. */
  lemma AtMostOnePrompt(p: seq<Hit>, o: seq<Hit>)
    requires |p| <= 1
    requires forall i :: 0 <= i < |o| ==> o[i].0 != "required_prompt" && o[i].0 != "optional_prompt"
    ensures var ks := HitKeys(p + o); !("required_prompt" in ks && "optional_prompt" in ks)
  {
    var ks := HitKeys(p + o);
    forall k | |p| <= k < |ks|
      ensures ks[k] != "required_prompt" && ks[k] != "optional_prompt"
    {
      assert (p + o)[k] == o[k - |p|];
    }
  }

  /** `model_parameter` and company also match their underscore-free spelling:
      `max_tokens` is found as `maxtokens`. */
  lemma MaxTokensVariant(signals: map<string, int>, keys: set<string>)
    requires "max_tokens_parameter" in signals && "maxtokens" in keys
    ensures VariantHits(signals, keys, "max_tokens_parameter", "max_tokens")
      == [("max_tokens_parameter", signals["max_tokens_parameter"])]
  {
    MaxTokensWithout();
  }

  lemma MaxTokensWithout()
    ensures Without("max_tokens", '_') == "maxtokens"
  {
    var a, b := "max", "tokens";
    assert "max_tokens" == a + "_" + b;
    assert "maxtokens" == a + b;
    WithoutAppend(a + "_", b, '_');
    WithoutAppend(a, "_", '_');
    assert Without("_", '_') == "";
    assert '_' !in a && '_' !in b;
    assert Without(a, '_') == a && Without(b, '_') == b;
    assert Without(a + "_", '_') == a;
  }

  /** What one check of the loop adds, and `prompt_matched` after it. */
  function CheckHit(signals: map<string, int>, keys: set<string>, required: bool,
                    check: (string, string, RequiredFlag), matched: bool): (seq<Hit>, bool)
  {
    var (key, name, flag) := check;
    if key !in signals then ([], matched)
    else if name == "prompt" then
      if "prompt" in keys && !matched && (flag == OptionalPrompt || (flag == RequiredPrompt && required))
      then ([(key, signals[key])], true)
      else ([], matched)
    else if name in keys || Without(name, '_') in keys then ([(key, signals[key])], matched)
    else ([], matched)
  }

  /** One check adds at most one hit, a configured signal with its configured
      points; once the prompt has matched it stays matched, and only a prompt
      check that hits sets it. */
  lemma CheckHitShape(signals: map<string, int>, keys: set<string>, required: bool,
                      check: (string, string, RequiredFlag), matched: bool)
    ensures var r := CheckHit(signals, keys, required, check, matched);
      && |r.0| <= 1
      && (r.0 != [] ==> check.0 in signals && r.0[0] == (check.0, signals[check.0]))
      && (matched ==> r.1)
      && (r.1 != matched ==> check.1 == "prompt" && r.0 != [])
  {
  }

  /** The hits and `prompt_matched` after the first `n` checks. */
  function ChecksRun(signals: map<string, int>, keys: set<string>, required: bool, n: nat): (seq<Hit>, bool)
    requires n <= |Checks|
    decreases n
  {
    if n == 0 then ([], false)
    else
      var before := ChecksRun(signals, keys, required, n - 1);
      var step := CheckHit(signals, keys, required, Checks[n - 1], before.1);
      (before.0 + step.0, step.1)
  }

  /** Running the five checks in order gives the parameter tier. */
  lemma ChecksRunTier(signals: map<string, int>, keys: set<string>, required: bool)
    ensures ChecksRun(signals, keys, required, |Checks|).0 == TierHits(signals, keys, required)
  {
    var r0 := ChecksRun(signals, keys, required, 0);
    var r1 := ChecksRun(signals, keys, required, 1);
    var r2 := ChecksRun(signals, keys, required, 2);
    var r3 := ChecksRun(signals, keys, required, 3);
    var r4 := ChecksRun(signals, keys, required, 4);
    var r5 := ChecksRun(signals, keys, required, 5);
    var req := RequiredHits(signals, keys, required);
    RequiredCheck(signals, keys, required);
    assert r1.0 == r0.0 + req == req;
    OptionalCheck(signals, keys, required, r1.1);
    assert r2.0 == PromptHits(signals, keys, required);
    VariantCheck(signals, keys, required, Checks[2], r2.1);
    VariantCheck(signals, keys, required, Checks[3], r3.1);
    VariantCheck(signals, keys, required, Checks[4], r4.1);
  }

  lemma RequiredCheck(signals: map<string, int>, keys: set<string>, required: bool)
    ensures var req := RequiredHits(signals, keys, required);
      CheckHit(signals, keys, required, Checks[0], false) == (req, req != [])
  {
    assert Checks[0] == ("required_prompt", "prompt", RequiredPrompt);
  }

  lemma OptionalCheck(signals: map<string, int>, keys: set<string>, required: bool, matched: bool)
    requires matched == (RequiredHits(signals, keys, required) != [])
    ensures RequiredHits(signals, keys, required) + CheckHit(signals, keys, required, Checks[1], matched).0
      == PromptHits(signals, keys, required)
  {
    assert Checks[1] == ("optional_prompt", "prompt", OptionalPrompt);
    if matched {
      assert CheckHit(signals, keys, required, Checks[1], matched).0 == [];
    } else {
      assert [] + CheckHit(signals, keys, required, Checks[1], matched).0
        == CheckHit(signals, keys, required, Checks[1], matched).0;
    }
  }

  lemma VariantCheck(signals: map<string, int>, keys: set<string>, required: bool,
                     check: (string, string, RequiredFlag), matched: bool)
    requires check.1 != "prompt" && check.2 == NotPrompt
    ensures CheckHit(signals, keys, required, check, matched).0 == VariantHits(signals, keys, check.0, check.1)
  {
  }

  /** The body of the `_check_parameters` loop for one configured check: whether it
      hits, and `prompt_matched` after it. */
  method RunCheck(params: Value, signals: map<string, int>, keys: set<string>, ghost required: bool,
                  check: (string, string, RequiredFlag), matched: bool) returns (hit: bool, matchedAfter: bool)
    requires required == Truthy(ParamIsRequired(params, "prompt"))
    requires check.0 in signals
    ensures CheckHit(signals, keys, required, check, matched)
      == (if hit then [(check.0, signals[check.0])] else [], matchedAfter)
  {
    var (key, name, flag) := check;
    hit, matchedAfter := false, matched;
    if name == "prompt" {
      if "prompt" in keys {
        if flag == RequiredPrompt {
          var isRequired := ParamIsRequired(params, "prompt");
          if Truthy(isRequired) && !matched {
            hit, matchedAfter := true, true;
          }
        } else if flag == OptionalPrompt && !matched {
          hit, matchedAfter := true, true;
        }
      }
    } else if name in keys || Without(name, '_') in keys {
      hit := true;
    }
  }

  /** `_check_parameters`. */
  method CheckParameters(params: Value, signals: map<string, int>) returns (score: int, evidence: seq<string>)
    ensures score == Total(ParameterHits(params, signals))
    ensures evidence == Labels(ParameterHits(params, signals), true)
  {
    var keys := CollectParamNames(params);
    ghost var required := Truthy(ParamIsRequired(params, "prompt"));
    score, evidence := 0, [];
    var promptMatched := false;
    for i := 0 to |Checks|
      invariant promptMatched == ChecksRun(signals, keys, required, i).1
      invariant score == Total(ChecksRun(signals, keys, required, i).0)
      invariant evidence == Labels(ChecksRun(signals, keys, required, i).0, true)
    {
      var (key, name, flag) := Checks[i];
      ghost var before := ChecksRun(signals, keys, required, i).0;
      ghost var after := ChecksRun(signals, keys, required, i + 1).0;
      if key !in signals {
        assert after == before + [] == before;
        continue;
      }
      var pts := signals[key];
      var hit;
      hit, promptMatched := RunCheck(params, signals, keys, required, Checks[i], promptMatched);
      if hit {
        assert after == before + [(key, pts)];
        TotalSnoc(before, (key, pts));
        LabelsSnoc(before, (key, pts), true);
        score := score + pts;
        evidence := evidence + [Label((key, pts), true)];
      } else {
        assert after == before + [] == before;
      }
    }
    ChecksRunTier(signals, keys, required);
  }

  // ---------------------------------------------------------------- other tiers

  /** `_check_description`: keyword groups over the lower-cased description. */
  method CheckDescription(desc: string, signals: seq<Group>) returns (score: int, evidence: seq<string>)
    ensures score == Total(Hits(signals, Lower(desc)))
    ensures evidence == Labels(Hits(signals, Lower(desc)), true)
  {
    score, evidence := KeywordTier(signals, Lower(desc), true);
  }

  /** `_check_negative`: keyword groups with penalties over the lower-cased `name + " " + desc`. */
  method CheckNegative(name: string, desc: string, signals: seq<Group>) returns (score: int, evidence: seq<string>)
    ensures score == Total(Hits(signals, Lower(name + " " + desc)))
    ensures evidence == Labels(Hits(signals, Lower(name + " " + desc)), false)
  {
    score, evidence := KeywordTier(signals, Lower(name + " " + desc), false);
  }

  /** The hit of the name tier: the explicit patterns are tried first, the
      suggestive ones only when no explicit pattern is found. */
  function NameHits(signals: NameSignals, search: (string, string) -> bool, nameLower: string): (r: seq<Hit>)
    ensures |r| <= 1
    ensures AnyPattern(signals.explicit, search, nameLower) ==> r == [("explicit_name", signals.explicit.points)]
    ensures !AnyPattern(signals.explicit, search, nameLower) && AnyPattern(signals.suggestive, search, nameLower) ==>
      r == [("suggestive_name", signals.suggestive.points)]
    ensures r != [] && r[0].0 == "suggestive_name" <==>
      !AnyPattern(signals.explicit, search, nameLower) && AnyPattern(signals.suggestive, search, nameLower)
    ensures r == [] <==>
      !AnyPattern(signals.explicit, search, nameLower) && !AnyPattern(signals.suggestive, search, nameLower)
  {
    if AnyPattern(signals.explicit, search, nameLower) then [("explicit_name", signals.explicit.points)]
    else if AnyPattern(signals.suggestive, search, nameLower) then [("suggestive_name", signals.suggestive.points)]
    else []
  }

  /** `_check_name`, with the regular-expression search `search` taken as given. */
  method CheckName(name: string, signals: NameSignals, search: (string, string) -> bool) returns (score: int, evidence: seq<string>)
    ensures score == Total(NameHits(signals, search, Lower(name)))
    ensures evidence == Labels(NameHits(signals, search, Lower(name)), true)
  {
    var nameLower := Lower(name);
    var found := MatchPatterns(signals.explicit, search, nameLower);
    if found {
      var pts := signals.explicit.points;
      TotalSnoc([], ("explicit_name", pts));
      return pts, [Label(("explicit_name", pts), true)];
    }
    found := MatchPatterns(signals.suggestive, search, nameLower);
    if found {
      var pts := signals.suggestive.points;
      TotalSnoc([], ("suggestive_name", pts));
      return pts, [Label(("suggestive_name", pts), true)];
    }
    return 0, [];
  }

  /** `_classify`, with the defaults 70 and 40. */
  function Classification(score: int, thresholds: map<string, int>): (b: Band)
    ensures b == Definite <==> score >= Threshold(thresholds, "definite_llm", 70)
    ensures b == Likely <==>
      Threshold(thresholds, "likely_llm", 40) <= score < Threshold(thresholds, "definite_llm", 70)
    ensures thresholds == map[] ==> (b == Definite <==> score >= 70) && (b == Likely <==> 40 <= score < 70)
  {
    Classify(score, Threshold(thresholds, "definite_llm", 70), Threshold(thresholds, "likely_llm", 40))
  }

  // ---------------------------------------------------------------- one tool

  /** The hits of the parameter tier of a tool. */
  function ParamTier(tool: Tool, config: Config): seq<Hit>
  {
    ParameterHits(tool.parameters, config.parameterSignals)
  }

  /** The hits of the description tier of a tool. */
  function DescriptionTier(tool: Tool, config: Config): seq<Hit>
  {
    Hits(config.descriptionSignals, Lower(tool.description))
  }

  /** The hits of the name tier of a tool. */
  function NameTier(tool: Tool, config: Config, search: (string, string) -> bool): seq<Hit>
  {
    NameHits(config.nameSignals, search, Lower(tool.name))
  }

  /** The hits of the negative tier of a tool. */
  function NegativeTier(tool: Tool, config: Config): seq<Hit>
  {
    Hits(config.negativeSignals, Lower(tool.name + " " + tool.description))
  }

  /** `score_tool`: the total is the sum of the four tier scores, the evidence the
      tiers' entries in tier order, and the classification follows from the total. */
  method ScoreTool(tool: Tool, config: Config, search: (string, string) -> bool) returns (r: Report)
    ensures r.name == tool.name
    ensures r.score == Total(ParamTier(tool, config)) + Total(DescriptionTier(tool, config))
                     + Total(NameTier(tool, config, search)) + Total(NegativeTier(tool, config))
    ensures r.evidence == Labels(ParamTier(tool, config), true) + Labels(DescriptionTier(tool, config), true)
                        + Labels(NameTier(tool, config, search), true) + Labels(NegativeTier(tool, config), false)
    ensures r.band == Classification(r.score, config.thresholds)
  {
    var total := 0;
    var evidence: seq<string> := [];
    ghost var lp, ld := Labels(ParamTier(tool, config), true), Labels(DescriptionTier(tool, config), true);
    ghost var ln, lg := Labels(NameTier(tool, config, search), true), Labels(NegativeTier(tool, config), false);
    var s, e := CheckParameters(tool.parameters, config.parameterSignals);
    assert e == lp && evidence + e == lp;
    total, evidence := total + s, evidence + e;
    s, e := CheckDescription(tool.description, config.descriptionSignals);
    assert e == ld;
    total, evidence := total + s, evidence + e;
    s, e := CheckName(tool.name, config.nameSignals, search);
    assert e == ln;
    total, evidence := total + s, evidence + e;
    s, e := CheckNegative(tool.name, tool.description, config.negativeSignals);
    assert e == lg;
    total, evidence := total + s, evidence + e;
    r := Report(tool.name, total, Classification(total, config.thresholds), evidence);
  }

  /** The total is the sum of the bonus hits and the penalty hits together. */
  lemma TierSums(tool: Tool, config: Config, search: (string, string) -> bool)
    ensures var p, d, n, g := ParamTier(tool, config), DescriptionTier(tool, config),
                              NameTier(tool, config, search), NegativeTier(tool, config);
      && Total(p + d + n + g) == Total(p) + Total(d) + Total(n) + Total(g)
      && |Labels(p + d + n + g, true)| == |p| + |d| + |n| + |g|
  {
    var p, d, n, g := ParamTier(tool, config), DescriptionTier(tool, config),
                      NameTier(tool, config, search), NegativeTier(tool, config);
    TotalAppend(p, d);
    TotalAppend(p + d, n);
    TotalAppend(p + d + n, g);
  }

  // ---------------------------------------------------------------- main

  /** The filter and sort step of `main`: `participants` holds exactly the definite
      LLMs and `confirmation_needed` exactly the likely ones, each best first; tools
      classified as not an LLM appear in neither. */
  function Triage(results: seq<Report>): (r: (seq<Report>, seq<Report>))
    ensures forall x :: x in r.0 <==> x in results && x.band == Definite
    ensures forall x :: x in r.1 <==> x in results && x.band == Likely
    ensures Descending(r.0) && Descending(r.1)
    ensures multiset(r.0) == multiset(Only(results, Definite))
    ensures multiset(r.1) == multiset(Only(results, Likely))
    ensures forall s :: WithScore(r.0, s) == WithScore(Only(results, Definite), s)
    ensures forall s :: WithScore(r.1, s) == WithScore(Only(results, Likely), s)
    ensures forall x :: multiset(r.0)[x] == if x.band == Definite then multiset(results)[x] else 0
    ensures forall x :: multiset(r.1)[x] == if x.band == Likely then multiset(results)[x] else 0
    ensures forall s :: WithScore(r.0, s) == Only(WithScore(results, s), Definite)
    ensures forall s :: WithScore(r.1, s) == Only(WithScore(results, s), Likely)
  {
    SelectCorrect(results, Definite);
    SelectCorrect(results, Likely);
    (Select(results, Definite), Select(results, Likely))
  }
}
