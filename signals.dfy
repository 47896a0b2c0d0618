/** The scoring machinery `detect_llms.py` and `detect_search.py` share: keyword
    signal groups that count at most once each, name patterns, the lower-cased
    parameter names of a tool, the three-way classification, and the final
    filter and stable sort by descending score. */
module Signals {
  import opened Common
  import opened Text
  import opened Assoc
  import opened Numerals
  import opened Values

  /** One matched signal: its evidence key and the points it adds (a penalty is negative). */
  type Hit = (string, int)

  /** The sum of the points of `hits`. */
  function Total(hits: seq<Hit>): int
    decreases |hits|
  {
    if |hits| == 0 then 0 else Total(hits[..|hits| - 1]) + hits[|hits| - 1].1
  }

  lemma TotalSnoc(hits: seq<Hit>, h: Hit)
    ensures Total(hits + [h]) == Total(hits) + h.1
  {
    assert (hits + [h])[..|hits|] == hits;
  }

  /** Bonuses alone never give a negative total, penalties alone never a positive one. */
  lemma {:induction false} TotalSign(hits: seq<Hit>)
    ensures (forall i :: 0 <= i < |hits| ==> hits[i].1 >= 0) ==> Total(hits) >= 0
    ensures (forall i :: 0 <= i < |hits| ==> hits[i].1 <= 0) ==> Total(hits) <= 0
    decreases |hits|
  {
    if |hits| > 0 {
      var p := hits[..|hits| - 1];
      assert forall i :: 0 <= i < |p| ==> p[i] == hits[i];
      TotalSign(p);
    }
  }

  /** The scores of consecutive tiers add up. */
  lemma {:induction false} TotalAppend(a: seq<Hit>, b: seq<Hit>)
    ensures Total(a + b) == Total(a) + Total(b)
    decreases |b|
  {
    if |b| == 0 {
      assert a + b == a;
    } else {
      var b', l := b[..|b| - 1], b[|b| - 1];
      assert a + b == (a + b') + [l];
      assert b == b' + [l];
      TotalSnoc(a + b', l);
      TotalAppend(a, b');
      TotalSnoc(b', l);
    }
  }

  /** The evidence text of a hit: `key(+pts)` for a bonus, `key(pts)` for a penalty. */
  function Label(h: Hit, bonus: bool): (r: string)
    ensures |r| > 0 && StartsWith(r, h.0) && r[|r| - 1] == ')'
  {
    var r := h.0 + (if bonus then "(+" else "(") + Show(h.1) + ")";
    assert r[..|h.0|] == h.0;
    r
  }

  function Labels(hits: seq<Hit>, bonus: bool): (r: seq<string>)
    ensures |r| == |hits|
    ensures forall i :: 0 <= i < |hits| ==> r[i] == Label(hits[i], bonus)
  {
    seq(|hits|, i requires 0 <= i < |hits| => Label(hits[i], bonus))
  }

  lemma LabelsSnoc(hits: seq<Hit>, h: Hit, bonus: bool)
    ensures Labels(hits + [h], bonus) == Labels(hits, bonus) + [Label(h, bonus)]
  {
    assert forall i :: 0 <= i < |hits| + 1 ==>
      Labels(hits + [h], bonus)[i] == (Labels(hits, bonus) + [Label(h, bonus)])[i];
  }

  /** The evidence of consecutive tiers is their evidence concatenated. */
  lemma LabelsAppend(a: seq<Hit>, b: seq<Hit>, bonus: bool)
    ensures Labels(a + b, bonus) == Labels(a, bonus) + Labels(b, bonus)
  {
    var l, r := Labels(a + b, bonus), Labels(a, bonus) + Labels(b, bonus);
    forall i | 0 <= i < |a + b|
      ensures l[i] == r[i]
    {
      if i < |a| {
        assert (a + b)[i] == a[i];
      } else {
        assert (a + b)[i] == b[i - |a|];
      }
    }
    assert l == r;
  }

  // ---------------------------------------------------------------- keyword groups

  /** A signal group's configuration: a dict with `keywords` and its points
      (`score` for the description tier, `penalty` for the negative tier, 0 when
      absent), or anything else, which the tiers skip. */
  datatype Signal = Keywords(words: seq<string>, points: int) | Unusable

  datatype Group = Group(key: string, signal: Signal)

  /** Keyword `kw`, lower-cased, occurs in the already lower-cased `text`. */
  predicate Mentions(text: string, kw: string)
  {
    Contains(text, Lower(kw))
  }

  /** The group is usable and one of its keywords occurs in `text`. */
  predicate Fires(g: Group, text: string)
  {
    g.signal.Keywords? && exists j :: 0 <= j < |g.signal.words| && Mentions(text, g.signal.words[j])
  }

  /** The hits of the first `n` groups, in configuration order: one per group that fires. */
  function GroupHits(groups: seq<Group>, text: string, n: nat): (r: seq<Hit>)
    requires n <= |groups|
    ensures |r| <= n
    decreases n
  {
    if n == 0 then []
    else
      var g := groups[n - 1];
      GroupHits(groups, text, n - 1) + (if Fires(g, text) then [(g.key, g.signal.points)] else [])
  }

  function Hits(groups: seq<Group>, text: string): (r: seq<Hit>)
    ensures |r| <= |groups|
  {
    GroupHits(groups, text, |groups|)
  }

  /** The evidence keys of `hits`, in order. */
  function HitKeys(hits: seq<Hit>): (r: seq<string>)
    ensures |r| == |hits| && forall i :: 0 <= i < |hits| ==> r[i] == hits[i].0
  {
    seq(|hits|, i requires 0 <= i < |hits| => hits[i].0)
  }

  /** No key repeats, as in a Python `dict`. */
  ghost predicate Distinct(keys: seq<string>)
  {
    forall i, j :: 0 <= i < j < |keys| ==> keys[i] != keys[j]
  }

  function GroupKeys(groups: seq<Group>): (r: seq<string>)
    ensures |r| == |groups| && forall i :: 0 <= i < |groups| ==> r[i] == groups[i].key
  {
    seq(|groups|, i requires 0 <= i < |groups| => groups[i].key)
  }

  /** A key has a hit exactly when some group with that key fires, and the hit carries
      that group's points; with distinct group keys each group yields at most one evidence entry. */
  lemma {:induction false} HitsExactly(groups: seq<Group>, text: string, n: nat)
    requires n <= |groups|
    ensures forall h :: h in GroupHits(groups, text, n) <==>
      exists i :: 0 <= i < n && Fires(groups[i], text) && h == (groups[i].key, groups[i].signal.points)
    ensures Distinct(GroupKeys(groups)) ==> Distinct(HitKeys(GroupHits(groups, text, n)))
    ensures forall h :: h in GroupHits(groups, text, n) ==> h.0 in GroupKeys(groups)[..n]
    decreases n
  {
    if n > 0 {
      HitsExactly(groups, text, n - 1);
      var g := groups[n - 1];
      var prev := GroupHits(groups, text, n - 1);
      var r := GroupHits(groups, text, n);
      assert GroupKeys(groups)[..n] == GroupKeys(groups)[..n - 1] + [g.key];
      forall h ensures h in r <==>
        exists i :: 0 <= i < n && Fires(groups[i], text) && h == (groups[i].key, groups[i].signal.points)
      {
        if h in r && h !in prev {
          assert h == (g.key, g.signal.points);
        }
      }
      if Distinct(GroupKeys(groups)) && Fires(g, text) {
        forall i | 0 <= i < |prev| ensures prev[i].0 != g.key {
          assert prev[i] in prev;
        }
        assert HitKeys(r) == HitKeys(prev) + [g.key];
      } else if Distinct(GroupKeys(groups)) {
        assert HitKeys(r) == HitKeys(prev);
      }
    }
  }

  /** Whether some keyword of `words` occurs in `text`: the inner loop of a keyword
      tier, which stops at the first match. */
  method AnyKeyword(words: seq<string>, text: string) returns (found: bool)
    ensures found <==> exists j :: 0 <= j < |words| && Mentions(text, words[j])
  {
    var j := 0;
    found := false;
    while j < |words| && !found
      invariant 0 <= j <= |words|
      invariant found <==> exists k :: 0 <= k < j && Mentions(text, words[k])
    {
      if Contains(text, Lower(words[j])) {
        found := true;
      }
      j := j + 1;
    }
  }

  /** `_check_description` and `_check_negative`: each usable group whose keywords
      occur in `text` adds its points once, with one evidence entry. */
  method KeywordTier(groups: seq<Group>, text: string, bonus: bool) returns (score: int, evidence: seq<string>)
    ensures score == Total(Hits(groups, text))
    ensures evidence == Labels(Hits(groups, text), bonus)
  {
    score, evidence := 0, [];
    for n := 0 to |groups|
      invariant score == Total(GroupHits(groups, text, n))
      invariant evidence == Labels(GroupHits(groups, text, n), bonus)
    {
      var g := groups[n];
      GroupHitsNext(groups, text, n);
      if !g.signal.Keywords? {
        continue;
      }
      var found := AnyKeyword(g.signal.words, text);
      if found {
        var h := (g.key, g.signal.points);
        TotalSnoc(GroupHits(groups, text, n), h);
        LabelsSnoc(GroupHits(groups, text, n), h, bonus);
        score := score + g.signal.points;
        evidence := evidence + [Label(h, bonus)];
      }
    }
  }

  lemma GroupHitsNext(groups: seq<Group>, text: string, n: nat)
    requires n < |groups|
    ensures Fires(groups[n], text) ==>
      GroupHits(groups, text, n + 1) == GroupHits(groups, text, n) + [(groups[n].key, groups[n].signal.points)]
    ensures !Fires(groups[n], text) ==> GroupHits(groups, text, n + 1) == GroupHits(groups, text, n)
  {
  }

  // ---------------------------------------------------------------- name patterns

  /** A name-pattern signal: a dict with `patterns` and its `score`, or anything else. */
  datatype Patterns = Patterns(patterns: seq<string>, points: int) | NoPatterns

  /** Some pattern is found in `text` by `search`, the regular-expression search
      `re.search(pattern, text, re.IGNORECASE)`, which the model takes as given. */
  predicate AnyPattern(p: Patterns, search: (string, string) -> bool, text: string)
  {
    p.Patterns? && exists j :: 0 <= j < |p.patterns| && search(p.patterns[j], text)
  }

  /** The `for pattern in ...: if re.search(...)` loop of `_check_name`. */
  method MatchPatterns(p: Patterns, search: (string, string) -> bool, text: string) returns (found: bool)
    ensures found <==> AnyPattern(p, search, text)
  {
    if !p.Patterns? {
      return false;
    }
    var j := 0;
    while j < |p.patterns|
      invariant 0 <= j <= |p.patterns|
      invariant forall k :: 0 <= k < j ==> !search(p.patterns[k], text)
    {
      if search(p.patterns[j], text) {
        return true;
      }
      j := j + 1;
    }
    return false;
  }

  // ---------------------------------------------------------------- parameter names

  /** `str(p).lower()` for an element of a parameter list; the text of a `dict`, a
      `list` or a `float` is not modelled, so those contribute no name. */
  function ShownLower(v: Value): (r: Option<string>)
    ensures v.Str? ==> r == Some(Lower(v.s))
  {
    match v
    case Str(s) => Some(Lower(s))
    case Int(i) => Some(Show(i))
    case Bool(b) => Some(if b then "true" else "false")
    case Null => Some("none")
    case _ => None
  }

  /** `{str(p).lower() for p in params}` over the first `n` elements. */
  function ListNames(xs: seq<Value>, n: nat): (r: set<string>)
    requires n <= |xs|
    ensures forall k :: k in r <==> exists i :: 0 <= i < n && ShownLower(xs[i]) == Some(k)
    decreases n
  {
    if n == 0 then {}
    else
      ListNames(xs, n - 1) + (match ShownLower(xs[n - 1]) case Some(k) => {k} case None => {})
  }

  /** The lower-cased keys of a `dict`. */
  function KeyNames(m: Entries<Value>, n: nat): (r: set<string>)
    requires n <= |m|
    ensures forall k :: k in r <==> exists i :: 0 <= i < n && k == Lower(m[i].0)
    decreases n
  {
    if n == 0 then {} else KeyNames(m, n - 1) + {Lower(m[n - 1].0)}
  }

  /** `p.lower() for p in v["properties"]`: the keys of a `dict`, the strings of a
      `list`, the characters of a `str`. Python raises for a list element that is
      not a string and for a value it cannot iterate; here those give no name. */
  function PropertyNames(p: Value): set<string>
  {
    match p
    case Map(m) => KeyNames(m, |m|)
    case List(xs) => set i | 0 <= i < |xs| && xs[i].Str? :: Lower(xs[i].s)
    case Str(s) => set i | 0 <= i < |s| :: [LowerChar(s[i])]
    case _ => {}
  }

  /** The names `properties` contributes: the lower-cased keys of a `dict`, the
      lower-cased strings of a `list` (other elements skipped), the lower-cased
      characters of a `str`, and nothing for anything else. */
  lemma PropertyNamesExactly(p: Value)
    ensures p.Map? ==> forall k :: k in PropertyNames(p) <==> exists i :: 0 <= i < |p.entries| && k == Lower(p.entries[i].0)
    ensures p.List? ==> forall k :: k in PropertyNames(p) <==>
      exists i :: 0 <= i < |p.items| && p.items[i].Str? && k == Lower(p.items[i].s)
    ensures p.Str? ==> forall k :: k in PropertyNames(p) <==> exists i :: 0 <= i < |p.s| && k == [LowerChar(p.s[i])]
    ensures !p.Map? && !p.List? && !p.Str? ==> PropertyNames(p) == {}
  {
  }

  /** The nested names a parameter definition adds: those of its `properties`. */
  function NestedNames(v: Value): set<string>
  {
    if v.Map? && HasKey(v.entries, "properties") then PropertyNames(Get(v.entries, "properties")) else {}
  }

  /** The names the first `n` entries of a parameter `dict` contribute. */
  function EntryNames(m: Entries<Value>, n: nat): set<string>
    requires n <= |m|
    decreases n
  {
    if n == 0 then {} else EntryNames(m, n - 1) + {Lower(m[n - 1].0)} + NestedNames(m[n - 1].1)
  }

  /** `param_keys`: the lower-cased parameter names of a `dict` (with nested
      `properties`) or a `list`; no names for anything else. */
  function ParamNames(params: Value): set<string>
  {
    match params
    case Map(m) => EntryNames(m, |m|)
    case List(xs) => ListNames(xs, |xs|)
    case _ => {}
  }

  /** A name comes from a parameter `dict` exactly when it is some key lower-cased
      or one of the nested names under some key. */
  lemma {:induction false} EntryNamesExactly(m: Entries<Value>, n: nat)
    requires n <= |m|
    ensures forall k :: k in EntryNames(m, n) <==>
      exists i :: 0 <= i < n && (k == Lower(m[i].0) || k in NestedNames(m[i].1))
    decreases n
  {
    if n > 0 {
      EntryNamesExactly(m, n - 1);
    }
  }

  /** `param_keys` of a `dict` holds exactly its lower-cased keys and nested
      `properties` names; of a `list`, exactly its shown, lower-cased elements;
      of anything else, nothing. */
  lemma ParamNamesExactly(params: Value)
    ensures params.Map? ==> forall k :: k in ParamNames(params) <==>
      exists i :: 0 <= i < |params.entries| && (k == Lower(params.entries[i].0) || k in NestedNames(params.entries[i].1))
    ensures params.List? ==> forall k :: k in ParamNames(params) <==>
      exists i :: 0 <= i < |params.items| && ShownLower(params.items[i]) == Some(k)
    ensures !params.Map? && !params.List? ==> ParamNames(params) == {}
  {
    if params.Map? {
      EntryNamesExactly(params.entries, |params.entries|);
    }
  }

  /** The loop that builds `param_keys`. */
  method CollectParamNames(params: Value) returns (keys: set<string>)
    ensures keys == ParamNames(params)
  {
    keys := {};
    match params {
      case Map(m) =>
        for n := 0 to |m|
          invariant keys == EntryNames(m, n)
        {
          var (k, v) := m[n];
          keys := keys + {Lower(k)};
          if v.Map? && HasKey(v.entries, "properties") {
            keys := keys + PropertyNames(Get(v.entries, "properties"));
          }
        }
      case List(xs) =>
        keys := ListNames(xs, |xs|);
      case _ =>
    }
  }

  // ---------------------------------------------------------------- classification

  /** The three classifications, in decreasing confidence. */
  datatype Band = Definite | Likely | Unlikely

  /** `_classify` with its two thresholds already read. */
  function Classify(score: int, definite: int, likely: int): (b: Band)
    ensures b == Definite <==> score >= definite
    ensures b == Likely <==> likely <= score < definite
    ensures b == Unlikely <==> score < definite && score < likely
  {
    if score >= definite then Definite else if score >= likely then Likely else Unlikely
  }

  function Rank(b: Band): nat
  {
    match b
    case Definite => 2
    case Likely => 1
    case Unlikely => 0
  }

  /** A higher score never gets a lower classification. */
  lemma ClassifyMonotone(s1: int, s2: int, definite: int, likely: int)
    requires s1 <= s2
    ensures Rank(Classify(s1, definite, likely)) <= Rank(Classify(s2, definite, likely))
  {
  }

  /** `thresholds.get(key, default)`. */
  function Threshold(thresholds: map<string, int>, key: string, default: int): (r: int)
    ensures key in thresholds ==> r == thresholds[key]
    ensures key !in thresholds ==> r == default
  {
    if key in thresholds then thresholds[key] else default
  }

  // ---------------------------------------------------------------- reports

  /** The dict `score_tool` returns. */
  datatype Report = Report(name: string, score: int, band: Band, evidence: seq<string>)

  /** `[r for r in results if r["classification"] == band]`. */
  function Only(results: seq<Report>, band: Band): (r: seq<Report>)
    ensures |r| <= |results|
    ensures forall i :: 0 <= i < |r| ==> r[i].band == band
    ensures multiset(r) <= multiset(results)
    ensures forall x :: x in results && x.band == band ==> x in r
    ensures forall x :: multiset(r)[x] == if x.band == band then multiset(results)[x] else 0
    decreases |results|
  {
    if |results| == 0 then []
    else
      assert results == [results[0]] + results[1..];
      (if results[0].band == band then [results[0]] else []) + Only(results[1..], band)
  }

  lemma OnlyCons(y: Report, zs: seq<Report>, band: Band)
    ensures Only([y] + zs, band) == (if y.band == band then [y] else []) + Only(zs, band)
  {
    assert ([y] + zs)[1..] == zs;
  }

  /** The filter keeps the input order: the results of one score among the kept
      ones are the kept results among those of that score. */
  lemma {:induction false} OnlyWithScore(xs: seq<Report>, band: Band, s: int)
    ensures WithScore(Only(xs, band), s) == Only(WithScore(xs, s), band)
    decreases |xs|
  {
    if |xs| > 0 {
      var y, zs := xs[0], xs[1..];
      assert xs == [y] + zs;
      var kept, scored := Only(zs, band), WithScore(zs, s);
      OnlyWithScore(zs, band, s);
      OnlyCons(y, zs, band);
      WithScoreCons(y, zs, s);
      if y.band == band && y.score == s {
        WithScoreCons(y, kept, s);
        OnlyCons(y, scored, band);
      } else if y.band == band {
        WithScoreCons(y, kept, s);
        assert WithScore(xs, s) == scored;
      } else if y.score == s {
        OnlyCons(y, scored, band);
        assert Only(xs, band) == kept;
      } else {
        assert Only(xs, band) == kept;
        assert WithScore(xs, s) == scored;
      }
    }
  }

  /** Sorted by score, highest first. */
  ghost predicate Descending(xs: seq<Report>)
  {
    forall i, j :: 0 <= i < j < |xs| ==> xs[i].score >= xs[j].score
  }

  /** The elements of `xs` with score `s`, in their order in `xs`. */
  function WithScore(xs: seq<Report>, s: int): (r: seq<Report>)
    decreases |xs|
  {
    if |xs| == 0 then []
    else (if xs[0].score == s then [xs[0]] else []) + WithScore(xs[1..], s)
  }

  /** Insert `x` before the first element whose score is not higher. */
  function Insert(x: Report, ys: seq<Report>): (r: seq<Report>)
    ensures multiset(r) == multiset(ys) + multiset{x}
    decreases |ys|
  {
    if |ys| == 0 || ys[0].score <= x.score then [x] + ys
    else
      assert ys == [ys[0]] + ys[1..];
      [ys[0]] + Insert(x, ys[1..])
  }

  /** `list.sort(key=lambda r: r["score"], reverse=True)`: Python's sort is stable
      also when reversed, so equal scores keep their order. */
  function SortByScore(xs: seq<Report>): (r: seq<Report>)
    ensures multiset(r) == multiset(xs)
    decreases |xs|
  {
    if |xs| == 0 then []
    else
      assert xs == [xs[0]] + xs[1..];
      Insert(xs[0], SortByScore(xs[1..]))
  }

  lemma {:induction false} InsertDescending(x: Report, ys: seq<Report>)
    requires Descending(ys)
    ensures Descending(Insert(x, ys))
    decreases |ys|
  {
    if |ys| > 0 && ys[0].score > x.score {
      var rest := Insert(x, ys[1..]);
      InsertDescending(x, ys[1..]);
      forall j | 0 <= j < |rest| ensures ys[0].score >= rest[j].score {
        assert rest[j] in multiset(ys[1..]) + multiset{x};
        if rest[j] in multiset(ys[1..]) {
          var k :| 0 < k < |ys| && ys[k] == rest[j];
        }
      }
    }
  }

  lemma {:induction false} InsertStable(x: Report, ys: seq<Report>, s: int)
    ensures WithScore(Insert(x, ys), s) == (if x.score == s then [x] else []) + WithScore(ys, s)
    decreases |ys|
  {
    if |ys| > 0 && ys[0].score > x.score {
      var y, rest := ys[0], ys[1..];
      InsertStable(x, rest, s);
      WithScoreCons(y, Insert(x, rest), s);
      assert ys == [y] + rest;
      WithScoreCons(y, rest, s);
    } else {
      WithScoreCons(x, ys, s);
    }
  }

  lemma WithScoreCons(y: Report, zs: seq<Report>, s: int)
    ensures WithScore([y] + zs, s) == (if y.score == s then [y] else []) + WithScore(zs, s)
  {
    assert ([y] + zs)[1..] == zs;
  }

  /** The sort orders by descending score, keeps exactly the same elements, and
      keeps the original order among elements of equal score. */
  lemma {:induction false} SortByScoreCorrect(xs: seq<Report>)
    ensures Descending(SortByScore(xs))
    ensures multiset(SortByScore(xs)) == multiset(xs)
    ensures forall s :: WithScore(SortByScore(xs), s) == WithScore(xs, s)
    decreases |xs|
  {
    if |xs| > 0 {
      SortByScoreCorrect(xs[1..]);
      InsertDescending(xs[0], SortByScore(xs[1..]));
      forall s ensures WithScore(SortByScore(xs), s) == WithScore(xs, s) {
        InsertStable(xs[0], SortByScore(xs[1..]), s);
      }
    }
  }

  /** One output list of `main`: the results of one classification, best first. */
  function Select(results: seq<Report>, band: Band): seq<Report>
  {
    SortByScore(Only(results, band))
  }

  /** The list holds exactly the results of that classification, with their
      multiplicities, sorted by descending score, ties in input order. */
  lemma SelectCorrect(results: seq<Report>, band: Band)
    ensures Descending(Select(results, band))
    ensures multiset(Select(results, band)) == multiset(Only(results, band))
    ensures forall x :: x in Select(results, band) <==> x in results && x.band == band
    ensures forall s :: WithScore(Select(results, band), s) == WithScore(Only(results, band), s)
    ensures forall x :: multiset(Select(results, band))[x] == if x.band == band then multiset(results)[x] else 0
    ensures forall s :: WithScore(Select(results, band), s) == Only(WithScore(results, s), band)
  {
    var only, sel := Only(results, band), Select(results, band);
    SortByScoreCorrect(only);
    forall s ensures WithScore(sel, s) == Only(WithScore(results, s), band) {
      OnlyWithScore(results, band, s);
    }
    forall x ensures x in sel <==> x in results && x.band == band {
      assert x in sel <==> x in multiset(sel);
      assert x in results <==> x in multiset(results);
    }
  }
}
