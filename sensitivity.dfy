/** `check_sensitivity`: a question is sensitive when it mentions one of the
    configured keywords, compared without regard to letter case. */
module Sensitivity {
  import opened Text

  datatype Level = Public | Sensitive

  datatype Verdict = Verdict(level: Level, matchedKeywords: seq<string>)

  /** Keyword `kw` occurs in the question, both lower-cased. */
  predicate Mentions(question: string, kw: string)
  {
    Contains(Lower(question), Lower(kw))
  }

  /** The keywords the question mentions, in their configured order and spelling. */
  function Matched(question: string, keywords: seq<string>): (r: seq<string>)
    ensures |r| <= |keywords|
    ensures forall i :: 0 <= i < |r| ==> r[i] in keywords && Mentions(question, r[i])
    decreases |keywords|
  {
    if |keywords| == 0 then []
    else if Mentions(question, keywords[0]) then [keywords[0]] + Matched(question, keywords[1..])
    else Matched(question, keywords[1..])
  }

  /** `check_sensitivity`. */
  function CheckSensitivity(question: string, keywords: seq<string>): (r: Verdict)
    ensures r.matchedKeywords == Matched(question, keywords)
    ensures r.level == Sensitive <==> r.matchedKeywords != []
  {
    var matched := Matched(question, keywords);
    Verdict(if matched != [] then Sensitive else Public, matched)
  }

  /** `s` is a subsequence of `t`: `t` with some elements left out, order kept. */
  predicate Subsequence(s: seq<string>, t: seq<string>)
    decreases |t|
  {
    if |s| == 0 then true
    else if |t| == 0 then false
    else if s[0] == t[0] then Subsequence(s[1..], t[1..])
    else Subsequence(s, t[1..])
  }

  /** The matches keep the order of the keyword list, every keyword the question
      mentions is among them, and each one occurs as often as it is configured. */
  lemma {:induction false} MatchedExactly(question: string, keywords: seq<string>)
    ensures Subsequence(Matched(question, keywords), keywords)
    ensures forall kw :: kw in keywords ==> (kw in Matched(question, keywords) <==> Mentions(question, kw))
    ensures forall kw ::
      multiset(Matched(question, keywords))[kw] == (if Mentions(question, kw) then multiset(keywords)[kw] else 0)
    decreases |keywords|
  {
    if |keywords| > 0 {
      MatchedExactly(question, keywords[1..]);
      assert keywords == [keywords[0]] + keywords[1..];
      assert multiset(keywords) == multiset{keywords[0]} + multiset(keywords[1..]);
      assert forall kw :: kw in keywords ==> kw == keywords[0] || kw in keywords[1..];
    }
  }

  /** A keyword appended to the configuration is appended to the matches exactly
      when the question mentions it. */
  lemma {:induction false} MatchedSnoc(question: string, keywords: seq<string>, k: string)
    ensures Matched(question, keywords + [k])
      == Matched(question, keywords) + (if Mentions(question, k) then [k] else [])
    decreases |keywords|
  {
    if |keywords| > 0 {
      assert (keywords + [k])[1..] == keywords[1..] + [k];
      MatchedSnoc(question, keywords[1..], k);
    } else {
      assert [k][1..] == [];
    }
  }

  /** With no keywords configured every question is public. */
  lemma NoKeywordsPublic(question: string)
    ensures CheckSensitivity(question, []) == Verdict(Public, [])
  {
  }

  /** The verdict depends on the question only through its lower-cased form. */
  lemma {:induction false} CaseInsensitive(q1: string, q2: string, keywords: seq<string>)
    requires Lower(q1) == Lower(q2)
    ensures CheckSensitivity(q1, keywords) == CheckSensitivity(q2, keywords)
  {
    MatchedSameLower(q1, q2, keywords);
  }

  lemma {:induction false} MatchedSameLower(q1: string, q2: string, keywords: seq<string>)
    requires Lower(q1) == Lower(q2)
    ensures Matched(q1, keywords) == Matched(q2, keywords)
    decreases |keywords|
  {
    if |keywords| > 0 {
      MatchedSameLower(q1, q2, keywords[1..]);
    }
  }

  /** In particular, lower-casing the question first changes nothing. */
  lemma LowerQuestion(question: string, keywords: seq<string>)
    ensures CheckSensitivity(Lower(question), keywords) == CheckSensitivity(question, keywords)
  {
    LowerIdempotent(question);
    CaseInsensitive(Lower(question), question, keywords);
  }
}
