/** Line-level helpers of the fallback YAML parser: comment stripping,
    indentation, look-ahead and block-string collection. */
module YamlLines {
  import opened Common
  import opened Text

  /** Whether a scan is inside a quoted run, and which quote opened it. */
  datatype Quote = NoQuote | InQuote(q: char)

  predicate IsQuoteChar(c: char)
  {
    c == '"' || c == '\''
  }

  /** The quote state `_strip_comment` has reached before index `i`. A quote
      character toggles the state unless a backslash precedes it; a quote of
      the other kind inside a quoted run changes nothing. */
  function QuoteAt(line: string, i: nat): (r: Quote)
    requires i <= |line|
    ensures r.InQuote? ==> IsQuoteChar(r.q)
    ensures (forall j :: 0 <= j < i ==> !IsQuoteChar(line[j])) ==> r == NoQuote
    decreases i
  {
    if i == 0 then NoQuote
    else
      var q := QuoteAt(line, i - 1);
      var c := line[i - 1];
      if IsQuoteChar(c) && (i - 1 == 0 || line[i - 2] != '\\') then
        if q == InQuote(c) then NoQuote
        else if q == NoQuote then InQuote(c)
        else q
      else q
  }

  /** The `#` at index `i` opens a comment: it is outside quotes and starts the
      line or follows a space. */
  predicate IsCommentHash(line: string, i: nat)
    requires i < |line|
  {
    && line[i] == '#'
    && QuoteAt(line, i) == NoQuote
    && (i == 0 || line[i - 1] == ' ')
  }

  /** Index of the first comment-opening `#` at or after `i`, or `|line|`. */
  function CommentFrom(line: string, i: nat): (k: nat)
    requires i <= |line|
    ensures i <= k <= |line|
    ensures k < |line| ==> IsCommentHash(line, k)
    ensures forall j :: i <= j < k ==> !IsCommentHash(line, j)
    decreases |line| - i
  {
    if i == |line| then |line|
    else if IsCommentHash(line, i) then i
    else CommentFrom(line, i + 1)
  }

  /** The line with its comment cut off. */
  function WithoutComment(line: string): (r: string)
    ensures StartsWith(line, r)
  {
    line[..CommentFrom(line, 0)]
  }

  /** `_strip_comment`: one pass over the line carrying the quote state, cutting
      at the first comment-opening `#`. */
  method StripComment(line: string) returns (r: string)
    ensures r == WithoutComment(line)
    ensures r == line || IsCommentHash(line, |r|)
    ensures forall j :: 0 <= j < |r| ==> !IsCommentHash(line, j)
  {
    var quote := NoQuote;
    var i := 0;
    while i < |line|
      invariant 0 <= i <= |line|
      invariant quote == QuoteAt(line, i)
      invariant forall j :: 0 <= j < i ==> !IsCommentHash(line, j)
      invariant CommentFrom(line, i) == CommentFrom(line, 0)
      decreases |line| - i
    {
      var c := line[i];
      if IsQuoteChar(c) && (i == 0 || line[i - 1] != '\\') {
        if quote == InQuote(c) {
          quote := NoQuote;
        } else if quote == NoQuote {
          quote := InQuote(c);
        }
      } else if c == '#' && quote == NoQuote {
        if i == 0 || line[i - 1] == ' ' {
          assert IsCommentHash(line, i);
          return line[..i];
        }
      }
      i := i + 1;
    }
    r := line;
  }

  /** A line without a `#` keeps all of its text. */
  lemma NoHashKept(line: string)
    requires '#' !in line
    ensures WithoutComment(line) == line
  {
  }

  /** A `#` glued to the character before it is text, not a comment (`a#b`). */
  lemma GluedHashKept(line: string, i: nat)
    requires 0 < i < |line| && line[i] == '#' && line[i - 1] != ' '
    ensures !IsCommentHash(line, i)
  {
  }

  /** `_indent_level`: the number of leading spaces (tabs do not count). */
  function IndentLevel(line: string): (n: nat)
    ensures n <= |line|
    ensures forall j :: 0 <= j < n ==> line[j] == ' '
    ensures n == |line| || line[n] != ' '
    decreases |line|
  {
    if |line| > 0 && line[0] == ' ' then 1 + IndentLevel(line[1..]) else 0
  }

  /** A line that is neither blank nor a comment, judged on its raw text. */
  predicate Substantive(line: string)
  {
    Strip(line) != "" && !StartsWith(Strip(line), "#")
  }

  /** A `#` that only spaces precede opens a comment, and the line is cut there. */
  lemma LeadingHashComment(line: string, a: nat)
    requires a < |line| && line[a] == '#'
    requires forall j :: 0 <= j < a ==> line[j] == ' '
    ensures IsCommentHash(line, a)
    ensures WithoutComment(line) == line[..a]
  {
    assert QuoteAt(line, a) == NoQuote;
    CommentFromAt(line, 0, a);
  }

  /** The first comment from `i` is at `m` when `m` opens one and nothing before it does. */
  lemma {:induction false} CommentFromAt(line: string, i: nat, m: nat)
    requires i <= m < |line| && IsCommentHash(line, m)
    requires forall j :: i <= j < m ==> !IsCommentHash(line, j)
    ensures CommentFrom(line, i) == m
    decreases m - i
  {
    if i < m {
      CommentFromAt(line, i + 1, m);
    }
  }

  /** A line that is blank or a comment once stripped is still blank or a comment
      once its comment is cut off and it is stripped. */
  lemma UnsubstantiveContent(line: string)
    requires !Substantive(line)
    ensures var t := Strip(WithoutComment(line)); t == "" || StartsWith(t, "#")
  {
    var a := |line| - |StripLeft(line)|;
    StripLead(line, a);
    var k := CommentFrom(line, 0);
    if a == |line| || k <= a {
      BlankPrefix(line, k);
    } else {
      assert line[a] == '#' by {
        assert Strip(line)[..1] == [Strip(line)[0]];
      }
      HashPrefix(line, a, k);
    }
  }

  /** A prefix made of white space strips to nothing. */
  lemma BlankPrefix(line: string, k: nat)
    requires k <= |line| && forall j :: 0 <= j < k ==> IsSpace(line[j])
    ensures Strip(line[..k]) == ""
  {
    var w := line[..k];
    assert forall j :: 0 <= j < k ==> IsSpace(w[j]);
    StripLead(w, k);
  }

  /** A prefix whose first character other than white space is `#` strips to a text starting with `#`. */
  lemma HashPrefix(line: string, a: nat, k: nat)
    requires a < k <= |line| && line[a] == '#' && forall j :: 0 <= j < a ==> IsSpace(line[j])
    ensures StartsWith(Strip(line[..k]), "#")
  {
    var w := line[..k];
    assert w[a] == '#';
    assert forall j :: 0 <= j < a ==> IsSpace(w[j]);
    StripLead(w, a);
    assert Strip(w)[..1] == "#";
  }

  /** Index of the first substantive line at or after `start`. */
  function NextSubstantive(lines: seq<string>, start: nat): (r: Option<nat>)
    ensures r.Some? ==> start <= r.value < |lines| && Substantive(lines[r.value])
    ensures forall j :: start <= j < (if r.Some? then r.value else |lines|) ==> !Substantive(lines[j])
    decreases |lines| - start
  {
    if start >= |lines| then None
    else if Substantive(lines[start]) then Some(start)
    else NextSubstantive(lines, start + 1)
  }

  /** `_peek_next`: the indentation and raw text of the next substantive line, or
      `(-1, None)`. */
  method PeekNext(lines: seq<string>, start: nat) returns (indent: int, next: Option<string>)
    ensures NextSubstantive(lines, start).Some? ==>
      next == Some(lines[NextSubstantive(lines, start).value]) && indent == IndentLevel(next.value)
    ensures NextSubstantive(lines, start).None? ==> next == None && indent == -1
  {
    var j := start;
    while j < |lines|
      invariant start <= j || |lines| <= j
      invariant NextSubstantive(lines, start) == NextSubstantive(lines, j)
      decreases |lines| - j
    {
      var s := Strip(lines[j]);
      if s != "" && !StartsWith(s, "#") {
        assert NextSubstantive(lines, j) == Some(j) by {
          assert Substantive(lines[j]);
        }
        return IndentLevel(lines[j]), Some(lines[j]);
      }
      assert NextSubstantive(lines, j) == NextSubstantive(lines, j + 1) by {
        assert !Substantive(lines[j]);
      }
      j := j + 1;
    }
    assert NextSubstantive(lines, j) == None;
    return -1, None;
  }

  /** A line belongs to a block string when it is blank or indented deeper than its key. */
  predicate InBlock(line: string, parentIndent: int)
  {
    Strip(line) == "" || IndentLevel(line) > parentIndent
  }

  /** End of the block that starts at `start`: the first line outside it, or `|lines|`. */
  function BlockEnd(lines: seq<string>, start: nat, parentIndent: int): (k: nat)
    requires start <= |lines|
    ensures start <= k <= |lines|
    ensures forall j :: start <= j < k ==> InBlock(lines[j], parentIndent)
    ensures k == |lines| || !InBlock(lines[k], parentIndent)
    decreases |lines| - start
  {
    if start == |lines| || !InBlock(lines[start], parentIndent) then start
    else BlockEnd(lines, start + 1, parentIndent)
  }

  /** The stripped lines `start` to `i - 1`. */
  function Collected(lines: seq<string>, start: nat, i: nat): (r: seq<string>)
    requires start <= i <= |lines|
    ensures |r| == i - start
    decreases i
  {
    if i == start then [] else Collected(lines, start, i - 1) + [Strip(lines[i - 1])]
  }

  /** Line `j` of the collection is line `start + j` stripped. */
  lemma {:induction false} CollectedAt(lines: seq<string>, start: nat, i: nat, j: nat)
    requires start <= i <= |lines| && j < i - start
    ensures Collected(lines, start, i)[j] == Strip(lines[start + j])
    decreases i
  {
    if j < i - 1 - start {
      CollectedAt(lines, start, i - 1, j);
    }
  }

  /** The lines without their trailing empty ones. */
  function TrimTrailingEmpty(block: seq<string>): (r: seq<string>)
    ensures |r| <= |block| && r == block[..|r|]
    ensures r == [] || r[|r| - 1] != ""
    ensures forall j :: |r| <= j < |block| ==> block[j] == ""
    decreases |block|
  {
    if |block| > 0 && block[|block| - 1] == "" then TrimTrailingEmpty(block[..|block| - 1])
    else block
  }

  /** The block-string lines `_consume_block` returns. */
  function BlockLines(lines: seq<string>, start: nat, parentIndent: int): seq<string>
    requires start <= |lines|
  {
    TrimTrailingEmpty(Collected(lines, start, BlockEnd(lines, start, parentIndent)))
  }

  /** `_consume_block`: collect the stripped lines of the block, drop the
      trailing empty ones, and return them with the index of the first line after it. */
  method ConsumeBlock(lines: seq<string>, start: nat, parentIndent: int) returns (block: seq<string>, next: nat)
    requires start <= |lines|
    ensures next == BlockEnd(lines, start, parentIndent)
    ensures block == BlockLines(lines, start, parentIndent)
  {
    block, next := CollectBlock(lines, start, parentIndent);
    ghost var all := block;
    while |block| > 0 && block[|block| - 1] == ""
      invariant TrimTrailingEmpty(block) == TrimTrailingEmpty(all)
      decreases |block|
    {
      block := block[..|block| - 1];
    }
  }

  /** The first loop of `_consume_block`: the stripped lines while they belong to the block. */
  method CollectBlock(lines: seq<string>, start: nat, parentIndent: int) returns (block: seq<string>, next: nat)
    requires start <= |lines|
    ensures next == BlockEnd(lines, start, parentIndent)
    ensures block == Collected(lines, start, next)
  {
    block := [];
    var i := start;
    while i < |lines| && InBlock(lines[i], parentIndent)
      invariant start <= i <= |lines|
      invariant BlockEnd(lines, i, parentIndent) == BlockEnd(lines, start, parentIndent)
      invariant block == Collected(lines, start, i)
      decreases |lines| - i
    {
      block := block + [Strip(lines[i])];
      i := i + 1;
    }
    next := i;
  }
}
