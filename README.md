# llm-council scripts: a verified model

This project models the deterministic core of the `llm-council` helper scripts in Dafny. It states and proves what each part computes.

- **The fallback YAML parser** (`lib/yaml_parser.py`). The model covers:
  - quote-aware comment stripping;
  - indentation;
  - the line loop of `_parse_nested`, with its stack of `(indent, container)` frames;
  - the look-ahead that decides between `[]` and `{}`;
  - block strings;
  - the bracket- and quote-aware splitter;
  - flow lists and dicts;
  - the double-quote unescaper;
  - scalar coercion;
  - `extract_section`.
- **`parse_yaml_simple`** of the rubric indexer (`build_rubric_index.py`). It is a flat line parser with an open-list state.
- **`check_budget`** (`check_budget.py`). It decides continue, degrade or stop over the order deep → standard → quick.
- **`check_sensitivity`** (`check_sensitivity.py`). It is case-insensitive keyword matching.
- **The tool classifiers** of `detect_llms.py` and `detect_search.py`. Each scores four signal tiers, classifies by thresholds, and filters and sorts the results.

## How the model is built

- Python values are `Values.Value`: `Null | Bool | Int | Float(text) | Str | Map | List`.
- A `dict` is an association sequence in insertion order (`Assoc`). Assigning to a present key replaces its value in place, as Python does.
- Code that loops and accumulates is a `method` with a loop. Each such method is proved equal to a specification function:
  - `StripComment`, `PeekNext`, `ConsumeBlock`, `SplitTopLevel` and `UnescapeDoubleQuoted`;
  - `ParseNested`, `ExtractSection` and `ParseYamlSimple`;
  - the `Check*` tiers and `ScoreTool`.
  The lemmas then state what the functions mean.
- **The container stack.** Python's `_parse_nested` writes into containers that are shared between the stack and the tree. The model keeps the stack as a zipper:
  - each frame holds its container as a value, together with its `Slot` in the frame below;
  - popping a frame writes the container back into that slot;
  - `Close` of the stack is the tree Python's `root` holds.
  `OpenKeepsTree`, `OpenPops` and `PopWhileKeepsTree` show that this agrees with the shared-reference reading.
- **Whole documents.** `YamlDocuments` carries two multi-line documents through every loop turn of `_parse_nested` and through `Close`, and states the exact tree each one yields. One is a nested map beside a list. The other is a list item that is a two-field mapping.
- **Input the model does not compute.** Regular-expression search (`re.search(p, text, re.IGNORECASE)`) is a function parameter `search`. Configuration and tool descriptions are typed datatypes.

Where the code departs from what a reader of the YAML format would expect, the model follows the code:

- Inline list elements are only scalar-coerced: `[a, [b]]` yields the string `[b]`, not a nested list (`yaml_parser.py:255`).
- A `- item` line whose parent is a dict is silently dropped (`DispatchDropped`), rather than rejected.
- Block-string lines are each stripped, so relative indentation inside a block is lost (`yaml_parser.py:183`).

## Model

Source paths are relative to `skills/llm-council/scripts/` in the rows below, written out in full.

| member | source | states |
|---|---|---|
| YamlScalar.EscapeDecode | skills/llm-council/scripts/lib/yaml_parser.py:264-280 | a backslash followed by `c` decodes to exactly one character when `c` is one of `\`, `n`, `t`, `"` and `/`: `\`, newline, tab, `"` or `/` respectively; for any other `c` it stays the two characters `\` and `c` |
| YamlScalar.UnescapeDoubleQuoted | skills/llm-council/scripts/lib/yaml_parser.py:258-284 | the scan that consumes a backslash with its successor computes `Unescape(s)`, and the output is never longer than the input |
| YamlScalar.UnescapeFrom | skills/llm-council/scripts/lib/yaml_parser.py:263-283 | at each index the scan either decodes an escape pair and skips two characters or keeps one character |
| YamlScalar.UnescapeAfterEscaped | skills/llm-council/scripts/lib/yaml_parser.py:258-284 | unescaping an escaped text followed by any `x` gives the text back followed by the unescaping of `x` |
| YamlScalar.EscapeCharStep | skills/llm-council/scripts/lib/yaml_parser.py:264-280 | one escaped character, followed by anything, unescapes to that character |
| YamlScalar.UnescapeRoundTrip | skills/llm-council/scripts/lib/yaml_parser.py:258-284 | for every text `t`, unescaping its escaped form gives `t` back, where escaping writes `\\`, `\n`, `\t`, `\"` and, when `slash` is set, `\/`, so all five recognised escapes are inverted |
| YamlScalar.Unescape | skills/llm-council/scripts/lib/yaml_parser.py:258-284 | the unescaped text is never longer than the text |
| YamlScalar.FiveEscapes | skills/llm-council/scripts/lib/yaml_parser.py:264-275 | the five escapes `\\`, `\n`, `\t`, `\"` and `\/` in a row decode to backslash, newline, tab, double quote and slash, followed by the unescaping of the rest |
| YamlScalar.UnknownEscapeKept | skills/llm-council/scripts/lib/yaml_parser.py:276-279 | a backslash pair that is not one of the five escapes is kept verbatim, as two characters |
| YamlScalar.UnknownPair | skills/llm-council/scripts/lib/yaml_parser.py:276-280 | a backslash followed by a character that is not an escape letter stays as both characters, and decoding goes on right after them |
| YamlScalar.FinalBackslashKept | skills/llm-council/scripts/lib/yaml_parser.py:264-283 | a lone backslash at the end is kept |
| YamlScalar.UnescapeWithoutBackslash | skills/llm-council/scripts/lib/yaml_parser.py:281-283 | text without a backslash is unchanged |
| YamlScalar.Inner | skills/llm-council/scripts/lib/yaml_parser.py:294-297 | Python `t[1:-1]`: the text without its first and last characters, `""` for texts shorter than two |
| YamlScalar.ParseScalar | skills/llm-council/scripts/lib/yaml_parser.py:287-323 | a scalar is never a dict or a list |
| YamlScalar.ParseScalarCases | skills/llm-council/scripts/lib/yaml_parser.py:287-323 | the first matching case wins, in the order double-quoted (unescaped), single-quoted (verbatim), true/yes/on, false/no/off, null/~/empty, int, float, plain stripped string; each result kind occurs exactly for its case's texts |
| YamlScalar.QuotedIsNoWord | skills/llm-council/scripts/lib/yaml_parser.py:291-308 | a quoted text is never a boolean or null word, so the quote cases shadow nothing |
| YamlScalar.WordsDisjoint | skills/llm-council/scripts/lib/yaml_parser.py:300-308 | the true, false and null word lists share no word |
| YamlScalar.QuotedIsNoNumber | skills/llm-council/scripts/lib/yaml_parser.py:291-320 | a quoted text is neither an int nor a float literal |
| YamlScalar.WordIsNoNumber | skills/llm-council/scripts/lib/yaml_parser.py:299-320 | no boolean or null word is an int or float literal |
| YamlScalar.WordShape | skills/llm-council/scripts/lib/yaml_parser.py:300-308 | every boolean or null word is empty or starts with one of `t y o f n ~`, and none is `inf`, `infinity` or `nan` |
| YamlScalar.DoubleQuotedRoundTrip | skills/llm-council/scripts/lib/yaml_parser.py:292-294 | a double-quoted escaped text reads back as exactly that string |
| YamlScalar.SingleQuotedVerbatim | skills/llm-council/scripts/lib/yaml_parser.py:295-297 | `'t'` reads back as the string `t` whatever `t` is, so `'true'` stays a string |
| YamlScalar.IntScalarRoundTrip | skills/llm-council/scripts/lib/yaml_parser.py:310-314 | a rendered integer reads back as that integer |
| YamlLines.CommentFrom | skills/llm-council/scripts/lib/yaml_parser.py:155-164 | the first `#` that is outside quotes and starts the line or follows a space; no earlier index qualifies |
| YamlLines.QuoteAt | skills/llm-council/scripts/lib/yaml_parser.py:154-160 | the quote state before index `i` is a quote character or none, and none when no quote character occurs before `i` |
| YamlLines.CommentFromAt | skills/llm-council/scripts/lib/yaml_parser.py:155-164 | the search from `i` returns `m` when `m` opens a comment and no index between `i` and `m` does |
| YamlLines.LeadingHashComment | skills/llm-council/scripts/lib/yaml_parser.py:155-164 | a `#` preceded only by spaces opens a comment, and the line without its comment is the text before that `#` |
| YamlLines.WithoutComment | skills/llm-council/scripts/lib/yaml_parser.py:152-165 | the line with its comment removed is a prefix of the line |
| YamlLines.StripComment | skills/llm-council/scripts/lib/yaml_parser.py:152-165 | the quote-tracking loop returns the line unchanged or cut at a comment-opening `#`, and no earlier `#` opens a comment |
| YamlLines.NoHashKept | skills/llm-council/scripts/lib/yaml_parser.py:161-165 | a line without `#` is returned unchanged |
| YamlLines.GluedHashKept | skills/llm-council/scripts/lib/yaml_parser.py:161-164 | a `#` glued to a non-space character does not open a comment |
| YamlLines.IndentLevel | skills/llm-council/scripts/lib/yaml_parser.py:147-149 | the number of leading spaces: all counted characters are spaces and the next one is not |
| YamlLines.NextSubstantive | skills/llm-council/scripts/lib/yaml_parser.py:170-174 | the first line at or after `start` that is neither blank nor a comment, and none before it qualifies |
| YamlLines.UnsubstantiveContent | skills/llm-council/scripts/lib/yaml_parser.py:65-71 | a line the look-ahead passes over has, once its comment is removed and it is stripped, an empty text or one starting with `#` |
| YamlLines.PeekNext | skills/llm-council/scripts/lib/yaml_parser.py:168-174 | the loop returns that line's indentation and text, or `(-1, None)` when there is none |
| YamlLines.BlockEnd | skills/llm-council/scripts/lib/yaml_parser.py:181-186 | every line from `start` up to the end index is blank or indented deeper than the key, and the line at the end index is not |
| YamlLines.Collected | skills/llm-council/scripts/lib/yaml_parser.py:182-184 | one collected entry per consumed line |
| YamlLines.CollectedAt | skills/llm-council/scripts/lib/yaml_parser.py:183 | entry `j` is line `start + j` stripped |
| YamlLines.TrimTrailingEmpty | skills/llm-council/scripts/lib/yaml_parser.py:187-189 | the result is a prefix that does not end in `""`, and only `""` entries were removed |
| YamlLines.ConsumeBlock | skills/llm-council/scripts/lib/yaml_parser.py:177-190 | the block lines are the stripped consumed lines without trailing empty ones, and the returned index is the first unconsumed line |
| YamlLines.CollectBlock | skills/llm-council/scripts/lib/yaml_parser.py:179-186 | the first loop stops at `BlockEnd` having collected exactly the stripped lines before it |
| YamlInline.FirstCut | skills/llm-council/scripts/lib/yaml_parser.py:201-218 | the first comma outside quotes and at bracket and brace depth 0, and none before it |
| YamlInline.ScanStep | skills/llm-council/scripts/lib/yaml_parser.py:201-214 | inside one kind of quote every other character leaves the state unchanged; outside quotes a non-quote character leaves no quote open; a depth changes only outside quotes, for that depth's bracket, and by one at most |
| YamlInline.ScanAt | skills/llm-council/scripts/lib/yaml_parser.py:201-214 | the quote state reached at an index is a quote character or none |
| YamlInline.IsCut | skills/llm-council/scripts/lib/yaml_parser.py:215 | after a top-level comma the scan is back at top level, outside quotes at depth 0 |
| YamlInline.Split | skills/llm-council/scripts/lib/yaml_parser.py:193-223 | no parts exactly for the empty text, and never more parts than characters |
| YamlInline.SplitFrom | skills/llm-council/scripts/lib/yaml_parser.py:193-223 | from index `p`: no parts exactly when `p` is the end of the text, and at most one part per remaining character |
| YamlInline.SplitFromBounded | skills/llm-council/scripts/lib/yaml_parser.py:193-223 | no part is longer than the text left after `p` |
| YamlInline.SplitFromJoin | skills/llm-council/scripts/lib/yaml_parser.py:193-223 | joining the parts with `,` gives the text back, or the text without a trailing top-level comma; no parts exactly for the empty remainder |
| YamlInline.SplitJoin | skills/llm-council/scripts/lib/yaml_parser.py:193-223 | `_split_top_level(s)` joined by `,` is `s` except for a lost trailing comma, and `""` yields `[]` |
| YamlInline.SplitBounded | skills/llm-council/scripts/lib/yaml_parser.py:193-223 | no part is longer than the text |
| YamlInline.FirstCutAt | skills/llm-council/scripts/lib/yaml_parser.py:201-218 | the cut is the first top-level comma |
| YamlInline.SplitFromCut | skills/llm-council/scripts/lib/yaml_parser.py:215-218 | a top-level comma closes the current part |
| YamlInline.ScanOn | skills/llm-council/scripts/lib/yaml_parser.py:201-219 | any other character updates the quote and depth state and extends the current part |
| YamlInline.CutKeepsSplit | skills/llm-council/scripts/lib/yaml_parser.py:215-218 | closing a part at a top-level comma keeps the parts so far and the remaining parts together equal to the whole split |
| YamlInline.SplitTopLevel | skills/llm-council/scripts/lib/yaml_parser.py:193-223 | the character loop with quote and depth counters returns exactly `Split(s)` |
| YamlInline.ScanShift | skills/llm-council/scripts/lib/yaml_parser.py:201-214 | a scan restarted at a top-level position sees the same states |
| YamlInline.ScanPrefix | skills/llm-council/scripts/lib/yaml_parser.py:201-214 | the scan state at an index does not depend on the text after it |
| YamlInline.SliceCut | skills/llm-council/scripts/lib/yaml_parser.py:201-218 | a top-level comma inside a part would be a top-level comma of the whole text |
| YamlInline.SplitFromUncut | skills/llm-council/scripts/lib/yaml_parser.py:201-218 | no part holds a top-level comma of its own |
| YamlInline.SplitPartsUncut | skills/llm-council/scripts/lib/yaml_parser.py:193-223 | no part holds a comma that is top level within that part itself, so a part split again stays one part; a comma inside quotes, brackets or braces stays in its part |
| YamlInline.PartsBetweenCons | skills/llm-council/scripts/lib/yaml_parser.py:215-218 | a part closed by a top-level comma at `k` is `s[p..k]` and goes in front of the parts after `k` |
| YamlInline.SplitFromEnds | skills/llm-council/scripts/lib/yaml_parser.py:215-222 | the parts from `p` are exactly the texts between consecutive part ends, the first starting at `p`, each end a top-level comma or the end of the text |
| YamlInline.CutsAreEnds | skills/llm-council/scripts/lib/yaml_parser.py:215-218 | every top-level comma after `p` ends a part |
| YamlInline.SplitAtCuts | skills/llm-council/scripts/lib/yaml_parser.py:193-223 | the parts lie exactly between consecutive top-level commas (and the end of the text), and every top-level comma ends a part |
| YamlInline.BracketedCommaKept | skills/llm-council/scripts/lib/yaml_parser.py:207-215 | `[a,b]` is a single part, its comma being inside brackets |
| YamlInline.ScanPlain | skills/llm-council/scripts/lib/yaml_parser.py:201-214 | text without quotes, brackets or braces keeps the scan at top level |
| YamlInline.SplitFromPlain | skills/llm-council/scripts/lib/yaml_parser.py:193-223 | a comma-join of non-empty plain words splits back into the words |
| YamlInline.SplitPlainJoin | skills/llm-council/scripts/lib/yaml_parser.py:193-223 | split inverts join for non-empty plain words |
| YamlInline.Unwrap | skills/llm-council/scripts/lib/yaml_parser.py:228-232 | removes the opening and closing bracket when present; never longer than the input |
| YamlInline.UnwrapWrapped | skills/llm-council/scripts/lib/yaml_parser.py:250-254 | a bracketed text unwraps to its inside |
| YamlInline.ScalarItems | skills/llm-council/scripts/lib/yaml_parser.py:255 | at most one item per part, every item a scalar |
| YamlInline.InlineList | skills/llm-council/scripts/lib/yaml_parser.py:248-255 | always a list, every element scalar-coerced, never a nested container |
| YamlInline.ScalarItemsShown | skills/llm-council/scripts/lib/yaml_parser.py:255 | rendered integers read back one item each |
| YamlInline.InlineListOfInts | skills/llm-council/scripts/lib/yaml_parser.py:248-255 | `[1,2,3]` reads back as the list of those integers |
| YamlInline.InlineDict | skills/llm-council/scripts/lib/yaml_parser.py:226-245 | always a dict |
| YamlInline.InlineValue | skills/llm-council/scripts/lib/yaml_parser.py:239-244 | a flow value is a list exactly when it starts with `[`, a dict exactly when it starts with `{` and not `[`, and otherwise a scalar |
| YamlInline.AddPair | skills/llm-council/scripts/lib/yaml_parser.py:235-244 | a part with `:` stores the flow value under its stripped key, with overwrite; a part without `:` is skipped |
| YamlInline.ContributesCons | skills/llm-council/scripts/lib/yaml_parser.py:234-236 | a key is contributed by the first part or by a later one |
| YamlInline.AddPairsKeys | skills/llm-council/scripts/lib/yaml_parser.py:233-245 | a key is in the dict exactly when it was there before or some `key: value` part has it |
| YamlInline.InlineDictKeys | skills/llm-council/scripts/lib/yaml_parser.py:226-245 | the keys of an inline dict are exactly the keys of its `key: value` parts |
| YamlInline.AddPairsUnique | skills/llm-council/scripts/lib/yaml_parser.py:233-245 | storing parts keeps keys unique |
| YamlInline.AddPairStored | skills/llm-council/scripts/lib/yaml_parser.py:236-244 | a part with `:` stores the flow value of the text after the first `:` under the text before it |
| YamlInline.AddPairSkipped | skills/llm-council/scripts/lib/yaml_parser.py:236 | a part without `:` changes nothing |
| YamlInline.AddPairsSnoc | skills/llm-council/scripts/lib/yaml_parser.py:234-244 | the loop stores the parts one after the other |
| YamlInline.InlineDictUnique | skills/llm-council/scripts/lib/yaml_parser.py:226-245 | an inline dict has no repeated key, as a Python dict |
| YamlInline.InlineValueWellKeyed | skills/llm-council/scripts/lib/yaml_parser.py:239-244 | every dict inside a flow value, at any depth, has unique keys |
| YamlInline.InlineListWellKeyed | skills/llm-council/scripts/lib/yaml_parser.py:248-255 | the same for an inline list |
| YamlInline.InlineDictWellKeyed | skills/llm-council/scripts/lib/yaml_parser.py:226-245 | the same for an inline dict |
| YamlInline.AddPairsWellKeyed | skills/llm-council/scripts/lib/yaml_parser.py:233-245 | storing parts keeps every nested dict free of repeated keys |
| YamlInline.ParseInlineList | skills/llm-council/scripts/lib/yaml_parser.py:248-255 | computes `InlineList(s)` |
| YamlInline.ParseInlineDict | skills/llm-council/scripts/lib/yaml_parser.py:226-245 | the loop with recursive nested dicts computes `InlineDict(s)` |
| YamlInline.StorePairs | skills/llm-council/scripts/lib/yaml_parser.py:233-245 | the loop over the parts stores every part in turn into an empty dict |
| YamlInline.StorePair | skills/llm-council/scripts/lib/yaml_parser.py:235-244 | one loop step is `AddPair` |
| YamlStack.InitialWellFormed | skills/llm-council/scripts/lib/yaml_parser.py:57-59 | `[(-1, root)]` with an empty root is a well-formed stack of one frame |
| YamlStack.Attach | skills/llm-council/scripts/lib/yaml_parser.py:100-126 | writing a child into its slot: a dict store with overwrite in place, or replacing a list's last item |
| YamlStack.AttachWellKeyed | skills/llm-council/scripts/lib/yaml_parser.py:100-126 | writing a child back keeps every dict free of repeated keys |
| YamlStack.InnermostIsContainer | skills/llm-council/scripts/lib/yaml_parser.py:78 | the parent is always a dict or a list |
| YamlStack.Pop | skills/llm-council/scripts/lib/yaml_parser.py:77 | popping keeps the stack well formed, removes exactly the top frame, and leaves the frames below unchanged |
| YamlStack.Close | skills/llm-council/scripts/lib/yaml_parser.py:57-144 | the tree built so far is a dict with unique keys throughout |
| YamlStack.PopWhile | skills/llm-council/scripts/lib/yaml_parser.py:76-77 | the pop loop keeps the root, and afterwards the top frame is the root or is indented less than the line |
| YamlStack.PopWhileFrames | skills/llm-council/scripts/lib/yaml_parser.py:76-77 | only top frames with indent at least the line's are removed, and the others stay as they were |
| YamlStack.PopWhileKeepsTree | skills/llm-council/scripts/lib/yaml_parser.py:76-78 | popping never changes the tree |
| YamlStack.IndentsAboveRoot | skills/llm-council/scripts/lib/yaml_parser.py:73-127 | every frame above the root has a non-negative indent |
| YamlStack.PopToRoot | skills/llm-council/scripts/lib/yaml_parser.py:76-77 | a line at indent 0 pops down to the root |
| YamlStack.SetKey | skills/llm-council/scripts/lib/yaml_parser.py:121-140 | `parent[key] = v` changes only the innermost dict, by `Put` |
| YamlStack.Append | skills/llm-council/scripts/lib/yaml_parser.py:87-105 | `parent.append(v)` changes only the innermost list, adding `v` at its end |
| YamlStack.Push | skills/llm-council/scripts/lib/yaml_parser.py:103-127 | pushing a linked frame keeps the stack well formed |
| YamlParser.ItemDict | skills/llm-council/scripts/lib/yaml_parser.py:92-99 | a `- k: v` item opens a one-entry dict under `k`, mapping to the scalar `v`, or `{}` when `v` is empty |
| YamlParser.Content | skills/llm-council/scripts/lib/yaml_parser.py:65-66 | the comment-free stripped line is no longer than the line and has no white space at either end |
| YamlParser.UnsubstantiveSkipped | skills/llm-council/scripts/lib/yaml_parser.py:68-71 | a line the look-ahead passes over is a line the main loop skips |
| YamlParser.ListItem | skills/llm-council/scripts/lib/yaml_parser.py:81-107 | a `- ` line keeps the stack well formed |
| YamlParser.KeyValue | skills/llm-council/scripts/lib/yaml_parser.py:128-140 | after `|` or `>` the value is the collected block lines joined by newlines and parsing resumes where the block ends; otherwise parsing resumes at the next line and the value is the flow dict for a leading `{`, else the flow list for a leading `[`, else the scalar; in every case the value has unique keys throughout |
| YamlParser.Open | skills/llm-council/scripts/lib/yaml_parser.py:120-127 | storing an empty container and pushing it keeps the stack well formed |
| YamlParser.KeyLine | skills/llm-council/scripts/lib/yaml_parser.py:110-140 | a `key:` line advances and keeps the stack well formed, or fails |
| YamlParser.Step | skills/llm-council/scripts/lib/yaml_parser.py:62-142 | one loop turn advances the line index and keeps the stack well formed, or fails |
| YamlParser.PopBelow | skills/llm-council/scripts/lib/yaml_parser.py:76-78 | after the pop loop the parent is indented less than the line |
| YamlParser.Dispatch | skills/llm-council/scripts/lib/yaml_parser.py:80-142 | a substantive line advances and keeps the stack well formed, or fails |
| YamlParser.Run | skills/llm-council/scripts/lib/yaml_parser.py:62-144 | the loop ends in a dict with unique keys throughout, or in the `TypeError`; `NestedRun` and `ItemsRun` give the exact tree for two documents |
| YamlParser.Parse | skills/llm-council/scripts/lib/yaml_parser.py:49-144 | `_parse_nested` returns a dict with unique keys throughout, or the `TypeError`; `NestedDocument` and `ItemsDocument` give the exact tree for two documents |
| YamlDocuments.NestedDocument | skills/llm-council/scripts/lib/yaml_parser.py:49-144 | `parent:` / `  child: v` / `list_parent:` / `  - a` / `  - b` parses to exactly `{parent: {child: v}, list_parent: [a, b]}`, each leaf scalar-coerced |
| YamlDocuments.NestedSplits | skills/llm-council/scripts/lib/yaml_parser.py:56 | that document splits back into its five lines |
| YamlDocuments.NestedRun | skills/llm-council/scripts/lib/yaml_parser.py:62-144 | the loop over the five lines from the initial stack ends in that tree |
| YamlDocuments.NestedTail1 | skills/llm-council/scripts/lib/yaml_parser.py:62-144 | from the second line on, the loop ends in that tree |
| YamlDocuments.NestedTail2 | skills/llm-council/scripts/lib/yaml_parser.py:62-144 | from the third line on, the loop ends in that tree |
| YamlDocuments.NestedTail3 | skills/llm-council/scripts/lib/yaml_parser.py:62-144 | from the fourth line on, the loop ends in that tree |
| YamlDocuments.NestedTail4 | skills/llm-council/scripts/lib/yaml_parser.py:62-144 | from the fifth line on, the loop ends in that tree |
| YamlDocuments.NestedTail5 | skills/llm-council/scripts/lib/yaml_parser.py:142-144 | after the last line the stack closes into that tree |
| YamlDocuments.NestedLine1 | skills/llm-council/scripts/lib/yaml_parser.py:73-140 | `  child: v` under the open `{}` stores `child` in it without popping |
| YamlDocuments.NestedLine2 | skills/llm-council/scripts/lib/yaml_parser.py:73-122 | `list_parent:` at indent 0 pops the nested dict back into the root and, since a `- ` line follows, opens `[]` under `list_parent` |
| YamlDocuments.NestedLine3 | skills/llm-council/scripts/lib/yaml_parser.py:81-105 | `  - a` appends the scalar `a` to the open list |
| YamlDocuments.NestedLine4 | skills/llm-council/scripts/lib/yaml_parser.py:81-105 | `  - b` appends the scalar `b` after it |
| YamlDocuments.FirstKeyStep | skills/llm-council/scripts/lib/yaml_parser.py:110-127 | a first `key:` line opens `[]` when the next line is a `- ` item and `{}` otherwise, under `key` in the root |
| YamlDocuments.FirstKeyRun | skills/llm-council/scripts/lib/yaml_parser.py:62-127 | the run from the first line is the run from the second after that opening |
| YamlDocuments.ItemsDocument | skills/llm-council/scripts/lib/yaml_parser.py:81-140 | `key:` / `  - f1: x` / `    f2: y` parses to exactly `{key: [{f1: x, f2: y}]}`: one dict holding both fields |
| YamlDocuments.ItemsSplits | skills/llm-council/scripts/lib/yaml_parser.py:56 | that document splits back into its three lines |
| YamlDocuments.ItemsRun | skills/llm-council/scripts/lib/yaml_parser.py:62-144 | the loop over the three lines from the initial stack ends in that tree |
| YamlDocuments.ItemsTail1 | skills/llm-council/scripts/lib/yaml_parser.py:62-144 | from the second line on, the loop ends in that tree |
| YamlDocuments.ItemsTail2 | skills/llm-council/scripts/lib/yaml_parser.py:62-144 | from the third line on, the loop ends in that tree |
| YamlDocuments.ItemsTail3 | skills/llm-council/scripts/lib/yaml_parser.py:142-144 | after the last line the stack closes into that tree |
| YamlDocuments.ItemsLine1 | skills/llm-council/scripts/lib/yaml_parser.py:90-103 | `  - f1: x` appends `{f1: x}` to the open list and pushes it at the item's indent |
| YamlDocuments.ItemsLine2 | skills/llm-council/scripts/lib/yaml_parser.py:110-140 | `    f2: y` is deeper than the item, so it is stored in the pushed dict beside `f1` |
| YamlDocuments.CloseTwo | skills/llm-council/scripts/lib/yaml_parser.py:57-144 | closing a root with one open container writes the container under its key |
| YamlDocuments.CloseItems | skills/llm-council/scripts/lib/yaml_parser.py:57-144 | closing a root, its list and the list's last dict writes the dict back as the list's item |
| YamlDocuments.IndentedLine | skills/llm-council/scripts/lib/yaml_parser.py:65-73 | `n` spaces before bare text give indent `n`; the stripped line and its content are that text, and the line is substantive |
| YamlDocuments.NextLineDecides | skills/llm-council/scripts/lib/yaml_parser.py:117-118 | the look-ahead at a substantive line sees a list item exactly when its text starts with `- ` |
| YamlDocuments.StepAt | skills/llm-council/scripts/lib/yaml_parser.py:63-78 | a substantive line is dispatched after popping to its indent, and the parent is then shallower than it |
| YamlDocuments.OpenStep | skills/llm-council/scripts/lib/yaml_parser.py:115-127 | an empty `key:` under a dict opens `[]` or `{}` by the look-ahead and moves to the next line |
| YamlDocuments.ScalarStep | skills/llm-council/scripts/lib/yaml_parser.py:110-140 | `key: v` with a plain scalar under a dict stores `ParseScalar(v)` under `key` after popping |
| YamlDocuments.KeyValueStep | skills/llm-council/scripts/lib/yaml_parser.py:110-140 | the same when the innermost frame is already shallower than the line: only that frame's dict changes |
| YamlDocuments.ItemStepAt | skills/llm-council/scripts/lib/yaml_parser.py:80-82 | a `- item` line is handled after popping, with its item text |
| YamlDocuments.PlainItem | skills/llm-council/scripts/lib/yaml_parser.py:104-105 | an item without `:` under a list appends the scalar and changes nothing else |
| YamlDocuments.PlainItemStep | skills/llm-council/scripts/lib/yaml_parser.py:81-107 | the whole loop step for such an item |
| YamlDocuments.DictItemList | skills/llm-council/scripts/lib/yaml_parser.py:90-103 | an unquoted `k: v` item appends `{k: v}` and pushes it |
| YamlDocuments.DictItemStep | skills/llm-council/scripts/lib/yaml_parser.py:81-107 | the whole loop step for such an item: the list gains the dict and a frame for it is on top |
| YamlDocuments.NoPop | skills/llm-council/scripts/lib/yaml_parser.py:76 | a stack whose top is shallower than the line is not popped |
| YamlDocuments.PopOne | skills/llm-council/scripts/lib/yaml_parser.py:76-77 | a two-frame stack whose top is at least as deep as the line pops to the root |
| YamlDocuments.PopToRootFrame | skills/llm-council/scripts/lib/yaml_parser.py:76-77 | that pop writes the container back under its key in the root |
| YamlDocuments.OpenAtRoot | skills/llm-council/scripts/lib/yaml_parser.py:120-127 | opening a new key in the root appends it last and puts its container on top |
| YamlDocuments.SetKeyTop | skills/llm-council/scripts/lib/yaml_parser.py:121-140 | `parent[key] = v` on the top dict changes that dict by `Put` and nothing else |
| YamlDocuments.AppendTop | skills/llm-council/scripts/lib/yaml_parser.py:87-105 | `parent.append(v)` on the top list adds `v` last and changes nothing else |
| YamlDocuments.RunLink | skills/llm-council/scripts/lib/yaml_parser.py:62-142 | a step that moves to the next line keeps the stack well formed, and the run goes on from there |
| YamlDocuments.LetterScalar | skills/llm-council/scripts/lib/yaml_parser.py:287-323 | a single small letter reads as that string |
| YamlDocuments.DigitScalar | skills/llm-council/scripts/lib/yaml_parser.py:310-314 | a single digit reads as that integer |
| YamlDocuments.PlainScalar | skills/llm-council/scripts/lib/yaml_parser.py:287-323 | a stripped text that is not quoted, not a boolean or null word and not a number reads as itself |
| YamlParser.SkippedLineKeepsStack | skills/llm-council/scripts/lib/yaml_parser.py:68-71 | blank and comment-only lines leave the stack alone |
| YamlParser.StepFailsIff | skills/llm-council/scripts/lib/yaml_parser.py:121-140 | a line raises exactly when it is a `key:` line (not a `- ` item) and its parent after popping is a list |
| YamlParser.KeyLineOpens | skills/llm-council/scripts/lib/yaml_parser.py:115-174 | an empty `key:` pushes a frame at its indent under the key: `[]` exactly when the next substantive line, stripped, starts with `- `, whatever its indentation, and `{}` otherwise |
| YamlParser.QuotedItemAppended | skills/llm-council/scripts/lib/yaml_parser.py:84-89 | a quoted list item is appended as a scalar even when it holds a `:` |
| YamlParser.DictItemPushed | skills/llm-council/scripts/lib/yaml_parser.py:90-103 | an unquoted item with `:` appends a one-entry dict and pushes it at the item's indent |
| YamlParser.DispatchDropped | skills/llm-council/scripts/lib/yaml_parser.py:83-107 | a `- ` item whose parent is a dict is dropped and the stack is unchanged |
| YamlParser.RootOnly | skills/llm-council/scripts/lib/yaml_parser.py:57-59 | a one-frame stack is the root holding the whole tree |
| YamlParser.TopLevelKeyLine | skills/llm-council/scripts/lib/yaml_parser.py:73-140 | a `key: value` line at indent 0 closes every open container and stores its value in the root |
| YamlParser.DispatchKey | skills/llm-council/scripts/lib/yaml_parser.py:110 | a non-item line with `:` is a key line |
| YamlParser.KeyLineStores | skills/llm-council/scripts/lib/yaml_parser.py:128-140 | a non-empty value under a dict is stored under the stripped key before the first `:` |
| YamlParser.SetKeyRoot | skills/llm-council/scripts/lib/yaml_parser.py:121-140 | a store into the root alone updates the root dict |
| YamlParser.OpenKeepsTree | skills/llm-council/scripts/lib/yaml_parser.py:120-127 | opening a container gives the same tree as storing it, as shared references do in Python |
| YamlParser.OpenPops | skills/llm-council/scripts/lib/yaml_parser.py:120-127 | popping the frame just opened writes the container back where it was stored |
| YamlParser.RunStep | skills/llm-council/scripts/lib/yaml_parser.py:62-142 | the loop is one step followed by the rest of the loop |
| YamlParser.PopFrames | skills/llm-council/scripts/lib/yaml_parser.py:76-77 | the pop loop computes `PopWhile` |
| YamlParser.AddItem | skills/llm-council/scripts/lib/yaml_parser.py:81-107 | the `- ` branch computes `ListItem` |
| YamlParser.StoreKey | skills/llm-council/scripts/lib/yaml_parser.py:110-140 | the `key:` branch, with its look-ahead and block collection, computes `KeyLine` |
| YamlParser.ParseLine | skills/llm-council/scripts/lib/yaml_parser.py:62-142 | one loop turn computes `Step` |
| YamlParser.StepDispatches | skills/llm-council/scripts/lib/yaml_parser.py:63-78 | a substantive line is handled after popping to its indent |
| YamlParser.DispatchItem | skills/llm-council/scripts/lib/yaml_parser.py:81-82 | a `- ` line is handled with its stripped item text |
| YamlParser.ParseNested | skills/llm-council/scripts/lib/yaml_parser.py:49-144 | the while loop computes `Parse(content)`: a dict with unique keys throughout, or the `TypeError` |
| YamlParser.ExtractSection | skills/llm-council/scripts/lib/yaml_parser.py:31-42 | the loop returns the value reached by successive key lookups over the `.`-split path, and `None` as soon as a step is not a dict or lacks the key |
| YamlParser.Walk | skills/llm-council/scripts/lib/yaml_parser.py:37-42 | a successful walk of a non-empty path starts at a dict that holds the path's first key |
| YamlParser.WalkAppend | skills/llm-council/scripts/lib/yaml_parser.py:37-42 | walking a path in two pieces: the second starts where the first ends, and `None` propagates |
| YamlParser.ExtractJoinedPath | skills/llm-council/scripts/lib/yaml_parser.py:38 | a dotted path of dot-free keys walks exactly those keys |
| YamlParser.ExtractExample | skills/llm-council/scripts/lib/yaml_parser.py:34-35 | the documented example `extract_section({"a": {"b": {"c": 1}}}, "a.b.c") == 1` |
| YamlParser.ExamplePath | skills/llm-council/scripts/lib/yaml_parser.py:38 | `"a.b.c".split(".")` is `["a", "b", "c"]` |
| YamlParser.ExampleWalk | skills/llm-council/scripts/lib/yaml_parser.py:39-41 | walking `a`, `b`, `c` through `{"a": {"b": {"c": 1}}}` reaches `1` |
| RubricIndex.StripQuotes | skills/llm-council/scripts/build_rubric_index.py:43-56 | `strip('"\'')`: no quote character is left at either end, the result is no longer than the text, and every one of its characters comes from the text |
| RubricIndex.StripQuotesSlice | skills/llm-council/scripts/build_rubric_index.py:43-56 | `strip('"\'')` removes only quote characters: the result is a slice of the text with nothing but quote characters before and after it |
| RubricIndex.Clean | skills/llm-council/scripts/build_rubric_index.py:43-56 | `strip().strip('"\'')` is no longer than the text and leaves no quote at either end |
| RubricIndex.CleanSlice | skills/llm-council/scripts/build_rubric_index.py:43-56 | the cleaned text is a contiguous piece of the text |
| RubricIndex.Flush | skills/llm-council/scripts/build_rubric_index.py:46-67 | saving the open list keeps the result consistent |
| RubricIndex.PutValuesOk | skills/llm-council/scripts/build_rubric_index.py:48-63 | storing a string or a non-empty list keeps every value a string or a non-empty list |
| RubricIndex.StepGood | skills/llm-council/scripts/build_rubric_index.py:34-63 | each line keeps the result consistent |
| RubricIndex.Scan | skills/llm-council/scripts/build_rubric_index.py:34-63 | the state after any number of lines is consistent |
| RubricIndex.Rubric | skills/llm-council/scripts/build_rubric_index.py:28-69 | every value in the result is a string or a non-empty list of strings, and no key repeats |
| RubricIndex.ParseYamlSimple | skills/llm-council/scripts/build_rubric_index.py:28-69 | the for loop plus the final save computes `Rubric(content)` |
| RubricIndex.SkippedLine | skills/llm-council/scripts/build_rubric_index.py:35-38 | blank and `#` lines leave the state unchanged |
| RubricIndex.ItemLine | skills/llm-council/scripts/build_rubric_index.py:41-44 | a `- x` line appends the cleaned `x` only when a list is open, and is discarded otherwise |
| RubricIndex.ValueLine | skills/llm-council/scripts/build_rubric_index.py:46-63 | a `key: value` line with a non-empty cleaned value saves any non-empty open list, then stores the value under the key before the first `:` |
| RubricIndex.OpensList | skills/llm-council/scripts/build_rubric_index.py:58-61 | a `key:` line with an empty value opens an empty list for the key |
| RubricIndex.EmptyListStaysOpen | skills/llm-council/scripts/build_rubric_index.py:46-63 | a list with no items is not written and stays open across a `key: value` line |
| RubricIndex.FlushedBeforeOtherLine | skills/llm-council/scripts/build_rubric_index.py:46-50 | any non-item line saves a non-empty open list |
| RubricIndex.KeyWithItems | skills/llm-council/scripts/build_rubric_index.py:28-69 | `key:` followed by item lines yields exactly `{key: items}` |
| RubricIndex.RubricOfLines | skills/llm-council/scripts/build_rubric_index.py:65-67 | the result is the final state with its open list saved |
| RubricIndex.DocumentSplits | skills/llm-council/scripts/build_rubric_index.py:34 | joining lines by `\n` and splitting again gives the lines |
| RubricIndex.DocumentScans | skills/llm-council/scripts/build_rubric_index.py:34-63 | scanning such a document leaves the list open with all the items |
| RubricIndex.ItemsScanned | skills/llm-council/scripts/build_rubric_index.py:41-44 | each item line adds its text to the open list |
| RubricIndex.ItemStep | skills/llm-council/scripts/build_rubric_index.py:41-44 | `- x` adds `x` when cleaning leaves it unchanged |
| RubricIndex.KeyLineOpens | skills/llm-council/scripts/build_rubric_index.py:53-61 | the first `key:` line opens the list |
| RubricIndex.FirstLineOpens | skills/llm-council/scripts/build_rubric_index.py:53-61 | a first line `key:` opens an empty list under `key` |
| RubricIndex.KeyLineParts | skills/llm-council/scripts/build_rubric_index.py:53-57 | `key:` is a stripped, non-comment, non-item line that partitions into `key` and an empty cleaned value |
| RubricIndex.ScanNext | skills/llm-council/scripts/build_rubric_index.py:34 | the state after `n + 1` lines is one line step after the state after `n` |
| RubricIndex.ItemNext | skills/llm-council/scripts/build_rubric_index.py:41-44 | with a list open under `key`, `- x` for a non-empty `x` that cleaning keeps appends `x` and changes nothing else |
| RubricIndex.ScanItem | skills/llm-council/scripts/build_rubric_index.py:41-44 | after the first `n - 1` items the next item line appends the `n`-th |
| Budget.ModeIndex | skills/llm-council/scripts/check_budget.py:21-44 | `DEGRADATION_ORDER.index(mode)`, absent exactly for modes outside the order |
| Budget.CheckBudget | skills/llm-council/scripts/check_budget.py:24-55 | `degrade_to` is set exactly when the action is degrade, and then names a mode of the order |
| Budget.NextMode | skills/llm-council/scripts/check_budget.py:46-47 | a next mode exists exactly for deep and standard |
| Budget.CheckBudgetCases | skills/llm-council/scripts/check_budget.py:24-55 | budget ≤ 0 stops with infinite ratio; strict stops iff ratio ≥ 1 and never degrades; below the trigger continues; at or above it degrades to the next mode, else stops |
| Budget.DegradationSteps | skills/llm-council/scripts/check_budget.py:39-52 | deep → standard, standard → quick, quick and unknown modes stop |
| Budget.DegradeMovesDown | skills/llm-council/scripts/check_budget.py:21-50 | a degrade moves exactly one place down the order |
| Budget.MoreTimeNoLenient | skills/llm-council/scripts/check_budget.py:30-55 | with the other inputs fixed, more elapsed time never turns stop or degrade into anything more lenient |
| Sensitivity.Matched | skills/llm-council/scripts/check_sensitivity.py:21 | every match is a configured keyword that the question mentions |
| Sensitivity.CheckSensitivity | skills/llm-council/scripts/check_sensitivity.py:18-23 | the level is sensitive exactly when some keyword matched |
| Sensitivity.MatchedExactly | skills/llm-council/scripts/check_sensitivity.py:20-21 | the matches are a subsequence of the keywords, in order and spelling; a keyword is matched exactly when its lower case occurs in the lower-cased question; and every keyword occurs among the matches as often as in the keyword list when it is mentioned, and not at all otherwise |
| Sensitivity.MatchedSnoc | skills/llm-council/scripts/check_sensitivity.py:21 | one more keyword adds itself at the end of the matches exactly when the question mentions it |
| Sensitivity.NoKeywordsPublic | skills/llm-council/scripts/check_sensitivity.py:21-22 | no keywords: public, no matches |
| Sensitivity.CaseInsensitive | skills/llm-council/scripts/check_sensitivity.py:20-21 | questions equal up to case get the same verdict |
| Sensitivity.MatchedSameLower | skills/llm-council/scripts/check_sensitivity.py:20-21 | the matches depend only on the lower-cased question |
| Sensitivity.LowerQuestion | skills/llm-council/scripts/check_sensitivity.py:20 | lower-casing the question first changes nothing |
| Signals.TotalAppend | skills/llm-council/scripts/detect_llms.py:32-49 | the scores of consecutive tiers add up |
| Signals.TotalSnoc | skills/llm-council/scripts/detect_llms.py:145 | one more hit adds its points to the score |
| Signals.TotalSign | skills/llm-council/scripts/detect_llms.py:101-191 | hits that all carry non-negative points give a non-negative score, and penalties that are all non-positive a non-positive one |
| Signals.LabelsSnoc | skills/llm-council/scripts/detect_llms.py:146 | one more hit adds its evidence entry at the end |
| Signals.Label | skills/llm-council/scripts/detect_llms.py:146 | an evidence entry starts with its signal key and ends in `)` |
| Signals.Labels | skills/llm-council/scripts/detect_llms.py:144-147 | one evidence entry per hit, in order |
| Signals.LabelsAppend | skills/llm-council/scripts/detect_llms.py:34-49 | the evidence of consecutive tiers concatenates |
| Signals.GroupHits | skills/llm-council/scripts/detect_llms.py:138-147 | at most one hit per group |
| Signals.Hits | skills/llm-council/scripts/detect_llms.py:138-147 | never more hits than groups |
| Signals.HitsExactly | skills/llm-council/scripts/detect_llms.py:138-147 | a hit occurs exactly for each usable group one of whose keywords occurs, with that group's points; distinct group keys give distinct evidence keys |
| Signals.AnyKeyword | skills/llm-council/scripts/detect_llms.py:143-147 | the inner loop with `break` finds a match exactly when some keyword, lower-cased, occurs in the text |
| Signals.KeywordTier | skills/llm-council/scripts/detect_llms.py:132-149 | the group loop's score is the total of the hits and its evidence their labels |
| Signals.GroupHitsNext | skills/llm-council/scripts/detect_llms.py:138-147 | a group adds one hit when it fires and nothing otherwise |
| Signals.MatchPatterns | skills/llm-council/scripts/detect_llms.py:160-162 | the pattern loop finds a match exactly when some pattern is found |
| Signals.ShownLower | skills/llm-council/scripts/detect_llms.py:77 | `str(p).lower()` of a string is its lower case |
| Signals.ListNames | skills/llm-council/scripts/detect_llms.py:76-77 | the names of a parameter list are exactly its shown, lower-cased elements |
| Signals.KeyNames | skills/llm-council/scripts/detect_llms.py:71-72 | the lower-cased keys of a dict |
| Signals.EntryNamesExactly | skills/llm-council/scripts/detect_llms.py:69-75 | a name comes from a parameter dict exactly when it is a lower-cased key or a nested `properties` name |
| Signals.PropertyNamesExactly | skills/llm-council/scripts/detect_llms.py:74-75 | the names a `properties` value gives: the lower-cased keys of a dict, the lower-cased string elements of a list, the lower-cased characters of a string, and none for any other value |
| Signals.ParamNamesExactly | skills/llm-council/scripts/detect_llms.py:69-77 | the parameter names: for a dict, its lower-cased keys together with the names of nested `properties`; for a list, its shown lower-cased elements; none otherwise |
| Signals.CollectParamNames | skills/llm-council/scripts/detect_llms.py:69-77 | the loop builds exactly `param_keys` |
| Signals.Classify | skills/llm-council/scripts/detect_llms.py:199-203 | definite iff score ≥ definite; likely iff likely ≤ score < definite; otherwise not |
| Signals.ClassifyMonotone | skills/llm-council/scripts/detect_llms.py:199-203 | a higher score never gets a lower classification |
| Signals.Threshold | skills/llm-council/scripts/detect_llms.py:196-197 | `thresholds.get(key, default)` |
| Signals.Only | skills/llm-council/scripts/detect_llms.py:215-216 | the filter keeps exactly the results of one classification, each as many times as it occurs in the input, and drops every other result |
| Signals.OnlyCons | skills/llm-council/scripts/detect_llms.py:215-216 | filtering a list with a head keeps the head exactly when it has the classification, in front of the filtered tail |
| Signals.OnlyWithScore | skills/llm-council/scripts/detect_llms.py:215-216 | the filter keeps input order: among the kept results, those of any one score are the kept ones among the input's results of that score, in input order |
| Signals.Insert | skills/llm-council/scripts/detect_llms.py:219-220 | insertion adds exactly one element |
| Signals.SortByScore | skills/llm-council/scripts/detect_llms.py:219-220 | sorting is a permutation |
| Signals.InsertDescending | skills/llm-council/scripts/detect_llms.py:219-220 | inserting into a descending list keeps it descending |
| Signals.InsertStable | skills/llm-council/scripts/detect_llms.py:219-220 | the inserted result goes before the equal scores already there, which all come later in the input; so among one score the input order is kept |
| Signals.WithScoreCons | skills/llm-council/scripts/detect_llms.py:219-220 | the equal-score elements of a list with a head |
| Signals.SortByScoreCorrect | skills/llm-council/scripts/detect_llms.py:219-220 | the sort is descending by score, a permutation, and stable among equal scores |
| Signals.SelectCorrect | skills/llm-council/scripts/detect_llms.py:215-220 | filter then sort: each result of the classification as many times as in the input and nothing else, best first, and the results of any one score in their input order |
| DetectLlms.ParamIsRequired | skills/llm-council/scripts/detect_llms.py:118-129 | true when the name is in a `required` list, else the truth of the definition's `required` field; false for non-dict parameters |
| DetectLlms.Without | skills/llm-council/scripts/detect_llms.py:110 | `name.replace("_", "")` removes every `_` and nothing else |
| DetectLlms.WithoutExactly | skills/llm-council/scripts/detect_llms.py:110 | `replace("_", "")` removes exactly the `_` characters: every other character keeps its count, and the length drops by the number of `_` |
| DetectLlms.PromptOnce | skills/llm-council/scripts/detect_llms.py:87-107 | the prompt contributes at most one hit, first in the tier, and `required_prompt` wins over `optional_prompt` |
| DetectLlms.AtMostOnePrompt | skills/llm-council/scripts/detect_llms.py:87-107 | a single leading prompt hit followed by other hits holds one prompt key at most |
| DetectLlms.MaxTokensVariant | skills/llm-council/scripts/detect_llms.py:109-113 | `max_tokens_parameter` also matches `maxtokens` |
| DetectLlms.ChecksRunTier | skills/llm-council/scripts/detect_llms.py:79-113 | the five checks in order give the parameter tier |
| DetectLlms.TierHitsConfigured | skills/llm-council/scripts/detect_llms.py:79-113 | the tier holds at most four hits, each a configured signal with its configured points |
| DetectLlms.PromptShape | skills/llm-council/scripts/detect_llms.py:94-107 | at most one prompt hit; `required_prompt` when it is configured, `prompt` is a parameter and it is required; a hit exactly when `prompt` is a parameter and `required_prompt` applies or `optional_prompt` is configured; the hit's key is one of the two |
| DetectLlms.CheckHitShape | skills/llm-council/scripts/detect_llms.py:88-113 | one check adds at most one hit, a configured signal with its points; once `prompt_matched` is set it stays set, and only a prompt check that hits sets it |
| DetectLlms.VariantCheck | skills/llm-council/scripts/detect_llms.py:108-113 | a model, temperature or maximum-tokens check adds exactly its variant hit: the configured signal, when its parameter name or that name without `_` is a parameter |
| DetectLlms.RequiredCheck | skills/llm-council/scripts/detect_llms.py:94-103 | the first check hits exactly for a required prompt |
| DetectLlms.OptionalCheck | skills/llm-council/scripts/detect_llms.py:104-107 | the second check hits only when the first did not |
| DetectLlms.RunCheck | skills/llm-council/scripts/detect_llms.py:91-113 | the loop body computes one check's hit and `prompt_matched` |
| DetectLlms.CheckParameters | skills/llm-council/scripts/detect_llms.py:63-115 | the score is the total and the evidence the labels of the parameter tier |
| DetectLlms.CheckDescription | skills/llm-council/scripts/detect_llms.py:132-149 | one hit per usable group with a keyword in the lower-cased description |
| DetectLlms.CheckNegative | skills/llm-council/scripts/detect_llms.py:175-191 | one penalty per usable group with a keyword in `name + " " + desc`, labelled without `+` |
| DetectLlms.NameHits | skills/llm-council/scripts/detect_llms.py:152-172 | at most one hit; an explicit match gives `explicit_name` with the explicit points; otherwise a suggestive match gives `suggestive_name` with the suggestive points; none when neither matches |
| DetectLlms.CheckName | skills/llm-council/scripts/detect_llms.py:152-172 | the early-return loops compute the name tier |
| DetectLlms.Classification | skills/llm-council/scripts/detect_llms.py:194-203 | `definite_llm` iff score ≥ definite (default 70); `likely_llm` iff likely (default 40) ≤ score < definite |
| DetectLlms.ScoreTool | skills/llm-council/scripts/detect_llms.py:22-60 | the total is the sum of the four tier totals, the evidence their labels in tier order, and the classification follows from the total |
| DetectLlms.TierSums | skills/llm-council/scripts/detect_llms.py:22-60 | the sum of the tier totals is the total of all hits together |
| DetectLlms.Triage | skills/llm-council/scripts/detect_llms.py:215-220 | participants hold each definite result and confirmation each likely result as many times as it occurs in the input and nothing else, each descending, the results of any one score in input order |
| DetectSearch.Add | skills/llm-council/scripts/detect_search.py:58-59 | the new total exceeds the old by `s`, and the new evidence is the old followed by `e` |
| DetectSearch.QueryHits | skills/llm-council/scripts/detect_search.py:76-80 | one hit exactly when `query` or `url` is a parameter name, even with 0 points |
| DetectSearch.QueryPoints | skills/llm-council/scripts/detect_search.py:76-77 | the points of `query_parameter` when it is configured, and 0 when it is not |
| DetectSearch.QueryParameterIff | skills/llm-council/scripts/detect_search.py:67-80 | for a parameter dict: a hit exactly when some key or nested `properties` name, lower-cased, is `query` or `url` |
| DetectSearch.CheckParameters | skills/llm-council/scripts/detect_search.py:62-82 | the score and evidence are those of the query hit |
| DetectSearch.CheckDescription | skills/llm-council/scripts/detect_search.py:85-101 | one hit per usable group with a keyword in the lower-cased description |
| DetectSearch.CheckNegative | skills/llm-council/scripts/detect_search.py:118-134 | one penalty per usable group with a keyword in `name + " " + desc` |
| DetectSearch.NameHits | skills/llm-council/scripts/detect_search.py:104-115 | at most one `name_pattern` hit, exactly when some pattern matches |
| DetectSearch.CheckName | skills/llm-council/scripts/detect_search.py:104-115 | the early-return loop computes the name tier |
| DetectSearch.Classification | skills/llm-council/scripts/detect_search.py:137-146 | `definite_search` iff score ≥ definite (default 60); `likely_search` iff not_search (default 30) ≤ score < definite |
| DetectSearch.ScoreTool | skills/llm-council/scripts/detect_search.py:22-55 | the four `_add`s give the sum of the tier totals and the evidence in tier order |
| DetectSearch.Triage | skills/llm-council/scripts/detect_search.py:158-162 | `search_tools` holds each definite result and confirmation each likely result as many times as it occurs in the input and nothing else, each descending, the results of any one score in input order |
| Text.Strip | skills/llm-council/scripts/lib/yaml_parser.py:66 | `str.strip()`: the result is no longer than the text and has no white space at either end |
| Text.StripSlice | skills/llm-council/scripts/lib/yaml_parser.py:66 | `str.strip()` removes only white space: the result is a slice of the text with nothing but white space before and after it |
| Text.StripLeft | skills/llm-council/scripts/lib/yaml_parser.py:66 | the text after its leading white space: a suffix, not starting with white space, with only white space removed |
| Text.StripRight | skills/llm-council/scripts/lib/yaml_parser.py:66 | the text before its trailing white space: a prefix, not ending in white space, with only white space removed |
| Text.StripLead | skills/llm-council/scripts/lib/yaml_parser.py:66-69 | when only spaces come before index `a`, the stripped text begins with the character at `a`, or is empty when `a` is the end |
| Text.StripTrimmed | skills/llm-council/scripts/lib/yaml_parser.py:66 | a text with no white space at either end strips to itself |
| Text.StripIdempotent | skills/llm-council/scripts/lib/yaml_parser.py:66-82 | stripping twice is stripping once |
| Text.Lower | skills/llm-council/scripts/lib/yaml_parser.py:300 | `str.lower()` maps each character, on ASCII letters |
| Text.LowerChar | skills/llm-council/scripts/lib/yaml_parser.py:300 | an ASCII capital maps to its small letter, every other character to itself |
| Text.LowerIdempotent | skills/llm-council/scripts/check_sensitivity.py:20-21 | lower-casing twice is lower-casing once |
| Text.SplitOn | skills/llm-council/scripts/lib/yaml_parser.py:38-56 | `str.split(c)`: separator-free parts that join back to the text |
| Text.SplitJoin | skills/llm-council/scripts/lib/yaml_parser.py:38-56 | splitting a join of separator-free parts gives the parts |
| Text.SplitOnAt | skills/llm-council/scripts/lib/yaml_parser.py:56 | `split` cuts at the first separator and splits the rest after it |
| Text.JoinHead | skills/llm-council/scripts/lib/yaml_parser.py:56 | in a join whose first part holds no separator, the first separator comes right after that part |
| Text.Before | skills/llm-council/scripts/lib/yaml_parser.py:93-111 | the text before the first separator of `partition` |
| Text.After | skills/llm-council/scripts/lib/yaml_parser.py:93-111 | `partition`: before, separator and after rebuild the text |
| Text.Find | skills/llm-council/scripts/lib/yaml_parser.py:93 | the index of the first occurrence of the character, or the length when it does not occur |
| Text.SplitAtLast | skills/llm-council/scripts/build_rubric_index.py:54 | `"key:".partition(":")` gives the key and an empty rest |
| Assoc.Put | skills/llm-council/scripts/lib/yaml_parser.py:121-140 | `d[k] = v`: an existing key keeps its place with the new value, a new key goes last, other keys unchanged, keys stay unique |
| Assoc.IndexOf | skills/llm-council/scripts/lib/yaml_parser.py:121-140 | the position of the first entry with the key, or the length when there is none |
| Assoc.HasKeyIff | skills/llm-council/scripts/lib/yaml_parser.py:39 | `key in d` holds exactly when some entry has the key |
| Assoc.GetFound | skills/llm-council/scripts/lib/yaml_parser.py:41 | `d[key]` of a present key is the value of an entry with that key, and with unique keys the value of every such entry |
| Assoc.Lookup | skills/llm-council/scripts/lib/yaml_parser.py:39-41 | a value exactly when the key is present, and then `d[key]` |
| Assoc.GetOr | skills/llm-council/scripts/detect_llms.py:122-128 | `d.get(key, default)`: the value when the key is present, `default` when it is not |
| Assoc.Keys | skills/llm-council/scripts/detect_llms.py:71 | the keys in insertion order, one per entry |
| Assoc.PutPut | skills/llm-council/scripts/lib/yaml_parser.py:240-244 | writing a key twice keeps only the second value, at the first write's place |
| Numerals.IntRoundTrip | skills/llm-council/scripts/lib/yaml_parser.py:311-312 | `int(str(n)) == n` |
| Numerals.IntValue | skills/llm-council/scripts/lib/yaml_parser.py:311-312 | the value of an integer literal is at most 0 with a leading `-` and at least 0 otherwise |
| Numerals.Show | skills/llm-council/scripts/detect_llms.py:77 | `str(n)`: a non-empty string whose first character is `-` or a digit and whose other characters are digits |
| Numerals.ShowNat | skills/llm-council/scripts/detect_llms.py:77 | the decimal rendering of a natural is a non-empty string of digits |
| Numerals.DigitsZero | skills/llm-council/scripts/lib/yaml_parser.py:311-318 | digits with underscores have value 0 exactly when every digit is `0` |
| Numerals.ExponentAt | skills/llm-council/scripts/lib/yaml_parser.py:316-318 | the index of the first `e` or `E`, or the length when there is none |
| Numerals.IntLiteralIsFloat | skills/llm-council/scripts/lib/yaml_parser.py:311-318 | every text `int()` accepts `float()` accepts too, so the integer case shadows part of the float case |
| Numerals.IntLiteralZero | skills/llm-council/scripts/lib/yaml_parser.py:311-318 | an integer literal reads as a zero float exactly when its value is 0 |
| DetectLlms.WithoutAppend | skills/llm-council/scripts/detect_llms.py:110 | removing `_` distributes over concatenation |
| DetectLlms.MaxTokensWithout | skills/llm-council/scripts/detect_llms.py:110 | `"max_tokens".replace("_", "")` is `"maxtokens"` |
| RubricIndex.CleanFixed | skills/llm-council/scripts/build_rubric_index.py:43 | a text that cleaning leaves unchanged is already stripped |
| RubricIndex.DocumentItems | skills/llm-council/scripts/build_rubric_index.py:41-44 | each item line of the document is `- x` for a text `x` that cleaning keeps |
| Text.LowerAppend | skills/llm-council/scripts/check_sensitivity.py:20-21 | lower-casing distributes over concatenation |
| Text.StripKeepsAbsent | skills/llm-council/scripts/lib/yaml_parser.py:93 | stripping never introduces a character |
| Numerals.ShowNatValue | skills/llm-council/scripts/lib/yaml_parser.py:311-312 | the decimal rendering of a natural is a digit string whose value is the natural |
| Values.Field | skills/llm-council/scripts/detect_llms.py:122-128 | `d.get(k, default)` on a dict |
| Values.PutWellKeyed | skills/llm-council/scripts/lib/yaml_parser.py:121-140 | storing a value without repeated keys keeps every dict of the tree free of repeated keys |
| Values.FloatTruthMatchesInt | skills/llm-council/scripts/detect_llms.py:99-100 | the truth of an integer literal is the same whether it is read as a float or as an int |
| Values.TinyFloatFalse | skills/llm-council/scripts/detect_llms.py:99-100 | a float literal such as `1e-400` that `float()` rounds to 0.0 is false, so `is_required` does not hold for it |
| Values.SmallFloatTrue | skills/llm-council/scripts/detect_llms.py:99-100 | a small float that does not round to 0.0, `1e-n` up to `n = 300`, is true |
| Numerals.NegativeExponentLiteral | skills/llm-council/scripts/lib/yaml_parser.py:316-320 | `float()` accepts `1e-n`, whose decimal value is `1 * 10^-n` |
| Numerals.TinyUnderflows | skills/llm-council/scripts/lib/yaml_parser.py:316-320 | `10^-n` is at most half the smallest subnormal double, `2^-1075`, from `n = 400` on |
| Numerals.SmallAboveBound | skills/llm-council/scripts/lib/yaml_parser.py:316-320 | `10^-n` is above `2^-1075` up to `n = 300` |
| Numerals.TinyExponentZero | skills/llm-council/scripts/lib/yaml_parser.py:316-320 | `float("1e-n")` is 0.0 from `n = 400` on, although the digit is not 0 |
| Numerals.SmallExponentNonzero | skills/llm-council/scripts/lib/yaml_parser.py:316-320 | `float("1e-n")` is not 0.0 up to `n = 300` |

## Left out

- The PyYAML branch (`HAS_YAML`, `yaml.safe_load`, `load_yaml`, `load_yaml_string`) calls a library outside the repository, and `load_yaml` reads a file. Only `_parse_nested` is modelled.
- All file, stdin and stdout I/O, `sys.exit`, and configuration loading. This covers `io_helpers.py`, every `main` apart from its filter and sort step, and `build_index`. The detectors' validation of the `tools` input is part of this.
- `score_results.py` and `validate_weights.py` are floating-point numerics. `sanitize_content.py` consists of regular-expression substitution. None of them is modelled.
- Regular expressions: `re.search(pattern, name, re.IGNORECASE)` is the parameter `search`, taken as given.
- YamlScalar.ParseScalar: a float is kept as its literal text (`Float(text)`), and its numeric value is not modelled beyond whether it is 0.0 (`Numerals.IsZeroFloat`, which `Values.Truthy` uses). Overflow to `inf` is not told apart from a large finite value; both are true. `float()` is modelled by its grammar (sign, decimal digits with underscores, exponent, `inf`/`infinity`/`nan`) on ASCII only.
- YamlScalar.ParseScalar: CPython's `int()` refuses a decimal text of more than 4300 digits with a `ValueError` (the default integer string conversion limit), and such a text then goes on to `float()`. The model reads an integer literal of any length as an `Int` (`yaml_parser.py:311-320`).
- YamlScalar.ParseScalar: `int()` accepts only ASCII signed decimal digits with PEP 515 underscores. Python also accepts other Unicode digits, and a stripped text with inner white space is not a concern here.
- Text.Lower: `str.lower()` is modelled on ASCII letters only, so non-ASCII keywords and names are compared as they are. This is exact for the boolean and null words.
- Signals.SortByScore: `list.sort(key=..., reverse=True)` sorts in place. The model is a stable insertion sort on a sequence, returning a new sequence.
- Budget.CheckBudget: `round(ratio, 3)` and the text of `reason` (including `f"{ratio:.2f}"`) are not modelled. The ratio is an exact real `elapsed / total_budget`, the reason is an enumeration, and `float("inf")` is `Infinite`.
- YamlStack.Close: Python shares containers between the stack and the tree. The model stands in for this aliasing with the zipper described above, so it does not capture the identity of container objects.
- YamlParser.ParseNested: the `TypeError` of `parent[key]` on a list is the error result `KeyInList`. No other Python exception is modelled.
- YamlParser.ExtractSection: returns `Option<Value>`. Python returns `None` both for a missing path and for a present null value, so `Some(Null)` and `None` are one answer there.
- DetectLlms.Config and DetectSearch.Config: the detector configurations are typed. Points are integers. A parameter signal is its points (the `score` of a dict signal, or the signal itself). A signal group that is not a dict with `keywords` is `Unusable`. Point values that are not integers are not modelled.
- Signals.PropertyNames: `p.lower() for p in v["properties"]` raises `AttributeError` in Python for a list element that is not a string, and `TypeError` for a `properties` value it cannot iterate (an int, a bool, `None`). The model skips such elements and values and gives no name for them, so it scores a tool on which the detector would crash (`detect_llms.py:75`, `detect_search.py:72`).
- Signals.CollectParamNames: inherits that from `PropertyNames`. It also gives no name for `str(p)` of a dict, list or float element of a parameter list, whose printed form is not modelled.
- Signals.ParamNames: the same two gaps as `PropertyNames` and `CollectParamNames`.
- RubricIndex.State: the open-list key `""` stands for Python's `None`. Both are false in `if current_list_key`, so the behaviour is the same.
- DetectLlms.ParamIsRequired: the returned value is used through its truth, as in `if is_required`.
