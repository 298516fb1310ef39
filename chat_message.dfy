/**
 * One chat message as displayed (src/components/chat/chat-message.tsx): the
 * `<file_context>` blocks of user messages shown as a marker, the
 * `<minimax:tool_call>` blocks of finished assistant messages extracted as
 * tool calls, the approval status of each tool, and what approving a tool
 * does. The regular expressions of the source are written out as scanners
 * over the text.
 */
module ChatMessage {
  import opened Wrappers
  import opened JsString
  import Wire
  import UseChat

  const OpenTag := "<minimax:tool_call>"
  const CloseTag := "</minimax:tool_call>"
  const InvokePrefix := "<invoke name=\""
  const ParamPrefix := "<parameter name=\""
  const ParamClose := "</parameter>"
  const UnknownTool := "unknown_tool"

  // ---------------------------------------------------------------------------
  // Parameters: a JavaScript object, kept in insertion order
  // ---------------------------------------------------------------------------

  /** One entry of a `Record<string, string>`. */
  datatype Entry = Entry(key: string, value: string)

  /** A `Record<string, string>` as its entries in insertion order (each key once). */
  type Params = seq<Entry>

  function Lookup(ps: Params, k: string): (r: Option<string>)
    ensures r.Some? ==> exists j :: 0 <= j < |ps| && ps[j] == Entry(k, r.value)
    decreases |ps|
  {
    if |ps| == 0 then None
    else if ps[0].key == k then Some(ps[0].value)
    else
      var r := Lookup(ps[1..], k);
      if r.Some? then
        var j :| 0 <= j < |ps| - 1 && ps[1..][j] == Entry(k, r.value);
        assert ps[j + 1] == Entry(k, r.value);
        r
      else r
  }

  /** `params[k] = v`: an existing key keeps its place and takes the new value; a new key goes last. */
  function Put(ps: Params, k: string, v: string): (r: Params)
    ensures Lookup(r, k) == Some(v)
    decreases |ps|
  {
    if |ps| == 0 then [Entry(k, v)]
    else if ps[0].key == k then [Entry(k, v)] + ps[1..]
    else
      var r := [ps[0]] + Put(ps[1..], k, v);
      assert r[1..] == Put(ps[1..], k, v);
      r
  }

  /** Storing a key leaves the other keys' values alone; an existing key keeps its place, a new one goes last. */
  lemma {:induction false} PutKeepsOthers(ps: Params, k: string, v: string)
    ensures forall k' :: k' != k ==> Lookup(Put(ps, k, v), k') == Lookup(ps, k')
    ensures Lookup(ps, k).Some? ==> |Put(ps, k, v)| == |ps| && forall j :: 0 <= j < |ps| ==> Put(ps, k, v)[j].key == ps[j].key
    ensures Lookup(ps, k).None? ==> Put(ps, k, v) == ps + [Entry(k, v)]
  {
    forall k' | k' != k
      ensures Lookup(Put(ps, k, v), k') == Lookup(ps, k')
    {
      PutKeepsOther(ps, k, v, k');
    }
    PutKeepsPlaces(ps, k, v);
  }

  lemma {:induction false} PutKeepsOther(ps: Params, k: string, v: string, k': string)
    requires k' != k
    ensures Lookup(Put(ps, k, v), k') == Lookup(ps, k')
    decreases |ps|
  {
    if |ps| > 0 && ps[0].key != k {
      PutKeepsOther(ps[1..], k, v, k');
      assert Put(ps, k, v)[1..] == Put(ps[1..], k, v);
    }
  }

  lemma {:induction false} PutKeepsPlaces(ps: Params, k: string, v: string)
    ensures Lookup(ps, k).Some? ==> |Put(ps, k, v)| == |ps| && forall j :: 0 <= j < |ps| ==> Put(ps, k, v)[j].key == ps[j].key
    ensures Lookup(ps, k).None? ==> Put(ps, k, v) == ps + [Entry(k, v)]
    decreases |ps|
  {
    if |ps| > 0 && ps[0].key != k {
      PutKeepsPlaces(ps[1..], k, v);
      assert Put(ps, k, v)[1..] == Put(ps[1..], k, v);
      assert ps == [ps[0]] + ps[1..];
    }
  }

  /** `Object.values(params)[0]` */
  function FirstValue(ps: Params): Option<string> {
    if |ps| == 0 then None else Some(ps[0].value)
  }

  // ---------------------------------------------------------------------------
  // Scanners for the regular expressions, over positions of the text
  // ---------------------------------------------------------------------------

  /** `[^"]+"` from position `i`: the position of the '"' that ends a non-empty run without '"'. */
  function QuoteEnd(s: string, i: nat): (q: Option<nat>)
    ensures q.Some? ==> i < q.value < |s| && s[q.value] == '"'
  {
    match FindChar(s, '"', i)
    case None => None
    case Some(q) => if q > i then Some(q) else None
  }

  /** The run `QuoteEnd` closes holds no '"'. */
  lemma {:induction false} QuoteEndClean(s: string, i: nat)
    ensures QuoteEnd(s, i).Some? ==> '"' !in s[i..QuoteEnd(s, i).value]
  {
    FindCharFirst(s, '"', i);
    if QuoteEnd(s, i).Some? {
      NotInSlice(s, '"', i, QuoteEnd(s, i).value);
    }
  }

  /** A name free of '"' at position `i`, then '"': the run ends right after the name. */
  lemma {:induction false} QuoteEndAt(s: string, i: nat, n: string)
    requires n != "" && '"' !in n
    requires i + |n| < |s| && s[i..i + |n|] == n && s[i + |n|] == '"'
    ensures QuoteEnd(s, i) == Some(i + |n|)
  {
    NotInSliceAt(s, '"', i, i + |n|);
    FindCharAt(s, '"', i, i + |n|);
  }

  /** `/<invoke name="([^"]+)"/` searched from position `i`: the name after the first prefix that a quoted name follows. */
  function InvokeFrom(s: string, i: nat): (r: Option<string>)
    ensures r.Some? ==> r.value != "" && '"' !in r.value
    decreases |s| + 1 - i
  {
    match IndexFrom(s, InvokePrefix, i)
    case None => None
    case Some(k) =>
      match QuoteEnd(s, k + |InvokePrefix|)
      case Some(q) => QuoteEndClean(s, k + |InvokePrefix|); Some(s[k + |InvokePrefix|..q])
      case None => InvokeFrom(s, k + 1)
  }

  /** `block.match(/<invoke name="([^"]+)"/)`: no match at all when the prefix does not occur. */
  function InvokeName(s: string): (r: Option<string>)
    ensures !Contains(s, InvokePrefix) ==> r.None?
  {
    IndexOfNoneIff(s, InvokePrefix);
    InvokeFrom(s, 0)
  }

  /** `<invoke name="n"` */
  function InvokeTag(n: string): string {
    InvokePrefix + n + "\""
  }

  /** After text free of '<', the first `<invoke name="n"` gives the name `n`. */
  lemma {:induction false} InvokeNameFound(s: string, i: nat, k: nat, n: string)
    requires i <= k <= |s| && '<' !in s[i..k] && n != "" && '"' !in n
    requires k + |InvokeTag(n)| <= |s| && s[k..k + |InvokeTag(n)|] == InvokeTag(n)
    ensures InvokeFrom(s, i) == Some(n)
  {
    assert InvokePrefix[0] == '<';
    QuotedNameFound(s, i, k, InvokePrefix, n);
    assert s[k + |InvokePrefix|..k + |InvokePrefix| + |n|] == n;
  }

  /**
   * After text free of '<', an opening text starting with '<' at `k` followed by
   * a name free of '"' and a '"': the search from `i` finds the opening at `k`
   * and the run after it ends right after the name.
   */
  lemma {:induction false} QuotedNameFound(s: string, i: nat, k: nat, open: string, n: string)
    requires |open| > 0 && open[0] == '<'
    requires i <= k <= |s| && '<' !in s[i..k] && n != "" && '"' !in n
    requires k + |open + n + "\""| <= |s| && s[k..k + |open + n + "\""|] == open + n + "\""
    ensures IndexFrom(s, open, i) == Some(k)
    ensures s[k + |open|..k + |open| + |n|] == n
    ensures QuoteEnd(s, k + |open|) == Some(k + |open| + |n|)
  {
    NotInSliceAt(s, '<', i, k);
    SliceOfAppend(s, k, open + n, "\"");
    SliceOfAppend(s, k, open, n);
    assert s[k + |open| + |n|] == s[k + |open| + |n|..k + |open + n + "\""|][0];
    IndexFromSkips(s, open, i, k);
    QuoteEndAt(s, k + |open|, n);
  }

  /** One match of an element pattern: the captured name, the captured value and the position just past the match. */
  datatype ParamHit = ParamHit(name: string, value: string, end: nat)

  /** `open` + `name` + `">` + `value` + `close`: the shape both element patterns of this file match. */
  function Element(open: string, name: string, value: string, close: string): string {
    open + name + "\">" + value + close
  }

  /** `open([^"]+)">([^<]*)close` for an `open` found at `k`: the quoted name, the value up to the first '<', and `close` right there. */
  function ClassElementAt(s: string, k: nat, open: string, close: string): (h: Option<ParamHit>)
    ensures h.Some? ==> k < h.value.end <= |s| && h.value.name != ""
  {
    var n0 := k + |open|;
    match QuoteEnd(s, n0)
    case None => None
    case Some(q) =>
      if q + 1 < |s| && s[q + 1] == '>' then
        match FindChar(s, '<', q + 2)
        case None => None
        case Some(v) =>
          if v + |close| <= |s| && MatchesAt(s, close, v) then
            Some(ParamHit(s[n0..q], s[q + 2..v], v + |close|))
          else None
      else None
  }

  /** `open([^"]+)">([\s\S]*?)close` for an `open` found at `k`: the quoted name, and the body up to the first `close` after it. */
  function LazyElementAt(s: string, k: nat, open: string, close: string): (h: Option<ParamHit>)
    ensures h.Some? ==> k < h.value.end <= |s| && h.value.name != ""
  {
    var n0 := k + |open|;
    match QuoteEnd(s, n0)
    case None => None
    case Some(q) =>
      if q + 1 < |s| && s[q + 1] == '>' then
        match IndexFrom(s, close, q + 2)
        case None => None
        case Some(c) => Some(ParamHit(s[n0..q], s[q + 2..c], c + |close|))
      else None
  }

  /** An element written out at `k` shows each of its pieces at its offset. */
  lemma {:induction false} ElementPieces(s: string, k: nat, open: string, name: string, value: string, close: string)
    requires k + |Element(open, name, value, close)| <= |s| && s[k..k + |Element(open, name, value, close)|] == Element(open, name, value, close)
    ensures var q := k + |open| + |name|;
      q + 2 + |value| + |close| <= |s| &&
      s[k..k + |open|] == open && s[k + |open|..q] == name && s[q] == '"' && s[q + 1] == '>' &&
      s[q + 2..q + 2 + |value|] == value && s[q + 2 + |value|..q + 2 + |value| + |close|] == close
  {
    var q := k + |open| + |name|;
    SliceOfAppend(s, k, open + name + "\">" + value, close);
    SliceOfAppend(s, k, open + name + "\">", value);
    SliceOfAppend(s, k, open + name, "\">");
    SliceOfAppend(s, k, open, name);
    assert s[q] == s[q..q + 2][0] && s[q + 1] == s[q..q + 2][1];
  }

  /** An element at `k` whose name has no '"', whose value has no '<' and whose closing text starts with '<' is the match there. */
  lemma {:induction false} ClassElementMatch(s: string, k: nat, open: string, name: string, value: string, close: string)
    requires name != "" && '"' !in name && '<' !in value && |close| > 0 && close[0] == '<'
    requires k + |Element(open, name, value, close)| <= |s| && s[k..k + |Element(open, name, value, close)|] == Element(open, name, value, close)
    ensures OccursAt(s, open, k)
    ensures ClassElementAt(s, k, open, close) == Some(ParamHit(name, value, k + |Element(open, name, value, close)|))
  {
    var q := k + |open| + |name|;
    var c := q + 2 + |value|;
    ElementPieces(s, k, open, name, value, close);
    QuoteEndAt(s, k + |open|, name);
    NotInSliceAt(s, '<', q + 2, c);
    assert s[c] == s[c..c + |close|][0];
    FindCharAt(s, '<', q + 2, c);
    MatchesAtIff(s, close, c);
    ClassElementParts(s, k, open, close, q, c, name, value);
  }

  /** The pieces `ClassElementAt` looks for, each found where given, make up its match. */
  lemma {:induction false} ClassElementParts(s: string, k: nat, open: string, close: string, q: nat, c: nat, name: string, value: string)
    requires QuoteEnd(s, k + |open|) == Some(q) && q + 1 < |s| && s[q + 1] == '>'
    requires FindChar(s, '<', q + 2) == Some(c) && c + |close| <= |s| && MatchesAt(s, close, c)
    requires s[k + |open|..q] == name && s[q + 2..c] == value
    ensures ClassElementAt(s, k, open, close) == Some(ParamHit(name, value, c + |close|))
  {
  }

  /** An element at `k` whose name has no '"' and whose body holds no earlier `close` is the lazy match there. */
  lemma {:induction false} LazyElementMatch(s: string, k: nat, open: string, name: string, body: string, close: string)
    requires name != "" && '"' !in name && IndexOf(body + close, close) == Some(|body|)
    requires k + |Element(open, name, body, close)| <= |s| && s[k..k + |Element(open, name, body, close)|] == Element(open, name, body, close)
    ensures OccursAt(s, open, k)
    ensures LazyElementAt(s, k, open, close) == Some(ParamHit(name, body, k + |Element(open, name, body, close)|))
  {
    var q := k + |open| + |name|;
    ElementPieces(s, k, open, name, body, close);
    QuoteEndAt(s, k + |open|, name);
    BodyThenClose(s, q + 2, body, close);
    LazyElementParts(s, k, open, close, q, q + 2 + |body|, name, body);
  }

  /** A body with no earlier `close`, then `close`, at `j`: the search for `close` from `j` stops right after the body. */
  lemma BodyThenClose(s: string, j: nat, body: string, close: string)
    requires j + |body| + |close| <= |s| && s[j..j + |body|] == body && s[j + |body|..j + |body| + |close|] == close
    requires IndexOf(body + close, close) == Some(|body|)
    ensures IndexFrom(s, close, j) == Some(j + |body|)
  {
    AppendOfSlices(s, j, body, close);
    FirstAfter(s, j, body, close);
  }

  /** The pieces `LazyElementAt` looks for, each found where given, make up its match. */
  lemma {:induction false} LazyElementParts(s: string, k: nat, open: string, close: string, q: nat, c: nat, name: string, body: string)
    requires QuoteEnd(s, k + |open|) == Some(q) && q + 1 < |s| && s[q + 1] == '>'
    requires IndexFrom(s, close, q + 2) == Some(c)
    requires s[k + |open|..q] == name && s[q + 2..c] == body
    ensures LazyElementAt(s, k, open, close) == Some(ParamHit(name, body, c + |close|))
  {
  }

  /** The captured groups keep to their character classes: a name without '"' and a value without '<'. */
  lemma {:induction false} ClassElementClean(s: string, k: nat, open: string, close: string)
    ensures var h := ClassElementAt(s, k, open, close);
      h.Some? ==> '"' !in h.value.name && '<' !in h.value.value
  {
    var n0 := k + |open|;
    QuoteEndClean(s, n0);
    if ClassElementAt(s, k, open, close).Some? {
      var q := QuoteEnd(s, n0).value;
      var v := FindChar(s, '<', q + 2).value;
      FindCharFirst(s, '<', q + 2);
      NotInSlice(s, '<', q + 2, v);
    }
  }

  /**
   * `paramRegex.exec` with `lastIndex` at `i`, for the pattern
   * `open([^"]+)">([^<]*)close` (the tool calls use `ParamPrefix` and
   * `ParamClose`): the first position from `i` where the whole pattern matches.
   */
  function ParamFrom(s: string, i: nat, open: string, close: string): (h: Option<ParamHit>)
    requires |open| > 0
    ensures h.Some? ==> i < h.value.end <= |s| && h.value.name != ""
    decreases |s| + 1 - i
  {
    match IndexFrom(s, open, i)
    case None => None
    case Some(k) =>
      match ClassElementAt(s, k, open, close)
      case Some(h) => Some(h)
      case None => ParamFrom(s, k + 1, open, close)
  }

  /** Every hit of the `exec` loop keeps to the character classes of the pattern. */
  lemma {:induction false} ParamFromClean(s: string, i: nat, open: string, close: string)
    requires |open| > 0
    ensures var h := ParamFrom(s, i, open, close);
      h.Some? ==> '"' !in h.value.name && '<' !in h.value.value
    decreases |s| + 1 - i
  {
    match IndexFrom(s, open, i)
    case None =>
    case Some(k) =>
      ClassElementClean(s, k, open, close);
      if ClassElementAt(s, k, open, close).None? {
        ParamFromClean(s, k + 1, open, close);
      }
  }

  /** The parameters the `exec` loop collects into `acc` from `lastIndex` `i` on, each value trimmed. */
  function ParamsFrom(s: string, i: nat, acc: Params, open: string, close: string): Params
    requires |open| > 0
    decreases |s| + 1 - i
  {
    match ParamFrom(s, i, open, close)
    case None => acc
    case Some(h) => ParamsFrom(s, h.end, Put(acc, h.name, Trim(h.value)), open, close)
  }

  /** One turn of the `exec` loop: the hit found from `i` is stored and the search resumes at its end. */
  lemma {:induction false} ParamsStep(s: string, i: nat, acc: Params, open: string, close: string, name: string, value: string, end: nat)
    requires |open| > 0 && ParamFrom(s, i, open, close) == Some(ParamHit(name, value, end))
    ensures ParamsFrom(s, i, acc, open, close) == ParamsFrom(s, end, Put(acc, name, Trim(value)), open, close)
  {
  }

  /** An element written out at position `i` is the match found from `i`. */
  lemma {:induction false} ParamAtElement(s: string, i: nat, open: string, k: string, v: string, close: string)
    requires |open| > 0 && |close| > 0 && close[0] == '<'
    requires k != "" && '"' !in k && '<' !in v
    requires i + |Element(open, k, v, close)| <= |s| && s[i..i + |Element(open, k, v, close)|] == Element(open, k, v, close)
    ensures ParamFrom(s, i, open, close) == Some(ParamHit(k, v, i + |Element(open, k, v, close)|))
  {
    ClassElementMatch(s, i, open, k, v, close);
    IndexFromSkips(s, open, i, i);
  }

  /** An element at `lastIndex` is one match: its trimmed value is stored and the scan goes on after it. */
  lemma {:induction false} ParamsOfElement(s: string, i: nat, open: string, k: string, v: string, close: string, acc: Params)
    requires |open| > 0 && |close| > 0 && close[0] == '<'
    requires k != "" && '"' !in k && '<' !in v
    requires i + |Element(open, k, v, close)| <= |s| && s[i..i + |Element(open, k, v, close)|] == Element(open, k, v, close)
    ensures ParamsFrom(s, i, acc, open, close) == ParamsFrom(s, i + |Element(open, k, v, close)|, Put(acc, k, Trim(v)), open, close)
  {
    ParamAtElement(s, i, open, k, v, close);
    ParamsStep(s, i, acc, open, close, k, v, i + |Element(open, k, v, close)|);
  }

  /** Storing a key twice is storing the second value: the first leaves no trace. */
  lemma {:induction false} PutTwice(ps: Params, k: string, a: string, b: string)
    ensures Put(Put(ps, k, a), k, b) == Put(ps, k, b)
    decreases |ps|
  {
    if |ps| > 0 && ps[0].key != k {
      PutTwice(ps[1..], k, a, b);
      assert Put(ps, k, a)[1..] == Put(ps[1..], k, a);
    }
  }

  /**
   * A repeated key keeps its last value: when the hit found from `i` and the
   * hit found right after it name the same key, the scan stores the second
   * value as if the first had not been there. (`ParamAtElement` says when an
   * element written out at a position is such a hit.)
   */
  lemma {:induction false} ParamsLastWins(s: string, i: nat, open: string, close: string, k: string, v1: string, v2: string, j: nat, end: nat, acc: Params)
    requires |open| > 0
    requires ParamFrom(s, i, open, close) == Some(ParamHit(k, v1, j))
    requires ParamFrom(s, j, open, close) == Some(ParamHit(k, v2, end))
    ensures ParamsFrom(s, i, acc, open, close) == ParamsFrom(s, end, Put(acc, k, Trim(v2)), open, close)
  {
    ParamsStep(s, i, acc, open, close, k, v1, j);
    ParamsStep(s, j, Put(acc, k, Trim(v1)), open, close, k, v2, end);
    PutTwice(acc, k, Trim(v1), Trim(v2));
  }

  /** The `while (exec)` loop over one tool-call block. */
  method ScanParameters(block: string) returns (ps: Params)
    ensures ps == ParamsFrom(block, 0, [], ParamPrefix, ParamClose)
  {
    ps := [];
    var lastIndex := 0;
    var hit := ParamFrom(block, lastIndex, ParamPrefix, ParamClose);
    while hit.Some?
      invariant hit == ParamFrom(block, lastIndex, ParamPrefix, ParamClose)
      invariant ParamsFrom(block, 0, [], ParamPrefix, ParamClose) == ParamsFrom(block, lastIndex, ps, ParamPrefix, ParamClose)
      decreases |block| - lastIndex
    {
      ps := Put(ps, hit.value.name, Trim(hit.value.value));
      lastIndex := hit.value.end;
      hit := ParamFrom(block, lastIndex, ParamPrefix, ParamClose);
    }
  }

  // ---------------------------------------------------------------------------
  // parseToolCalls
  // ---------------------------------------------------------------------------

  datatype ParsedTool = ParsedTool(toolId: string, toolName: string, parameters: Params)

  datatype ToolParse = ToolParse(cleanText: string, tools: seq<ParsedTool>)

  /** `tool-<i>-<name>` */
  function ToolId(i: nat, name: string): string {
    "tool-" + NatToString(i) + "-" + name
  }

  /** Different counters give different ids, whatever the names. */
  lemma {:induction false} ToolIdInjective(i: nat, j: nat, n1: string, n2: string)
    requires ToolId(i, n1) == ToolId(j, n2)
    ensures i == j
  {
    var p := "tool-";
    assert ToolId(i, n1) == p + (NatToString(i) + ['-'] + n1);
    assert ToolId(j, n2) == p + (NatToString(j) + ['-'] + n2);
    assert NatToString(i) + ['-'] + n1 == ToolId(i, n1)[|p|..];
    assert NatToString(j) + ['-'] + n2 == ToolId(j, n2)[|p|..];
    DigitPrefixUnique(NatToString(i), NatToString(j), '-', n1, n2);
    NatToStringInjective(i, j);
  }

  /** The tool of one block, numbered `i`: the invoked name (or 'unknown_tool') and its parameters. */
  function ToolOf(block: string, i: nat): (t: ParsedTool)
    ensures t.toolId == ToolId(i, t.toolName)
    ensures t.toolName != "" && '"' !in t.toolName
  {
    var name := InvokeName(block).GetOr(UnknownTool);
    ParsedTool(ToolId(i, name), name, ParamsFrom(block, 0, [], ParamPrefix, ParamClose))
  }

  /** The tools of the blocks in order, the k-th numbered k (the callback's `idx++`). */
  function ToolsOf(blocks: seq<string>): (r: seq<ParsedTool>)
    ensures |r| == |blocks|
    ensures forall k :: 0 <= k < |blocks| ==> r[k] == ToolOf(blocks[k], k)
  {
    if |blocks| == 0 then []
    else
      var init := blocks[..|blocks| - 1];
      var r := ToolsOf(init) + [ToolOf(blocks[|blocks| - 1], |blocks| - 1)];
      assert forall k :: 0 <= k < |blocks| - 1 ==> r[k] == ToolsOf(init)[k] && blocks[k] == init[k];
      r
  }

  /** Numbering one more block continues the count. */
  lemma {:induction false} ToolsOfAppend(blocks: seq<string>, block: string)
    ensures ToolsOf(blocks + [block]) == ToolsOf(blocks) + [ToolOf(block, |blocks|)]
  {
    assert (blocks + [block])[..|blocks|] == blocks;
  }

  /** A match of a pattern in a text: from `start` up to `end` (exclusive). */
  datatype Span = Span(start: nat, end: nat)

  /** The lazy `<minimax:tool_call>[\s\S]*?</minimax:tool_call>` from position `i`: the first opening tag and the first closing tag after it. */
  function BlockFrom(r: string, i: nat): (b: Option<Span>)
    ensures b.Some? ==> i <= b.value.start && b.value.start + |OpenTag| + |CloseTag| <= b.value.end <= |r|
  {
    match IndexFrom(r, OpenTag, i)
    case None => None
    case Some(k) =>
      match IndexFrom(r, CloseTag, k + |OpenTag|)
      case None => None
      case Some(c) => Some(Span(k, c + |CloseTag|))
  }

  /** Where the tool-call text is cut: the text kept and the blocks cut out, in order. */
  datatype Cut = Cut(kept: string, blocks: seq<string>)

  /** The global replace from position `i`: every block is cut out and the text between the blocks is kept. */
  function Scan(r: string, i: nat): Cut
    requires i <= |r|
    decreases |r| - i
  {
    match BlockFrom(r, i)
    case None => Cut(r[i..], [])
    case Some(b) =>
      var rest := Scan(r, b.end);
      Cut(r[i..b.start] + rest.kept, [r[b.start..b.end]] + rest.blocks)
  }

  /** What `parseToolCalls` returns: the kept text, trimmed, and the tools of the blocks numbered from 0. */
  function ParseSpec(content: string): ToolParse {
    var c := Scan(content, 0);
    ToolParse(Trim(c.kept), ToolsOf(c.blocks))
  }

  /** One turn of the replace: the text before the block joins the kept text, the block joins the blocks, and the scan resumes after it. */
  lemma ScanStep(content: string, pos: nat, clean: string, blocks: seq<string>)
    requires pos <= |content| && BlockFrom(content, pos).Some?
    requires Scan(content, 0) == Cut(clean + Scan(content, pos).kept, blocks + Scan(content, pos).blocks)
    ensures var b := BlockFrom(content, pos).value;
      Scan(content, 0) == Cut((clean + content[pos..b.start]) + Scan(content, b.end).kept,
                              (blocks + [content[b.start..b.end]]) + Scan(content, b.end).blocks)
  {
    var b := BlockFrom(content, pos).value;
    var after := Scan(content, b.end);
    ScanAtBlock(content, pos);
    Regroup(clean, content[pos..b.start], after.kept, blocks, content[b.start..b.end], after.blocks);
  }

  /** The scan from `pos` when a block is found there: the text up to it, the block, then the scan after it. */
  lemma ScanAtBlock(content: string, pos: nat)
    requires pos <= |content| && BlockFrom(content, pos).Some?
    ensures var b := BlockFrom(content, pos).value;
      var after := Scan(content, b.end);
      Scan(content, pos) == Cut(content[pos..b.start] + after.kept, [content[b.start..b.end]] + after.blocks)
  {
  }

  lemma Regroup(clean: string, mid: string, kept: string, blocks: seq<string>, block: string, more: seq<string>)
    ensures Cut(clean + (mid + kept), blocks + ([block] + more)) == Cut((clean + mid) + kept, (blocks + [block]) + more)
  {
    assert clean + (mid + kept) == (clean + mid) + kept;
    assert blocks + ([block] + more) == (blocks + [block]) + more;
  }

  /** `parseToolCalls`: the replace callback with its `idx++` and `tools.push`; `pos` is where the regex search resumes. */
  method ParseToolCalls(content: string) returns (result: ToolParse)
    ensures result == ParseSpec(content)
  {
    var pos := 0;
    var clean := "";
    var tools: seq<ParsedTool> := [];
    ghost var blocks: seq<string> := [];
    var b := BlockFrom(content, pos);
    while b.Some?
      invariant pos <= |content| && b == BlockFrom(content, pos)
      invariant Scan(content, 0) == Cut(clean + Scan(content, pos).kept, blocks + Scan(content, pos).blocks)
      invariant tools == ToolsOf(blocks)
      decreases |content| - pos
    {
      var i, e := b.value.start, b.value.end;
      var block := content[i..e];
      var params := ScanParameters(block);
      var name := InvokeName(block).GetOr(UnknownTool);
      ScanStep(content, pos, clean, blocks);
      ToolsOfAppend(blocks, block);
      tools := tools + [ParsedTool(ToolId(|tools|, name), name, params)];
      blocks := blocks + [block];
      clean := clean + content[pos..i];
      pos := e;
      b := BlockFrom(content, pos);
    }
    assert Scan(content, pos) == Cut(content[pos..], []);
    assert blocks + [] == blocks;
    result := ToolParse(Trim(clean + content[pos..]), tools);
  }

  /** Tool ids within one message are distinct. */
  lemma {:induction false} ToolIdsDistinct(content: string)
    ensures var ts := ParseSpec(content).tools;
      forall a, b :: 0 <= a < b < |ts| ==> ts[a].toolId != ts[b].toolId
  {
    var ts := ParseSpec(content).tools;
    forall a, b | 0 <= a < b < |ts| ensures ts[a].toolId != ts[b].toolId {
      if ts[a].toolId == ts[b].toolId {
        ToolIdInjective(a, b, ts[a].toolName, ts[b].toolName);
      }
    }
  }

  /** Text without an opening tag is only trimmed and yields no tools. */
  lemma {:induction false} PlainTextUntouched(content: string)
    requires !Contains(content, OpenTag)
    ensures ParseSpec(content) == ToolParse(Trim(content), [])
  {
    IndexOfNoneIff(content, OpenTag);
  }

  /** `<minimax:tool_call>body</minimax:tool_call>` */
  function ToolBlock(body: string): string {
    OpenTag + body + CloseTag
  }

  /** The first closing tag of `body + CloseTag` is the appended one: the block is a shortest match. */
  predicate ShortestBody(body: string) {
    IndexOf(body + CloseTag, CloseTag) == Some(|body|)
  }

  /** A body without '<' cannot hold a closing tag. */
  lemma {:induction false} PlainBodyIsShortest(body: string)
    requires '<' !in body
    ensures ShortestBody(body)
  {
    var u := body + CloseTag;
    assert u[|body|..|body| + |CloseTag|] == CloseTag;
    IndexFromSkips(u, CloseTag, 0, |body|);
  }

  /** From `i`, text free of '<' and then a block with a shortest body: the block is cut out whole, the text before it is kept and the scan goes on after it. */
  lemma {:induction false} BlockCutOut(r: string, i: nat, k: nat, body: string)
    requires i <= k <= |r| && '<' !in r[i..k] && ShortestBody(body)
    requires k + |ToolBlock(body)| <= |r| && r[k..k + |ToolBlock(body)|] == ToolBlock(body)
    ensures Scan(r, i) == Cut(r[i..k] + Scan(r, k + |ToolBlock(body)|).kept, [ToolBlock(body)] + Scan(r, k + |ToolBlock(body)|).blocks)
  {
    BlockFound(r, i, k, body);
    ScanAtBlock(r, i);
  }

  /** The block the search from `i` finds in the situation of `BlockCutOut`. */
  lemma {:induction false} BlockFound(r: string, i: nat, k: nat, body: string)
    requires i <= k <= |r| && '<' !in r[i..k] && ShortestBody(body)
    requires k + |ToolBlock(body)| <= |r| && r[k..k + |ToolBlock(body)|] == ToolBlock(body)
    ensures BlockFrom(r, i) == Some(Span(k, k + |ToolBlock(body)|))
  {
    assert OpenTag[0] == '<';
    TagsFound(r, i, k, OpenTag, body, CloseTag);
  }

  /**
   * After text free of '<', an opening text starting with '<', a body and the
   * first closing text after it: the search from `i` finds the opening at `k`
   * and the closing right after the body.
   */
  lemma {:induction false} TagsFound(r: string, i: nat, k: nat, open: string, body: string, close: string)
    requires |open| > 0 && open[0] == '<' && |close| > 0
    requires i <= k <= |r| && '<' !in r[i..k] && IndexOf(body + close, close) == Some(|body|)
    requires k + |open + body + close| <= |r| && r[k..k + |open + body + close|] == open + body + close
    ensures IndexFrom(r, open, i) == Some(k)
    ensures IndexFrom(r, close, k + |open|) == Some(k + |open| + |body|)
  {
    NotInSliceAt(r, '<', i, k);
    SliceOfAppend(r, k, open + body, close);
    SliceOfAppend(r, k, open, body);
    AppendOfSlices(r, k + |open|, body, close);
    IndexFromSkips(r, open, i, k);
    IndexFromInside(r, body + close, close, k + |open|, 0);
  }

  /** A block with no `<invoke name="` is the tool 'unknown_tool'. */
  lemma {:induction false} UnknownToolName(block: string, i: nat)
    requires !Contains(block, InvokePrefix)
    ensures ToolOf(block, i).toolName == UnknownTool && ToolOf(block, i).toolId == ToolId(i, UnknownTool)
  {
  }

  // ---------------------------------------------------------------------------
  // Display content
  // ---------------------------------------------------------------------------

  const FcOpen := "<file_context path=\""
  const FcClose := "</file_context>"

  /** The marker a `<file_context>` block becomes: '> 📎 附加了文件上下文: `p`' and a newline. */
  function FileMarker(p: string): string {
    "> \U{1F4CE} 附加了文件上下文: `" + p + "`\n"
  }

  /** The display replace from position `i`: each `<file_context path="p">...</file_context>` (shortest match) becomes `FileMarker(p)`. */
  function RewriteFrom(s: string, i: nat): string
    requires i <= |s|
    decreases |s| - i
  {
    match IndexFrom(s, FcOpen, i)
    case None => s[i..]
    case Some(k) =>
      match LazyElementAt(s, k, FcOpen, FcClose)
      case Some(h) => s[i..k] + FileMarker(h.name) + RewriteFrom(s, h.end)
      case None => s[i..k + 1] + RewriteFrom(s, k + 1)
  }

  function RewriteFileContext(s: string): string {
    RewriteFrom(s, 0)
  }

  /** Text without a `<file_context` tag is shown as it is. */
  lemma {:induction false} NoFileContextUntouched(s: string)
    requires !Contains(s, FcOpen)
    ensures RewriteFileContext(s) == s
  {
    IndexOfNoneIff(s, FcOpen);
  }

  /** One replacement: the text before the block is kept, the marker takes the block's place, and the search resumes after it. */
  lemma {:induction false} RewriteStep(s: string, i: nat, k: nat, name: string, value: string, end: nat)
    requires i <= |s| && IndexFrom(s, FcOpen, i) == Some(k) && LazyElementAt(s, k, FcOpen, FcClose) == Some(ParamHit(name, value, end))
    ensures RewriteFrom(s, i) == s[i..k] + FileMarker(name) + RewriteFrom(s, end)
  {
  }

  /** `<file_context path="p">body</file_context>` */
  function FileBlock(p: string, body: string): string {
    Element(FcOpen, p, body, FcClose)
  }

  /** From `i`, text free of '<' and then a file block with a shortest body: the block is replaced by the marker naming its path. */
  lemma {:induction false} FileContextReplaced(s: string, i: nat, k: nat, p: string, body: string)
    requires i <= k <= |s| && '<' !in s[i..k] && p != "" && '"' !in p
    requires IndexOf(body + FcClose, FcClose) == Some(|body|)
    requires k + |FileBlock(p, body)| <= |s| && s[k..k + |FileBlock(p, body)|] == FileBlock(p, body)
    ensures RewriteFrom(s, i) == s[i..k] + FileMarker(p) + RewriteFrom(s, k + |FileBlock(p, body)|)
  {
    LazyElementMatch(s, k, FcOpen, p, body, FcClose);
    assert FcOpen[0] == '<';
    OpenAfterPlainText(s, i, k, FcOpen);
    RewriteStep(s, i, k, p, body, k + |FileBlock(p, body)|);
  }

  /** After text free of '<', an opening text that starts with '<' is found where it occurs. */
  lemma OpenAfterPlainText(s: string, i: nat, k: nat, open: string)
    requires |open| > 0 && open[0] == '<' && i <= k <= |s| && '<' !in s[i..k] && OccursAt(s, open, k)
    ensures IndexFrom(s, open, i) == Some(k)
  {
    NotInSliceAt(s, '<', i, k);
    IndexFromSkips(s, open, i, k);
  }

  /** User messages show their file blocks as markers; assistant messages are shown as written. */
  function DisplayContent(m: UseChat.Message): (r: string)
    ensures m.role == UseChat.Assistant ==> r == m.content
    ensures m.role == UseChat.User && !Contains(m.content, FcOpen) ==> r == m.content
  {
    if m.role == UseChat.User then
      if !Contains(m.content, FcOpen) then NoFileContextUntouched(m.content); m.content
      else RewriteFileContext(m.content)
    else m.content
  }

  /** User and streaming messages are not tool-parsed; finished assistant messages are. */
  function Shown(m: UseChat.Message): (r: ToolParse)
    ensures m.role == UseChat.User || m.isStreaming ==> r == ToolParse(DisplayContent(m), [])
    ensures m.role == UseChat.Assistant && !m.isStreaming ==> r == ParseSpec(m.content)
  {
    if m.role == UseChat.User || m.isStreaming then ToolParse(DisplayContent(m), []) else ParseSpec(DisplayContent(m))
  }

  /** `message.toolApprovals?.[toolId] ?? 'pending'` */
  function ToolStatus(m: UseChat.Message, toolId: string): (s: UseChat.Approval)
    ensures toolId !in m.toolApprovals ==> s == UseChat.Pending
    ensures toolId in m.toolApprovals ==> s == m.toolApprovals[toolId]
  {
    if toolId in m.toolApprovals then m.toolApprovals[toolId] else UseChat.Pending
  }

  /** After `updateToolApproval` for a message and tool, that tool shows the new status and the others keep theirs. */
  lemma {:induction false} StatusFollowsApproval(ms: seq<UseChat.Message>, k: nat, toolId: string, other: string, s: UseChat.Approval)
    requires k < |ms| && other != toolId
    ensures var r := UseChat.SetToolApproval(ms, ms[k].id, toolId, s);
      ToolStatus(r[k], toolId) == s && ToolStatus(r[k], other) == ToolStatus(ms[k], other)
  {
  }

  // ---------------------------------------------------------------------------
  // handleApprove
  // ---------------------------------------------------------------------------

  /** The Electron API as the handler sees it: present or not, and which of its calls exist. */
  datatype Api = NoApi | Api(hasSendTerminalData: bool, hasWriteFile: bool)

  /** What approving a tool does: data sent to the terminal, a file written, and the callback `(toolId, approved)`. */
  datatype ApproveEffect = ApproveEffect(terminal: Option<string>, written: Option<FileWrite>, notified: Option<Decision>)

  /** The `writeFile(path, content)` call. */
  datatype FileWrite = FileWrite(path: string, content: string)

  /** The `onToolApproval(toolId, approved)` call. */
  datatype Decision = Decision(toolId: string, approved: bool)

  predicate IsCommandTool(name: string) {
    name == "execute_command" || name == "run_terminal_cmd" || name == "bash"
  }

  predicate IsWriteTool(name: string) {
    name == "write_to_file" || name == "create_file"
  }

  /** `params.command || params.cmd || Object.values(params)[0] || ''` */
  function CommandOf(ps: Params): string {
    Wire.StringOr(Lookup(ps, "command"), Wire.StringOr(Lookup(ps, "cmd"), Wire.StringOr(FirstValue(ps), "")))
  }

  /** `params.path || params.file_path || ''` */
  function WritePath(ps: Params): string {
    Wire.StringOr(Lookup(ps, "path"), Wire.StringOr(Lookup(ps, "file_path"), ""))
  }

  /** `params.content || ''` */
  function WriteContent(ps: Params): string {
    Wire.StringOr(Lookup(ps, "content"), "")
  }

  /**
   * `handleApprove`: nothing without the Electron API; a command tool sends
   * its command and '\r' to the terminal; a write tool writes only a non-empty
   * content to a non-empty path; then the callback reports the approval.
   * `writeRejects` is the outcome of the awaited `writeFile`: when it rejects,
   * the handler stops before the callback.
   */
  function Approve(api: Api, tool: ParsedTool, writeRejects: bool): (e: ApproveEffect)
    ensures api.NoApi? ==> e == ApproveEffect(None, None, None)
    ensures e.notified.Some? <==> api.Api? && !(e.written.Some? && writeRejects)
    ensures e.notified.Some? ==> e.notified.value == Decision(tool.toolId, true)
    ensures e.terminal.Some? <==> api.Api? && IsCommandTool(tool.toolName) && CommandOf(tool.parameters) != "" && api.hasSendTerminalData
    ensures e.terminal.Some? ==> e.terminal.value == CommandOf(tool.parameters) + "\r"
    ensures e.written.Some? <==>
      api.Api? && IsWriteTool(tool.toolName) && WritePath(tool.parameters) != "" && WriteContent(tool.parameters) != "" && api.hasWriteFile
    ensures e.written.Some? ==> e.written.value == FileWrite(WritePath(tool.parameters), WriteContent(tool.parameters))
    ensures e.terminal.None? || e.written.None?
  {
    match api
    case NoApi => ApproveEffect(None, None, None)
    case Api(hasSend, hasWrite) =>
      var ps := tool.parameters;
      var approved := Some(Decision(tool.toolId, true));
      if IsCommandTool(tool.toolName) then
        var cmd := CommandOf(ps);
        ApproveEffect(if cmd != "" && hasSend then Some(cmd + "\r") else None, None, approved)
      else if IsWriteTool(tool.toolName) then
        var path := WritePath(ps);
        var content := WriteContent(ps);
        if path != "" && content != "" && hasWrite then
          ApproveEffect(None, Some(FileWrite(path, content)), if writeRejects then None else approved)
        else ApproveEffect(None, None, approved)
      else ApproveEffect(None, None, approved)
  }

  /** The command sent is the `command` parameter when it is set, else `cmd`, else the first parameter. */
  lemma {:induction false} CommandPrecedence(ps: Params)
    ensures Lookup(ps, "command").Some? && Lookup(ps, "command").value != "" ==> CommandOf(ps) == Lookup(ps, "command").value
    ensures Wire.StringOr(Lookup(ps, "command"), "") == "" && Lookup(ps, "cmd").Some? && Lookup(ps, "cmd").value != "" ==>
      CommandOf(ps) == Lookup(ps, "cmd").value
    ensures |ps| == 0 ==> CommandOf(ps) == ""
  {
  }
}
