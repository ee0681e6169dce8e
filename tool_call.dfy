/** The tool-call extractor and dispatcher lookup of `Gemini.chat`
    (core/gemini.py): find the `TOOL_CALL:` marker in the reply text, split
    it into a tool name and `key=value` parameters, and find the named tool. */
module ToolCall {

  import opened Wrappers
  import opened Text

  /** A tool as advertised by a provider's `list_tools`. */
  datatype Tool = Tool(name: string, description: string)

  /** A parsed tool request: the tool's name and its string parameters. */
  datatype Call = Call(name: string, params: map<string, string>)

  const Marker: string := "TOOL_CALL:"

  // ---------------------------------------------------------------------
  // re.search(r'TOOL_CALL:\s*(.+)', text)
  // ---------------------------------------------------------------------

  predicate MarkerAt(s: string, i: nat) {
    i + |Marker| <= |s| && s[i..i + |Marker|] == Marker
  }

  /** Where a greedy `\s*` that starts at `p` stops (it may cross newlines). */
  function SkipSpace(s: string, p: nat): (k: nat)
    requires p <= |s|
    ensures p <= k <= |s|
    ensures forall m :: p <= m < k ==> IsSpace(s[m])
    ensures k < |s| ==> !IsSpace(s[k])
    decreases |s| - p
  {
    if p < |s| && IsSpace(s[p]) then SkipSpace(s, p + 1) else p
  }

  /** Where a greedy `.+` that starts at `q` stops: at the next newline or
      at the end of the text. */
  function LineEnd(s: string, q: nat): (e: nat)
    requires q <= |s|
    ensures q <= e <= |s|
    ensures forall m :: q <= m < e ==> s[m] != '\n'
    ensures e < |s| ==> s[e] == '\n'
    decreases |s| - q
  {
    if q < |s| && s[q] != '\n' then LineEnd(s, q + 1) else q
  }

  /** The last position in `[p, k)` that is not a newline, if there is one:
      where the regex engine, backtracking `\s*`, first lets `.+` match. */
  function LastNonNewline(s: string, p: nat, k: nat): (j: Option<nat>)
    requires p <= k <= |s|
    ensures j.Some? ==> p <= j.value < k && s[j.value] != '\n' && forall m :: j.value < m < k ==> s[m] == '\n'
    ensures j.None? ==> forall m :: p <= m < k ==> s[m] == '\n'
    decreases k - p
  {
    if k == p then None
    else if s[k - 1] != '\n' then Some(k - 1)
    else LastNonNewline(s, p, k - 1)
  }

  /** What `\s*(.+)` captures when the engine tries it at `p`, or None when
      it cannot match there. When non-whitespace follows, the capture is the
      rest of that line; when only whitespace runs to the end of the text,
      `\s*` gives back characters until `.+` can take one that is not a
      newline, and the capture is that single character. */
  function GroupAt(s: string, p: nat): Option<string>
    requires p <= |s|
  {
    var k := SkipSpace(s, p);
    if k < |s| then Some(s[k..LineEnd(s, k)])
    else
      match LastNonNewline(s, p, k)
      case None => None
      case Some(j) => Some([s[j]])
  }

  /** The whole pattern matches with its start at `i`. */
  predicate MatchesAt(s: string, i: nat) {
    MarkerAt(s, i) && GroupAt(s, i + |Marker|).Some?
  }

  /** The leftmost start at or after `i` where the pattern matches. */
  function FirstMatchFrom(s: string, i: nat): (r: Option<nat>)
    ensures r.Some? ==> i <= r.value && MatchesAt(s, r.value)
    ensures r.Some? ==> forall j :: i <= j < r.value ==> !MatchesAt(s, j)
    ensures r.None? ==> forall j :: i <= j ==> !MatchesAt(s, j)
    decreases |s| - i
  {
    if i + |Marker| > |s| then None
    else if MatchesAt(s, i) then Some(i)
    else FirstMatchFrom(s, i + 1)
  }

  /** `tool_call_match.group(1)`, or None when there is no match: only the
      leftmost position where the pattern matches is considered. */
  function FindToolCall(s: string): (g: Option<string>)
    ensures g.None? <==> forall i :: !MatchesAt(s, i)
    ensures g.Some? ==> exists i: nat :: MatchesAt(s, i) && g == GroupAt(s, i + |Marker|) &&
                                    forall j :: 0 <= j < i ==> !MatchesAt(s, j)
  {
    match FirstMatchFrom(s, 0)
    case None => None
    case Some(i) => GroupAt(s, i + |Marker|)
  }

  // ---------------------------------------------------------------------
  // Splitting the call string into a name and parameters
  // ---------------------------------------------------------------------

  /** One `key=value` piece: split at its first `=`, both sides stripped;
      None for a piece without `=`. */
  function ParamOf(piece: string): Option<(string, string)> {
    if '=' in piece then
      var (k, v) := SplitOnce(piece, '=');
      Some((Strip(k), Strip(v)))
    else None
  }

  /** The parsed pieces, in order. */
  function ParsePieces(pieces: seq<string>): (r: seq<Option<(string, string)>>)
    ensures |r| == |pieces| && forall i :: 0 <= i < |pieces| ==> r[i] == ParamOf(pieces[i])
  {
    if pieces == [] then []
    else ParsePieces(pieces[..|pieces| - 1]) + [ParamOf(pieces[|pieces| - 1])]
  }

  /** The dictionary built from key-value pairs processed in order, a later
      key overwriting an earlier one; absent pairs are skipped. */
  function Collect(kvs: seq<Option<(string, string)>>): map<string, string>
  {
    if kvs == [] then map[]
    else
      var m := Collect(kvs[..|kvs| - 1]);
      match kvs[|kvs| - 1]
      case None => m
      case Some(kv) => m[kv.0 := kv.1]
  }

  /** The dictionary the source's loop builds from the pieces. */
  function ParamsOf(pieces: seq<string>): map<string, string> {
    Collect(ParsePieces(pieces))
  }

  /** The parameters of a parameter string: none when it is empty,
      otherwise those of its comma-separated pieces. */
  function ParamsFrom(paramsStr: string): map<string, string> {
    if paramsStr == "" then map[] else ParamsOf(Split(paramsStr, ','))
  }

  /** The name and parameters of the captured call string: stripped, then
      split at its first `:` into a stripped name and a parameter string;
      with no `:` the whole string is the name. */
  function ParseToolCall(group: string): Call {
    var str := Strip(group);
    if ':' in str then
      var (name, rest) := SplitOnce(str, ':');
      Call(Strip(name), ParamsFrom(rest))
    else
      Call(Strip(str), map[])
  }

  /** The parameter loop of `Gemini.chat`, filling the dictionary in place. */
  method ParseParameters(paramsStr: string) returns (params: map<string, string>)
    ensures params == ParamsFrom(paramsStr)
  {
    params := map[];
    if paramsStr != "" {
      var pairs := Split(paramsStr, ',');
      var i := 0;
      while i < |pairs|
        invariant 0 <= i <= |pairs|
        invariant params == ParamsOf(pairs[..i])
      {
        var pair := pairs[i];
        assert pairs[..i + 1][..i] == pairs[..i];
        assert ParsePieces(pairs[..i + 1]) == ParsePieces(pairs[..i]) + [ParamOf(pair)];
        if '=' in pair {
          var (key, value) := SplitOnce(pair, '=');
          params := params[Strip(key) := Strip(value)];
        }
        i := i + 1;
      }
      assert pairs[..|pairs|] == pairs;
    }
  }

  /** The split of the captured call string in `Gemini.chat`. */
  method ParseCallString(group: string) returns (toolName: string, toolParameters: map<string, string>)
    ensures Call(toolName, toolParameters) == ParseToolCall(group)
  {
    var toolCallStr := Strip(group);
    if ':' in toolCallStr {
      var (name, paramsStr) := SplitOnce(toolCallStr, ':');
      toolName := Strip(name);
      toolParameters := ParseParameters(paramsStr);
    } else {
      toolName := Strip(toolCallStr);
      toolParameters := map[];
    }
  }

  // ---------------------------------------------------------------------
  // Tool resolution
  // ---------------------------------------------------------------------

  /** The first tool in the list whose name is exactly `name`. */
  function Lookup(tools: seq<Tool>, name: string): (r: Option<Tool>)
    ensures r.None? <==> forall i :: 0 <= i < |tools| ==> tools[i].name != name
    ensures r.Some? ==> exists i :: 0 <= i < |tools| && tools[i] == r.value && r.value.name == name &&
                                    forall j :: 0 <= j < i ==> tools[j].name != name
  {
    if tools == [] then None
    else if tools[0].name == name then Some(tools[0])
    else
      var r := Lookup(tools[1..], name);
      assert forall i :: 1 <= i < |tools| ==> tools[i] == tools[1..][i - 1];
      if r.Some? then
        ghost var i :| 0 <= i < |tools[1..]| && tools[1..][i] == r.value && r.value.name == name &&
                       forall j :: 0 <= j < i ==> tools[1..][j].name != name;
        assert tools[i + 1] == r.value;
        r
      else r
  }

  /** The search loop of `Gemini.chat`, stopping at the first match. */
  method FindTool(tools: seq<Tool>, name: string) returns (found: Option<Tool>)
    ensures found == Lookup(tools, name)
  {
    found := None;
    var i := 0;
    while i < |tools|
      invariant 0 <= i <= |tools|
      invariant found.None?
      invariant Lookup(tools, name) == Lookup(tools[i..], name)
    {
      if tools[i].name == name {
        found := Some(tools[i]);
        return;
      }
      assert tools[i..][1..] == tools[i + 1..];
      i := i + 1;
    }
  }

  /** What `Gemini.chat` does with a backend reply: answer with the text,
      invoke the named tool, or report that the tool is missing. */
  datatype Decision = NoCall | Invoke(call: Call) | Missing(name: string)

  function Decide(text: string, tools: seq<Tool>): Decision {
    match FindToolCall(text)
    case None => NoCall
    case Some(g) =>
      var c := ParseToolCall(g);
      if |tools| == 0 || c.name == "" then NoCall
      else if Lookup(tools, c.name).Some? then Invoke(c)
      else Missing(c.name)
  }

  /** The detection step of `chat`: search the answer for the marker, parse
      the call string, and look the name up when tools are listed and the
      name is not empty. */
  method DetectCall(text: string, tools: seq<Tool>) returns (d: Decision)
    ensures d == Decide(text, tools)
  {
    var toolCallMatch := FindToolCall(text);
    if toolCallMatch.None? {
      return NoCall;
    }
    var toolName, toolParameters := ParseCallString(toolCallMatch.value);
    if |tools| == 0 || toolName == "" {
      return NoCall;
    }
    var toolFunction := FindTool(tools, toolName);
    if toolFunction.Some? {
      return Invoke(Call(toolName, toolParameters));
    }
    return Missing(toolName);
  }
}
