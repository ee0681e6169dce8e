/** Properties of the tool-call extractor and the tool lookup. */
module ToolCallProperties {

  import opened Wrappers
  import opened Text
  import opened ToolCall

  /** When something other than whitespace follows the marker, the capture
      is the rest of that line after the whitespace: non-empty, starting
      with a non-space character and holding no newline. */
  lemma GroupIsRestOfLine(s: string, p: nat, m: nat)
    requires p <= m < |s| && !IsSpace(s[m])
    ensures GroupAt(s, p).Some?
    ensures var g := GroupAt(s, p).value;
            && g != [] && !IsSpace(g[0]) && '\n' !in g
            && exists k, e :: p <= k <= e <= |s| && g == s[k..e] && AllSpace(s[p..k]) && (e == |s| || s[e] == '\n')
  {
    var k := SkipSpace(s, p);
    assert k <= m;
    var e := LineEnd(s, k);
    assert e > k;
    var g := s[k..e];
    assert forall q :: 0 <= q < |g| ==> g[q] == s[k + q];
    assert AllSpace(s[p..k]) by {
      assert forall q :: 0 <= q < k - p ==> s[p..k][q] == s[p + q];
    }
  }

  /** When only whitespace follows the marker, a match there captures one
      whitespace character, so the parsed name is empty. */
  lemma BlankAfterMarker(s: string, p: nat)
    requires p <= |s| && AllSpace(s[p..])
    requires GroupAt(s, p).Some?
    ensures ParseToolCall(GroupAt(s, p).value).name == ""
  {
    var k := SkipSpace(s, p);
    assert forall m :: p <= m < |s| ==> s[m] == s[p..][m - p];
    assert k == |s|;
    var j := LastNonNewline(s, p, k).value;
    assert s[j] == s[p..][j - p];
    var g := [s[j]];
    assert AllSpace(g);
    assert Strip(g) == [];
    assert ':' !in Strip(g);
    assert Strip(Strip(g)) == [];
  }

  /** Text without the marker yields no call, whatever the tools. */
  lemma NoMarkerNoCall(text: string, tools: seq<Tool>)
    requires forall i :: !MarkerAt(text, i)
    ensures Decide(text, tools) == NoCall
  {
    assert forall i :: !MatchesAt(text, i);
  }

  /** A character not in `s` is not in any slice of it. */
  lemma NotInSlice(s: string, c: char, i: nat, j: nat)
    requires i <= j <= |s| && c !in s
    ensures c !in s[i..j]
  {
    assert forall q :: 0 <= q < j - i ==> s[i..j][q] == s[i + q] && s[i + q] != c;
  }

  /** The parsed name holds no `:` and has no surrounding whitespace. */
  lemma NameIsClean(g: string)
    ensures var n := ParseToolCall(g).name;
            ':' !in n && (n == [] || (!IsSpace(n[0]) && !IsSpace(n[|n| - 1])))
  {
    var str := Strip(g);
    if ':' in str {
      var (name, rest) := SplitOnce(str, ':');
      var n := Strip(name);
      var i, j :| 0 <= i <= j <= |name| && n == name[i..j] && AllSpace(name[..i]) && AllSpace(name[j..]);
      NotInSlice(name, ':', i, j);
    } else {
      var n := Strip(str);
      var i, j :| 0 <= i <= j <= |str| && n == str[i..j] && AllSpace(str[..i]) && AllSpace(str[j..]);
      NotInSlice(str, ':', i, j);
    }
  }

  /** A piece is split at its FIRST `=`: a later `=` stays in the value. */
  lemma ParamSplitsAtFirstEquals(key: string, value: string)
    requires '=' !in key
    ensures ParamOf(key + "=" + value) == Some((Strip(key), Strip(value)))
  {
    var piece := key + "=" + value;
    assert piece == key + ['='] + value;
    assert piece[|key|] == '=';
    var (k, v) := SplitOnce(piece, '=');
    PrefixBeforeSeparator(key, value, k, v, '=');
  }

  /** A key is in the dictionary exactly when some pair has it. */
  lemma {:induction false} CollectKeys(kvs: seq<Option<(string, string)>>, k: string)
    ensures k in Collect(kvs) <==> exists i :: 0 <= i < |kvs| && kvs[i].Some? && kvs[i].value.0 == k
  {
    if kvs != [] {
      var init := kvs[..|kvs| - 1];
      CollectKeys(init, k);
      assert forall i :: 0 <= i < |init| ==> init[i] == kvs[i];
    }
  }

  /** A key's value comes from the last pair that has it. */
  lemma {:induction false} CollectLastWins(kvs: seq<Option<(string, string)>>, k: string)
    requires k in Collect(kvs)
    ensures exists i :: 0 <= i < |kvs| && kvs[i].Some? && kvs[i].value.0 == k &&
                        Collect(kvs)[k] == kvs[i].value.1 &&
                        forall j :: i < j < |kvs| ==> !(kvs[j].Some? && kvs[j].value.0 == k)
  {
    var n := |kvs| - 1;
    var init := kvs[..n];
    if !(kvs[n].Some? && kvs[n].value.0 == k) {
      CollectLastWins(init, k);
      var i :| 0 <= i < |init| && init[i].Some? && init[i].value.0 == k &&
               Collect(init)[k] == init[i].value.1 &&
               forall j :: i < j < |init| ==> !(init[j].Some? && init[j].value.0 == k);
      assert init[i] == kvs[i];
      assert forall j :: i < j < n ==> init[j] == kvs[j];
    }
  }

  /** A key is in the parameters exactly when some piece defines it, and
      its value is that of the LAST piece defining it: a later duplicate
      key overwrites an earlier one. Pieces without `=` define nothing. */
  lemma ParamsLastWins(pieces: seq<string>, k: string)
    ensures k in ParamsOf(pieces) <==> exists i :: 0 <= i < |pieces| && ParamOf(pieces[i]).Some? && ParamOf(pieces[i]).value.0 == k
    ensures k in ParamsOf(pieces) ==>
              exists i :: 0 <= i < |pieces| && ParamOf(pieces[i]).Some? && ParamOf(pieces[i]).value.0 == k &&
                          ParamsOf(pieces)[k] == ParamOf(pieces[i]).value.1 &&
                          forall j :: i < j < |pieces| ==> !(ParamOf(pieces[j]).Some? && ParamOf(pieces[j]).value.0 == k)
  {
    var kvs := ParsePieces(pieces);
    CollectKeys(kvs, k);
    if k in ParamsOf(pieces) {
      CollectLastWins(kvs, k);
    }
  }

  /** A tool is invoked only when the parsed name is non-empty and a tool of
      exactly that name is in the list; it is reported missing exactly when
      no tool has that name. */
  lemma DecideCases(text: string, tools: seq<Tool>)
    ensures Decide(text, tools).Invoke? ==>
              var c := Decide(text, tools).call;
              && FindToolCall(text).Some? && c == ParseToolCall(FindToolCall(text).value)
              && c.name != "" && exists i :: 0 <= i < |tools| && tools[i].name == c.name
    ensures Decide(text, tools).Missing? ==>
              var n := Decide(text, tools).name;
              && FindToolCall(text).Some? && n == ParseToolCall(FindToolCall(text).value).name
              && n != "" && |tools| > 0 && forall i :: 0 <= i < |tools| ==> tools[i].name != n
    ensures Decide(text, tools).NoCall? <==>
              FindToolCall(text).None? || |tools| == 0 || ParseToolCall(FindToolCall(text).value).name == ""
  {
  }

  /** A string that neither starts nor ends with whitespace is its own strip. */
  lemma StripUnchanged(s: string)
    requires s != [] && !IsSpace(s[0]) && !IsSpace(s[|s| - 1])
    ensures Strip(s) == s
  {
    assert SpacePrefix(s) == 0;
    assert s[0..] == s;
    assert ContentEnd(s) == |s|;
  }

  /** A call string `name:params` with a clean name and no trailing
      whitespace parses into that name and the parameters of `params`. */
  lemma ParseNameAndParams(name: string, paramsStr: string)
    requires ':' !in name && name != [] && !IsSpace(name[0]) && !IsSpace(name[|name| - 1])
    requires paramsStr != [] && !IsSpace(paramsStr[|paramsStr| - 1])
    ensures ParseToolCall(name + ":" + paramsStr) == Call(name, ParamsFrom(paramsStr))
  {
    var g := name + ":" + paramsStr;
    assert g == name + [':'] + paramsStr;
    assert g[0] == name[0] && g[|g| - 1] == paramsStr[|paramsStr| - 1];
    StripUnchanged(g);
    assert g[|name|] == ':';
    var (n, rest) := SplitOnce(g, ':');
    PrefixBeforeSeparator(name, paramsStr, n, rest, ':');
    StripUnchanged(name);
  }

  /** A parameter string with one clean `key=value` piece gives that one entry. */
  lemma SingleParameter(key: string, value: string)
    requires '=' !in key && ',' !in key && ',' !in value
    requires key != [] && !IsSpace(key[0]) && !IsSpace(key[|key| - 1])
    requires value != [] && !IsSpace(value[0]) && !IsSpace(value[|value| - 1])
    ensures ParamsFrom(key + "=" + value) == map[key := value]
  {
    var piece := key + "=" + value;
    assert piece == key + ['='] + value;
    assert ',' !in piece;
    ParamSplitsAtFirstEquals(key, value);
    StripUnchanged(key);
    StripUnchanged(value);
    OnePiece(piece, key, value);
  }

  /** A parameter string without commas that parses as one pair gives the
      dictionary of that pair. */
  lemma OnePiece(piece: string, key: string, value: string)
    requires piece != "" && ',' !in piece && ParamOf(piece) == Some((key, value))
    ensures ParamsFrom(piece) == map[key := value]
  {
    assert Split(piece, ',') == [piece];
    assert ParsePieces([piece]) == [Some((key, value))];
    assert Collect([Some((key, value))]) == Collect([])[key := value];
  }

  /** `name:key=value` with clean parts parses into that name and one parameter. */
  lemma ParseSingleParameterCall(name: string, key: string, value: string)
    requires ':' !in name && name != [] && !IsSpace(name[0]) && !IsSpace(name[|name| - 1])
    requires '=' !in key && ',' !in key && ',' !in value
    requires key != [] && !IsSpace(key[0]) && !IsSpace(key[|key| - 1])
    requires value != [] && !IsSpace(value[0]) && !IsSpace(value[|value| - 1])
    ensures ParseToolCall(name + ":" + (key + "=" + value)) == Call(name, map[key := value])
  {
    var p := key + "=" + value;
    assert p[|p| - 1] == value[|value| - 1];
    ParseNameAndParams(name, p);
    SingleParameter(key, value);
  }

  /** The call string of the tool prompt's reading example. */
  lemma ExampleCallWithParameter(name: string, key: string, value: string)
    requires name == "read_doc" && key == "doc_id" && value == "x"
    ensures ParseToolCall(name + ":" + (key + "=" + value)) == Call("read_doc", map["doc_id" := "x"])
  {
    ParseSingleParameterCall(name, key, value);
  }

  /** The call string of the tool prompt's listing example: no `:`, no parameters. */
  lemma ExampleCallWithoutParameter()
    ensures ParseToolCall("list_docs") == Call("list_docs", map[])
  {
    StripUnchanged("list_docs");
    assert ':' !in "list_docs";
  }

  /** A marker followed by whitespace and then a line that starts with a
      non-space character: the capture is exactly that line, whatever
      follows the newline. */
  lemma MarkerThenLine(w: string, line: string, rest: string)
    requires AllSpace(w)
    requires line != [] && !IsSpace(line[0]) && '\n' !in line
    requires rest == [] || rest[0] == '\n'
    ensures FindToolCall(Marker + w + line + rest) == Some(line)
  {
    var s := Marker + w + line + rest;
    var p := |Marker|;
    assert s[..p] == Marker;
    assert s[p + |w|] == line[0];
    assert forall m :: p <= m < p + |w| ==> s[m] == w[m - p];
    var k := SkipSpace(s, p);
    assert k == p + |w|;
    assert forall m :: k <= m < k + |line| ==> s[m] == line[m - k];
    assert k + |line| < |s| ==> s[k + |line|] == rest[0];
    assert LineEnd(s, k) == k + |line|;
    assert s[k..k + |line|] == line;
    assert MatchesAt(s, 0);
  }

  /** The call of the tool prompt's reading example, from reply text to
      decision: with a catalog that has `read_doc`, it is invoked with
      `doc_id` set to `x`. */
  lemma ExampleDecision(text: string, tools: seq<Tool>, name: string, key: string, value: string)
    requires name == "read_doc" && key == "doc_id" && value == "x"
    requires text == Marker + " " + (name + ":" + (key + "=" + value))
    requires exists i :: 0 <= i < |tools| && tools[i].name == name
    ensures Decide(text, tools) == Invoke(Call("read_doc", map["doc_id" := "x"]))
  {
    var line := name + ":" + (key + "=" + value);
    assert AllSpace(" ");
    assert line[0] == 'r';
    assert '\n' !in line;
    MarkerThenLine(" ", line, "");
    assert text == Marker + " " + line + "";
    ExampleCallWithParameter(name, key, value);
  }
}
