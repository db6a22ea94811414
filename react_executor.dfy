/**
 * The ReAct tool executor: finds `TOOL_CALL: <name>` and `ARGS: {...}` in an agent's text,
 * cuts out the first balanced JSON object of the arguments with a quote- and escape-aware
 * brace counter, and runs the named tool from a fixed table, turning every failure into an
 * `{"error": ...}` string.
 */
module ReactExecutor {
  import opened Wrappers
  import opened PyStr
  import PyDict
  import opened Json

  // ---------------------------------------------------------------------------------------
  // The brace counter of `_extract_json_from_text`
  // ---------------------------------------------------------------------------------------

  /** The counter's three variables: `brace_count`, `in_string`, `escape_next`. */
  datatype ScanState = ScanState(depth: int, inString: bool, escapeNext: bool)

  const Start := ScanState(0, false, false)

  /**
   * One character of the scan: a character after a backslash is skipped, a backslash arms the
   * escape, a quote toggles string mode, and only unquoted braces move the depth.
   */
  function Step(st: ScanState, c: char): ScanState {
    if st.escapeNext then st.(escapeNext := false)
    else if c == '\\' then st.(escapeNext := true)
    else if c == '"' then st.(inString := !st.inString)
    else if st.inString then st
    else if c == '{' then st.(depth := st.depth + 1)
    else if c == '}' then st.(depth := st.depth - 1)
    else st
  }

  /** The state after scanning the first `n` characters. */
  function ScanPrefix(text: string, n: nat): ScanState
    requires n <= |text|
  {
    if n == 0 then Start else Step(ScanPrefix(text, n - 1), text[n - 1])
  }

  /** The first `n` characters form the object: the depth is 0 after them and never before. */
  ghost predicate ClosesAt(text: string, n: nat) {
    && 1 <= n <= |text|
    && ScanPrefix(text, n).depth == 0
    && forall m :: 1 <= m < n ==> ScanPrefix(text, m).depth != 0
  }

  /** Reference definition: the least `m` in `[n, |text|]` after which the depth is 0. */
  function CloseSearch(text: string, n: nat): (r: Option<nat>)
    requires 1 <= n
    ensures r.Some? ==> n <= r.value <= |text| && ScanPrefix(text, r.value).depth == 0
    ensures r.Some? ==> forall m :: n <= m < r.value ==> ScanPrefix(text, m).depth != 0
    ensures r.None? ==> forall m :: n <= m <= |text| ==> ScanPrefix(text, m).depth != 0
    decreases |text| + 1 - n
  {
    if n > |text| then None
    else if ScanPrefix(text, n).depth == 0 then Some(n)
    else CloseSearch(text, n + 1)
  }

  /** What `_extract_json_from_text` returns, defined from the scan states. */
  function Extracted(text: string): Option<string> {
    if !StartsWith(text, "{") then None
    else match CloseSearch(text, 1)
      case Some(m) => Some(text[..m])
      case None => None
  }

  /** The brace counter loop of `_extract_json_from_text`. */
  method ExtractJsonFromText(text: string) returns (r: Option<string>)
    ensures r == Extracted(text)
  {
    if !StartsWith(text, "{") {
      return None;
    }
    assert text[0] == "{"[0];
    var braceCount := 0;
    var inString := false;
    var escapeNext := false;
    var i := 0;
    while i < |text|
      invariant 0 <= i <= |text|
      invariant ScanPrefix(text, i) == ScanState(braceCount, inString, escapeNext)
      invariant CloseSearch(text, 1) == CloseSearch(text, i + 1)
      invariant i >= 1 ==> braceCount >= 1
    {
      var c := text[i];
      if escapeNext {
        escapeNext := false;
      } else if c == '\\' {
        escapeNext := true;
      } else if c == '"' {
        inString := !inString;
      } else if !inString {
        if c == '{' {
          braceCount := braceCount + 1;
        } else if c == '}' {
          braceCount := braceCount - 1;
          if braceCount == 0 {
            return Some(text[..i + 1]);
          }
        }
      }
      assert ScanPrefix(text, i + 1) == ScanState(braceCount, inString, escapeNext);
      i := i + 1;
    }
    return None;
  }

  /** Between the opening brace and the close, the depth stays at least 1. */
  lemma {:induction false} DepthPositive(text: string, n: nat, k: nat)
    requires StartsWith(text, "{") && 1 <= k < n <= |text|
    requires forall m :: 1 <= m < n ==> ScanPrefix(text, m).depth != 0
    ensures ScanPrefix(text, k).depth >= 1
    decreases k
  {
    if k == 1 {
      assert text[0] == "{"[0];
    } else {
      DepthPositive(text, n, k - 1);
    }
  }

  /**
   * A returned object is a prefix of the text that begins with `{`, ends with `}`, and ends
   * exactly where the unquoted depth first returns to 0.
   */
  lemma ExtractedShape(text: string)
    requires Extracted(text).Some?
    ensures var s := Extracted(text).value;
      && |s| >= 2 && s == text[..|s|]
      && s[0] == '{' && s[|s| - 1] == '}'
      && ClosesAt(text, |s|)
  {
    var s := Extracted(text).value;
    var n := |s|;
    assert text[0] == "{"[0];
    assert ScanPrefix(text, 1).depth == 1;
    assert n >= 2;
    DepthPositive(text, n, n - 1);
    assert ScanPrefix(text, n) == Step(ScanPrefix(text, n - 1), text[n - 1]);
  }

  /** Nothing is returned for text that does not start with `{`. */
  lemma ExtractedNeedsBrace(text: string)
    requires text == [] || text[0] != '{'
    ensures Extracted(text) == None
  {
  }

  /** If the unquoted depth never returns to 0, nothing is returned. */
  lemma ExtractedUnbalanced(text: string)
    requires forall n :: 1 <= n <= |text| ==> ScanPrefix(text, n).depth != 0
    ensures Extracted(text) == None
  {
  }

  /** Inside a string literal, and right after a backslash, a character leaves the depth alone. */
  lemma QuotedAndEscapedKeepDepth(st: ScanState, c: char)
    requires st.escapeNext || (st.inString && c != '"')
    ensures Step(st, c).depth == st.depth
  {
  }

  // ---------------------------------------------------------------------------------------
  // `parse_tool_call`
  // ---------------------------------------------------------------------------------------

  const ToolCallMarker: string := "TOOL_CALL:"
  const ArgsMarker: string := "ARGS:"

  /** `TOOL_CALL:\s*(\w+)` (ignoring case) matches at `p`: marker, spaces, a word character. */
  predicate ToolCallMatchesAt(s: string, p: nat) {
    && MatchesAtIgnoreCase(s, p, ToolCallMarker)
    && var q := SkipWhile(s, p + |ToolCallMarker|, IsSpace);
      q < |s| && IsWordChar(s[q])
  }

  /** The group `(\w+)` of a match at `p`: the maximal run of word characters after the spaces. */
  function ToolNameAt(s: string, p: nat): string
    requires ToolCallMatchesAt(s, p)
  {
    var q := SkipWhile(s, p + |ToolCallMarker|, IsSpace);
    s[q..SkipWhile(s, q, IsWordChar)]
  }

  /** `ARGS:\s*(\{.+)` (ignoring case, dot matching newlines) matches at `p`. */
  predicate ArgsMatchesAt(s: string, p: nat) {
    && MatchesAtIgnoreCase(s, p, ArgsMarker)
    && var q := SkipWhile(s, p + |ArgsMarker|, IsSpace);
      q + 1 < |s| && s[q] == '{'
  }

  /** Where the group `(\{.+)` starts: the text from the brace to the end is the group. */
  function ArgsStartAt(s: string, p: nat): (q: nat)
    requires ArgsMatchesAt(s, p)
    ensures q < |s| && s[q] == '{'
  {
    SkipWhile(s, p + |ArgsMarker|, IsSpace)
  }

  /** `re.search` for the tool marker: the leftmost match position at or after `from`. */
  function FindToolCall(s: string, from: nat): (r: Option<nat>)
    ensures r.Some? ==> from <= r.value < |s| && ToolCallMatchesAt(s, r.value)
    ensures r.Some? ==> forall p :: from <= p < r.value ==> !ToolCallMatchesAt(s, p)
    ensures r.None? ==> forall p :: from <= p ==> !ToolCallMatchesAt(s, p)
    decreases |s| - from
  {
    if from >= |s| then None
    else if ToolCallMatchesAt(s, from) then Some(from)
    else FindToolCall(s, from + 1)
  }

  /** `re.search` for the arguments marker. */
  function FindArgs(s: string, from: nat): (r: Option<nat>)
    ensures r.Some? ==> from <= r.value < |s| && ArgsMatchesAt(s, r.value)
    ensures r.Some? ==> forall p :: from <= p < r.value ==> !ArgsMatchesAt(s, p)
    ensures r.None? ==> forall p :: from <= p ==> !ArgsMatchesAt(s, p)
    decreases |s| - from
  {
    if from >= |s| then None
    else if ArgsMatchesAt(s, from) then Some(from)
    else FindArgs(s, from + 1)
  }

  /** A parsed tool call: the tool's name and its keyword arguments. */
  datatype ToolCall = ToolCall(toolName: string, args: PyDict.Entries<Json>)

  /**
   * What `parse_tool_call` returns: `Success(None)` when no call is found or its arguments do
   * not decode, `Success(Some(call))` for a call, and `Failure` for the AttributeError its log
   * line raises when the arguments decode to something other than an object.
   */
  function ToolCallOf(codec: Codec, s: string): Result<Option<ToolCall>, string> {
    match FindToolCall(s, 0)
    case None => Success(None)
    case Some(p) =>
      var name := ToolNameAt(s, p);
      match FindArgs(s, 0)
      case None => Success(None)
      case Some(a) =>
        match Extracted(Strip(s[ArgsStartAt(s, a)..]))
        case None => Success(None)
        case Some(js) =>
          match codec.loads(js)
          case Failure(_) => Success(None)
          case Success(v) =>
            if v.JObj? then Success(Some(ToolCall(name, v.fields)))
            else Failure(NoAttribute(v, "keys"))
  }

  /** `parse_tool_call`: the two searches, then the brace scan over the arguments section. */
  method ParseToolCall(codec: Codec, agentOutput: string) returns (r: Result<Option<ToolCall>, string>)
    ensures r == ToolCallOf(codec, agentOutput)
  {
    var toolMatch := FindToolCall(agentOutput, 0);
    if toolMatch.None? {
      return Success(None);
    }
    var toolName := ToolNameAt(agentOutput, toolMatch.value);
    var argsMatch := FindArgs(agentOutput, 0);
    if argsMatch.None? {
      return Success(None);
    }
    var argsSection := Strip(agentOutput[ArgsStartAt(agentOutput, argsMatch.value)..]);
    var jsonStr := ExtractJsonFromText(argsSection);
    if jsonStr.Some? {
      var args := codec.loads(jsonStr.value);
      if args.Failure? {
        return Success(None);
      }
      if !args.value.JObj? {
        return Failure(NoAttribute(args.value, "keys"));
      }
      return Success(Some(ToolCall(toolName, args.value.fields)));
    }
    return Success(None);
  }

  /** Without a `TOOL_CALL:` marker followed by a name there is no call. */
  lemma NoMarkerNoCall(codec: Codec, s: string)
    requires forall p :: !ToolCallMatchesAt(s, p)
    ensures ToolCallOf(codec, s) == Success(None)
  {
  }

  /** With a marker but no `ARGS:` followed by `{` and one more character there is no call. */
  lemma NoArgsNoCall(codec: Codec, s: string)
    requires forall p :: !ArgsMatchesAt(s, p)
    ensures ToolCallOf(codec, s) == Success(None)
  {
  }

  /** A found call names the first marker's word, and its arguments are a decoded object. */
  lemma CallNamesFirstMarker(codec: Codec, s: string)
    requires ToolCallOf(codec, s).Success? && ToolCallOf(codec, s).value.Some?
    ensures exists p: nat ::
      && ToolCallMatchesAt(s, p)
      && (forall p' :: 0 <= p' < p ==> !ToolCallMatchesAt(s, p'))
      && ToolCallOf(codec, s).value.value.toolName == ToolNameAt(s, p)
    ensures exists a: nat, js ::
      && ArgsMatchesAt(s, a)
      && Extracted(Strip(s[ArgsStartAt(s, a)..])) == Some(js)
      && codec.loads(js) == Success(JObj(ToolCallOf(codec, s).value.value.args))
  {
    var p := FindToolCall(s, 0).value;
    var a := FindArgs(s, 0).value;
    var js := Extracted(Strip(s[ArgsStartAt(s, a)..])).value;
    assert ToolCallOf(codec, s).value.value.toolName == ToolNameAt(s, p);
  }

  // ---------------------------------------------------------------------------------------
  // `execute_tool`
  // ---------------------------------------------------------------------------------------

  /** What a tool function does when called: returns text, raises TypeError, or raises otherwise. */
  datatype ToolOutcome = Returned(text: string) | RaisedTypeError(message: string) | Raised(message: string)

  /**
   * `ReActToolExecutor`: the `self.tools` table, mapping each name to the tool function's
   * parameter names, and the tool functions' behaviour as an oracle.
   */
  datatype Executor = Executor(tools: PyDict.Entries<seq<string>>, run: (string, PyDict.Entries<Json>) -> ToolOutcome)

  /** Python's `repr` of a string free of quotes and backslashes. */
  function Quoted(s: string): string {
    "'" + s + "'"
  }

  function QuotedAll(names: seq<string>): (r: seq<string>)
    ensures |r| == |names| && forall i :: 0 <= i < |names| ==> r[i] == Quoted(names[i])
  {
    seq(|names|, i requires 0 <= i < |names| => Quoted(names[i]))
  }

  /** `str(list_of_names)`. */
  function ListRepr(names: seq<string>): string {
    "[" + Join(QuotedAll(names), ", ") + "]"
  }

  /** CPython's list of missing arguments: `'a'`, `'a' and 'b'`, `'a', 'b', and 'c'`. */
  function MissingList(names: seq<string>): string
    requires |names| >= 1
  {
    if |names| == 1 then Quoted(names[0])
    else if |names| == 2 then Quoted(names[0]) + " and " + Quoted(names[1])
    else Join(QuotedAll(names[..|names| - 1]), ", ") + ", and " + Quoted(names[|names| - 1])
  }

  function FirstUnexpected(params: seq<string>, keys: seq<string>): Option<string>
    decreases |keys|
  {
    if keys == [] then None
    else if keys[0] !in params then Some(keys[0])
    else FirstUnexpected(params, keys[1..])
  }

  function Missing(params: seq<string>, keys: seq<string>): (r: seq<string>)
    ensures forall x :: x in r <==> x in params && x !in keys
    decreases |params|
  {
    if params == [] then []
    else (if params[0] in keys then [] else [params[0]]) + Missing(params[1..], keys)
  }

  /** The TypeError of `f(**args)` for a function `f` with the given parameters, if any. */
  function BindError(fname: string, params: seq<string>, args: PyDict.Entries<Json>): Option<string> {
    var keys := PyDict.Keys(args);
    match FirstUnexpected(params, keys)
    case Some(k) => Some(fname + "() got an unexpected keyword argument " + Quoted(k))
    case None =>
      var miss := Missing(params, keys);
      if miss == [] then None
      else Some(fname + "() missing " + IntToString(|miss|) + " required positional argument"
                + (if |miss| == 1 then "" else "s") + ": " + MissingList(miss))
  }

  function ErrorObject(message: string): Json {
    JObj([("error", JStr(message))])
  }

  function NotFoundMessage(name: string, available: seq<string>): string {
    "Tool '" + name + "' not found. Available tools: " + ListRepr(available)
  }

  /** `execute_tool`: look the name up, bind the arguments, run, and report any failure as text. */
  function ExecuteTool(exec: Executor, codec: Codec, call: ToolCall): string {
    var name := call.toolName;
    match PyDict.Get(exec.tools, name)
    case None => codec.dumps(ErrorObject(NotFoundMessage(name, PyDict.Keys(exec.tools))), Ascii)
    case Some(params) =>
      match BindError(name, params, call.args)
      case Some(e) => codec.dumps(ErrorObject("Tool '" + name + "' argument error: " + e), Ascii)
      case None =>
        match exec.run(name, call.args)
        case Returned(t) => t
        case RaisedTypeError(e) => codec.dumps(ErrorObject("Tool '" + name + "' argument error: " + e), Ascii)
        case Raised(e) => codec.dumps(ErrorObject("Tool '" + name + "' execution error: " + e), Ascii)
  }

  /**
   * An unknown tool gives `{"error": m}` where `m` names the tool and every available tool,
   * whatever the tool functions would do (none of them is run).
   */
  lemma UnknownTool(exec: Executor, codec: Codec, call: ToolCall, other: (string, PyDict.Entries<Json>) -> ToolOutcome)
    requires call.toolName !in PyDict.Keys(exec.tools)
    ensures var m := NotFoundMessage(call.toolName, PyDict.Keys(exec.tools));
      && ExecuteTool(exec, codec, call) == codec.dumps(ErrorObject(m), Ascii)
      && Contains(m, Quoted(call.toolName))
      && (forall t :: t in PyDict.Keys(exec.tools) ==> Contains(m, Quoted(t)))
      && ExecuteTool(exec.(run := other), codec, call) == ExecuteTool(exec, codec, call)
  {
    PyDict.GetSomeIffKey(exec.tools, call.toolName);
    var name := call.toolName;
    var ks := PyDict.Keys(exec.tools);
    var m := NotFoundMessage(name, ks);
    assert m == "Tool " + Quoted(name) + (" not found. Available tools: " + ListRepr(ks));
    ContainsMiddle("Tool ", Quoted(name), " not found. Available tools: " + ListRepr(ks));
    forall t | t in ks ensures Contains(m, Quoted(t)) {
      var i :| 0 <= i < |ks| && ks[i] == t;
      JoinContains(QuotedAll(ks), ", ", i);
      ContainsSuffix("[", Join(QuotedAll(ks), ", "), Quoted(t));
      assert ListRepr(ks) == "[" + Join(QuotedAll(ks), ", ") + "]";
      assert Contains("[" + Join(QuotedAll(ks), ", ") + "]", Quoted(t)) by {
        ContainsPrefix("[" + Join(QuotedAll(ks), ", "), "]", Quoted(t));
      }
      ContainsSuffix("Tool '" + name + "' not found. Available tools: ", ListRepr(ks), Quoted(t));
    }
  }

  /** Arguments that do not fit the tool's parameters are reported and the tool is not run. */
  lemma BadArgumentsNotRun(exec: Executor, codec: Codec, call: ToolCall, other: (string, PyDict.Entries<Json>) -> ToolOutcome)
    requires PyDict.Get(exec.tools, call.toolName).Some?
    requires BindError(call.toolName, PyDict.Get(exec.tools, call.toolName).value, call.args).Some?
    ensures ExecuteTool(exec.(run := other), codec, call) == ExecuteTool(exec, codec, call)
    ensures exists e :: ExecuteTool(exec, codec, call)
                        == codec.dumps(ErrorObject("Tool '" + call.toolName + "' argument error: " + e), Ascii)
  {
    var e := BindError(call.toolName, PyDict.Get(exec.tools, call.toolName).value, call.args).value;
    assert ExecuteTool(exec, codec, call)
        == codec.dumps(ErrorObject("Tool '" + call.toolName + "' argument error: " + e), Ascii);
  }

  /** A run tool's text is returned as is; its exceptions come back as `{"error": ...}` text. */
  lemma ToolRunOutcome(exec: Executor, codec: Codec, call: ToolCall)
    requires PyDict.Get(exec.tools, call.toolName).Some?
    requires BindError(call.toolName, PyDict.Get(exec.tools, call.toolName).value, call.args).None?
    ensures exec.run(call.toolName, call.args).Returned? ==>
      ExecuteTool(exec, codec, call) == exec.run(call.toolName, call.args).text
    ensures exec.run(call.toolName, call.args).RaisedTypeError? ==>
      ExecuteTool(exec, codec, call) == codec.dumps(ErrorObject("Tool '" + call.toolName + "' argument error: "
                                                               + exec.run(call.toolName, call.args).message), Ascii)
    ensures exec.run(call.toolName, call.args).Raised? ==>
      ExecuteTool(exec, codec, call) == codec.dumps(ErrorObject("Tool '" + call.toolName + "' execution error: "
                                                               + exec.run(call.toolName, call.args).message), Ascii)
  {
  }

  /** A missing argument is named in the TypeError, and an exact fit binds. */
  lemma BindErrorMeaning(fname: string, params: seq<string>, args: PyDict.Entries<Json>)
    ensures BindError(fname, params, args).None? <==>
      (forall k :: k in PyDict.Keys(args) ==> k in params) && (forall p :: p in params ==> p in PyDict.Keys(args))
  {
    var keys := PyDict.Keys(args);
    FirstUnexpectedMeaning(params, keys);
    if FirstUnexpected(params, keys).None? {
      var miss := Missing(params, keys);
      if miss != [] {
        assert miss[0] in miss;
      }
    }
  }

  lemma {:induction false} FirstUnexpectedMeaning(params: seq<string>, keys: seq<string>)
    ensures FirstUnexpected(params, keys).None? <==> forall k :: k in keys ==> k in params
    ensures FirstUnexpected(params, keys).Some? ==>
      FirstUnexpected(params, keys).value in keys && FirstUnexpected(params, keys).value !in params
    decreases |keys|
  {
    if keys != [] {
      FirstUnexpectedMeaning(params, keys[1..]);
      assert forall k :: k in keys <==> k == keys[0] || k in keys[1..];
    }
  }

  // ---------------------------------------------------------------------------------------
  // `process_agent_output` and the pipeline's tool table
  // ---------------------------------------------------------------------------------------

  /** The dict `process_agent_output` returns. */
  datatype ToolStep = ToolStep(toolCalled: bool, toolName: Option<string>, toolResult: Option<string>, originalOutput: string)

  /** `process_agent_output`: start from "no tool called" and fill the fields in when a call parses. */
  method ProcessAgentOutput(exec: Executor, codec: Codec, agentOutput: string) returns (r: Result<ToolStep, string>)
    ensures ToolCallOf(codec, agentOutput).Failure? <==> r.Failure?
    ensures r.Failure? ==> r.error == ToolCallOf(codec, agentOutput).error
    ensures r.Success? ==> r.value.originalOutput == agentOutput
    ensures r.Success? ==> (r.value.toolCalled <==> ToolCallOf(codec, agentOutput).value.Some?)
    ensures r.Success? && !r.value.toolCalled ==> r.value.toolName.None? && r.value.toolResult.None?
    ensures r.Success? && r.value.toolCalled ==>
      var call := ToolCallOf(codec, agentOutput).value.value;
      r.value.toolName == Some(call.toolName) && r.value.toolResult == Some(ExecuteTool(exec, codec, call))
  {
    var result := ToolStep(false, None, None, agentOutput);
    var toolCallInfo := ParseToolCall(codec, agentOutput);
    if toolCallInfo.Failure? {
      return Failure(toolCallInfo.error);
    }
    if toolCallInfo.value.Some? {
      var call := toolCallInfo.value.value;
      result := result.(toolCalled := true);
      result := result.(toolName := Some(call.toolName));
      result := result.(toolResult := Some(ExecuteTool(exec, codec, call)));
    }
    return Success(result);
  }

  /**
   * `create_tool_executor_for_pipeline`: the two pipeline tools, with the parameters of
   * `check_inventory_detail(product, storage, color)` and `create_customer_order(order_details)`.
   */
  function PipelineExecutor(run: (string, PyDict.Entries<Json>) -> ToolOutcome): (e: Executor)
    ensures PyDict.Keys(e.tools) == ["check_inventory_detail", "create_customer_order"]
    ensures PyDict.Wf(e.tools)
  {
    Executor([("check_inventory_detail", ["product", "storage", "color"]),
              ("create_customer_order", ["order_details"])], run)
  }
}
