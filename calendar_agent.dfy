/** `agents/calendar_agent.py`: the text handling around the three model
    calls. The prompts are filled from YAML templates, the structuring
    reply is cut down to the JSON it carries, the brief stage looks up the
    planning stage's cached account data, and two gates stop a workflow: a
    structuring stage without a calendar, and a resume without approval.
    The model calls, the YAML and JSON codecs and the review store are
    outside the model; their results are parameters. */
module CalendarAgent {
  import opened Wrappers
  import opened JsonValue
  import Text
  import OrderedMap
  import McpCache

  /** Why a step of the agent raises. */
  datatype AgentError =
    | NoJson
    | NoCalendar(clientName: string)
    | ReviewUnavailable
    | NoReviewState(workflowId: string)
    | NotApproved(workflowId: string, status: Value)
    | Raised(exc: PyExc)

  /** The `ValueError` message of each gate. */
  function ErrorMessage(e: AgentError): string {
    match e
    case NoJson => "No JSON object or array found in LLM response"
    case NoCalendar(c) => "Stage 2 failed to produce valid calendar JSON for " + c
    case ReviewUnavailable => "ReviewStateManager required to resume workflow"
    case NoReviewState(w) => "No review state found for workflow: " + w
    case NotApproved(w, s) => "Workflow " + w + " not approved. Current status: " + PyStr(s)
    case Raised(_) => ""
  }

  // ---------------------------------------------------------------------------
  // Prompts

  /** `_build_system_prompt`: the configuration's `system_prompt`, "" when it
      has none; a configuration that is not a dict raises. */
  function SystemPrompt(config: Value): (r: Result<Value, PyExc>)
    ensures r.Err? <==> !config.Obj?
    ensures config.Obj? && !Has(config, "system_prompt") ==> r == Ok(Str(""))
    ensures config.Obj? && Has(config, "system_prompt") ==> r == Ok(Find(config.fields, "system_prompt").value)
  {
    if config.Obj? then Ok(Lookup(config, "system_prompt", Str(""))) else Err(AttributeError)
  }

  /** The system prompt is the configuration's `system_prompt` and nothing
      else: storing a value under that key makes it the system prompt, and
      storing under any other key leaves the system prompt as it was. */
  lemma SystemPromptStored(config: Value, key: string, x: Value)
    requires config.Obj?
    ensures SystemPrompt(Assign(config, "system_prompt", x)) == Ok(x)
    ensures key != "system_prompt" ==> SystemPrompt(Assign(config, key, x)) == SystemPrompt(config)
  {
    FindAssign(config.fields, "system_prompt", x, "system_prompt");
    FindAssign(config.fields, key, x, "system_prompt");
  }

  /** `f"{{{key}}}"` */
  function Placeholder(key: string): (r: string)
    ensures |r| == |key| + 2
  {
    "{" + key + "}"
  }

  /** The template after replacing each variable's placeholder in turn, in
      the order of the variables. */
  function Substitute(template: string, vars: seq<(string, Value)>): string {
    if vars == [] then template
    else
      var (key, value) := vars[|vars| - 1];
      Text.Replace(Substitute(template, vars[..|vars| - 1]), Placeholder(key), PyStr(value))
  }

  /** `_build_user_prompt`: with no variables the template comes back as it
      is, whatever its type; otherwise it must be a string. */
  function UserPrompt(config: Value, vars: seq<(string, Value)>): Result<Value, PyExc> {
    if !config.Obj? then Err(AttributeError)
    else
      var template := Lookup(config, "user_prompt", Str(""));
      if vars == [] then Ok(template)
      else if !template.Str? then Err(AttributeError)
      else Ok(Str(Substitute(template.s, vars)))
  }

  /** A template mentioning none of the placeholders comes back unchanged. */
  lemma {:induction false} NoPlaceholders(template: string, vars: seq<(string, Value)>)
    requires forall i :: 0 <= i < |vars| ==> !Text.Contains(template, Placeholder(vars[i].0))
    ensures Substitute(template, vars) == template
  {
    if vars != [] {
      var init := vars[..|vars| - 1];
      NoPlaceholders(template, init);
      Text.ReplaceAbsent(template, Placeholder(vars[|vars| - 1].0), PyStr(vars[|vars| - 1].1));
    }
  }

  /** A configuration without `user_prompt` gives the empty prompt. */
  lemma MissingUserPrompt(config: Value, vars: seq<(string, Value)>)
    requires config.Obj? && !Has(config, "user_prompt")
    ensures UserPrompt(config, vars) == Ok(Str(""))
  {
    forall i | 0 <= i < |vars|
      ensures !Text.Contains("", Placeholder(vars[i].0))
    {
    }
    NoPlaceholders("", vars);
  }

  /** A placeholder closing the template is replaced by the value's `str`. */
  lemma TrailingPlaceholder(stem: string, key: string, value: Value)
    requires forall i :: 0 <= i < |stem| ==> !Text.OccursAt(stem + Placeholder(key), Placeholder(key), i)
    ensures Substitute(stem + Placeholder(key), [(key, value)]) == stem + PyStr(value)
  {
    assert [(key, value)][..0] == [];
    Text.ReplaceSuffix(stem, Placeholder(key), PyStr(value));
  }

  /** `_build_user_prompt`, replacing placeholder after placeholder. */
  method BuildUserPrompt(config: Value, variables: seq<(string, Value)>) returns (r: Result<Value, PyExc>)
    ensures r == UserPrompt(config, variables)
  {
    if !config.Obj? {
      return Err(AttributeError);
    }
    var template := Lookup(config, "user_prompt", Str(""));
    if variables == [] {
      return Ok(template);
    }
    if !template.Str? {
      return Err(AttributeError);
    }
    var prompt := template.s;
    for i := 0 to |variables|
      invariant prompt == Substitute(template.s, variables[..i])
    {
      var (key, value) := variables[i];
      assert variables[..i + 1][..i] == variables[..i];
      if value.Str? {
        prompt := Text.Replace(prompt, Placeholder(key), value.s);
      } else {
        prompt := Text.Replace(prompt, Placeholder(key), PyStr(value));
      }
    }
    assert variables[..|variables|] == variables;
    return Ok(Str(prompt));
  }

  // ---------------------------------------------------------------------------
  // The structuring reply

  /** The reply with an outer code fence removed: after stripping, a reply
      opening with three backticks loses its first line and everything from
      the last fence after it. */
  function OuterFence(output: string): string {
    FenceBody(Text.Strip(output))
  }

  /** `OuterFence` on a reply already stripped. */
  function FenceBody(content: string): string {
    if !Text.StartsWith(content, "```") then content
    else
      var cut := FenceCut(content);
      Text.Strip(content[cut.0..cut.1])
  }

  /** Where the body of a fenced reply lies: from after the opening line (or
      after the three backticks when no newline follows) up to the last fence
      after that line, or to the end when there is none. */
  function FenceCut(content: string): (r: (int, int))
    requires Text.StartsWith(content, "```")
    ensures 0 <= r.0 <= r.1 <= |content|
    ensures r.0 == 3 || (r.0 >= 1 && content[r.0 - 1] == '\n')
  {
    var newline := Text.Find(content, "\n");
    if newline == -1 then (3, |content|)
    else
      assert content[newline..newline + 1][0] == content[newline];
      var closing := Text.RFind(content[newline..], "```");
      if closing == -1 then (newline + 1, |content|)
      else
        ClosingAfterNewline(content, newline, closing);
        (newline + 1, newline + closing)
  }

  /** A fenced reply keeps, stripped, what lies between the cut's ends. */
  lemma FenceBodyAt(content: string, lo: int, hi: int)
    requires Text.StartsWith(content, "```") && FenceCut(content) == (lo, hi)
    ensures 0 <= lo <= hi <= |content| && FenceBody(content) == Text.Strip(content[lo..hi])
  {
  }

  /** The three cases of `FenceCut`, one per branch of the source. */
  lemma FenceCutCases(content: string, n: int, c: int)
    requires Text.StartsWith(content, "```") && n == Text.Find(content, "\n")
    requires n != -1 ==> c == Text.RFind(content[n..], "```")
    ensures n == -1 ==> FenceCut(content) == (3, |content|)
    ensures n != -1 && c == -1 ==> FenceCut(content) == (n + 1, |content|)
    ensures n != -1 && c != -1 ==> FenceCut(content) == (n + 1, n + c)
  {
    if n != -1 && c != -1 {
      ClosingAfterNewline(content, n, c);
    }
  }

  /** A fence found after a newline starts past it, so the text between them
      is well defined. */
  lemma ClosingAfterNewline(content: string, newline: int, closing: int)
    requires Text.OccursAt(content, "\n", newline)
    requires 0 <= newline && Text.OccursAt(content[newline..], "```", closing)
    ensures 1 <= closing && newline + closing + 3 <= |content|
  {
    var t := content[newline..];
    assert t[0] == content[newline..newline + 1][0];
    assert t[closing..closing + 3][0] == t[closing];
  }

  /** `re.sub(fence + r"\s*", "", s)` for a literal fence: each occurrence,
      left to right, goes with the whitespace after it. */
  function Unfence(s: string, fence: string): string
    requires fence != []
    decreases |s|
  {
    if |s| < |fence| then s
    else if s[..|fence|] == fence then Unfence(Text.LStrip(s[|fence|..]), fence)
    else [s[0]] + Unfence(s[1..], fence)
  }

  /** The two regex passes over the reply. */
  function Unfenced(content: string): string {
    Unfence(Unfence(content, "```json"), "```")
  }

  /** The reply from its first `{` (or, when it has none, its first `[`). */
  function JsonStart(content: string): Result<string, AgentError> {
    var brace := Text.Find(content, "{");
    var start := if brace != -1 then brace else Text.Find(content, "[");
    if start == -1 then Err(NoJson) else Ok(Text.LStrip(content[start..]))
  }

  /** The text the structuring stage hands to the JSON decoder. */
  function JsonText(output: string): Result<string, AgentError> {
    JsonStart(Unfenced(OuterFence(output)))
  }

  /** The first newline of a fenced block is the one ending its opening
      line. */
  lemma OpeningLine(lang: string, rest: string)
    requires '\n' !in lang
    ensures Text.Find("```" + lang + "\n" + rest, "\n") == 3 + |lang|
  {
    var content := "```" + lang + "\n" + rest;
    var n := 3 + |lang|;
    assert content[..n] == "```" + lang;
    forall i | 0 <= i < n
      ensures !Text.OccursAt(content, "\n", i)
    {
      assert content[i] == content[..n][i];
      assert content[i..i + 1] == [content[i]];
    }
    assert content[n..n + 1] == "\n";
    assert Text.OccursAt(content, "\n", n);
  }

  /** A fenced block comes back as its stripped body. */
  lemma FencedBlock(lang: string, body: string)
    requires '\n' !in lang
    ensures OuterFence("```" + lang + "\n" + body + "```") == Text.Strip(body)
  {
    var content := "```" + lang + "\n" + body + "```";
    Text.StripUnchanged(content);
    assert Text.StartsWith(content, "```");
    var n := 3 + |lang|;
    OpeningLine(lang, body + "```");
    assert "```" + lang + "\n" + (body + "```") == content;
    var tail := content[n..];
    assert tail == "\n" + body + "```";
    var c := |body| + 1;
    assert tail[c..c + 3] == "```";
    assert Text.RFind(tail, "```") == c;
    assert content[n + 1..n + c] == body;
  }

  /** The first character of a string that does not open with a backtick
      survives the regex pass. */
  lemma UnfenceHead(t: string)
    requires t != [] && t[0] != '`'
    ensures Unfence(t, "```") != [] && Unfence(t, "```")[0] == t[0]
  {
    if |t| >= 3 {
      assert t[..3][0] == t[0];
      assert t[..3] != "```";
      assert Unfence(t, "```") == [t[0]] + Unfence(t[1..], "```");
    }
  }

  /** A character put in front of a fence-free string makes no fence unless
      it and the next two are backticks. */
  lemma ConsNoFence(c: char, rest: string)
    requires !Text.Contains(rest, "```")
    requires |rest| < 2 || c != '`' || rest[0] != '`' || rest[1] != '`'
    ensures !Text.Contains([c] + rest, "```")
  {
    var r := [c] + rest;
    forall i | 0 <= i <= |r| - 3
      ensures !Text.OccursAt(r, "```", i)
    {
      if i > 0 {
        assert r[i..i + 3] == rest[i - 1..i + 2];
        assert !Text.OccursAt(rest, "```", i - 1);
      } else {
        assert r[..3] == [c, rest[0], rest[1]];
      }
    }
  }

  /** After the last regex pass no fence is left. */
  lemma {:induction false} NoFenceLeft(s: string)
    ensures !Text.Contains(Unfence(s, "```"), "```")
    decreases |s|
  {
    var f := "```";
    if |s| < 3 {
    } else if s[..3] == f {
      NoFenceLeft(Text.LStrip(s[3..]));
    } else {
      var t := s[1..];
      var rest := Unfence(t, f);
      NoFenceLeft(t);
      assert Unfence(s, f) == [s[0]] + rest;
      if s[0] == '`' {
        if t[0] != '`' {
          UnfenceHead(t);
        } else {
          assert s[..3] == [s[0], t[0], t[1]];
          assert t[1] != '`';
          if |t| >= 3 {
            assert t[..3] != f;
            UnfenceHead(t[1..]);
            assert rest == [t[0]] + Unfence(t[1..], f);
          }
        }
      }
      ConsNoFence(s[0], rest);
    }
  }

  /** The JSON text starts at the first `{`, or at the first `[` when there is
      no `{`; a reply with neither raises. Nothing is stripped in front of
      it: the bracket is not whitespace. */
  lemma JsonStartRule(content: string)
    ensures JsonStart(content).Err? <==> !Text.Contains(content, "{") && !Text.Contains(content, "[")
    ensures JsonStart(content).Ok? ==>
              var t := JsonStart(content).value;
              t != [] && t == content[|content| - |t|..]
              && (t[0] == '{' <==> Text.Contains(content, "{"))
              && (t[0] != '{' ==> t[0] == '[')
              && !Text.Contains(content[..|content| - |t|], "{")
              && (t[0] == '[' ==> !Text.Contains(content[..|content| - |t|], "["))
  {
    var brace := Text.Find(content, "{");
    if brace != -1 {
      FirstOpen(content, '{', brace);
    } else {
      var bracket := Text.Find(content, "[");
      if bracket != -1 {
        FirstOpen(content, '[', bracket);
        NoneBefore(content, "{", bracket);
      }
    }
  }

  /** The text from the first `open` on starts with it, loses nothing to the
      strip, and has no `open` in front of it. */
  lemma FirstOpen(content: string, open: char, i: int)
    requires i == Text.Find(content, [open]) && i != -1 && !Text.IsSpace(open)
    ensures 0 <= i < |content|
    ensures var t := content[i..];
              && t != [] && t[0] == open && Text.LStrip(t) == t
              && |content| - |t| == i
              && !Text.Contains(content[..i], [open])
  {
    BracketStart(content, open, i);
    NoneBefore(content, [open], i);
  }

  /** Where `sub` does not occur before `i`, the text in front of `i` does not
      contain it. */
  lemma NoneBefore(content: string, sub: string, i: int)
    requires sub != [] && 0 <= i <= |content|
    requires forall j :: 0 <= j < i ==> !Text.OccursAt(content, sub, j)
    ensures !Text.Contains(content[..i], sub)
  {
    forall j | 0 <= j <= i - |sub|
      ensures !Text.OccursAt(content[..i], sub, j)
    {
      if Text.OccursAt(content[..i], sub, j) {
        assert content[..i][j..j + |sub|] == content[j..j + |sub|];
        assert Text.OccursAt(content, sub, j);
      }
    }
  }

  /** A bracket found at `i` opens the text from `i`, and stripping leaves
      that text as it is. */
  lemma BracketStart(content: string, open: char, i: int)
    requires Text.OccursAt(content, [open], i) && !Text.IsSpace(open)
    ensures 0 <= i < |content| && content[i..] != [] && content[i..][0] == open
    ensures Text.LStrip(content[i..]) == content[i..]
  {
    assert content[i..i + 1][0] == content[i];
  }

  /** A suffix of a fence-free string is fence-free. */
  lemma SuffixNoFence(u: string, k: int)
    requires 0 <= k <= |u| && !Text.Contains(u, "```")
    ensures !Text.Contains(u[k..], "```")
  {
    var t := u[k..];
    forall i | 0 <= i <= |t| - 3
      ensures !Text.OccursAt(t, "```", i)
    {
      assert t[i..i + 3] == u[k + i..k + i + 3];
      assert !Text.OccursAt(u, "```", k + i);
    }
  }

  /** The text handed to the decoder never holds a code fence. */
  lemma JsonTextHasNoFence(output: string)
    requires JsonText(output).Ok?
    ensures !Text.Contains(JsonText(output).value, "```")
  {
    var u := Unfenced(OuterFence(output));
    NoFenceLeft(Unfence(OuterFence(output), "```json"));
    JsonStartRule(u);
    SuffixNoFence(u, |u| - |JsonText(output).value|);
  }

  /** The fence handling of `stage_2_structuring`, reassigning the content
      as it goes. */
  method StripOuterFence(output: string) returns (content: string)
    ensures content == OuterFence(output)
  {
    content := Text.Strip(output);
    content := CutFence(content);
  }

  /** The fenced branch of the same handling, on the stripped reply. */
  method CutFence(stripped: string) returns (content: string)
    ensures content == FenceBody(stripped)
  {
    content := stripped;
    if Text.StartsWith(content, "```") {
      var firstNewline := Text.Find(content, "\n");
      if firstNewline != -1 {
        var closing := Text.RFind(content[firstNewline..], "```");
        FenceCutCases(content, firstNewline, closing);
        if closing != -1 {
          FenceBodyAt(content, firstNewline + 1, firstNewline + closing);
          content := Text.Strip(content[firstNewline + 1..firstNewline + closing]);
        } else {
          FenceBodyAt(content, firstNewline + 1, |content|);
          content := Text.Strip(content[firstNewline + 1..|content|]);
        }
      } else {
        FenceCutCases(content, firstNewline, 0);
        FenceBodyAt(content, 3, |content|);
        content := Text.Strip(content[3..|content|]);
      }
    }
  }

  /** The structuring stage's reply handling up to the JSON decoder. */
  method ExtractJsonText(output: string) returns (r: Result<string, AgentError>)
    ensures r == JsonText(output)
    ensures r.Ok? ==> !Text.Contains(r.value, "```")
  {
    var content := StripOuterFence(output);
    content := Unfence(content, "```json");
    content := Unfence(content, "```");
    var start := Text.Find(content, "{");
    if start == -1 {
      start := Text.Find(content, "[");
    }
    if start == -1 {
      return Err(NoJson);
    }
    content := Text.LStrip(content[start..]);
    r := Ok(content);
    JsonTextHasNoFence(output);
  }

  // ---------------------------------------------------------------------------
  // The two gates

  /** The strategy summary read before the stage-2 gate, and the length of
      its insights taken for the log line. */
  function StrategySummary(detailed: Value): Result<Value, PyExc> {
    if !Truthy(detailed) then Ok(Null)
    else
      var hasMetadata :- In("metadata", detailed);
      if !hasMetadata then Ok(Null)
      else
        var metadata :- GetItem(detailed, "metadata");
        if !metadata.Obj? then Err(AttributeError)
        else
          var summary := Lookup(metadata, "strategy_summary", Null);
          if !Truthy(summary) then Ok(summary)
          else if !summary.Obj? then Err(AttributeError)
          else if Len(Lookup(summary, "key_insights", Arr([]))).None? then Err(TypeError)
          else Ok(summary)
  }

  /** `run_workflow` after stage 2: the detailed calendar and the strategy
      summary, or the exception that ends the workflow. */
  function Stage2Calendar(clientName: string, stage2: seq<(string, Value)>): Result<(Value, Value), AgentError> {
    var detailed := Lookup(Obj(stage2), "detailed_calendar", Null);
    match StrategySummary(detailed)
    case Err(e) => Err(Raised(e))
    case Ok(summary) =>
      if detailed == Null then Err(NoCalendar(clientName)) else Ok((detailed, summary))
  }

  /** The workflow stops with "no calendar" exactly when stage 2 has no
      detailed calendar; any calendar it passes on is not `None`. */
  lemma Stage2Gate(clientName: string, stage2: seq<(string, Value)>)
    ensures Stage2Calendar(clientName, stage2) == Err(NoCalendar(clientName)) <==>
              Lookup(Obj(stage2), "detailed_calendar", Null) == Null
    ensures Stage2Calendar(clientName, stage2).Ok? ==>
              Stage2Calendar(clientName, stage2).value.0 == Lookup(Obj(stage2), "detailed_calendar", Null) != Null
  {
  }

  /** `resume_workflow_from_review`'s checks before stage 3: a usable review
      manager, a stored state, and the status "approved". */
  function ResumeGate(workflowId: string, managerAvailable: bool, state: Value): (r: Result<Value, AgentError>)
    ensures r.Ok? <==>
              managerAvailable && state.Obj? && state.fields != []
              && Lookup(state, "review_status", Null) == Str("approved")
    ensures r.Ok? ==> r.value == state
    ensures !managerAvailable ==> r == Err(ReviewUnavailable)
  {
    if !managerAvailable then Err(ReviewUnavailable)
    else if !Truthy(state) then Err(NoReviewState(workflowId))
    else if !state.Obj? then Err(Raised(AttributeError))
    else
      var status := Lookup(state, "review_status", Null);
      if status != Str("approved") then Err(NotApproved(workflowId, status)) else Ok(state)
  }

  // ---------------------------------------------------------------------------
  // The cached account data

  /** The key stage 1 caches the account data under. */
  function CacheKey(clientName: string, startDate: string, endDate: string): string {
    "mcp_data:" + clientName + ":" + startDate + "_" + endDate
  }

  /** The prefix stage 3 looks for. */
  function CachePrefix(clientName: string): string {
    "mcp_data:" + clientName + ":"
  }

  /** Stage 1's key for a client carries the prefix stage 3 looks for. */
  lemma CacheKeyHasPrefix(clientName: string, startDate: string, endDate: string)
    ensures Text.StartsWith(CacheKey(clientName, startDate, endDate), CachePrefix(clientName))
  {
    assert CacheKey(clientName, startDate, endDate)
           == CachePrefix(clientName) + (startDate + "_" + endDate);
  }

  /** The index of the first key with the prefix, or -1. */
  function FirstWithPrefix(keys: seq<string>, prefix: string): (r: int)
    ensures -1 <= r < |keys|
    ensures r == -1 <==> forall i :: 0 <= i < |keys| ==> !Text.StartsWith(keys[i], prefix)
    ensures r != -1 ==> Text.StartsWith(keys[r], prefix)
                        && forall i :: 0 <= i < r ==> !Text.StartsWith(keys[i], prefix)
  {
    if keys == [] then -1
    else if Text.StartsWith(keys[0], prefix) then 0
    else
      var j := FirstWithPrefix(keys[1..], prefix);
      if j == -1 then -1 else j + 1
  }

  /** What stage 3 takes from the cache: the data of the first live key with
      the client's prefix, in insertion order, or `None`. */
  function CachedData(d: McpCache.Store, prefix: string, now: int): Value {
    var keys := OrderedMap.Keys(McpCache.Live(d, now));
    var i := FirstWithPrefix(keys, prefix);
    if i == -1 then Null else McpCache.Read(d, keys[i], now)
  }

  /** A live entry stored by stage 1 for the client means stage 3 finds a key
      for it, at or before that entry's place among the live keys. */
  lemma Stage1KeyIsFound(d: McpCache.Store, clientName: string, startDate: string, endDate: string, now: int)
    requires CacheKey(clientName, startDate, endDate) in OrderedMap.Keys(McpCache.Live(d, now))
    ensures var keys := OrderedMap.Keys(McpCache.Live(d, now));
            FirstWithPrefix(keys, CachePrefix(clientName)) != -1
  {
    var keys := OrderedMap.Keys(McpCache.Live(d, now));
    var j :| 0 <= j < |keys| && keys[j] == CacheKey(clientName, startDate, endDate);
    CacheKeyHasPrefix(clientName, startDate, endDate);
  }

  /** Stage 3's lookup: the live keys from `get_stats`, then `get` on the
      first one with the prefix. The key read is live, so nothing is
      evicted. */
  method FindCachedData(cache: McpCache.Cache, clientName: string, now: int) returns (data: Value)
    requires cache.Valid()
    modifies cache`entries
    ensures cache.Valid() && cache.entries == old(cache.entries)
    ensures data == CachedData(old(cache.entries), CachePrefix(clientName), now)
  {
    var prefix := CachePrefix(clientName);
    var stats := cache.GetStats(now);
    ghost var d := cache.entries;
    data := Null;
    var i := 0;
    while i < |stats.keys|
      invariant 0 <= i <= |stats.keys|
      invariant forall j :: 0 <= j < i ==> !Text.StartsWith(stats.keys[j], prefix)
      invariant cache.entries == d && data == Null
    {
      var key := stats.keys[i];
      if Text.StartsWith(key, prefix) {
        McpCache.LiveKeys(d, now, key);
        assert FirstWithPrefix(stats.keys, prefix) == i;
        data := cache.Get(key, now);
        return;
      }
      i := i + 1;
    }
  }

  // ---------------------------------------------------------------------------
  // The account data section of the prompts

  /** The parts of the account data a prompt shows, in the order shown. */
  datatype SectionKind = Segments | Campaigns | CampaignReport | Flows | FlowReport

  const SectionKinds: seq<SectionKind> := [Segments, Campaigns, CampaignReport, Flows, FlowReport]

  function SectionKey(k: SectionKind): string {
    match k
    case Segments => "segments"
    case Campaigns => "campaigns"
    case CampaignReport => "campaign_report"
    case Flows => "flows"
    case FlowReport => "flow_report"
  }

  /** The sections whose heading shows `len` of the data. */
  predicate Counted(k: SectionKind) {
    k == Segments || k == Campaigns || k == Flows
  }

  /** One section: its kind, the count in its heading, and its data. */
  datatype Section = Section(kind: SectionKind, count: nat, data: Value)

  /** The data shown for a kind, when it is truthy. */
  predicate Shown(d: Value, k: SectionKind)
    requires d.Obj?
  {
    Truthy(Lookup(d, SectionKey(k), Null))
  }

  /** A counted section whose data has no `len`: the heading raises. */
  predicate Unsized(d: Value, k: SectionKind)
    requires d.Obj?
  {
    Shown(d, k) && Counted(k) && Len(Lookup(d, SectionKey(k), Null)).None?
  }

  /** The kinds with truthy data, in the order given. */
  function ShownKinds(d: Value, kinds: seq<SectionKind>): (r: seq<SectionKind>)
    requires d.Obj?
    ensures forall k :: k in r <==> k in kinds && Shown(d, k)
  {
    if kinds == [] then []
    else
      var last := kinds[|kinds| - 1];
      ShownKinds(d, kinds[..|kinds| - 1]) + (if Shown(d, last) then [last] else [])
  }

  /** The section for one kind, when its data is truthy; `len` on data
      without a length raises. */
  function SectionOf(d: Value, k: SectionKind): Result<seq<Section>, PyExc>
    requires d.Obj?
  {
    var v := Lookup(d, SectionKey(k), Null);
    if !Truthy(v) then Ok([])
    else if !Counted(k) then Ok([Section(k, 0, v)])
    else if Len(v).None? then Err(TypeError)
    else Ok([Section(k, Len(v).value, v)])
  }

  /** The sections for a list of kinds, in that order. */
  function SectionsFor(d: Value, kinds: seq<SectionKind>): Result<seq<Section>, PyExc>
    requires d.Obj?
  {
    if kinds == [] then Ok([])
    else
      var init :- SectionsFor(d, kinds[..|kinds| - 1]);
      var last :- SectionOf(d, kinds[|kinds| - 1]);
      Ok(init + last)
  }

  /** The text of one section; `dump` is `json.dumps(..., indent=2)`. */
  function Render(s: Section, dump: Value -> string): string {
    var heading :=
      match s.kind
      case Segments => "## Segments (" + Text.NatToString(s.count) + " total)\n\n"
      case Campaigns => "## Recent Campaigns (" + Text.NatToString(s.count) + " total)\n\n"
      case CampaignReport => "## Campaign Performance\n\n"
      case Flows => "## Active Flows (" + Text.NatToString(s.count) + " total)\n\n"
      case FlowReport => "## Flow Performance\n\n";
    heading + dump(s.data)
  }

  function RenderAll(ss: seq<Section>, dump: Value -> string): (r: seq<string>)
    ensures |r| == |ss|
  {
    if ss == [] then [] else RenderAll(ss[..|ss| - 1], dump) + [Render(ss[|ss| - 1], dump)]
  }

  /** `_format_mcp_data` */
  function McpDataText(mcpData: Value, dump: Value -> string): Result<string, PyExc> {
    if !Truthy(mcpData) then Ok("No MCP data available")
    else if !mcpData.Obj? then Err(AttributeError)
    else
      var sections :- SectionsFor(mcpData, SectionKinds);
      Ok("# Klaviyo Data\n\n" + Text.Join("\n\n---\n\n", RenderAll(sections, dump)))
  }

  /** The sections come out one per kind with truthy data, in the order of
      the kinds, each with that data and, for the counted kinds, its
      length; they raise exactly when a counted kind's data has no length. */
  lemma Sections(d: Value, kinds: seq<SectionKind>)
    requires d.Obj?
    ensures SectionsFor(d, kinds).Err? <==> exists i :: 0 <= i < |kinds| && Unsized(d, kinds[i])
    ensures SectionsFor(d, kinds).Ok? ==>
              var ss := SectionsFor(d, kinds).value;
              |ss| == |ShownKinds(d, kinds)|
              && forall i :: 0 <= i < |ss| ==>
                   ss[i].kind == ShownKinds(d, kinds)[i]
                   && ss[i].data == Lookup(d, SectionKey(ss[i].kind), Null)
                   && (Counted(ss[i].kind) ==> Len(ss[i].data) == Some(ss[i].count))
  {
    SectionsRaise(d, kinds);
    if SectionsFor(d, kinds).Ok? {
      SectionsShown(d, kinds);
    }
  }

  /** The sections raise exactly when a counted kind's data has no length. */
  lemma {:induction false} SectionsRaise(d: Value, kinds: seq<SectionKind>)
    requires d.Obj?
    ensures SectionsFor(d, kinds).Err? <==> exists i :: 0 <= i < |kinds| && Unsized(d, kinds[i])
  {
    if kinds != [] {
      var init := kinds[..|kinds| - 1];
      var last := kinds[|kinds| - 1];
      SectionsRaise(d, init);
      assert SectionOf(d, last).Err? <==> Unsized(d, last);
      if SectionsFor(d, init).Err? {
        var i :| 0 <= i < |init| && Unsized(d, init[i]);
        assert kinds[i] == init[i];
      } else if SectionOf(d, last).Err? {
        assert Unsized(d, kinds[|kinds| - 1]);
      } else {
        forall i | 0 <= i < |kinds|
          ensures !Unsized(d, kinds[i])
        {
          if i < |init| {
            assert kinds[i] == init[i] && !Unsized(d, init[i]);
          } else {
            assert kinds[i] == last;
          }
        }
      }
    }
  }

  /** Sections that come out follow the shown kinds, with their data and
      counts. */
  lemma {:induction false} SectionsShown(d: Value, kinds: seq<SectionKind>)
    requires d.Obj? && SectionsFor(d, kinds).Ok?
    ensures var ss := SectionsFor(d, kinds).value;
            |ss| == |ShownKinds(d, kinds)|
            && forall i :: 0 <= i < |ss| ==>
                 ss[i].kind == ShownKinds(d, kinds)[i]
                 && ss[i].data == Lookup(d, SectionKey(ss[i].kind), Null)
                 && (Counted(ss[i].kind) ==> Len(ss[i].data) == Some(ss[i].count))
  {
    if kinds != [] {
      var init := kinds[..|kinds| - 1];
      var last := kinds[|kinds| - 1];
      SectionsShown(d, init);
      var a: seq<Section> := SectionsFor(d, init).value;
      var b: seq<Section> := SectionOf(d, last).value;
      var shownInit := ShownKinds(d, init);
      var shownLast: seq<SectionKind> := if Shown(d, last) then [last] else [];
      assert SectionsFor(d, kinds).value == a + b;
      assert ShownKinds(d, kinds) == shownInit + shownLast;
      assert |b| == |shownLast|;
      forall i | 0 <= i < |a + b|
        ensures (a + b)[i].kind == (shownInit + shownLast)[i]
        ensures (a + b)[i].data == Lookup(d, SectionKey((a + b)[i].kind), Null)
        ensures Counted((a + b)[i].kind) ==> Len((a + b)[i].data) == Some((a + b)[i].count)
      {
        if i < |a| {
          assert (a + b)[i] == a[i];
          assert (shownInit + shownLast)[i] == shownInit[i];
        } else {
          assert (a + b)[i] == b[i - |a|];
          assert (shownInit + shownLast)[i] == shownLast[i - |a|];
        }
      }
    }
  }

  /** With no kind shown there are no sections. */
  lemma {:induction false} NoneShown(d: Value, kinds: seq<SectionKind>)
    requires d.Obj?
    requires forall i :: 0 <= i < |kinds| ==> !Shown(d, kinds[i])
    ensures SectionsFor(d, kinds) == Ok([])
  {
    if kinds != [] {
      var init := kinds[..|kinds| - 1];
      forall i | 0 <= i < |init|
        ensures !Shown(d, init[i])
      {
        assert init[i] == kinds[i];
      }
      NoneShown(d, init);
      assert !Shown(d, kinds[|kinds| - 1]);
      assert SectionOf(d, kinds[|kinds| - 1]) == Ok([]);
      var none: seq<Section> := [];
      assert none + none == none;
      assert SectionsFor(d, kinds) == Ok(none + none);
    }
  }

  /** Empty data reads "No MCP data available"; anything else that is not a
      dict raises; a dict with none of the five parts gives the title alone. */
  lemma McpDataEdges(mcpData: Value, dump: Value -> string)
    ensures !Truthy(mcpData) ==> McpDataText(mcpData, dump) == Ok("No MCP data available")
    ensures Truthy(mcpData) && !mcpData.Obj? ==> McpDataText(mcpData, dump) == Err(AttributeError)
    ensures mcpData.Obj? && Truthy(mcpData) && (forall k :: !Shown(mcpData, k)) ==>
              McpDataText(mcpData, dump) == Ok("# Klaviyo Data\n\n")
  {
    if mcpData.Obj? && Truthy(mcpData) && (forall k :: !Shown(mcpData, k)) {
      NoneShown(mcpData, SectionKinds);
      var none: seq<Section> := [];
      assert RenderAll(none, dump) == [];
      assert Text.Join("\n\n---\n\n", RenderAll(none, dump)) == "";
      assert "# Klaviyo Data\n\n" + "" == "# Klaviyo Data\n\n";
    }
  }
}
