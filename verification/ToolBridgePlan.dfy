/** Reading tool calls out of a model's text answer (openai_service.go): the first
    object that decodes and validates, argument checks, and one round of repair. */
module ToolBridgePlan {
  import opened Text
  import opened Messages
  import opened SchemaCheck
  import JsonText
  import JsonScan

  /** A tool_choice as sent: nothing, a word, an object, or something else. */
  datatype ToolChoice = Absent | Word(mode: string) | Choice(kind: string, name: string) | Unreadable

  datatype ToolRequest = ToolRequest(tools: seq<Tool>, choice: ToolChoice)

  datatype PayloadCall = PayloadCall(name: string, arguments: string)

  datatype Payload = Payload(status: string, toolCalls: seq<PayloadCall>, content: string)

  /** A call as returned to the client; its generated id is left out. */
  datatype Call = Call(name: string, arguments: string)

  datatype PlanError =
    | EmptyOutput | NotJson | BadJson | MissingStatus | UnsupportedStatus(status: string) | CallRequired | NoCalls
    | MissingName(i: nat) | UnknownTool(i: nat, name: string) | WrongTool(forced: string, name: string)
    | BadArguments(i: nat) | RepairFailed(first: PlanError) | RepairUnavailable(first: PlanError)

  datatype Plan = Plan(calls: seq<Call>, content: string, noTool: bool, err: Option<PlanError>)

  /** What encoding/json and the URL clean-up do: decode a planner payload, a text
      value, any value; encode a value; rewrite the links inside one. */
  datatype Codec = Codec(payload: string -> Option<Payload>, text: string -> Option<string>,
                         value: string -> Option<Json>, encode: Json -> string, sanitize: Json -> Json)

  /** The text of a JSON object between JSON white space. */
  ghost predicate ObjectText(s: string) {
    exists a, v, b :: IsObjectText(s, a, v, b)
  }

  ghost predicate IsObjectText(s: string, a: string, v: JsonText.Value, b: string) {
    && JsonText.Space(a) && JsonText.Space(b) && v.Obj? && JsonText.WellFormed(v)
    && s == a + JsonText.Render(v) + b
  }

  /** Only an object can decode to a payload that has a status; a bare null decodes
      to an empty payload. */
  ghost predicate Sound(codec: Codec) {
    forall s :: codec.payload(s).Some? && codec.payload(s).value.status != "" ==> ObjectText(s)
  }

  // ---- The request ----

  function ToolChoiceMode(req: ToolRequest): string {
    match req.choice
    case Word(mode) =>
      var m := ToLower(TrimSpace(mode));
      if m == "none" || m == "auto" || m == "required" then m else "auto"
    case Choice(kind, name) =>
      if ToLower(kind) == "function" && TrimSpace(name) != "" then "function"
      else
        var k := ToLower(TrimSpace(kind));
        if k == "none" || k == "auto" || k == "required" then k else "auto"
    case _ => "auto"
  }

  function ForcedToolName(req: ToolRequest): string {
    if req.choice.Choice? && ToLower(req.choice.kind) == "function" then TrimSpace(req.choice.name) else ""
  }

  /** toolBridgeRequiresToolCall. */
  predicate RequiresCall(req: ToolRequest) {
    ToolChoiceMode(req) == "required" || ToolChoiceMode(req) == "function"
  }

  lemma ForcedIffFunction(req: ToolRequest)
    ensures ToolChoiceMode(req) == "function" <==> ForcedToolName(req) != ""
  {
    if req.choice.Choice? && ToLower(req.choice.kind) == "function" && TrimSpace(req.choice.name) == "" {
      LowerTrimmedKind(req.choice.kind);
    }
  }

  lemma LowerTrimmedKind(kind: string)
    requires ToLower(kind) == "function"
    ensures ToLower(TrimSpace(kind)) == "function"
  {
    assert |kind| == 8;
    forall i | 0 <= i < |kind| ensures !IsSpace(kind[i]) {
      assert ToLower(kind)[i] == "function"[i];
    }
    TrimCore("", kind, "");
    assert "" + kind + "" == kind;
  }

  /** The declared tools by name; of several with one name the last counts. */
  function Declared(tools: seq<Tool>): map<string, string> {
    if tools == [] then map[]
    else
      var t := tools[|tools| - 1];
      var rest := Declared(tools[..|tools| - 1]);
      if IsFunctionTool(t) then rest[TrimSpace(t.name) := t.parameters] else rest
  }

  // ---- One call ----

  /** normalizeArguments. */
  function NormalizeArguments(codec: Codec, raw: string): Option<string> {
    var trimmed := TrimSpace(raw);
    if trimmed == "" || trimmed == "null" then Some("{}")
    else
      var quoted := HasPrefix(trimmed, "\"") && codec.text(raw).Some?;
      var inner := if quoted then TrimSpace(codec.text(raw).value) else trimmed;
      if quoted && inner == "" then Some("{}")
      else if codec.value(inner).None? then None
      else Some(codec.encode(codec.sanitize(codec.value(inner).value)))
  }

  /** The schema a parameters text declares; an unreadable or empty one checks
      nothing. */
  function SchemaOf(codec: Codec, raw: string): Schema {
    if raw != "" && codec.value(raw).Some? && codec.value(raw).value.Obj? then codec.value(raw).value.fields else map[]
  }

  /** An argument text that is an object and conforms to the tool's schema. */
  ghost predicate ArgumentsConform(codec: Codec, arguments: string, schema: Schema) {
    && codec.value(arguments).Some? && codec.value(arguments).value.Obj?
    && (schema != map[] ==> Conforms(codec.value(arguments).value, schema, MAX_SCHEMA_DEPTH))
  }

  function SchemaFor(req: ToolRequest, codec: Codec, name: string): Schema {
    if name in Declared(req.tools) then SchemaOf(codec, Declared(req.tools)[name]) else map[]
  }

  method ValidateArguments(codec: Codec, raw: string, schemaRaw: string) returns (arguments: Option<string>)
    ensures arguments == if NormalizeArguments(codec, raw).Some?
                            && ArgumentsConform(codec, NormalizeArguments(codec, raw).value, SchemaOf(codec, schemaRaw))
                         then NormalizeArguments(codec, raw) else None
  {
    arguments := NormalizeArguments(codec, raw);
    if arguments.None? {
      return;
    }
    var args := codec.value(arguments.value);
    if args.None? || !args.value.Obj? {
      return None;
    }
    if |schemaRaw| > 0 {
      var schema := codec.value(schemaRaw);
      if schema.Some? && schema.value.Obj? && |schema.value.fields| > 0 {
        var ok := ValidateValue(args.value, schema.value.fields, 0);
        if !ok {
          return None;
        }
      } else {
        assert SchemaOf(codec, schemaRaw) == map[];
      }
    }
  }

  // ---- A payload ----

  ghost function CallError(req: ToolRequest, codec: Codec, tc: PayloadCall, i: nat): Option<PlanError> {
    var name, declared := TrimSpace(tc.name), Declared(req.tools);
    if name == "" then Some(MissingName(i))
    else if declared != map[] && name !in declared then Some(UnknownTool(i, name))
    else if ForcedToolName(req) != "" && name != ForcedToolName(req) then Some(WrongTool(ForcedToolName(req), name))
    else if NormalizeArguments(codec, tc.arguments).Some?
            && ArgumentsConform(codec, NormalizeArguments(codec, tc.arguments).value, SchemaFor(req, codec, name))
              then None
    else Some(BadArguments(i))
  }

  ghost function CallOf(codec: Codec, tc: PayloadCall): Call {
    Call(TrimSpace(tc.name), NormalizeArguments(codec, tc.arguments).GetOr(""))
  }

  /** The first call that fails, if any. */
  ghost function CallsError(req: ToolRequest, codec: Codec, calls: seq<PayloadCall>): Option<PlanError> {
    if calls == [] then None
    else
      var n := |calls| - 1;
      var before := CallsError(req, codec, calls[..n]);
      if before.Some? then before else CallError(req, codec, calls[n], n)
  }

  ghost function CallsOf(codec: Codec, calls: seq<PayloadCall>): seq<Call> {
    seq(|calls|, i requires 0 <= i < |calls| => CallOf(codec, calls[i]))
  }

  function Failed(err: PlanError, content: string): Plan {
    Plan([], content, false, Some(err))
  }

  /** validateToolBridgePayload. */
  ghost function Validated(req: ToolRequest, codec: Codec, payload: Payload, text: string): Plan {
    var status := ToLower(TrimSpace(payload.status));
    if status == "" then Failed(MissingStatus, TrimSpace(text))
    else if status != "tool_calls" && status != "message" && status != "no_tool" then
      Failed(UnsupportedStatus(payload.status), TrimSpace(text))
    else if status == "no_tool" then
      if RequiresCall(req) then Failed(CallRequired, "") else Plan([], "", true, None)
    else if status == "message" then
      if RequiresCall(req) then Failed(CallRequired, TrimSpace(payload.content))
      else Plan([], TrimSpace(payload.content), true, None)
    else if payload.toolCalls == [] then Failed(NoCalls, "")
    else if CallsError(req, codec, payload.toolCalls).Some?
      then Failed(CallsError(req, codec, payload.toolCalls).value, "")
    else Plan(CallsOf(codec, payload.toolCalls), "", false, None)
  }

  method ValidateCalls(req: ToolRequest, codec: Codec, payload: Payload) returns (plan: Plan)
    ensures plan == if CallsError(req, codec, payload.toolCalls).Some?
                    then Failed(CallsError(req, codec, payload.toolCalls).value, "")
                    else Plan(CallsOf(codec, payload.toolCalls), "", false, None)
  {
    var allowed := Declared(req.tools);
    var forcedName := ForcedToolName(req);
    var calls: seq<Call> := [];
    var todo := payload.toolCalls;
    for i := 0 to |todo|
      invariant CallsError(req, codec, todo[..i]) == None
      invariant calls == CallsOf(codec, todo[..i])
    {
      CallsStep(req, codec, todo, i);
      var name := TrimSpace(todo[i].name);
      var bad := None;
      if name == "" {
        bad := Some(MissingName(i));
      } else if |allowed| > 0 && name !in allowed {
        bad := Some(UnknownTool(i, name));
      } else if forcedName != "" && name != forcedName {
        bad := Some(WrongTool(forcedName, name));
      } else {
        var arguments := ValidateArguments(codec, todo[i].arguments, if name in allowed then allowed[name] else "");
        if arguments.None? {
          bad := Some(BadArguments(i));
        } else {
          calls := calls + [Call(name, arguments.value)];
        }
      }
      assert bad == CallError(req, codec, todo[i], i) by {
        assert allowed == map[] <==> |allowed| == 0;
      }
      if bad.Some? {
        FirstErrorStays(req, codec, todo, i + 1);
        return Failed(bad.value, "");
      }
    }
    assert todo[..|todo|] == todo;
    plan := Plan(calls, "", false, None);
  }

  lemma {:induction false} CallsStep(req: ToolRequest, codec: Codec, calls: seq<PayloadCall>, i: nat)
    requires i < |calls|
    ensures CallsError(req, codec, calls[..i + 1])
         == if CallsError(req, codec, calls[..i]).Some? then CallsError(req, codec, calls[..i])
           else CallError(req, codec, calls[i], i)
    ensures CallsOf(codec, calls[..i + 1]) == CallsOf(codec, calls[..i]) + [CallOf(codec, calls[i])]
  {
    hide CallError, CallOf;
    assert calls[..i + 1][..i] == calls[..i];
  }

  lemma {:induction false} FirstErrorStays(req: ToolRequest, codec: Codec, calls: seq<PayloadCall>, n: nat)
    requires n <= |calls| && CallsError(req, codec, calls[..n]).Some?
    ensures CallsError(req, codec, calls) == CallsError(req, codec, calls[..n])
  {
    if n < |calls| {
      assert calls[..|calls| - 1][..n] == calls[..n];
      FirstErrorStays(req, codec, calls[..|calls| - 1], n);
    } else {
      assert calls[..n] == calls;
    }
  }

  method ValidatePayload(req: ToolRequest, codec: Codec, payload: Payload, text: string) returns (plan: Plan)
    ensures plan == Validated(req, codec, payload, text)
  {
    var status := ToLower(TrimSpace(payload.status));
    if status == "" {
      return Failed(MissingStatus, TrimSpace(text));
    }
    if status != "tool_calls" && status != "message" && status != "no_tool" {
      return Failed(UnsupportedStatus(payload.status), TrimSpace(text));
    }
    if status == "no_tool" {
      return if RequiresCall(req) then Failed(CallRequired, "") else Plan([], "", true, None);
    }
    if status == "message" {
      var content := TrimSpace(payload.content);
      return if RequiresCall(req) then Failed(CallRequired, content) else Plan([], content, true, None);
    }
    if payload.toolCalls == [] {
      return Failed(NoCalls, "");
    }
    plan := ValidateCalls(req, codec, payload);
  }

  /** A call the client may be handed: a declared tool when function tools are
      declared, the forced one if any, with an object argument that conforms to the
      declared schema. */
  ghost predicate GoodCall(req: ToolRequest, codec: Codec, call: Call) {
    && call.name != ""
    && (Declared(req.tools) != map[] ==> call.name in Declared(req.tools))
    && (ForcedToolName(req) != "" ==> call.name == ForcedToolName(req))
    && ArgumentsConform(codec, call.arguments, SchemaFor(req, codec, call.name))
  }

  /** A plan without an error hands out good calls, or none where none is required. */
  ghost predicate GoodPlan(req: ToolRequest, codec: Codec, plan: Plan) {
    && (forall i :: 0 <= i < |plan.calls| ==> GoodCall(req, codec, plan.calls[i]))
    && (plan.err.None? ==>
        (plan.calls != [] && !plan.noTool) || (plan.calls == [] && plan.noTool && !RequiresCall(req)))
    && (plan.err.Some? ==> plan.calls == [])
  }

  lemma {:induction false} CallsAreGood(req: ToolRequest, codec: Codec, calls: seq<PayloadCall>, i: nat)
    requires CallsError(req, codec, calls) == None && i < |calls|
    ensures GoodCall(req, codec, CallOf(codec, calls[i]))
  {
    if i < |calls| - 1 {
      CallsAreGood(req, codec, calls[..|calls| - 1], i);
    } else {
      assert CallError(req, codec, calls[i], i) == None;
    }
  }

  lemma ValidatedIsGood(req: ToolRequest, codec: Codec, payload: Payload, text: string)
    ensures GoodPlan(req, codec, Validated(req, codec, payload, text))
  {
    var plan := Validated(req, codec, payload, text);
    forall i | 0 <= i < |plan.calls| ensures GoodCall(req, codec, plan.calls[i]) {
      CallsAreGood(req, codec, payload.toolCalls, i);
    }
  }

  // ---- Finding the payload ----

  /** strings.TrimPrefix. */
  function TrimPrefix(s: string, prefix: string): string {
    if HasPrefix(s, prefix) then s[|prefix|..] else s
  }

  /** Where sub last starts in s, or -1. */
  function LastIndex(s: string, sub: string): (i: int)
    ensures -1 <= i <= |s|
  {
    LastIndexUpTo(s, sub, |s|)
  }

  function LastIndexUpTo(s: string, sub: string, i: nat): (j: int)
    requires i <= |s|
    ensures -1 <= j <= i
  {
    if sub <= s[i..] then i else if i == 0 then -1 else LastIndexUpTo(s, sub, i - 1)
  }

  function StripCodeFence(text: string): string {
    var trimmed := TrimSpace(text);
    if !HasPrefix(trimmed, "```") then trimmed
    else
      var body := TrimSpace(TrimPrefix(TrimPrefix(trimmed[3..], "json"), "JSON"));
      var close := LastIndex(body, "```");
      if close >= 0 then TrimSpace(body[..close]) else body
  }

  lemma StrippedIsSolid(text: string)
    ensures TrimSpace(StripCodeFence(text)) == StripCodeFence(text)
  {
    TrimIdempotent(text);
    var trimmed := TrimSpace(text);
    if HasPrefix(trimmed, "```") {
      var inner := TrimPrefix(TrimPrefix(trimmed[3..], "json"), "JSON");
      TrimIdempotent(inner);
      var body := TrimSpace(inner);
      if LastIndex(body, "```") >= 0 {
        TrimIdempotent(body[..LastIndex(body, "```")]);
      }
    }
  }

  /** What one candidate text says. */
  ghost function CandidatePlan(req: ToolRequest, codec: Codec, candidate: string, text: string): Plan {
    if codec.payload(candidate).None? then Failed(BadJson, "")
    else Validated(req, codec, codec.payload(candidate).value, text)
  }

  /** The plan of the first candidate that has one; otherwise the first error. */
  ghost function FirstValid(req: ToolRequest, codec: Codec, candidates: seq<string>, text: string,
                            err: Option<PlanError>): Plan {
    if candidates == [] then Failed(if err.Some? then err.value else NotJson, TrimSpace(text))
    else
      var plan := CandidatePlan(req, codec, candidates[0], text);
      if plan.err.None? then plan
      else FirstValid(req, codec, candidates[1..], text, if err.Some? then err else plan.err)
  }

  ghost function Parsed(req: ToolRequest, codec: Codec, text: string): Plan {
    if StripCodeFence(text) == "" then Failed(EmptyOutput, "")
    else FirstValid(req, codec, JsonScan.Candidates(StripCodeFence(text)), text, None)
  }

  /** A text that decodes to a payload with a status is its own only candidate. */
  lemma {:induction false} WholeIsCandidate(s: string)
    requires ObjectText(s) && TrimSpace(s) == s
    ensures JsonScan.Candidates(s) == [s]
  {
    var a, v, b :| IsObjectText(s, a, v, b);
    var t := JsonText.Render(v);
    assert t == "{" + JsonScan.Inner(v) + "}";
    TrimCore(a, t, b);
    assert s == t + "";
    JsonScan.ObjectTaken(v, "");
  }

  /** The whole-text fast path never changes the answer of the candidate scan. */
  lemma FastPathAgrees(req: ToolRequest, codec: Codec, text: string)
    requires Sound(codec)
    ensures var cleaned := StripCodeFence(text);
      cleaned != "" && CandidatePlan(req, codec, cleaned, text).err.None? ==>
        Parsed(req, codec, text) == CandidatePlan(req, codec, cleaned, text)
  {
    var cleaned := StripCodeFence(text);
    if cleaned != "" && CandidatePlan(req, codec, cleaned, text).err.None? {
      var payload := codec.payload(cleaned).value;
      assert payload.status != "" by {
        BlankTrims("");
      }
      StrippedIsSolid(text);
      WholeIsCandidate(cleaned);
    }
  }

  method ParsePlan(req: ToolRequest, codec: Codec, text: string) returns (plan: Plan)
    requires Sound(codec)
    ensures plan == Parsed(req, codec, text)
  {
    var cleaned := StripCodeFence(text);
    if cleaned == "" {
      return Failed(EmptyOutput, "");
    }
    FastPathAgrees(req, codec, text);
    var whole := codec.payload(cleaned);
    if whole.Some? {
      plan := ValidatePayload(req, codec, whole.value, text);
      if plan.err.None? {
        return;
      }
    }
    var candidates, _ := JsonScan.ExtractJSONObjectCandidates(cleaned);
    var firstErr: Option<PlanError> := None;
    for i := 0 to |candidates|
      invariant FirstValid(req, codec, candidates[i..], text, firstErr) == Parsed(req, codec, text)
    {
      assert candidates[i..][1..] == candidates[i + 1..];
      var payload := codec.payload(candidates[i]);
      if payload.None? {
        plan := Failed(BadJson, "");
      } else {
        plan := ValidatePayload(req, codec, payload.value, text);
        if plan.err.None? {
          return;
        }
      }
      firstErr := if firstErr.Some? then firstErr else plan.err;
    }
    plan := Failed(if firstErr.Some? then firstErr.value else NotJson, TrimSpace(text));
  }

  /** Parsing finds the first top-level object that decodes and validates, or fails
      when none does. */
  lemma {:induction false} FirstValidIs(req: ToolRequest, codec: Codec, candidates: seq<string>, text: string,
                                        err: Option<PlanError>)
    ensures var plan := FirstValid(req, codec, candidates, text, err);
      if plan.err.None? then
        exists k :: 0 <= k < |candidates| && plan == CandidatePlan(req, codec, candidates[k], text)
          && forall j :: 0 <= j < k ==> CandidatePlan(req, codec, candidates[j], text).err.Some?
      else
        forall j :: 0 <= j < |candidates| ==> CandidatePlan(req, codec, candidates[j], text).err.Some?
  {
    hide CandidatePlan;
    if candidates == [] {
    } else {
      var first := CandidatePlan(req, codec, candidates[0], text);
      if first.err.Some? {
        var next := if err.Some? then err else first.err;
        FirstValidIs(req, codec, candidates[1..], text, next);
        var plan := FirstValid(req, codec, candidates[1..], text, next);
        if plan.err.None? {
          var k :| 0 <= k < |candidates[1..]| && plan == CandidatePlan(req, codec, candidates[1..][k], text)
            && forall j :: 0 <= j < k ==> CandidatePlan(req, codec, candidates[1..][j], text).err.Some?;
          assert candidates[k + 1] == candidates[1..][k];
          assert forall j :: 1 <= j < k + 1 ==> candidates[j] == candidates[1..][j - 1];
        } else {
          assert forall j :: 1 <= j < |candidates| ==> candidates[j] == candidates[1..][j - 1];
        }
      }
    }
  }

  /** On an answer of JSON objects among prose that closes its braces, the plan is that
      of the first candidate that decodes and validates; the candidates are just the
      objects when the prose has no opening brace. */
  lemma {:induction false} PlanOfFirstObject(req: ToolRequest, codec: Codec, text: string,
                                             pieces: seq<JsonScan.Piece>, tail: string)
    requires JsonScan.ClosingPieces(pieces) && '{' !in tail
    requires StripCodeFence(text) == JsonScan.Interleave(pieces, tail) != ""
    ensures var plan := Parsed(req, codec, text);
      var found := JsonScan.Found(pieces);
      if plan.err.None? then
        exists k :: 0 <= k < |found| && plan == CandidatePlan(req, codec, found[k], text)
          && forall j :: 0 <= j < k ==> CandidatePlan(req, codec, found[j], text).err.Some?
      else
        forall j :: 0 <= j < |found| ==> CandidatePlan(req, codec, found[j], text).err.Some?
    ensures JsonScan.GoodPieces(pieces) ==> JsonScan.Found(pieces) == JsonScan.Objects(pieces)
  {
    JsonScan.CandidatesAreTheObjects(pieces, tail);
    FirstValidIs(req, codec, JsonScan.Found(pieces), text, None);
    if JsonScan.GoodPieces(pieces) {
      JsonScan.NothingElse(pieces);
    }
  }

  lemma {:induction false} FirstValidIsGood(req: ToolRequest, codec: Codec, candidates: seq<string>, text: string,
                                            err: Option<PlanError>)
    ensures GoodPlan(req, codec, FirstValid(req, codec, candidates, text, err))
  {
    if candidates == [] {
    } else {
      if codec.payload(candidates[0]).Some? {
        ValidatedIsGood(req, codec, codec.payload(candidates[0]).value, text);
      }
      var plan := CandidatePlan(req, codec, candidates[0], text);
      FirstValidIsGood(req, codec, candidates[1..], text, if err.Some? then err else plan.err);
    }
  }

  lemma ParsedIsGood(req: ToolRequest, codec: Codec, text: string)
    ensures GoodPlan(req, codec, Parsed(req, codec, text))
  {
    FirstValidIsGood(req, codec, JsonScan.Candidates(StripCodeFence(text)), text, None);
  }

  // ---- Repair ----

  /** What the repair request brought back. */
  datatype Repair = Answered(text: string) | Unanswered | Silent

  predicate Contains(s: string, sub: string) {
    LastIndex(s, sub) >= 0
  }

  predicate LooksLikePlannerOutput(text: string) {
    var trimmed := TrimSpace(text);
    && trimmed != ""
    && (HasPrefix(trimmed, "{") || HasPrefix(trimmed, "```")
        || Contains(trimmed, "\"tool_calls\"") || Contains(trimmed, "\"status\""))
  }

  /** Whether a second request is made to repair the answer. */
  ghost predicate NeedsRepair(req: ToolRequest, codec: Codec, text: string) {
    Parsed(req, codec, text).err.Some? && (RequiresCall(req) || LooksLikePlannerOutput(text))
  }

  ghost predicate Repaired(req: ToolRequest, codec: Codec, repair: Repair) {
    repair.Answered? && Parsed(req, codec, repair.text).err.None?
  }

  function RepairError(first: PlanError, repair: Repair): PlanError {
    match repair
    case Answered(_) => RepairFailed(first)
    case Unanswered => RepairUnavailable(first)
    case Silent => first
  }

  /** resolveToolBridgeOutput as a function of the two answers. */
  ghost function Resolved(req: ToolRequest, codec: Codec, text: string, repair: Repair): Plan {
    var plan := Parsed(req, codec, text);
    if plan.err.None? then plan
    else if !NeedsRepair(req, codec, text) then Plan([], TrimSpace(text), true, None)
    else if Repaired(req, codec, repair) then Parsed(req, codec, repair.text)
    else if RequiresCall(req) then Failed(RepairError(plan.err.value, repair), "")
    else Plan([], if TrimSpace(plan.content) != "" then plan.content else "", true, None)
  }

  /** Every call handed out is good; when a call is required the result is an error or
      at least one call, and otherwise never an error. */
  lemma ResolvedIsGood(req: ToolRequest, codec: Codec, text: string, repair: Repair)
    ensures var plan := Resolved(req, codec, text, repair);
      && GoodPlan(req, codec, plan)
      && (RequiresCall(req) ==> plan.err.Some? || |plan.calls| >= 1)
      && (!RequiresCall(req) ==> plan.err.None?)
  {
    ParsedIsGood(req, codec, text);
    if repair.Answered? {
      ParsedIsGood(req, codec, repair.text);
    }
    hide Parsed, GoodCall;
  }

  /** resolveToolBridgeOutput: parse, and where that fails and matters, parse the
      answer to one repair request. */
  method ResolveOutput(req: ToolRequest, codec: Codec, text: string, repair: Repair) returns (plan: Plan, asked: bool)
    requires Sound(codec)
    ensures plan == Resolved(req, codec, text, repair)
    ensures asked <==> NeedsRepair(req, codec, text)
  {
    asked := false;
    plan := ParsePlan(req, codec, text);
    if plan.err.None? {
      return;
    }
    if !RequiresCall(req) && !LooksLikePlannerOutput(text) {
      return Plan([], TrimSpace(text), true, None), false;
    }
    asked := true;
    match repair {
      case Answered(answer) =>
        var repaired := ParsePlan(req, codec, answer);
        if repaired.err.None? {
          return repaired, true;
        }
        plan := plan.(err := Some(RepairFailed(plan.err.value)));
      case Unanswered =>
        plan := plan.(err := Some(RepairUnavailable(plan.err.value)));
      case Silent =>
    }
    if RequiresCall(req) {
      return Failed(plan.err.value, ""), true;
    }
    if TrimSpace(plan.content) != "" {
      return Plan([], plan.content, true, None), true;
    }
    return Plan([], "", true, None), true;
  }
}
