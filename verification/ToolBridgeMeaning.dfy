/** What the tool bridge hands out, said of the model's text: the calls, messages and
    fallbacks a client gets are those of the answer, with their arguments, and an answer
    is taken exactly when every call in it is acceptable (openai_service.go, utils.go). */
module ToolBridgeMeaning {
  import opened Text
  import opened Messages
  import opened SchemaCheck
  import opened ToolBridgePlan
  import JsonScan

  /** What is encoded decodes to the same value, and {} to an object without fields. */
  ghost predicate Faithful(codec: Codec) {
    (forall v: Json :: codec.value(codec.encode(v)) == Some(v)) && codec.value("{}") == Some(Obj(map[]))
  }

  // ---- Arguments ----

  /** The argument text is a quoted text. */
  predicate Quoted(codec: Codec, raw: string) {
    var t := TrimSpace(raw);
    t != "" && t[0] == '"' && codec.text(raw).Some?
  }

  /** The call sends no arguments: nothing, null, or a blank quoted text. */
  predicate SendsNothing(codec: Codec, raw: string) {
    || TrimSpace(raw) == "" || TrimSpace(raw) == "null"
    || (Quoted(codec, raw) && TrimSpace(codec.text(raw).value) == "")
  }

  /** The call sends the value v, directly or as a quoted text. */
  predicate Sends(codec: Codec, raw: string, v: Json) {
    codec.value(if Quoted(codec, raw) then TrimSpace(codec.text(raw).value) else TrimSpace(raw)) == Some(v)
  }

  /** The arguments handed out are the value sent, its links rewritten; {} stands in only
      where nothing was sent. */
  ghost predicate Delivers(codec: Codec, raw: string, arguments: string) {
    if SendsNothing(codec, raw) then arguments == "{}"
    else exists v :: Sends(codec, raw, v) && codec.value(arguments) == Some(codec.sanitize(v))
  }

  lemma ArgumentsArrive(codec: Codec, raw: string)
    requires Faithful(codec)
    ensures match NormalizeArguments(codec, raw)
      case Some(arguments) => Delivers(codec, raw, arguments)
      case None => !SendsNothing(codec, raw) && forall v :: !Sends(codec, raw, v)
  {
    hide TrimSpace;
  }

  // ---- The declared tools ----

  /** Tool i is the last one declared under this name. */
  ghost predicate Declares(tools: seq<Tool>, i: nat, name: string) {
    i < |tools| && Under(tools[i], name) && forall j :: i < j < |tools| ==> !Under(tools[j], name)
  }

  predicate Under(t: Tool, name: string) {
    ToLower(t.kind) == "function" && TrimSpace(t.name) == name != ""
  }

  lemma {:induction false} DeclaredIs(tools: seq<Tool>, name: string)
    ensures name in Declared(tools) <==> exists i: nat :: Declares(tools, i, name)
    ensures forall i: nat :: Declares(tools, i, name) ==>
      i < |tools| && name in Declared(tools) && Declared(tools)[name] == tools[i].parameters
  {
    hide ToLower, TrimSpace;
    if tools == [] {
    } else {
      var n := |tools| - 1;
      DeclaredIs(tools[..n], name);
      if Under(tools[n], name) {
        assert Declares(tools, n, name);
      } else {
        hide Under;
        forall i: nat ensures Declares(tools, i, name) <==> Declares(tools[..n], i, name) {
        }
        assert (name in Declared(tools) <==> name in Declared(tools[..n]))
          && (name in Declared(tools) ==> Declared(tools)[name] == Declared(tools[..n])[name]) by {
          LastUndeclared(tools, name);
        }
      }
    }
  }

  lemma {:induction false} LastUndeclared(tools: seq<Tool>, name: string)
    requires tools != [] && !Under(tools[|tools| - 1], name)
    ensures var rest := Declared(tools[..|tools| - 1]);
      && (name in Declared(tools) <==> name in rest)
      && (name in rest ==> Declared(tools)[name] == rest[name])
  {
    hide ToLower, TrimSpace;
  }

  // ---- Which calls are taken ----

  /** The decoded arguments the client would be given. */
  ghost predicate Arguments(codec: Codec, raw: string, v: Json) {
    if SendsNothing(codec, raw) then v == Obj(map[]) else exists w :: Sends(codec, raw, w) && v == codec.sanitize(w)
  }

  /** A call that may be handed out: named, declared where anything is, the forced one if
      one is forced, its arguments an object that conforms to the schema of the last tool
      declared under its name. */
  ghost predicate Acceptable(req: ToolRequest, codec: Codec, call: PayloadCall) {
    var name := TrimSpace(call.name);
    && name != ""
    && ((exists i: nat, other :: Declares(req.tools, i, other)) ==> exists i: nat :: Declares(req.tools, i, name))
    && (req.choice.Choice? && ToLower(req.choice.kind) == "function" && TrimSpace(req.choice.name) != "" ==>
          name == TrimSpace(req.choice.name))
    && exists fields: map<string, Json> :: Arguments(codec, call.arguments, Obj(fields))
         && Fits(req, codec, name, fields)
  }

  ghost predicate Fits(req: ToolRequest, codec: Codec, name: string, fields: map<string, Json>) {
    forall i: nat, schema: Schema :: Declares(req.tools, i, name) && SchemaIs(codec, req.tools[i].parameters, schema)
      ==> Conforms(Obj(fields), schema, 4)
  }

  ghost predicate SchemaIs(codec: Codec, parameters: string, schema: Schema) {
    parameters != "" && codec.value(parameters) == Some(Obj(schema)) && schema != map[]
  }

  lemma SchemaForIs(req: ToolRequest, codec: Codec, name: string, fields: map<string, Json>)
    ensures Fits(req, codec, name, fields) <==>
      SchemaFor(req, codec, name) != map[] ==> Conforms(Obj(fields), SchemaFor(req, codec, name), 4)
  {
    hide Declares, Declared, Conforms;
    DeclaredIs(req.tools, name);
    if name in Declared(req.tools) {
      var i: nat :| Declares(req.tools, i, name);
      var schema := SchemaFor(req, codec, name);
      assert schema != map[] ==> SchemaIs(codec, req.tools[i].parameters, schema);
    }
  }

  lemma {:induction false} SomeDeclared(tools: seq<Tool>)
    ensures Declared(tools) != map[] <==> exists i: nat, other :: Declares(tools, i, other)
  {
    hide Declares, Declared;
    if i: nat, other :| Declares(tools, i, other) {
      DeclaredIs(tools, other);
    } else if Declared(tools) != map[] {
      var other :| other in Declared(tools);
      DeclaredIs(tools, other);
    }
  }

  lemma ArgumentsIff(codec: Codec, raw: string, v: Json)
    requires Faithful(codec)
    ensures Arguments(codec, raw, v) <==>
      NormalizeArguments(codec, raw).Some? && codec.value(NormalizeArguments(codec, raw).value) == Some(v)
  {
    hide TrimSpace;
  }

  lemma AcceptableIff(req: ToolRequest, codec: Codec, call: PayloadCall, i: nat)
    requires Faithful(codec)
    ensures CallError(req, codec, call, i) == None <==> Acceptable(req, codec, call)
  {
    hide TrimSpace, ToLower, Conforms, Declares, Declared, SchemaFor, NormalizeArguments, Faithful, Arguments, Fits;
    var name, given := TrimSpace(call.name), NormalizeArguments(codec, call.arguments);
    SomeDeclared(req.tools);
    DeclaredIs(req.tools, name);
    forall fields: map<string, Json>
      ensures Arguments(codec, call.arguments, Obj(fields)) <==>
        given.Some? && codec.value(given.value) == Some(Obj(fields))
    {
      ArgumentsIff(codec, call.arguments, Obj(fields));
    }
    if given.Some? && codec.value(given.value).Some? && codec.value(given.value).value.Obj? {
      SchemaForIs(req, codec, name, codec.value(given.value).value.fields);
    }
  }

  lemma {:induction false} NoCallError(req: ToolRequest, codec: Codec, calls: seq<PayloadCall>)
    requires Faithful(codec)
    ensures CallsError(req, codec, calls) == None <==> forall i :: 0 <= i < |calls| ==> Acceptable(req, codec, calls[i])
  {
    hide Faithful, Acceptable, CallError;
    if calls != [] {
      var n := |calls| - 1;
      NoCallError(req, codec, calls[..n]);
      AcceptableIff(req, codec, calls[n], n);
    }
  }

  // ---- A payload ----

  /** A call must be made: the word required, as such or as the kind of an object, or a
      named function. */
  predicate MustCall(req: ToolRequest) {
    match req.choice
    case Word(mode) => ToLower(TrimSpace(mode)) == "required"
    case Choice(kind, name) =>
      (ToLower(kind) == "function" && TrimSpace(name) != "") || ToLower(TrimSpace(kind)) == "required"
    case _ => false
  }

  lemma MustCallIff(req: ToolRequest)
    ensures RequiresCall(req) <==> MustCall(req)
  {
    if req.choice.Choice? && ToLower(req.choice.kind) == "function" {
      LowerTrimmedKind(req.choice.kind);
    }
    hide ToLower, TrimSpace;
  }

  /** The payload may be taken. */
  ghost predicate Takeable(req: ToolRequest, codec: Codec, payload: Payload) {
    var status := ToLower(TrimSpace(payload.status));
    if status == "tool_calls" then
      payload.toolCalls != [] && forall i :: 0 <= i < |payload.toolCalls| ==>
        Acceptable(req, codec, payload.toolCalls[i])
    else (status == "message" || status == "no_tool") && !MustCall(req)
  }

  /** The plan is what the payload says: its calls in order, each under its trimmed name
      with the arguments it was sent, or its trimmed text, or nothing. */
  ghost predicate Says(codec: Codec, payload: Payload, plan: Plan) {
    var status := ToLower(TrimSpace(payload.status));
    if status == "tool_calls" then
      plan.err.None? && plan.content == "" && !plan.noTool && Answers(codec, payload.toolCalls, plan.calls)
    else plan == Plan([], if status == "message" then TrimSpace(payload.content) else "", true, None)
  }

  ghost predicate Answers(codec: Codec, asked: seq<PayloadCall>, calls: seq<Call>) {
    |calls| == |asked| && forall i :: 0 <= i < |calls| ==>
      calls[i].name == TrimSpace(asked[i].name) && Delivers(codec, asked[i].arguments, calls[i].arguments)
  }

  lemma AcceptedCallArrives(req: ToolRequest, codec: Codec, call: PayloadCall)
    requires Faithful(codec) && Acceptable(req, codec, call)
    ensures var given := CallOf(codec, call);
      given.name == TrimSpace(call.name) && Delivers(codec, call.arguments, given.arguments)
  {
    hide TrimSpace, Faithful, Delivers, NormalizeArguments, Fits, Declares;
    ArgumentsArrive(codec, call.arguments);
  }

  /** A payload is taken exactly when it may be, and then the plan is what it says. */
  lemma TakenIff(req: ToolRequest, codec: Codec, payload: Payload, text: string)
    requires Faithful(codec)
    ensures var plan := Validated(req, codec, payload, text);
      && (plan.err.None? <==> Takeable(req, codec, payload))
      && (plan.err.None? ==> Says(codec, payload, plan))
  {
    hide TrimSpace, ToLower, Faithful, Delivers, Acceptable, RequiresCall, MustCall, CallsError, CallOf;
    MustCallIff(req);
    NoCallError(req, codec, payload.toolCalls);
    forall i | 0 <= i < |payload.toolCalls| && Acceptable(req, codec, payload.toolCalls[i])
      ensures CallOf(codec, payload.toolCalls[i]).name == TrimSpace(payload.toolCalls[i].name)
      ensures Delivers(codec, payload.toolCalls[i].arguments, CallOf(codec, payload.toolCalls[i]).arguments)
    {
      AcceptedCallArrives(req, codec, payload.toolCalls[i]);
    }
  }

  // ---- A whole answer ----

  /** Object k of the answer is the first that may be taken. */
  ghost predicate TakesAt(req: ToolRequest, codec: Codec, answer: string, k: nat) {
    var found := JsonScan.Candidates(StripCodeFence(answer));
    && k < |found| && TakeableText(req, codec, found[k])
    && forall j :: 0 <= j < k ==> !TakeableText(req, codec, found[j])
  }

  ghost predicate TakeableText(req: ToolRequest, codec: Codec, text: string) {
    codec.payload(text).Some? && Takeable(req, codec, codec.payload(text).value)
  }

  ghost predicate SaysAt(codec: Codec, answer: string, k: nat, plan: Plan) {
    var found := JsonScan.Candidates(StripCodeFence(answer));
    k < |found| && codec.payload(found[k]).Some? && Says(codec, codec.payload(found[k]).value, plan)
  }

  lemma CandidateTaken(req: ToolRequest, codec: Codec, candidate: string, text: string)
    requires Faithful(codec)
    ensures var plan := CandidatePlan(req, codec, candidate, text);
      && (plan.err.None? <==> TakeableText(req, codec, candidate))
      && (plan.err.None? ==> codec.payload(candidate).Some? && Says(codec, codec.payload(candidate).value, plan))
  {
    hide Faithful, Takeable, Says, Validated;
    if codec.payload(candidate).Some? {
      TakenIff(req, codec, codec.payload(candidate).value, text);
    }
  }

  /** An answer is read as its first object that may be taken; when there is none, what is
      left is its trimmed text. */
  lemma {:induction false} AnswerIs(req: ToolRequest, codec: Codec, answer: string)
    requires Faithful(codec)
    ensures var plan := Parsed(req, codec, answer);
      if plan.err.None? then exists k: nat :: TakesAt(req, codec, answer, k) && SaysAt(codec, answer, k, plan)
      else
        && (forall k: nat :: !TakesAt(req, codec, answer, k))
        && plan.calls == [] && plan.content == if StripCodeFence(answer) == "" then "" else TrimSpace(answer)
  {
    hide Faithful, TakeableText, Says, CandidatePlan, StripCodeFence, TrimSpace;
    var cleaned := StripCodeFence(answer);
    var found := JsonScan.Candidates(cleaned);
    NoText();
    FirstValidIs(req, codec, found, answer, None);
    FailedKeepsText(req, codec, found, answer, None);
    forall k | 0 <= k < |found|
      ensures var plan := CandidatePlan(req, codec, found[k], answer);
        && (plan.err.None? <==> TakeableText(req, codec, found[k]))
        && (plan.err.None? ==> codec.payload(found[k]).Some? && Says(codec, codec.payload(found[k]).value, plan))
    {
      CandidateTaken(req, codec, found[k], answer);
    }
    if cleaned != "" && Parsed(req, codec, answer).err.None? {
      var k :| 0 <= k < |found| && Parsed(req, codec, answer) == CandidatePlan(req, codec, found[k], answer)
        && forall j :: 0 <= j < k ==> CandidatePlan(req, codec, found[j], answer).err.Some?;
      assert TakesAt(req, codec, answer, k) && SaysAt(codec, answer, k, Parsed(req, codec, answer));
    }
  }

  lemma NoText()
    ensures JsonScan.Candidates("") == []
  {
  }

  lemma {:induction false} FailedKeepsText(req: ToolRequest, codec: Codec, candidates: seq<string>, text: string,
                                           err: Option<PlanError>)
    ensures var plan := FirstValid(req, codec, candidates, text, err);
      plan.err.Some? ==> plan.calls == [] && plan.content == TrimSpace(text)
  {
    hide CandidatePlan, TrimSpace;
    if candidates != [] {
      var first := CandidatePlan(req, codec, candidates[0], text);
      FailedKeepsText(req, codec, candidates[1..], text, if err.Some? then err else first.err);
    }
  }

  /** The text reads like an attempt at tool-call JSON. */
  ghost predicate LooksLikeAttempt(text: string) {
    var t := TrimSpace(text);
    t != "" && (t[0] == '{' || "```" <= t || Occurs("\"tool_calls\"", t) || Occurs("\"status\"", t))
  }

  ghost predicate Occurs(word: string, text: string) {
    exists a, b :: text == a + word + b
  }

  lemma {:induction false} LastIndexFinds(s: string, sub: string, i: nat)
    requires i <= |s|
    ensures LastIndexUpTo(s, sub, i) >= 0 <==> exists k :: 0 <= k <= i && sub <= s[k..]
  {
    if !(sub <= s[i..]) && i > 0 {
      LastIndexFinds(s, sub, i - 1);
    }
  }

  lemma ContainsIff(s: string, sub: string)
    ensures Contains(s, sub) <==> Occurs(sub, s)
  {
    LastIndexFinds(s, sub, |s|);
    if k :| 0 <= k <= |s| && sub <= s[k..] {
      assert s == s[..k] + sub + s[k + |sub|..];
    }
    if a, b :| s == a + sub + b {
      assert s[|a|..] == sub + b;
    }
  }

  lemma LooksIff(text: string)
    ensures LooksLikePlannerOutput(text) <==> LooksLikeAttempt(text)
  {
    hide TrimSpace, Contains, Occurs;
    ContainsIff(TrimSpace(text), "\"tool_calls\"");
    ContainsIff(TrimSpace(text), "\"status\"");
  }

  /** What the client is handed in the end. The first object of the answer that may be
      taken; else, where a call is required or the answer looks like an attempt at one,
      that of the repaired answer; else an error where a call is required, and otherwise
      the answer's own text. */
  lemma OutputIs(req: ToolRequest, codec: Codec, text: string, repair: Repair)
    requires Faithful(codec)
    ensures var plan := Resolved(req, codec, text, repair);
      var repairs := (MustCall(req) || LooksLikeAttempt(text)) && repair.Answered?;
      if exists k: nat :: TakesAt(req, codec, text, k) then
        exists k: nat :: TakesAt(req, codec, text, k) && SaysAt(codec, text, k, plan)
      else if repairs && exists k: nat :: TakesAt(req, codec, repair.text, k) then
        exists k: nat :: TakesAt(req, codec, repair.text, k) && SaysAt(codec, repair.text, k, plan)
      else if MustCall(req) then plan.err.Some? && plan.calls == []
      else plan == Plan([], if StripCodeFence(text) == "" then "" else TrimSpace(text), true, None)
  {
    hide Faithful, Parsed, TakesAt, SaysAt, StripCodeFence, LooksLikePlannerOutput, LooksLikeAttempt;
    hide MustCall, RequiresCall, TrimSpace;
    MustCallIff(req);
    LooksIff(text);
    AnswerIs(req, codec, text);
    if repair.Answered? {
      AnswerIs(req, codec, repair.text);
    }
    TrimIdempotent(text);
    BlankAnswer(text);
  }

  /** Text that is left when there is no more than a fence to read is looked at as an
      attempt, unless it is blank. */
  lemma BlankAnswer(text: string)
    ensures StripCodeFence(text) == "" && !LooksLikeAttempt(text) ==> TrimSpace(text) == ""
    ensures TrimSpace("") == ""
  {
    hide TrimSpace;
    BlankTrims("");
  }

  // ---- Code fences ----

  lemma {:induction false} TrimRightAfter(x: string, y: string)
    requires x == "" || !IsSpace(x[|x| - 1])
    ensures TrimRight(x + y) == x + TrimRight(y)
  {
    if y == "" {
      assert x + y == x;
    } else if IsSpace(y[|y| - 1]) {
      TrimRightAfter(x, y[..|y| - 1]);
      assert (x + y)[..|x + y| - 1] == x + y[..|y| - 1];
    }
  }

  lemma {:induction false} TrimLeftBefore(x: string, y: string)
    requires y != "" && !IsSpace(y[0])
    ensures TrimLeft(x + y) == TrimLeft(x) + y
  {
    if x == "" {
      assert x + y == y;
    } else if IsSpace(x[0]) {
      TrimLeftBefore(x[1..], y);
      assert (x + y)[1..] == x[1..] + y;
    }
  }

  lemma {:induction false} TrimLeftTwice(s: string)
    ensures TrimLeft(TrimLeft(s)) == TrimLeft(s)
  {
    if s != "" && IsSpace(s[0]) {
      TrimLeftTwice(s[1..]);
    }
  }

  lemma {:induction false} TrimRightIsPrefix(s: string)
    ensures TrimRight(s) <= s
  {
    if s != "" && IsSpace(s[|s| - 1]) {
      TrimRightIsPrefix(s[..|s| - 1]);
      assert s[..|s| - 1] <= s;
    }
  }

  const FENCE: string := "```"

  /** Trimming what lies around a closing fence. */
  lemma {:induction false} TrimFenced(a: string, b: string)
    ensures TrimSpace(a + FENCE + b) == TrimLeft(a) + FENCE + TrimRight(b)
  {
    hide TrimLeft, TrimRight;
    TrimLeftBefore(a, FENCE + b);
    Around(a, FENCE, b);
    Around(TrimLeft(a), FENCE, b);
    TrimRightAfter(TrimLeft(a) + FENCE, b);
  }

  lemma Around(a: string, b: string, c: string)
    ensures a + b + c == a + (b + c)
    ensures b != "" ==> (a + b)[|a + b| - 1] == b[|b| - 1] && (b + c)[0] == b[0]
  {
  }

  lemma {:induction false} FenceIsLast(a: string, b: string, i: nat)
    requires '`' !in b && |a| <= i <= |a + FENCE + b|
    ensures LastIndexUpTo(a + FENCE + b, FENCE, i) == |a|
  {
    var s := a + FENCE + b;
    if i == |a| {
      assert s[i..] == FENCE + b;
    } else {
      if |s[i..]| >= 3 {
        assert s[i..][2] == b[i - |a| - 1];
        assert s[i..][2] in b;
      }
      FenceIsLast(a, b, i - 1);
    }
  }

  lemma {:induction false} TrimRightTwice(s: string)
    ensures TrimRight(TrimRight(s)) == TrimRight(s)
  {
    if s != "" && IsSpace(s[|s| - 1]) {
      TrimRightTwice(s[..|s| - 1]);
    }
  }

  lemma {:induction false} OpenedFence(lead: string, inner: string)
    requires Blank(lead)
    ensures TrimSpace(lead + FENCE + inner) == FENCE + TrimRight(inner)
    ensures (FENCE + TrimRight(inner))[3..] == TrimRight(inner) && HasPrefix(FENCE + TrimRight(inner), FENCE)
  {
    assert lead + FENCE + inner == lead + (FENCE + inner);
    TrimLeftSkips(lead, FENCE + inner);
    TrimRightAfter(FENCE, inner);
  }

  lemma NotAhead(word: string, body: string, more: string)
    requires more != "" && more[0] == '`'
    ensures HasPrefix(body + more, word) ==> HasPrefix(body, word) || '`' in word
  {
    if word <= body + more {
      if |body| < |word| {
        assert word[|body|] == (body + more)[|body|] == '`';
      } else {
        assert word == (body + more)[..|word|] == body[..|word|];
      }
    }
  }

  /** A tag after the opening fence goes. */
  lemma LabelGoes(tag: string, body: string, more: string)
    requires Labels(tag, body) && more != "" && more[0] == '`'
    ensures TrimPrefix(TrimPrefix(tag + (body + more), "json"), "JSON") == body + more
  {
    if tag == "" {
      NotAhead("json", body, more);
      NotAhead("JSON", body, more);
      assert tag + (body + more) == body + more;
    } else if tag == "json" {
      NotAhead("JSON", body, more);
      assert (tag + (body + more))[4..] == body + more;
    } else {
      assert (tag + (body + more))[0] == 'J';
      assert (tag + (body + more))[4..] == body + more;
    }
  }

  /** The tag is all of what the code takes for one. */
  predicate Labels(tag: string, body: string) {
    || (tag == "" && !HasPrefix(body, "json") && !HasPrefix(body, "JSON"))
    || (tag == "json" && !HasPrefix(body, "JSON"))
    || tag == "JSON"
  }

  /** A fenced text is what stands in the fence, trimmed, with or without the json tag;
      what comes after the last fence is dropped. */
  lemma FenceIsStripped(lead: string, tag: string, body: string, rest: string)
    requires Blank(lead) && Labels(tag, body) && '`' !in rest
    ensures StripCodeFence(lead + FENCE + (tag + (body + (FENCE + rest)))) == TrimSpace(body)
  {
    hide TrimLeft, TrimRight, IsSpace, LastIndexUpTo, TrimPrefix, HasPrefix;
    var end := TrimRight(rest);
    TrimRightIsPrefix(rest);
    OpenedFence(lead, tag + (body + (FENCE + rest)));
    InnerTrims(tag, body, rest);
    LabelGoes(tag, body, FENCE + end);
    TrimFenced(body, end);
    assert body + FENCE + end == body + (FENCE + end);
    TrimRightTwice(rest);
    FenceIsLast(TrimLeft(body), end, |TrimLeft(body) + FENCE + end|);
    TrimLeftTwice(body);
    assert (TrimLeft(body) + FENCE + end)[..|TrimLeft(body)|] == TrimLeft(body);
  }

  lemma {:induction false} InnerTrims(tag: string, body: string, rest: string)
    ensures TrimRight(tag + (body + (FENCE + rest))) == tag + (body + (FENCE + TrimRight(rest)))
  {
    TrimRightAfter(tag + body + FENCE, rest);
    assert tag + body + FENCE + rest == tag + (body + (FENCE + rest));
    assert tag + body + FENCE + TrimRight(rest) == tag + (body + (FENCE + TrimRight(rest)));
  }

  /** Without an opening fence only white space goes. */
  lemma NoFence(text: string)
    requires !HasPrefix(TrimSpace(text), FENCE)
    ensures StripCodeFence(text) == TrimSpace(text)
  {
  }
}
