/** Chat messages and the fingerprints the conversation index is keyed by
    (openai_service.go). A fingerprint is modelled as the normalized value that is
    hashed, which makes it injective. The empty strings that stand for "no id" and
    "no key" are NoId, NoKey and NoWindow. */
module Messages {
  import opened Text

  /** A provider or client conversation id, trimmed. */
  datatype Id = NoId | Id(text: string)

  function CanonicalId(raw: string): Id {
    if TrimSpace(raw) == "" then NoId else Id(TrimSpace(raw))
  }

  datatype ToolCall = ToolCall(id: string, kind: string, name: string, arguments: string)

  datatype Attachment = Attachment(name: string, mimeType: string, data: string, url: string, fileID: string)

  datatype Message = Message(role: string, content: string, toolCalls: seq<ToolCall>, toolCallID: string,
                             name: string, attachments: seq<Attachment>)

  datatype UserTurn = UserTurn(content: string, attachments: seq<Attachment>)

  datatype Key = NoKey | Key(messages: seq<Message>)

  datatype WindowKey = NoWindow | Window(turns: seq<UserTurn>)

  /** A tool of a request, as the client declares it. */
  datatype Tool = Tool(kind: string, name: string, description: string, parameters: string)

  predicate IsFunctionTool(t: Tool) {
    ToLower(t.kind) == "function" && TrimSpace(t.name) != ""
  }

  /** A declared tool as the model is told about it. */
  datatype ToolSpec = ToolSpec(name: string, description: string, parameters: string)

  /** The name-sorted tool list whose hash stands for a tool set. */
  datatype Signature = NoSignature | Signature(tools: seq<ToolSpec>)

  datatype Option<T> = None | Some(value: T) {
    function GetOr(otherwise: T): T {
      if Some? then value else otherwise
    }
  }

  function RoleOf(m: Message): string {
    ToLower(TrimSpace(m.role))
  }

  predicate IsUser(m: Message) {
    RoleOf(m) == "user"
  }

  /** A user message that says something. */
  predicate Usable(m: Message) {
    IsUser(m) && (TrimSpace(m.content) != "" || m.attachments != [])
  }

  function Normalize(m: Message): Message {
    Message(RoleOf(m), TrimSpace(m.content), m.toolCalls, TrimSpace(m.toolCallID), TrimSpace(m.name), m.attachments)
  }

  function Normalized(messages: seq<Message>): seq<Message> {
    seq(|messages|, i requires 0 <= i < |messages| => Normalize(messages[i]))
  }

  /** transcriptFingerprint. */
  function Fingerprint(messages: seq<Message>): Key {
    if messages == [] then NoKey else Key(Normalized(messages))
  }

  /** conversationRootFingerprint: leading system messages and the first user
      message; none when anything else comes first. */
  function RootFingerprint(messages: seq<Message>): Key {
    Fingerprint(RootOf(messages))
  }

  function RootOf(messages: seq<Message>): seq<Message> {
    if messages == [] then []
    else if RoleOf(messages[0]) == "system" then
      var rest := RootOf(messages[1..]);
      if rest == [] then [] else [messages[0]] + rest
    else if IsUser(messages[0]) then [messages[0]]
    else []
  }

  function TurnOf(m: Message): seq<UserTurn> {
    if Usable(m) then [UserTurn(TrimSpace(m.content), m.attachments)] else []
  }

  function UserTurns(messages: seq<Message>): seq<UserTurn> {
    if messages == [] then []
    else
      UserTurns(messages[..|messages| - 1]) + TurnOf(messages[|messages| - 1])
  }

  function LastN<T>(s: seq<T>, n: nat): seq<T> {
    if |s| <= n then s else s[|s| - n..]
  }

  /** userWindowFingerprint: the last maxUsers usable user turns, if there are at
      least minUsers. */
  function WindowFingerprint(messages: seq<Message>, minUsers: int, maxUsers: int): WindowKey {
    if minUsers <= 0 || maxUsers < minUsers then NoWindow
    else
      var users := LastN(UserTurns(messages), maxUsers);
      if |users| < minUsers then NoWindow else Window(users)
  }

  lemma UserTurnsStep(messages: seq<Message>, i: nat)
    requires i < |messages|
    ensures UserTurns(messages[..i + 1]) == UserTurns(messages[..i]) + TurnOf(messages[i])
  {
    assert messages[..i + 1][..i] == messages[..i];
  }

  /** users are the usable turns from position n on. */
  ghost predicate TurnsFrom(messages: seq<Message>, n: nat, users: seq<UserTurn>)
    requires n <= |messages|
  {
    UserTurns(messages[..n]) + users == UserTurns(messages)
  }

  lemma TurnsFromEnd(messages: seq<Message>)
    ensures TurnsFrom(messages, |messages|, [])
  {
    hide UserTurns;
    assert messages[..|messages|] == messages;
  }

  lemma TurnsFromStep(messages: seq<Message>, i: nat, users: seq<UserTurn>)
    requires i < |messages| && TurnsFrom(messages, i + 1, users)
    ensures TurnsFrom(messages, i, TurnOf(messages[i]) + users)
  {
    hide UserTurns, TurnOf;
    UserTurnsStep(messages, i);
    Assoc(UserTurns(messages[..i]), TurnOf(messages[i]), users);
  }

  lemma TurnAdds(m: Message, users: seq<UserTurn>)
    ensures TurnOf(m) + users
         == if Usable(m) then [UserTurn(TrimSpace(m.content), m.attachments)] + users else users
  {
  }

  method UserWindow(messages: seq<Message>, minUsers: int, maxUsers: int) returns (key: WindowKey)
    ensures key == WindowFingerprint(messages, minUsers, maxUsers)
  {
    if minUsers <= 0 || maxUsers < minUsers {
      return NoWindow;
    }
    hide UserTurns, Usable, TrimSpace, WindowFingerprint, TurnOf, TurnsFrom;
    var users: seq<UserTurn> := [];
    var i := |messages| - 1;
    TurnsFromEnd(messages);
    while i >= 0 && |users| < maxUsers
      invariant -1 <= i < |messages|
      invariant |users| <= maxUsers
      invariant TurnsFrom(messages, i + 1, users)
    {
      var msg := messages[i];
      TurnsFromStep(messages, i, users);
      TurnAdds(msg, users);
      if Usable(msg) {
        users := [UserTurn(TrimSpace(msg.content), msg.attachments)] + users;
      }
      i := i - 1;
    }
    WindowFound(messages, i + 1, users, minUsers, maxUsers);
    key := if |users| < minUsers then NoWindow else Window(users);
  }

  lemma WindowFound(messages: seq<Message>, i: nat, users: seq<UserTurn>, minUsers: nat, maxUsers: nat)
    requires 0 < minUsers <= maxUsers && i <= |messages| && TurnsFrom(messages, i, users)
    requires |users| == maxUsers || (i == 0 && |users| <= maxUsers)
    ensures WindowFingerprint(messages, minUsers, maxUsers) == if |users| < minUsers then NoWindow else Window(users)
  {
    LastNIs(UserTurns(messages[..i]), users, maxUsers);
  }

  lemma LastNIs<T>(front: seq<T>, back: seq<T>, n: nat)
    requires |back| == n || (front == [] && |back| <= n)
    ensures LastN(front + back, n) == back
  {
  }

  /** latestUserMessage. */
  function LatestUser(messages: seq<Message>): Option<Message> {
    if messages != [] && Usable(messages[|messages| - 1]) then Some(messages[|messages| - 1]) else None
  }

  /** splitOpenAIHistoryPrefix. */
  function SplitHistory(messages: seq<Message>): Option<(seq<Message>, Message)> {
    if |messages| >= 2 && LatestUser(messages).Some? then
      Some((messages[..|messages| - 1], LatestUser(messages).value))
    else None
  }

  /** mergeRecoveryMessages: the request as it stands when it already contains the
      retained transcript, otherwise appended to it when it is one new user turn. */
  function MergeRecovery(base: seq<Message>, incoming: seq<Message>): seq<Message> {
    if base == [] || incoming == [] then incoming
    else if |incoming| >= |base| && Fingerprint(incoming[..|base|]) == Fingerprint(base) then incoming
    else if |incoming| == 1 && LatestUser(incoming).Some? then base + incoming
    else incoming
  }

  function Assistant(content: string): Message {
    Message("assistant", content, [], "", "", [])
  }

  // ---- Facts ----

  lemma NormalizeIdempotent(m: Message)
    ensures Normalize(Normalize(m)) == Normalize(m)
  {
    TrimIdempotent(m.role);
    TrimIdempotent(m.content);
    TrimIdempotent(m.toolCallID);
    TrimIdempotent(m.name);
    LowerTrimmed(TrimSpace(m.role));
  }

  lemma LowerTrimmed(s: string)
    requires TrimSpace(s) == s
    ensures ToLower(ToLower(s)) == ToLower(s) && TrimSpace(ToLower(s)) == ToLower(s)
  {
    TrimSplitSolid(s);
    TrimCore("", ToLower(s), "");
    assert "" + ToLower(s) + "" == ToLower(s);
  }

  lemma {:induction false} UserTurnsAppend(a: seq<Message>, b: seq<Message>)
    ensures UserTurns(a + b) == UserTurns(a) + UserTurns(b)
  {
    if b == [] {
      assert a + b == a;
    } else {
      var n := |b| - 1;
      UserTurnsAppend(a, b[..n]);
      assert (a + b)[..|a + b| - 1] == a + b[..n];
      Assoc(UserTurns(a), UserTurns(b[..n]), TurnOf(b[n]));
    }
  }

  /** The last n of a suffix that has n are the last n of the whole. */
  lemma LastNOfSuffix<T>(a: seq<T>, b: seq<T>, n: nat)
    requires n <= |b|
    ensures LastN(a + b, n) == LastN(b, n)
  {
  }
}
