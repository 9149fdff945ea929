/** JSON texts as RFC 8259 writes them: sections 2 (white space, structure),
    4 (objects), 5 (arrays), 6 (numbers) and 7 (strings). A value is a concrete
    syntax tree; Render is the text it stands for. */
module JsonText {

  datatype StrChar = Plain(c: char) | Escaped(c: char) | Unicode(h0: char, h1: char, h2: char, h3: char)

  datatype Value =
    | True | False | Null
    | Number(negative: bool, digits: string, fraction: string, exponent: string)
    | Str(chars: seq<StrChar>)
    | Arr(space: string, items: Items)
    | Obj(space: string, members: Members)

  /** The members of an object; space is used only when there are none. */
  datatype Members =
    | NoMembers
    | Member(before: string, key: seq<StrChar>, mid: string, pre: string, value: Value, after: string, rest: Members)

  datatype Items =
    | NoItems
    | Item(before: string, value: Value, after: string, rest: Items)

  predicate Space(s: string) {
    forall i :: 0 <= i < |s| ==> s[i] == ' ' || s[i] == '\t' || s[i] == '\n' || s[i] == '\r'
  }

  predicate Digits(s: string) {
    s != "" && forall i :: 0 <= i < |s| ==> '0' <= s[i] <= '9'
  }

  predicate Hex(c: char) {
    '0' <= c <= '9' || 'a' <= c <= 'f' || 'A' <= c <= 'F'
  }

  predicate GoodChar(x: StrChar) {
    match x
    case Plain(c) => c >= ' ' && c != '"' && c != '\\'
    case Escaped(c) =>
      c == '"' || c == '\\' || c == '/' || c == 'b' || c == 'f' || c == 'n' || c == 'r' || c == 't'
    case Unicode(h0, h1, h2, h3) => Hex(h0) && Hex(h1) && Hex(h2) && Hex(h3)
  }

  predicate GoodChars(chars: seq<StrChar>) {
    forall i :: 0 <= i < |chars| ==> GoodChar(chars[i])
  }

  predicate GoodFraction(s: string) {
    s == "" || (s[0] == '.' && Digits(s[1..]))
  }

  predicate GoodExponent(s: string) {
    s == ""
    || ((s[0] == 'e' || s[0] == 'E')
        && (Digits(s[1..]) || (|s| > 1 && (s[1] == '+' || s[1] == '-') && Digits(s[2..]))))
  }

  predicate WellFormed(v: Value) {
    match v
    case True => true
    case False => true
    case Null => true
    case Number(_, digits, fraction, exponent) =>
      Digits(digits) && (digits[0] == '0' ==> |digits| == 1) && GoodFraction(fraction) && GoodExponent(exponent)
    case Str(chars) => GoodChars(chars)
    case Arr(space, items) => Space(space) && WellFormedItems(items)
    case Obj(space, members) => Space(space) && WellFormedMembers(members)
  }

  predicate WellFormedItems(items: Items) {
    match items
    case NoItems => true
    case Item(before, v, after, rest) => Space(before) && WellFormed(v) && Space(after) && WellFormedItems(rest)
  }

  predicate WellFormedMembers(members: Members) {
    match members
    case NoMembers => true
    case Member(before, key, mid, pre, v, after, rest) =>
      Space(before) && GoodChars(key) && Space(mid) && Space(pre) && WellFormed(v) && Space(after)
      && WellFormedMembers(rest)
  }

  function RenderChar(x: StrChar): string {
    match x
    case Plain(c) => [c]
    case Escaped(c) => ['\\', c]
    case Unicode(h0, h1, h2, h3) => ['\\', 'u', h0, h1, h2, h3]
  }

  function RenderChars(chars: seq<StrChar>): string {
    if chars == [] then "" else RenderChar(chars[0]) + RenderChars(chars[1..])
  }

  function RenderString(chars: seq<StrChar>): string {
    "\"" + RenderChars(chars) + "\""
  }

  function Render(v: Value): string {
    match v
    case True => "true"
    case False => "false"
    case Null => "null"
    case Number(negative, digits, fraction, exponent) =>
      (if negative then "-" else "") + digits + fraction + exponent
    case Str(chars) => RenderString(chars)
    case Arr(space, items) => "[" + (if items.NoItems? then space else RenderItems(items)) + "]"
    case Obj(space, members) => "{" + (if members.NoMembers? then space else RenderMembers(members)) + "}"
  }

  function RenderItems(items: Items): string {
    match items
    case NoItems => ""
    case Item(before, v, after, rest) =>
      before + Render(v) + after + (if rest.NoItems? then "" else "," + RenderItems(rest))
  }

  function RenderMembers(members: Members): string {
    match members
    case NoMembers => ""
    case Member(before, key, mid, pre, v, after, rest) =>
      before + RenderString(key) + mid + ":" + pre + Render(v) + after
      + (if rest.NoMembers? then "" else "," + RenderMembers(rest))
  }
}
