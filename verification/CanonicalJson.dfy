// The canonical text of a JSON value, from which message identifiers are hashed:
// object members in key order, no white space, strings escaped as section 7 of
// RFC 8259 requires.
module CanonicalJson {
  import opened Prelude
  import opened Ordering

  // ------------------------------------------------------------- data model

  // An object is its members in the order they are iterated; a number is its
  // token.
  datatype Json =
    | Null
    | Bool(b: bool)
    | Number(token: string)
    | Text(s: string)
    | Array(items: seq<Json>)
    | Object(members: seq<Member>)

  datatype Member = Member(key: string, value: Json)

  predicate IsNumberChar(c: char) {
    IsDigit(c) || c in {'-', '+', '.', 'e', 'E'}
  }

  predicate IsNumber(token: string) {
    token != "" && forall i :: 0 <= i < |token| ==> IsNumberChar(token[i])
  }

  predicate DistinctKeys(ms: seq<Member>) {
    forall i, j :: 0 <= i < j < |ms| ==> ms[i].key != ms[j].key
  }

  predicate WellFormed(v: Json) {
    match v
    case Number(token) => IsNumber(token)
    case Array(items) => forall i :: 0 <= i < |items| ==> WellFormed(items[i])
    case Object(ms) => DistinctKeys(ms) && forall i :: 0 <= i < |ms| ==> WellFormed(ms[i].value)
    case _ => true
  }

  // Equal but for the order of object members, at any depth.
  predicate Equivalent(a: Json, b: Json) {
    match a
    case Array(items) =>
      b.Array? && |items| == |b.items| && forall i :: 0 <= i < |items| ==> Equivalent(items[i], b.items[i])
    case Object(ms) =>
      && b.Object? && |ms| == |b.members|
      && forall i :: 0 <= i < |ms| ==>
                       exists j :: 0 <= j < |b.members| && ms[i].key == b.members[j].key
                                   && Equivalent(ms[i].value, b.members[j].value)
    case _ => a == b
  }

  // ---------------------------------------------------- sorting rendered members

  // A member's key with anything made of its value.
  datatype Keyed<T> = Keyed(key: string, item: T)

  predicate KeyBefore<T>(a: Keyed<T>, b: Keyed<T>) {
    Before(a.key, b.key)
  }

  predicate SameKey<T>(a: Keyed<T>, b: Keyed<T>) {
    a.key == b.key
  }

  function Sort<T>(ps: seq<Keyed<T>>): (r: seq<Keyed<T>>)
    ensures |r| == |ps|
  {
    SortBy(KeyBefore, ps)
  }

  // ------------------------------------------------------------- the encoder

  function HexDigit(n: nat): char
    requires n < 16
  {
    if n < 10 then '0' + n as char else 'a' + (n - 10) as char
  }

  function Escape(c: char): string {
    match c
    case '"' => "\\\""
    case '\\' => "\\\\"
    case '\U{8}' => "\\b"
    case '\U{C}' => "\\f"
    case '\n' => "\\n"
    case '\r' => "\\r"
    case '\t' => "\\t"
    case _ =>
      if c < ' ' then "\\u00" + [HexDigit(c as nat / 16), HexDigit(c as nat % 16)] else [c]
  }

  function Escaped(s: string): string {
    if s == "" then "" else Escape(s[0]) + Escaped(s[1..])
  }

  function Quoted(s: string): string {
    "\"" + Escaped(s) + "\""
  }

  function Joined(ps: seq<Keyed<string>>): string {
    if ps == [] then ""
    else if |ps| == 1 then Quoted(ps[0].key) + ":" + ps[0].item
    else Quoted(ps[0].key) + ":" + ps[0].item + "," + Joined(ps[1..])
  }

  function Canonical(v: Json): string {
    match v
    case Null => "null"
    case Bool(b) => if b then "true" else "false"
    case Number(token) => token
    case Text(s) => Quoted(s)
    case Array(items) => "[" + CanonicalItems(items) + "]"
    case Object(ms) => "{" + Joined(Sort(Rendered(ms))) + "}"
  }

  function CanonicalItems(items: seq<Json>): string {
    if items == [] then ""
    else if |items| == 1 then Canonical(items[0])
    else Canonical(items[0]) + "," + CanonicalItems(items[1..])
  }

  function Rendered(ms: seq<Member>): (ps: seq<Keyed<string>>)
    ensures |ps| == |ms|
  {
    if ms == [] then [] else [Keyed(ms[0].key, Canonical(ms[0].value))] + Rendered(ms[1..])
  }

  // --------------------------------------------------------------- a parser

  function HexValue(c: char): Option<nat> {
    if IsDigit(c) then Some(c as nat - '0' as nat)
    else if 'a' <= c <= 'f' then Some(c as nat - 'a' as nat + 10)
    else if 'A' <= c <= 'F' then Some(c as nat - 'A' as nat + 10)
    else None
  }

  function Hex4(s: string): Option<char>
    requires |s| >= 4
  {
    if HexValue(s[0]).None? || HexValue(s[1]).None? || HexValue(s[2]).None? || HexValue(s[3]).None? then None
    else
      var n := HexValue(s[0]).value * 4096 + HexValue(s[1]).value * 256 + HexValue(s[2]).value * 16
               + HexValue(s[3]).value;
      if n < 0xD800 || 0xE000 <= n < 0x1_0000 then Some(n as char) else None
  }

  // One character of a string, escaped or not, and what follows it.
  function ParseChar(s: string): (r: Option<(char, string)>)
    ensures r.Some? ==> |r.value.1| < |s|
  {
    if s == "" || s[0] == '"' || s[0] < ' ' then None
    else if s[0] != '\\' then Some((s[0], s[1..]))
    else if |s| < 2 then None
    else
      match s[1]
      case '"' => Some(('"', s[2..]))
      case '\\' => Some(('\\', s[2..]))
      case '/' => Some(('/', s[2..]))
      case 'b' => Some(('\U{8}', s[2..]))
      case 'f' => Some(('\U{C}', s[2..]))
      case 'n' => Some(('\n', s[2..]))
      case 'r' => Some(('\r', s[2..]))
      case 't' => Some(('\t', s[2..]))
      case 'u' =>
        if |s| < 6 || Hex4(s[2..]).None? then None else Some((Hex4(s[2..]).value, s[6..]))
      case _ => None
  }

  // The rest of a string after its opening quote.
  function ParseString(s: string): (r: Option<(string, string)>)
    ensures r.Some? ==> |r.value.1| < |s|
    decreases |s|
  {
    if s != "" && s[0] == '"' then Some(("", s[1..]))
    else
      var c := ParseChar(s);
      if c.None? then None
      else
        var more := ParseString(c.value.1);
        if more.None? then None else Some(([c.value.0] + more.value.0, more.value.1))
  }

  function NumberEnd(s: string): (n: nat)
    ensures n <= |s|
  {
    if s == "" || !IsNumberChar(s[0]) then 0 else 1 + NumberEnd(s[1..])
  }

  function Parse(s: string): (r: Option<(Json, string)>)
    ensures r.Some? ==> |r.value.1| < |s|
    decreases |s|, 1
  {
    if s == "" then None
    else if s[0] == '"' then
      var text := ParseString(s[1..]);
      if text.None? then None else Some((Text(text.value.0), text.value.1))
    else if s[0] == '[' then
      if |s| > 1 && s[1] == ']' then Some((Array([]), s[2..]))
      else
        var items := ParseItems(s[1..]);
        if items.None? then None else Some((Array(items.value.0), items.value.1))
    else if s[0] == '{' then
      if |s| > 1 && s[1] == '}' then Some((Object([]), s[2..]))
      else
        var members := ParseMembers(s[1..]);
        if members.None? then None else Some((Object(members.value.0), members.value.1))
    else if "null" <= s then Some((Null, s[4..]))
    else if "true" <= s then Some((Bool(true), s[4..]))
    else if "false" <= s then Some((Bool(false), s[5..]))
    else if NumberEnd(s) > 0 then Some((Number(s[..NumberEnd(s)]), s[NumberEnd(s)..]))
    else None
  }

  function ParseItems(s: string): (r: Option<(seq<Json>, string)>)
    ensures r.Some? ==> |r.value.1| < |s|
    decreases |s|, 2
  {
    var first := Parse(s);
    if first.None? || first.value.1 == "" then None
    else if first.value.1[0] == ']' then Some(([first.value.0], first.value.1[1..]))
    else if first.value.1[0] != ',' then None
    else
      var more := ParseItems(first.value.1[1..]);
      if more.None? then None else Some(([first.value.0] + more.value.0, more.value.1))
  }

  function ParseMembers(s: string): (r: Option<(seq<Member>, string)>)
    ensures r.Some? ==> |r.value.1| < |s|
    decreases |s|, 0
  {
    if s == "" || s[0] != '"' then None
    else
      var key := ParseString(s[1..]);
      if key.None? || key.value.1 == "" || key.value.1[0] != ':' then None
      else
        var first := Parse(key.value.1[1..]);
        if first.None? || first.value.1 == "" then None
        else if first.value.1[0] == '}' then Some(([Member(key.value.0, first.value.0)], first.value.1[1..]))
        else if first.value.1[0] != ',' then None
        else
          var more := ParseMembers(first.value.1[1..]);
          if more.None? then None else Some(([Member(key.value.0, first.value.0)] + more.value.0, more.value.1))
  }
}
