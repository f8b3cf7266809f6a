// Shared vocabulary: optional values, fallible results and the string helpers
// (`str::trim`, blank tests) that the delivery code applies everywhere.
module Prelude {

  datatype Option<+T> = None | Some(value: T)

  datatype Result<+T> = Ok(value: T) | Err(error: string)

  datatype Unit = Unit

  function Or<T>(a: Option<T>, b: Option<T>): Option<T> {
    if a.Some? then a else b
  }

  function Min(a: int, b: int): int {
    if a <= b then a else b
  }

  function Max(a: int, b: int): int {
    if a <= b then b else a
  }

  // The characters with Unicode property White_Space, which `str::trim` strips.
  predicate IsWhitespace(c: char) {
    || '\t' <= c <= '\r'
    || c == ' '
    || c == '\U{85}'
    || c == '\U{A0}'
    || c == '\U{1680}'
    || '\U{2000}' <= c <= '\U{200A}'
    || c == '\U{2028}'
    || c == '\U{2029}'
    || c == '\U{202F}'
    || c == '\U{205F}'
    || c == '\U{3000}'
  }

  function TrimStart(s: string): string {
    if s != "" && IsWhitespace(s[0]) then TrimStart(s[1..]) else s
  }

  function TrimEnd(s: string): string {
    if s != "" && IsWhitespace(s[|s| - 1]) then TrimEnd(s[..|s| - 1]) else s
  }

  function Trim(s: string): string {
    TrimEnd(TrimStart(s))
  }

  predicate Blank(s: string) {
    Trim(s) == ""
  }

  predicate NonBlank(s: Option<string>) {
    s.Some? && !Blank(s.value)
  }

  // `.map(str::trim).filter(|value| !value.is_empty())`
  function Trimmed(s: Option<string>): (r: Option<string>)
    ensures r.Some? <==> NonBlank(s)
    ensures r.Some? ==> r.value == Trim(s.value) && !Blank(r.value)
  {
    if NonBlank(s) then
      TrimIsStable(s.value);
      Some(Trim(s.value))
    else None
  }

  lemma {:induction false} TrimStartDropsLeading(s: string)
    ensures TrimStart(s) == "" || !IsWhitespace(TrimStart(s)[0])
  {
    if s != "" && IsWhitespace(s[0]) {
      TrimStartDropsLeading(s[1..]);
    }
  }

  lemma {:induction false} TrimEndIsPrefix(s: string)
    ensures TrimEnd(s) <= s
    ensures TrimEnd(s) == "" || !IsWhitespace(TrimEnd(s)[|TrimEnd(s)| - 1])
  {
    if s != "" && IsWhitespace(s[|s| - 1]) {
      TrimEndIsPrefix(s[..|s| - 1]);
    }
  }

  // Trimming twice strips nothing more.
  lemma TrimIsStable(s: string)
    ensures Trim(Trim(s)) == Trim(s)
  {
    TrimStartDropsLeading(s);
    TrimEndIsPrefix(TrimStart(s));
  }

  predicate Contains(text: string, part: string) {
    part <= text || (text != "" && Contains(text[1..], part))
  }

  function AsciiLower(s: string): (r: string)
    ensures |r| == |s|
  {
    seq(|s|, i requires 0 <= i < |s| => if 'A' <= s[i] <= 'Z' then s[i] - 'A' + 'a' else s[i])
  }

  // `str::len`: the number of bytes of the UTF-8 form.
  function Utf8Len(s: string): nat {
    if s == "" then 0 else CharLen(s[0]) + Utf8Len(s[1..])
  }

  function CharLen(c: char): (n: nat)
    ensures 1 <= n <= 4
  {
    if c < '\U{80}' then 1 else if c < '\U{800}' then 2 else if c < '\U{10000}' then 3 else 4
  }

  predicate IsDigit(c: char) {
    '0' <= c <= '9'
  }

  predicate IsHexDigit(c: char) {
    IsDigit(c) || 'a' <= c <= 'f' || 'A' <= c <= 'F'
  }

  predicate IsAlphanumeric(c: char) {
    IsDigit(c) || 'a' <= c <= 'z' || 'A' <= c <= 'Z'
  }

  predicate AllHex(s: string) {
    forall i :: 0 <= i < |s| ==> IsHexDigit(s[i])
  }

  predicate ValidHubId(hub: string) {
    3 <= |hub| <= 64 && forall i :: 0 <= i < |hub| ==> IsAlphanumeric(hub[i]) || hub[i] == '_' || hub[i] == '-'
  }

  // A hub's name, its characters written out.
  predicate NamesAHub(hub: string) {
    && 3 <= |hub| <= 64
    && forall i :: 0 <= i < |hub| ==>
                     || hub[i] in "ABCDEFGHIJKLMNOPQRSTUVWXYZ" || hub[i] in "abcdefghijklmnopqrstuvwxyz"
                     || hub[i] in "0123456789" || hub[i] in "_-"
  }

  lemma UpperCase(c: char)
    ensures c in "ABCDEFGHIJKLMNOPQRSTUVWXYZ" <==> 'A' <= c <= 'Z'
  {
    if 'A' <= c <= 'Z' {
      assert "ABCDEFGHIJKLMNOPQRSTUVWXYZ"[c as int - 65] == c;
    }
  }

  lemma LowerCase(c: char)
    ensures c in "abcdefghijklmnopqrstuvwxyz" <==> 'a' <= c <= 'z'
  {
    if 'a' <= c <= 'z' {
      assert "abcdefghijklmnopqrstuvwxyz"[c as int - 97] == c;
    }
  }

  lemma HubNames(hub: string)
    ensures ValidHubId(hub) <==> NamesAHub(hub)
  {
    forall i | 0 <= i < |hub|
      ensures IsAlphanumeric(hub[i]) || hub[i] == '_' || hub[i] == '-' <==>
              || hub[i] in "ABCDEFGHIJKLMNOPQRSTUVWXYZ" || hub[i] in "abcdefghijklmnopqrstuvwxyz"
              || hub[i] in "0123456789" || hub[i] in "_-"
    {
      UpperCase(hub[i]);
      LowerCase(hub[i]);
    }
  }

  lemma HexDigits(s: string)
    ensures AllHex(s) <==> forall i :: 0 <= i < |s| ==> s[i] in "0123456789abcdefABCDEF"
  {
    assert forall c :: IsHexDigit(c) <==> c in "0123456789abcdefABCDEF";
  }

  lemma SubsetIsSmaller<T>(a: set<T>, b: set<T>)
    requires a <= b
    ensures |a| <= |b|
  {
    assert b == a + (b - a);
  }
}
