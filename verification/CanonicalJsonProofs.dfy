// A parser inverts the canonical text, so the text identifies a value exactly up
// to the order of object members.
module CanonicalJsonProofs {
  import opened Prelude
  import opened Ordering
  import opened CanonicalJson

  // ----------------------------------------------------------------- strings

  lemma EscapeParses(c: char, t: string)
    ensures Escape(c) + t != "" && (Escape(c) + t)[0] != '"'
    ensures ParseChar(Escape(c) + t) == Some((c, t))
  {
    var s := Escape(c) + t;
    if c in {'"', '\\', '\U{8}', '\U{C}', '\n', '\r', '\t'} {
      assert s[2..] == t;
    } else if c < ' ' {
      assert s[2] == '0' && s[3] == '0';
      assert HexValue(HexDigit(c as nat / 16)) == Some(c as nat / 16);
      assert HexValue(HexDigit(c as nat % 16)) == Some(c as nat % 16);
      assert s[6..] == t;
    } else {
      assert s[1..] == t;
    }
  }

  lemma {:induction false} EscapedParses(s: string, t: string)
    ensures ParseString(Escaped(s) + "\"" + t) == Some((s, t))
  {
    hide ParseChar, Escape;
    var text := Escaped(s) + "\"" + t;
    if s == "" {
      assert text[1..] == t;
    } else {
      EscapedParses(s[1..], t);
      var more := Escaped(s[1..]) + "\"" + t;
      EscapeParses(s[0], more);
      assert text == Escape(s[0]) + more;
      assert s == [s[0]] + s[1..];
    }
  }

  // ------------------------------------------------------------------ values

  // What follows a value inside an array or object, or nothing.
  predicate Delimited(rest: string) {
    rest == "" || rest[0] in {',', ']', '}'}
  }

  ghost predicate ParsesTo(text: string, v: Json) {
    && text != "" && text[0] !in {']', '}', ','}
    && forall rest :: Delimited(rest) ==> Parse(text + rest) == Some((v, rest))
  }

  // The value with the members of its objects in key order.
  function Normal(v: Json): Json {
    match v
    case Array(items) => Array(NormalItems(items))
    case Object(ms) => Object(Members(Sort(NormalMembers(ms))))
    case _ => v
  }

  function NormalItems(items: seq<Json>): (r: seq<Json>)
    ensures |r| == |items|
  {
    if items == [] then [] else [Normal(items[0])] + NormalItems(items[1..])
  }

  function NormalMembers(ms: seq<Member>): (ps: seq<Keyed<Json>>)
    ensures |ps| == |ms|
  {
    if ms == [] then [] else [Keyed(ms[0].key, Normal(ms[0].value))] + NormalMembers(ms[1..])
  }

  function Members(ps: seq<Keyed<Json>>): (ms: seq<Member>)
    ensures |ms| == |ps| && forall i :: 0 <= i < |ms| ==> ms[i] == Member(ps[i].key, ps[i].item)
  {
    seq(|ps|, i requires 0 <= i < |ps| => Member(ps[i].key, ps[i].item))
  }

  lemma {:induction false} NumberEnds(token: string, rest: string)
    requires (forall i :: 0 <= i < |token| ==> IsNumberChar(token[i])) && Delimited(rest)
    ensures NumberEnd(token + rest) == |token|
  {
    if token == "" {
      assert token + rest == rest;
    } else {
      NumberEnds(token[1..], rest);
      assert (token + rest)[1..] == token[1..] + rest;
    }
  }

  lemma NumberParses(token: string)
    requires IsNumber(token)
    ensures ParsesTo(token, Number(token))
  {
    forall rest | Delimited(rest)
      ensures Parse(token + rest) == Some((Number(token), rest))
    {
      NumberEnds(token, rest);
      var s := token + rest;
      assert IsNumberChar(s[0]);
      assert s[..|token|] == token && s[|token|..] == rest;
    }
  }

  lemma WordsParse()
    ensures ParsesTo("null", Null) && ParsesTo("true", Bool(true)) && ParsesTo("false", Bool(false))
  {
    forall rest | Delimited(rest)
      ensures Parse("null" + rest) == Some((Null, rest))
      ensures Parse("true" + rest) == Some((Bool(true), rest))
      ensures Parse("false" + rest) == Some((Bool(false), rest))
    {
      assert ("null" + rest)[4..] == rest && ("true" + rest)[4..] == rest && ("false" + rest)[5..] == rest;
      assert "null" <= "null" + rest && "true" <= "true" + rest && "false" <= "false" + rest;
      assert ("true" + rest)[0] == 't' && ("false" + rest)[0] == 'f';
    }
  }

  lemma TextParses(s: string)
    ensures ParsesTo(Quoted(s), Text(s))
  {
    hide Escaped, ParseString;
    forall rest | Delimited(rest)
      ensures Parse(Quoted(s) + rest) == Some((Text(s), rest))
    {
      EscapedParses(s, rest);
      assert (Quoted(s) + rest)[1..] == Escaped(s) + "\"" + rest;
    }
  }

  // ------------------------------------------------------------------- arrays

  lemma {:induction false} ItemsParse(items: seq<Json>, rest: string)
    requires items != [] && forall i :: 0 <= i < |items| ==> ParsesTo(Canonical(items[i]), Normal(items[i]))
    ensures ParseItems(CanonicalItems(items) + "]" + rest) == Some((NormalItems(items), rest))
    ensures CanonicalItems(items) != "" && CanonicalItems(items)[0] !in {']', '}', ','}
  {
    hide Parse, Canonical, Normal;
    var text := CanonicalItems(items) + "]" + rest;
    if |items| == 1 {
      assert text == Canonical(items[0]) + ("]" + rest);
      assert Delimited("]" + rest) && ("]" + rest)[1..] == rest;
      assert NormalItems(items) == [Normal(items[0])];
    } else {
      ItemsParse(items[1..], rest);
      var more := CanonicalItems(items[1..]) + "]" + rest;
      assert text == Canonical(items[0]) + ("," + more);
      assert Delimited("," + more) && ("," + more)[1..] == more;
    }
  }

  // ------------------------------------------------------------------ objects

  // The same keys in the same order, each text parsing to its value.
  ghost predicate Parallel(ps: seq<Keyed<string>>, vs: seq<Keyed<Json>>) {
    |ps| == |vs| && forall i :: 0 <= i < |ps| ==> ps[i].key == vs[i].key && ParsesTo(ps[i].item, vs[i].item)
  }

  lemma {:induction false} InsertParallel(p: Keyed<string>, v: Keyed<Json>, ps: seq<Keyed<string>>,
                                          vs: seq<Keyed<Json>>)
    requires Parallel(ps, vs) && p.key == v.key && ParsesTo(p.item, v.item)
    ensures Parallel(InsertBy(KeyBefore, p, ps), InsertBy(KeyBefore, v, vs))
  {
    hide ParsesTo;
    if ps != [] && Before(ps[0].key, p.key) {
      InsertParallel(p, v, ps[1..], vs[1..]);
    }
  }

  lemma {:induction false} SortParallel(ps: seq<Keyed<string>>, vs: seq<Keyed<Json>>)
    requires Parallel(ps, vs)
    ensures Parallel(Sort(ps), Sort(vs))
  {
    hide ParsesTo;
    if ps != [] {
      SortParallel(ps[1..], vs[1..]);
      InsertParallel(ps[0], vs[0], Sort(ps[1..]), Sort(vs[1..]));
    }
  }

  // One member at the head of a text, and what `ParseMembers` makes of it.
  lemma MemberParses(p: Keyed<string>, v: Keyed<Json>, tail: string)
    requires p.key == v.key && ParsesTo(p.item, v.item) && tail != "" && Delimited(tail)
    ensures var text := Quoted(p.key) + ":" + p.item + tail;
            && text != "" && text[0] == '"'
            && ParseString(text[1..]) == Some((v.key, ":" + (p.item + tail)))
            && Parse((":" + (p.item + tail))[1..]) == Some((v.item, tail))
  {
    hide Parse, ParseString, Escaped;
    var text := Quoted(p.key) + ":" + p.item + tail;
    var value := p.item + tail;
    EscapedParses(p.key, ":" + value);
    assert text[1..] == Escaped(p.key) + "\"" + (":" + value);
    assert (":" + value)[1..] == value;
  }

  lemma {:induction false} MembersParse(ps: seq<Keyed<string>>, vs: seq<Keyed<Json>>, rest: string)
    requires ps != [] && Parallel(ps, vs)
    ensures ParseMembers(Joined(ps) + "}" + rest) == Some((Members(vs), rest))
  {
    hide Parse, ParseString, Quoted, ParsesTo;
    var text := Joined(ps) + "}" + rest;
    if |ps| == 1 {
      var tail := "}" + rest;
      MemberParses(ps[0], vs[0], tail);
      assert text == Quoted(ps[0].key) + ":" + ps[0].item + tail;
      assert tail[1..] == rest;
      assert Members(vs) == [Member(vs[0].key, vs[0].item)];
    } else {
      MembersParse(ps[1..], vs[1..], rest);
      var more := Joined(ps[1..]) + "}" + rest;
      var tail := "," + more;
      MemberParses(ps[0], vs[0], tail);
      assert text == Quoted(ps[0].key) + ":" + ps[0].item + tail;
      assert tail[1..] == more;
      assert Members(vs) == [Member(vs[0].key, vs[0].item)] + Members(vs[1..]);
    }
  }

  lemma JoinedStartsWithAQuote(ps: seq<Keyed<string>>)
    requires ps != []
    ensures Joined(ps) != "" && Joined(ps)[0] == '"'
  {
    hide Escaped;
  }

  lemma {:induction false} MembersParallel(ms: seq<Member>)
    requires forall i :: 0 <= i < |ms| ==> ParsesTo(Canonical(ms[i].value), Normal(ms[i].value))
    ensures Parallel(Rendered(ms), NormalMembers(ms))
  {
    hide ParsesTo, Canonical, Normal;
    if ms != [] {
      MembersParallel(ms[1..]);
    }
  }

  lemma ArrayParses(items: seq<Json>)
    requires forall i :: 0 <= i < |items| ==> ParsesTo(Canonical(items[i]), Normal(items[i]))
    ensures ParsesTo(Canonical(Array(items)), Normal(Array(items)))
  {
    hide CanonicalItems, NormalItems, ParseItems;
    if items == [] {
      NothingParses();
    } else {
      var text := "[" + CanonicalItems(items) + "]";
      forall rest | Delimited(rest)
        ensures Parse(text + rest) == Some((Array(NormalItems(items)), rest))
      {
        ItemsParse(items, rest);
        assert (text + rest)[1..] == CanonicalItems(items) + "]" + rest;
      }
    }
  }

  lemma NothingParses()
    ensures ParsesTo(Canonical(Array([])), Normal(Array([]))) && ParsesTo("{}", Object([]))
  {
    assert Canonical(Array([])) == "[]";
    forall rest | Delimited(rest)
      ensures Parse("[]" + rest) == Some((Array([]), rest)) && Parse("{}" + rest) == Some((Object([]), rest))
    {
      assert ("[]" + rest)[2..] == rest && ("{}" + rest)[2..] == rest;
    }
  }

  lemma ObjectTextParses(ps: seq<Keyed<string>>, vs: seq<Keyed<Json>>)
    requires Parallel(ps, vs)
    ensures ParsesTo("{" + Joined(ps) + "}", Object(Members(vs)))
  {
    hide Joined, ParseMembers, Parallel, ParseItems, ParseString;
    if ps == [] {
      NothingParses();
      assert Joined(ps) == "" by { NothingJoined(); }
      assert "{" + Joined(ps) + "}" == "{}";
      assert |vs| == 0 by { SameLength(ps, vs); }
      assert Members(vs) == [];
    } else {
      var text := "{" + Joined(ps) + "}";
      JoinedStartsWithAQuote(ps);
      forall rest | Delimited(rest)
        ensures Parse(text + rest) == Some((Object(Members(vs)), rest))
      {
        MembersParse(ps, vs, rest);
        assert (text + rest)[1..] == Joined(ps) + "}" + rest;
      }
    }
  }

  lemma SameLength(ps: seq<Keyed<string>>, vs: seq<Keyed<Json>>)
    requires Parallel(ps, vs)
    ensures |ps| == |vs|
  {
  }

  lemma NothingJoined()
    ensures Joined([]) == ""
  {
  }

  lemma ObjectParses(ms: seq<Member>)
    requires forall i :: 0 <= i < |ms| ==> ParsesTo(Canonical(ms[i].value), Normal(ms[i].value))
    ensures ParsesTo(Canonical(Object(ms)), Normal(Object(ms)))
  {
    hide ParsesTo, Parallel, Joined, Sort;
    MembersParallel(ms);
    SortParallel(Rendered(ms), NormalMembers(ms));
    ObjectTextParses(Sort(Rendered(ms)), Sort(NormalMembers(ms)));
  }

  lemma {:induction false} CanonicalParses(v: Json)
    requires WellFormed(v)
    ensures ParsesTo(Canonical(v), Normal(v))
  {
    hide Canonical, Normal, ParsesTo;
    match v
    case Array(items) =>
      forall i | 0 <= i < |items| ensures ParsesTo(Canonical(items[i]), Normal(items[i])) { CanonicalParses(items[i]); }
      ArrayParses(items);
    case Object(ms) =>
      forall i | 0 <= i < |ms| ensures ParsesTo(Canonical(ms[i].value), Normal(ms[i].value)) {
        CanonicalParses(ms[i].value);
      }
      ObjectParses(ms);
    case _ => ScalarParses(v);
  }

  lemma ScalarParses(v: Json)
    requires WellFormed(v) && !v.Array? && !v.Object?
    ensures ParsesTo(Canonical(v), Normal(v))
  {
    hide ParsesTo;
    WordsParse();
    if v.Number? {
      NumberParses(v.token);
    } else if v.Text? {
      TextParses(v.s);
    }
  }

  // ------------------------------------------------------------ sorting by key

  lemma KeysAreOrdered<T(!new)>()
    ensures IsOrder(KeyBefore<T>)
  {
    BeforeIsOrder();
  }

  lemma SortIs<T(!new)>(ps: seq<Keyed<T>>)
    ensures Ordered(KeyBefore, Sort(ps))
    ensures forall q :: q in Sort(ps) <==> q in ps
    ensures forall j :: 0 <= j < |Sort(ps)| ==> Sort(ps)[j] in ps
    ensures Apart(SameKey, ps) ==> Apart(SameKey, Sort(ps))
  {
    KeysAreOrdered<T>();
    SortByIs(KeyBefore, ps);
    assert forall q :: q in multiset(Sort(ps)) <==> q in multiset(ps);
    if Apart(SameKey, ps) {
      SortByApart(KeyBefore, SameKey, ps);
    }
  }

  lemma HeadIsLeast<T(!new)>(xs: seq<Keyed<T>>, i: nat)
    requires Ordered(KeyBefore, xs) && Apart(SameKey, xs) && i < |xs|
    ensures !Before(xs[i].key, xs[0].key)
    ensures xs[i].key == xs[0].key ==> i == 0
  {
    BeforeIsTotal(xs[0].key, xs[0].key);
  }

  lemma SameHead<T(!new)>(xs: seq<Keyed<T>>, ys: seq<Keyed<T>>)
    requires Ordered(KeyBefore, xs) && Ordered(KeyBefore, ys) && Apart(SameKey, xs) && Apart(SameKey, ys)
    requires xs != [] && ys != []
    requires xs[0] in ys && ys[0] in xs
    ensures xs[0] == ys[0]
  {
    BeforeIsTotal(xs[0].key, ys[0].key);
    var i: nat :| i < |xs| && xs[i] == ys[0];
    var j: nat :| j < |ys| && ys[j] == xs[0];
    HeadIsLeast(xs, i);
    HeadIsLeast(ys, j);
  }

  // There is one sorted list of given entries with distinct keys.
  lemma {:induction false} SortedIsUnique<T(!new)>(xs: seq<Keyed<T>>, ys: seq<Keyed<T>>)
    requires Ordered(KeyBefore, xs) && Ordered(KeyBefore, ys) && Apart(SameKey, xs) && Apart(SameKey, ys)
    requires |xs| == |ys|
    requires forall p :: p in xs <==> p in ys
    ensures xs == ys
  {
    if xs != [] {
      assert xs[0] in xs && ys[0] in ys;
      SameHead(xs, ys);
      Tail(xs);
      Tail(ys);
      SortedIsUnique(xs[1..], ys[1..]);
      assert xs == [xs[0]] + xs[1..] && ys == [ys[0]] + ys[1..];
    }
  }

  lemma Tail<T(!new)>(xs: seq<Keyed<T>>)
    requires xs != [] && Ordered(KeyBefore, xs) && Apart(SameKey, xs)
    ensures Ordered(KeyBefore, xs[1..]) && Apart(SameKey, xs[1..])
    ensures forall p :: p in xs[1..] <==> p in xs && p != xs[0]
  {
    assert xs == [xs[0]] + xs[1..];
  }

  // The order in which entries come does not matter to the sort, and nothing
  // else is lost.
  lemma SortForgetsOrder<T(!new)>(xs: seq<Keyed<T>>, ys: seq<Keyed<T>>)
    requires Apart(SameKey, xs) && Apart(SameKey, ys)
    ensures Sort(xs) == Sort(ys) <==> |xs| == |ys| && forall p :: p in xs <==> p in ys
  {
    SortIs(xs); SortIs(ys);
    if |xs| == |ys| && forall p :: p in xs <==> p in ys {
      SortedIsUnique(Sort(xs), Sort(ys));
    }
  }

  // --------------------------------------------------- equal up to member order

  lemma {:induction false} NormalAt(items: seq<Json>, ms: seq<Member>)
    ensures forall i :: 0 <= i < |items| ==> NormalItems(items)[i] == Normal(items[i])
    ensures forall i :: 0 <= i < |ms| ==> NormalMembers(ms)[i] == Keyed(ms[i].key, Normal(ms[i].value))
    decreases |items| + |ms|
  {
    hide Normal;
    if items != [] {
      NormalAt(items[1..], []);
    }
    if ms != [] {
      NormalAt([], ms[1..]);
    }
  }

  lemma MembersAreEntries(xs: seq<Keyed<Json>>, ys: seq<Keyed<Json>>)
    ensures Members(xs) == Members(ys) <==> xs == ys
  {
    if Members(xs) == Members(ys) {
      assert |xs| == |ys|;
      forall i | 0 <= i < |xs| ensures xs[i] == ys[i] {
        assert Members(xs)[i] == Members(ys)[i];
      }
    }
  }

  lemma KeysStayApart(ms: seq<Member>)
    requires DistinctKeys(ms)
    ensures Apart(SameKey, NormalMembers(ms))
  {
    hide Normal;
    NormalAt([], ms);
  }

  // Objects with equal normal forms, member by member.
  lemma ObjectsMatch(ms: seq<Member>, ns: seq<Member>)
    requires DistinctKeys(ms) && DistinctKeys(ns)
    ensures Normal(Object(ms)) == Normal(Object(ns)) <==>
            && |ms| == |ns|
            && forall i :: 0 <= i < |ms| ==>
                             exists j :: 0 <= j < |ns| && ms[i].key == ns[j].key
                                         && Normal(ms[i].value) == Normal(ns[j].value)
  {
    hide Sort, Apart;
    KeysStayApart(ms);
    KeysStayApart(ns);
    var xs, ys := NormalMembers(ms), NormalMembers(ns);
    NormalAt([], ms);
    NormalAt([], ns);
    MembersAreEntries(Sort(xs), Sort(ys));
    SortForgetsOrder(xs, ys);
    if |ms| == |ns| && forall i :: 0 <= i < |ms| ==>
                                     exists j :: 0 <= j < |ns| && ms[i].key == ns[j].key
                                                 && Normal(ms[i].value) == Normal(ns[j].value)
    {
      assert forall p :: p in xs ==> p in ys;
      SubsetIsAll(xs, ys);
    }
    if forall p :: p in xs <==> p in ys {
      forall i | 0 <= i < |ms|
        ensures exists j :: 0 <= j < |ns| && ms[i].key == ns[j].key && Normal(ms[i].value) == Normal(ns[j].value)
      {
        assert xs[i] in ys;
      }
    }
  }

  // As many distinct keys on both sides leave none over.
  lemma {:induction false} SubsetIsAll<T(!new)>(xs: seq<Keyed<T>>, ys: seq<Keyed<T>>)
    requires Apart(SameKey, xs) && Apart(SameKey, ys) && |xs| == |ys| && forall p :: p in xs ==> p in ys
    ensures forall p :: p in ys ==> p in xs
  {
    if xs != [] {
      assert xs[0] in xs;
      var j :| 0 <= j < |ys| && ys[j] == xs[0];
      var rest := ys[..j] + ys[j + 1..];
      forall p | p in xs[1..] ensures p in rest {
        assert p in xs && p in ys;
        assert p != ys[j];
      }
      SubsetIsAll(xs[1..], rest);
      forall p | p in ys ensures p in xs {
        if p != ys[j] {
          assert p in rest;
        }
      }
    }
  }

  lemma {:induction false} NormalIffEquivalent(a: Json, b: Json)
    requires WellFormed(a) && WellFormed(b)
    ensures Normal(a) == Normal(b) <==> Equivalent(a, b)
  {
    if a.Array? && b.Array? {
      NormalAt(a.items, []);
      NormalAt(b.items, []);
      forall i | 0 <= i < |a.items| && i < |b.items|
        ensures Normal(a.items[i]) == Normal(b.items[i]) <==> Equivalent(a.items[i], b.items[i])
      {
        NormalIffEquivalent(a.items[i], b.items[i]);
      }
      if Normal(a) == Normal(b) {
        forall i | 0 <= i < |a.items| ensures Normal(a.items[i]) == Normal(b.items[i]) {
          assert NormalItems(a.items)[i] == NormalItems(b.items)[i];
        }
      }
    } else if a.Object? && b.Object? {
      ObjectsMatch(a.members, b.members);
      forall i, j | 0 <= i < |a.members| && 0 <= j < |b.members|
        ensures Normal(a.members[i].value) == Normal(b.members[j].value) <==>
                Equivalent(a.members[i].value, b.members[j].value)
      {
        NormalIffEquivalent(a.members[i].value, b.members[j].value);
      }
    }
  }

  lemma {:induction false} TextAt(ms: seq<Member>)
    ensures forall i :: 0 <= i < |ms| ==> Rendered(ms)[i] == Keyed(ms[i].key, Canonical(ms[i].value))
  {
    hide Canonical;
    if ms != [] {
      TextAt(ms[1..]);
    }
  }

  lemma {:induction false} SameItemsSameText(xs: seq<Json>, ys: seq<Json>)
    requires |xs| == |ys| && forall i :: 0 <= i < |xs| ==> Canonical(xs[i]) == Canonical(ys[i])
    ensures CanonicalItems(xs) == CanonicalItems(ys)
  {
    hide Canonical;
    if xs != [] {
      SameItemsSameText(xs[1..], ys[1..]);
    }
  }

  // Some member has the same key and the same text.
  predicate Twin(m: Member, ns: seq<Member>) {
    exists j :: 0 <= j < |ns| && m.key == ns[j].key && Canonical(m.value) == Canonical(ns[j].value)
  }

  lemma SameMembersSameText(ms: seq<Member>, ns: seq<Member>)
    requires DistinctKeys(ms) && DistinctKeys(ns) && |ms| == |ns|
    requires forall i :: 0 <= i < |ms| ==> Twin(ms[i], ns)
    ensures Canonical(Object(ms)) == Canonical(Object(ns))
  {
    var xs, ys := Rendered(ms), Rendered(ns);
    TextAt(ms);
    TextAt(ns);
    forall p | p in xs ensures p in ys {
      var i :| 0 <= i < |xs| && xs[i] == p;
      assert Twin(ms[i], ns);
      var j :| 0 <= j < |ns| && ms[i].key == ns[j].key && Canonical(ms[i].value) == Canonical(ns[j].value);
      assert ys[j] == p;
    }
    SubsetIsAll(xs, ys);
    SortForgetsOrder(xs, ys);
  }

  // Values equal up to the order of members have one canonical text.
  lemma {:induction false} EquivalentSameText(a: Json, b: Json)
    requires WellFormed(a) && WellFormed(b) && Equivalent(a, b)
    ensures Canonical(a) == Canonical(b)
  {
    hide Canonical;
    match a
    case Array(items) =>
      forall i | 0 <= i < |items| ensures Canonical(items[i]) == Canonical(b.items[i]) {
        EquivalentSameText(items[i], b.items[i]);
      }
      ArrayText(items, b.items);
    case Object(ms) =>
      forall i | 0 <= i < |ms|
        ensures Twin(ms[i], b.members)
      {
        var j :| 0 <= j < |b.members| && ms[i].key == b.members[j].key && Equivalent(ms[i].value, b.members[j].value);
        EquivalentSameText(ms[i].value, b.members[j].value);
      }
      SameMembersSameText(ms, b.members);
    case _ =>
  }

  lemma ArrayText(xs: seq<Json>, ys: seq<Json>)
    requires |xs| == |ys| && forall i :: 0 <= i < |xs| ==> Canonical(xs[i]) == Canonical(ys[i])
    ensures Canonical(Array(xs)) == Canonical(Array(ys))
  {
    SameItemsSameText(xs, ys);
  }

  lemma SortedMemberIsOne(ms: seq<Member>, i: nat)
    requires i < |ms|
    ensures |Sort(NormalMembers(ms))| == |ms|
    ensures var p := Sort(NormalMembers(ms))[i];
            exists j :: 0 <= j < |ms| && p.key == ms[j].key && p.item == Normal(ms[j].value)
  {
    hide Normal, Sort;
    NormalAt([], ms);
    SortIs(NormalMembers(ms));
    var p := Sort(NormalMembers(ms))[i];
    var j :| 0 <= j < |ms| && NormalMembers(ms)[j] == p;
  }

  lemma {:induction false} NormalIsEquivalent(v: Json)
    ensures Equivalent(Normal(v), v)
  {
    hide Sort;
    match v
    case Array(items) =>
      NormalAt(items, []);
      forall i | 0 <= i < |items| ensures Equivalent(NormalItems(items)[i], items[i]) { NormalIsEquivalent(items[i]); }
    case Object(ms) =>
      var ps := Members(Sort(NormalMembers(ms)));
      if ms != [] {
        SortedMemberIsOne(ms, 0);
      } else {
        SortIs(NormalMembers(ms));
      }
      forall i | 0 <= i < |ps|
        ensures exists j :: 0 <= j < |ms| && ps[i].key == ms[j].key && Equivalent(ps[i].value, ms[j].value)
      {
        SortedMemberIsOne(ms, i);
        var j :| 0 <= j < |ms| && ps[i].key == ms[j].key && ps[i].value == Normal(ms[j].value);
        NormalIsEquivalent(ms[j].value);
      }
    case _ =>
  }

  // ---------------------------------------------------------------- the theorems

  // The canonical text identifies a value exactly up to the order of members.
  lemma CanonicalIffEquivalent(a: Json, b: Json)
    requires WellFormed(a) && WellFormed(b)
    ensures Canonical(a) == Canonical(b) <==> Equivalent(a, b)
  {
    hide Canonical, Normal, WellFormed, Equivalent;
    if Canonical(a) == Canonical(b) {
      CanonicalParses(a);
      CanonicalParses(b);
      assert Canonical(a) + "" == Canonical(a) && Canonical(b) + "" == Canonical(b);
      NormalIffEquivalent(a, b);
    }
    if Equivalent(a, b) {
      EquivalentSameText(a, b);
    }
  }

  // The parser reads the canonical text back, whole, as an equivalent value.
  lemma ParserInvertsCanonical(v: Json)
    requires WellFormed(v)
    ensures var parsed := Parse(Canonical(v));
            parsed.Some? && parsed.value.1 == "" && Equivalent(parsed.value.0, v)
  {
    hide Canonical, Normal, WellFormed, Equivalent, Parse;
    CanonicalParses(v);
    NormalIsEquivalent(v);
    assert Canonical(v) + "" == Canonical(v);
  }

  // ---------------------------------------------------------- how the text looks

  // Lexicographic by character: at the first difference the smaller character, or
  // the end, comes first.
  ghost predicate Precedes(a: string, b: string) {
    exists n :: 0 <= n <= |a| && n < |b| && a[..n] == b[..n] && (n == |a| || a[n] < b[n])
  }

  lemma {:induction false} BeforePrecedes(a: string, b: string)
    ensures Before(a, b) ==> Precedes(a, b)
  {
    if Before(a, b) {
      if a == "" || a[0] < b[0] {
        assert a[..0] == b[..0];
      } else {
        BeforePrecedes(a[1..], b[1..]);
        var n :| 0 <= n <= |a[1..]| && n < |b[1..]| && a[1..][..n] == b[1..][..n]
                 && (n == |a[1..]| || a[1..][n] < b[1..][n]);
        assert a[..n + 1] == [a[0]] + a[1..][..n] && b[..n + 1] == [b[0]] + b[1..][..n];
      }
    }
  }

  // The members of an object are written in ascending order of their keys, each
  // once.
  lemma MembersAscend(ms: seq<Member>)
    requires WellFormed(Object(ms))
    ensures exists ps: seq<Keyed<string>> ::
              && Canonical(Object(ms)) == "{" + Joined(ps) + "}" && |ps| == |ms|
              && (forall i, j :: 0 <= i < j < |ps| ==> Precedes(ps[i].key, ps[j].key))
              && forall p :: p in ps <==> exists i :: 0 <= i < |ms| && p == Keyed(ms[i].key, Canonical(ms[i].value))
  {
    hide Before, Canonical, Precedes;
    var ps := Sort(Rendered(ms));
    TextAt(ms);
    KeysAreApart(ms);
    SortIs(Rendered(ms));
    forall i, j | 0 <= i < j < |ps|
      ensures Precedes(ps[i].key, ps[j].key)
    {
      BeforeIsTotal(ps[i].key, ps[j].key);
      BeforePrecedes(ps[i].key, ps[j].key);
    }
    forall p
      ensures p in ps <==> exists i :: 0 <= i < |ms| && p == Keyed(ms[i].key, Canonical(ms[i].value))
    {
      if p in ps {
        var i :| 0 <= i < |ms| && Rendered(ms)[i] == p;
      }
    }
    ObjectText(ms);
  }

  lemma KeysAreApart(ms: seq<Member>)
    requires DistinctKeys(ms)
    ensures Apart(SameKey, Rendered(ms))
  {
    TextAt(ms);
  }

  lemma ObjectText(ms: seq<Member>)
    ensures Canonical(Object(ms)) == "{" + Joined(Sort(Rendered(ms))) + "}"
  {
  }

  // Each character is written as itself but for the quotation mark, the backslash
  // and the control characters; of those the ones with a letter by that letter, the
  // others by their number, in lower case.
  lemma EscapesAreShortest(c: char)
    ensures |Escape(c)| == 1 <==> c >= ' ' && c != '"' && c != '\\'
    ensures |Escape(c)| == 1 ==> Escape(c) == [c]
    ensures |Escape(c)| == 2 <==> c in ['"', '\\', '\U{8}', '\U{C}', '\n', '\r', '\t']
    ensures |Escape(c)| == 2 ==> Escape(c)[0] == '\\' && ParseChar(Escape(c)) == Some((c, ""))
    ensures Escape('\n') == "\\n" && Escape('\r') == "\\r" && Escape('\t') == "\\t"
    ensures Escape('\U{8}') == "\\b" && Escape('\U{C}') == "\\f"
    ensures |Escape(c)| > 2 ==>
              Escape(c) == "\\u00" + ["0123456789abcdef"[c as int / 16], "0123456789abcdef"[c as int % 16]]
  {
  }

  lemma Escapes(c: char, s: string)
    ensures Escaped([c] + s) == Escape(c) + Escaped(s)
  {
    assert ([c] + s)[1..] == s;
  }

  lemma AListText()
    ensures Canonical(Array([Null, Bool(true), Number("-1.5e3")])) == "[null,true,-1.5e3]"
  {
    var items := [Null, Bool(true), Number("-1.5e3")];
    assert items[1..] == [Bool(true), Number("-1.5e3")];
    assert items[1..][1..] == [Number("-1.5e3")];
    assert CanonicalItems(items[1..][1..]) == "-1.5e3";
    assert CanonicalItems(items[1..]) == "true" + "," + "-1.5e3";
    assert CanonicalItems(items) == "null" + "," + ("true" + "," + "-1.5e3");
  }

  // The text of one object, letter by letter.
  lemma AnObjectText()
    ensures Canonical(Object([Member("b", Bool(false)), Member("a", Null)])) == "{\"a\":null,\"b\":false}"
  {
    var ms := [Member("b", Bool(false)), Member("a", Null)];
    var b, a := Keyed("b", "false"), Keyed("a", "null");
    assert ms[1..] == [Member("a", Null)];
    assert Rendered(ms[1..]) == [a];
    assert Rendered(ms) == [b, a];
    assert [b, a][1..] == [a] && [a][1..] == [];
    assert SortBy(KeyBefore<string>, [a]) == [a];
    assert KeyBefore(a, b);
    assert InsertBy(KeyBefore<string>, b, [a]) == [a, b];
    assert Sort(Rendered(ms)) == [a, b];
    assert [a, b][1..] == [b];
    Escapes('a', "");
    Escapes('b', "");
    assert Quoted("a") == "\"a\"" && Quoted("b") == "\"b\"";
    assert Joined([b]) == "\"b\":false";
    assert Joined([a, b]) == "\"a\":null,\"b\":false";
  }
}
