// An outbound message is delivered item by item: its text, then each attachment
// that carries an artifact identifier. Every item has its own delivery key.
module ItemKeys {
  import opened Prelude

  // -------------------------------------------------------------------- keys

  function Decimal(n: nat): string {
    if n < 10 then ['0' + n as char] else Decimal(n / 10) + ['0' + (n % 10) as char]
  }

  function ItemKey(deliveryKey: string, identity: string): string {
    "delivery:v1:" + Decimal(Utf8Len(deliveryKey)) + ":" + deliveryKey + ":" + identity
  }

  function ArtifactIdentity(artifactId: string): string {
    "item:v1:artifact:" + Decimal(Utf8Len(artifactId)) + ":" + artifactId
  }

  const TEXT_IDENTITY := "item:v1:text"

  function DecimalValue(s: string): nat
    requires forall i :: 0 <= i < |s| ==> IsDigit(s[i])
  {
    if s == "" then 0
    else
      assert IsDigit(s[|s| - 1]);
      DecimalValue(s[..|s| - 1]) * 10 + (s[|s| - 1] as nat - '0' as nat)
  }

  lemma {:induction false} DecimalReadsBack(n: nat)
    ensures forall i :: 0 <= i < |Decimal(n)| ==> IsDigit(Decimal(n)[i])
    ensures DecimalValue(Decimal(n)) == n
  {
    if n >= 10 {
      DecimalReadsBack(n / 10);
      assert Decimal(n)[..|Decimal(n)| - 1] == Decimal(n / 10);
    } else {
      assert Decimal(n)[..0] == "";
    }
  }

  // Texts without a colon end where the colon is.
  lemma {:induction false} ColonSplits(a: string, x: string, b: string, y: string)
    requires (forall i :: 0 <= i < |a| ==> a[i] != ':') && (forall i :: 0 <= i < |b| ==> b[i] != ':')
    requires a + ":" + x == b + ":" + y
    ensures a == b && x == y
  {
    var s, t := a + ":" + x, b + ":" + y;
    if a == "" || b == "" {
      assert s[0] == t[0];
      assert a == "" ==> s[0] == ':';
      assert b == "" ==> t[0] == ':';
      assert s[1..] == t[1..];
      assert a == "" && b == "" ==> s[1..] == x && t[1..] == y;
    } else {
      assert s[0] == a[0] && t[0] == b[0];
      assert s[1..] == a[1..] + ":" + x && t[1..] == b[1..] + ":" + y;
      ColonSplits(a[1..], x, b[1..], y);
      assert a == [a[0]] + a[1..] && b == [b[0]] + b[1..];
    }
  }

  // Two starts of one text with as many bytes are the same.
  lemma {:induction false} BytesSplit(a: string, x: string, b: string, y: string)
    requires a + x == b + y && Utf8Len(a) == Utf8Len(b)
    ensures a == b && x == y
  {
    var s, t := a + x, b + y;
    if a == "" || b == "" {
      assert a == "" && b == "";
      assert s == x && t == y;
    } else {
      assert s[0] == a[0] && t[0] == b[0];
      assert s[1..] == a[1..] + x && t[1..] == b[1..] + y;
      BytesSplit(a[1..], x, b[1..], y);
      assert a == [a[0]] + a[1..] && b == [b[0]] + b[1..];
    }
  }

  lemma SameLengthPrefix(m: nat, x: string, n: nat, y: string)
    requires Decimal(m) + ":" + x == Decimal(n) + ":" + y
    ensures m == n && x == y
  {
    DecimalReadsBack(m);
    DecimalReadsBack(n);
    ColonSplits(Decimal(m), x, Decimal(n), y);
  }

  lemma ItemKeysAreInjective(k: string, i: string, l: string, j: string)
    ensures ItemKey(k, i) == ItemKey(l, j) <==> k == l && i == j
  {
    if ItemKey(k, i) == ItemKey(l, j) {
      var x, y := k + (":" + i), l + (":" + j);
      assert ItemKey(k, i)[12..] == Decimal(Utf8Len(k)) + ":" + x;
      assert ItemKey(l, j)[12..] == Decimal(Utf8Len(l)) + ":" + y;
      SameLengthPrefix(Utf8Len(k), x, Utf8Len(l), y);
      BytesSplit(k, ":" + i, l, ":" + j);
      assert (":" + i)[1..] == i && (":" + j)[1..] == j;
    }
  }

  lemma IdentitiesAreInjective(a: string, b: string)
    ensures ArtifactIdentity(a) == ArtifactIdentity(b) <==> a == b
    ensures ArtifactIdentity(a) != TEXT_IDENTITY
  {
    assert ArtifactIdentity(a)[8] == 'a' && TEXT_IDENTITY[8] == 't';
    if ArtifactIdentity(a) == ArtifactIdentity(b) {
      assert ArtifactIdentity(a)[17..] == Decimal(Utf8Len(a)) + ":" + a;
      assert ArtifactIdentity(b)[17..] == Decimal(Utf8Len(b)) + ":" + b;
      SameLengthPrefix(Utf8Len(a), a, Utf8Len(b), b);
    }
  }

  // Keys of attachments tell both the delivery and the artifact apart.
  lemma AttachmentKeysAreInjective(k: string, a: string, l: string, b: string)
    ensures ItemKey(k, ArtifactIdentity(a)) == ItemKey(l, ArtifactIdentity(b)) <==> k == l && a == b
    ensures ItemKey(k, ArtifactIdentity(a)) != ItemKey(l, TEXT_IDENTITY)
  {
    ItemKeysAreInjective(k, ArtifactIdentity(a), l, ArtifactIdentity(b));
    ItemKeysAreInjective(k, ArtifactIdentity(a), l, TEXT_IDENTITY);
    IdentitiesAreInjective(a, b);
  }

  // --------------------------------------------------------------- splitting

  // A member of an attachment's JSON object.
  datatype Field = Absent | NotText | Str(s: string)

  datatype Attachment = Attachment(
    artifactId: Field, id: Field, linkedId: Field, kind: Field, kindAlias: Field, payload: string)

  // `envelope` stands for everything a message carries besides these two.
  datatype Outbound = Outbound(text: string, attachments: seq<Attachment>, envelope: string)

  datatype Item = Item(identity: string, artifactId: string, kind: string, outbound: Outbound)

  function OrElse(a: Field, b: Field): Field {
    if a.Absent? then b else a
  }

  function ArtifactId(a: Attachment): Option<string> {
    var field := OrElse(OrElse(a.artifactId, a.id), a.linkedId);
    if field.Str? then Trimmed(Some(field.s)) else None
  }

  function Kind(a: Attachment): string {
    var field := OrElse(a.kind, a.kindAlias);
    Trim(if field.Str? then field.s else "file")
  }

  function AttachmentItem(o: Outbound, a: Attachment): Item
    requires ArtifactId(a).Some?
  {
    Item(ArtifactIdentity(ArtifactId(a).value), ArtifactId(a).value, Kind(a), o.(text := "", attachments := [a]))
  }

  function Pieces(o: Outbound, n: nat): seq<Item>
    requires n <= |o.attachments|
  {
    if n == 0 then []
    else if ArtifactId(o.attachments[n - 1]).None? then Pieces(o, n - 1)
    else Pieces(o, n - 1) + [AttachmentItem(o, o.attachments[n - 1])]
  }

  function TextPart(o: Outbound): seq<Item> {
    if Blank(o.text) then [] else [Item(TEXT_IDENTITY, "__text", "text", o.(attachments := []))]
  }

  function Items(o: Outbound): seq<Item> {
    var parts := TextPart(o) + Pieces(o, |o.attachments|);
    if parts == [] then [Item(TEXT_IDENTITY, "__text", "text", o)] else parts
  }

  predicate Clash(a: Attachment, b: Attachment) {
    ArtifactId(a).Some? && ArtifactId(a) == ArtifactId(b)
  }

  method SplitOutboundItems(o: Outbound) returns (r: Result<seq<Item>>)
    ensures r.Err? <==> exists i, j :: 0 <= i < j < |o.attachments| && Clash(o.attachments[i], o.attachments[j])
    ensures r.Ok? ==> r.value == Items(o)
  {
    hide ArtifactId, AttachmentItem, Trim;
    var items: seq<Item> := [];
    var ids: set<string> := {};
    if Trim(o.text) != "" {
      items := [Item(TEXT_IDENTITY, "__text", "text", o.(attachments := []))];
    }
    for n := 0 to |o.attachments|
      invariant items == TextPart(o) + Pieces(o, n)
      invariant forall s :: s in ids <==> exists i :: 0 <= i < n && ArtifactId(o.attachments[i]) == Some(s)
      invariant forall i, j :: 0 <= i < j < n ==> !Clash(o.attachments[i], o.attachments[j])
    {
      var attachment := o.attachments[n];
      var id := ArtifactId(attachment);
      if id.Some? {
        if id.value in ids {
          ghost var i :| 0 <= i < n && ArtifactId(o.attachments[i]) == Some(id.value);
          assert Clash(o.attachments[i], o.attachments[n]);
          return Err("duplicate artifact_id in delivery plan");
        }
        ids := ids + {id.value};
        items := items + [AttachmentItem(o, attachment)];
      }
    }
    if items == [] {
      items := [Item(TEXT_IDENTITY, "__text", "text", o)];
    }
    return Ok(items);
  }

  predicate NoClash(o: Outbound) {
    forall i, j :: 0 <= i < j < |o.attachments| ==> !Clash(o.attachments[i], o.attachments[j])
  }

  lemma {:induction false} PiecesAre(o: Outbound, n: nat)
    requires n <= |o.attachments|
    ensures forall p :: p in Pieces(o, n) ==>
                          exists i :: 0 <= i < n && ArtifactId(o.attachments[i]).Some?
                                      && p == AttachmentItem(o, o.attachments[i])
  {
    hide ArtifactId, AttachmentItem;
    if n > 0 {
      PiecesAre(o, n - 1);
    }
  }

  lemma {:induction false} PiecesDiffer(o: Outbound, n: nat)
    requires n <= |o.attachments| && NoClash(o)
    ensures forall a, b :: 0 <= a < b < |Pieces(o, n)| ==> Pieces(o, n)[a].identity != Pieces(o, n)[b].identity
  {
    hide ArtifactId, ArtifactIdentity, Kind;
    if n > 0 && ArtifactId(o.attachments[n - 1]).Some? {
      PiecesDiffer(o, n - 1);
      PiecesAre(o, n - 1);
      var last := AttachmentItem(o, o.attachments[n - 1]);
      forall p | p in Pieces(o, n - 1)
        ensures p.identity != last.identity
      {
        var i :| 0 <= i < n - 1 && ArtifactId(o.attachments[i]).Some? && p == AttachmentItem(o, o.attachments[i]);
        assert !Clash(o.attachments[i], o.attachments[n - 1]);
        IdentitiesAreInjective(ArtifactId(o.attachments[i]).value, ArtifactId(o.attachments[n - 1]).value);
      }
      var pieces := Pieces(o, n - 1);
      assert forall a :: 0 <= a < |pieces| ==> pieces[a] in pieces;
    } else if n > 0 {
      PiecesDiffer(o, n - 1);
    }
  }

  // The items of an accepted message have pairwise different keys, the reserved
  // text item included, whatever the artifact identifiers look like.
  lemma ItemsHaveTheirOwnKeys(o: Outbound, deliveryKey: string)
    requires NoClash(o)
    ensures forall a, b :: 0 <= a < b < |Items(o)| ==>
                             ItemKey(deliveryKey, Items(o)[a].identity) != ItemKey(deliveryKey, Items(o)[b].identity)
  {
    var pieces := Pieces(o, |o.attachments|);
    PiecesDiffer(o, |o.attachments|);
    PiecesAre(o, |o.attachments|);
    forall p | p in pieces
      ensures p.identity != TEXT_IDENTITY
    {
      var i :| 0 <= i < |o.attachments| && ArtifactId(o.attachments[i]).Some?
               && p == AttachmentItem(o, o.attachments[i]);
      IdentitiesAreInjective(ArtifactId(o.attachments[i]).value, "");
    }
    assert forall a :: 0 <= a < |pieces| ==> pieces[a] in pieces;
    forall a, b | 0 <= a < b < |Items(o)|
      ensures ItemKey(deliveryKey, Items(o)[a].identity) != ItemKey(deliveryKey, Items(o)[b].identity)
    {
      ItemKeysAreInjective(deliveryKey, Items(o)[a].identity, deliveryKey, Items(o)[b].identity);
    }
  }

  // The attachments the items carry, in order.
  function Carried(items: seq<Item>): seq<Attachment> {
    if items == [] then [] else Carried(items[..|items| - 1]) + items[|items| - 1].outbound.attachments
  }

  function Identified(attachments: seq<Attachment>): seq<Attachment> {
    if attachments == [] then []
    else
      var before := Identified(attachments[..|attachments| - 1]);
      if ArtifactId(attachments[|attachments| - 1]).Some? then before + [attachments[|attachments| - 1]] else before
  }

  lemma {:induction false} PiecesCarry(o: Outbound, n: nat, first: seq<Item>)
    requires n <= |o.attachments| && Carried(first) == []
    ensures Carried(first + Pieces(o, n)) == Identified(o.attachments[..n])
    ensures Pieces(o, n) == [] <==> Identified(o.attachments[..n]) == []
  {
    hide ArtifactId, ArtifactIdentity, Kind;
    if n == 0 {
      assert first + [] == first;
    } else {
      PiecesCarry(o, n - 1, first);
      assert o.attachments[..n][..n - 1] == o.attachments[..n - 1];
      if ArtifactId(o.attachments[n - 1]).Some? {
        var all := first + Pieces(o, n);
        assert all[..|all| - 1] == first + Pieces(o, n - 1);
      }
    }
  }

  lemma {:induction false} IdentifiedIsAll(attachments: seq<Attachment>)
    ensures |Identified(attachments)| <= |attachments|
    ensures Identified(attachments) == attachments <==>
            forall i :: 0 <= i < |attachments| ==> ArtifactId(attachments[i]).Some?
    ensures Identified(attachments) == [] <==>
            forall i :: 0 <= i < |attachments| ==> ArtifactId(attachments[i]).None?
  {
    hide ArtifactId;
    if attachments != [] {
      var n := |attachments| - 1;
      IdentifiedIsAll(attachments[..n]);
      assert attachments == attachments[..n] + [attachments[n]];
    }
  }

  // Splitting keeps every attachment, once and in order, exactly when each has an
  // artifact identifier, or the message has no text and none has.
  lemma NothingIsLeftBehind(o: Outbound)
    ensures Carried(Items(o)) == o.attachments <==>
            || (forall i :: 0 <= i < |o.attachments| ==> ArtifactId(o.attachments[i]).Some?)
            || (Blank(o.text) && forall i :: 0 <= i < |o.attachments| ==> ArtifactId(o.attachments[i]).None?)
  {
    var n := |o.attachments|;
    assert o.attachments[..n] == o.attachments;
    assert Carried(TextPart(o)) == [];
    PiecesCarry(o, n, TextPart(o));
    IdentifiedIsAll(o.attachments);
    var whole := [Item(TEXT_IDENTITY, "__text", "text", o)];
    assert whole[..0] == [] && Carried(whole) == o.attachments;
  }

  // A text with a picture nobody has named: the picture is left behind.
  lemma AnUnnamedAttachmentIsLeftBehind()
    ensures var picture := Attachment(Absent, Absent, Absent, Str("image"), Absent, "p");
            var o := Outbound("hi", [picture], "e");
            NoClash(o) && Carried(Items(o)) == [] && o.attachments == [picture]
  {
    var o := Outbound("hi", [Attachment(Absent, Absent, Absent, Str("image"), Absent, "p")], "e");
    assert !Blank("hi");
    assert Pieces(o, 1) == [];
    var items := Items(o);
    assert items == TextPart(o) && items[..0] == [];
  }

  // ------------------------------------------------------- what the items say

  // An attachment is known by the first of three members it has, if that is a text
  // that is not blank.
  predicate KnownBy(a: Attachment, id: string) {
    var first := if !a.artifactId.Absent? then a.artifactId else if !a.id.Absent? then a.id else a.linkedId;
    first.Str? && id == Trim(first.s) && id != ""
  }

  lemma KnownByItsId(a: Attachment)
    ensures forall id :: ArtifactId(a) == Some(id) <==> KnownBy(a, id)
  {
    hide Trim;
  }

  // The item carries this attachment alone, under its identifier and its kind.
  predicate CarriesAlone(item: Item, o: Outbound, a: Attachment) {
    && KnownBy(a, item.artifactId)
    && item.identity == "item:v1:artifact:" + Decimal(Utf8Len(item.artifactId)) + ":" + item.artifactId
    && item.outbound == Outbound("", [a], o.envelope)
    && item.kind == Trim(if a.kind.Str? then a.kind.s else if a.kind.Absent? && a.kindAlias.Str? then a.kindAlias.s
                         else "file")
  }

  // Every item is the text by itself, one attachment by itself, or the whole of a
  // message that has neither.
  lemma ItemsSay(o: Outbound, n: nat)
    requires n < |Items(o)|
    ensures var item := Items(o)[n];
            || (&& n == 0 && Trim(o.text) != ""
                && item == Item("item:v1:text", "__text", "text", Outbound(o.text, [], o.envelope)))
            || (exists i :: 0 <= i < |o.attachments| && CarriesAlone(item, o, o.attachments[i]))
            || (&& |Items(o)| == 1 && Trim(o.text) == "" && item == Item("item:v1:text", "__text", "text", o)
                && forall i :: 0 <= i < |o.attachments| ==> forall id :: !KnownBy(o.attachments[i], id))
    ensures Trim(o.text) != "" ==>
              Items(o)[0] == Item("item:v1:text", "__text", "text", Outbound(o.text, [], o.envelope))
  {
    hide Trim, ArtifactId, Kind, Decimal;
    var m := |o.attachments|;
    var pieces := Pieces(o, m);
    PiecesAre(o, m);
    if n >= |TextPart(o)| && pieces != [] {
      var item := pieces[n - |TextPart(o)|];
      assert item in pieces;
      var i :| 0 <= i < m && ArtifactId(o.attachments[i]).Some? && item == AttachmentItem(o, o.attachments[i]);
      AttachmentItemIs(o, o.attachments[i]);
    }
    forall i | 0 <= i < m
      ensures forall id :: ArtifactId(o.attachments[i]) == Some(id) <==> KnownBy(o.attachments[i], id)
    {
      KnownByItsId(o.attachments[i]);
    }
    assert o.attachments[..m] == o.attachments;
    PiecesCarry(o, m, []);
    IdentifiedIsAll(o.attachments);
  }

  lemma AttachmentItemIs(o: Outbound, a: Attachment)
    requires ArtifactId(a).Some?
    ensures CarriesAlone(AttachmentItem(o, a), o, a)
  {
    hide Trim, Decimal;
    KnownByItsId(a);
  }

  // Keys and identities of one letter, letter by letter.
  lemma ShortKeys(c: char, identity: string)
    requires c < '\U{80}'
    ensures ItemKey([c], identity) == "delivery:v1:1:" + [c] + ":" + identity
    ensures ArtifactIdentity([c]) == "item:v1:artifact:1:" + [c]
  {
    assert [c][1..] == "" && Utf8Len([c]) == 1;
    assert Decimal(1) == "1";
    assert "delivery:v1:" + "1" + ":" == "delivery:v1:1:";
    assert "item:v1:artifact:" + "1" + ":" == "item:v1:artifact:1:";
  }
}
