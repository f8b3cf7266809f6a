// The base64 alphabet and padding of RFC 4648 section 4, strict as the decoder
// the gateway uses: canonical padding, no stray bits, no other characters.
module Base64 {
  import opened Prelude

  type Byte = n: nat | n < 256

  function Digit(d: nat): char
    requires d < 64
  {
    if d < 26 then 'A' + d as char
    else if d < 52 then 'a' + (d - 26) as char
    else if d < 62 then '0' + (d - 52) as char
    else if d == 62 then '+'
    else '/'
  }

  function Value(c: char): Option<nat> {
    if 'A' <= c <= 'Z' then Some(c as nat - 'A' as nat)
    else if 'a' <= c <= 'z' then Some(c as nat - 'a' as nat + 26)
    else if '0' <= c <= '9' then Some(c as nat - '0' as nat + 52)
    else if c == '+' then Some(62)
    else if c == '/' then Some(63)
    else None
  }

  lemma DigitsAreValues(c: char, d: nat)
    requires d < 64
    ensures Value(c) == Some(d) <==> c == Digit(d)
  {
  }

  lemma ValuesAreSmall(c: char)
    ensures Value(c).Some? ==> Value(c).value < 64 && Digit(Value(c).value) == c
  {
  }

  function Encode(b: seq<Byte>): string {
    if |b| == 0 then ""
    else if |b| == 1 then [Digit(b[0] / 4), Digit(b[0] % 4 * 16), '=', '=']
    else if |b| == 2 then [Digit(b[0] / 4), Digit(b[0] % 4 * 16 + b[1] / 16), Digit(b[1] % 16 * 4), '=']
    else Quad(b[0], b[1], b[2]) + Encode(b[3..])
  }

  function Quad(x: Byte, y: Byte, z: Byte): (q: string)
    ensures |q| == 4
  {
    [Digit(x / 4), Digit(x % 4 * 16 + y / 16), Digit(y % 16 * 4 + z / 64), Digit(z % 64)]
  }

  function Triple(p: nat, q: nat, r: nat, s: nat): (t: seq<Byte>)
    requires p < 64 && q < 64 && r < 64 && s < 64
    ensures |t| == 3
  {
    [p * 4 + q / 16, q % 16 * 16 + r / 4, r % 4 * 64 + s]
  }

  function Decode(s: string): Option<seq<Byte>> {
    if s == "" then Some([])
    else if |s| < 4 || Value(s[0]).None? || Value(s[1]).None? then None
    else if |s| == 4 && s[3] == '=' then DecodeLast(s)
    else if Value(s[2]).None? || Value(s[3]).None? then None
    else
      ValuesAreSmall(s[0]); ValuesAreSmall(s[1]); ValuesAreSmall(s[2]); ValuesAreSmall(s[3]);
      var rest := Decode(s[4..]);
      if rest.None? then None
      else Some(Triple(Value(s[0]).value, Value(s[1]).value, Value(s[2]).value, Value(s[3]).value) + rest.value)
  }

  // A padded group: the bits beyond the last byte must be zero.
  function DecodeLast(s: string): Option<seq<Byte>>
    requires |s| == 4 && Value(s[0]).Some? && Value(s[1]).Some?
  {
    ValuesAreSmall(s[0]); ValuesAreSmall(s[1]); ValuesAreSmall(s[2]);
    var p, q := Value(s[0]).value, Value(s[1]).value;
    if s[2] == '=' then (if q % 16 == 0 then Some([p * 4 + q / 16]) else None)
    else if Value(s[2]).None? || Value(s[2]).value % 4 != 0 then None
    else Some([p * 4 + q / 16, q % 16 * 16 + Value(s[2]).value / 4])
  }

  lemma QuadAndTriple(x: Byte, y: Byte, z: Byte)
    ensures x / 4 < 64 && x % 4 * 16 + y / 16 < 64 && y % 16 * 4 + z / 64 < 64 && z % 64 < 64
    ensures Triple(x / 4, x % 4 * 16 + y / 16, y % 16 * 4 + z / 64, z % 64) == [x, y, z]
  {
    SplitByte(x, y / 16, 4, 16);
    SplitByte(y, z / 64, 16, 4);
    assert z / 64 * 64 + z % 64 == z;
  }

  // Cutting a byte in two and gluing its halves to others loses nothing.
  lemma SplitByte(x: Byte, y: nat, a: nat, b: nat)
    requires (a == 4 && b == 16) || (a == 16 && b == 4)
    requires y < b
    ensures x % a * b + y < 64
    ensures x / a * a + (x % a * b + y) / b == x && (x % a * b + y) % b == y
  {
    assert x / a * a + x % a == x;
    if a == 4 {
      assert (x % 4 * 16 + y) / 16 == x % 4;
    } else {
      assert (x % 16 * 4 + y) / 4 == x % 16;
    }
  }

  lemma TripleAndQuad(p: nat, q: nat, r: nat, s: nat)
    requires p < 64 && q < 64 && r < 64 && s < 64
    ensures var t := Triple(p, q, r, s);
            Quad(t[0], t[1], t[2]) == [Digit(p), Digit(q), Digit(r), Digit(s)]
  {
    hide Digit;
    var x, y, z := p * 4 + q / 16, q % 16 * 16 + r / 4, r % 4 * 64 + s;
    assert x / 4 == p;
    assert x % 4 * 16 + y / 16 == q;
    assert y % 16 * 4 + z / 64 == r;
    assert z % 64 == s;
  }

  lemma OneByte(x: Byte)
    ensures DecodeLast([Digit(x / 4), Digit(x % 4 * 16), '=', '=']) == Some([x])
  {
    DigitsAreValues(Digit(x / 4), x / 4);
    DigitsAreValues(Digit(x % 4 * 16), x % 4 * 16);
  }

  lemma TwoBytes(x: Byte, y: Byte)
    ensures DecodeLast([Digit(x / 4), Digit(x % 4 * 16 + y / 16), Digit(y % 16 * 4), '=']) == Some([x, y])
  {
    hide Value, Digit;
    DigitsAreValues(Digit(x / 4), x / 4);
    DigitsAreValues(Digit(x % 4 * 16 + y / 16), x % 4 * 16 + y / 16);
    DigitsAreValues(Digit(y % 16 * 4), y % 16 * 4);
    NotPadding(y % 16 * 4);
  }

  lemma NotPadding(d: nat)
    requires d < 64
    ensures Digit(d) != '=' && Digit(d) < '\U{80}'
  {
  }

  lemma {:induction false} DecodeInvertsEncode(b: seq<Byte>)
    ensures Decode(Encode(b)) == Some(b)
  {
    hide DecodeLast, Quad, Value, Digit;
    if |b| == 0 {
    } else if |b| == 1 {
      OneByte(b[0]);
      DigitsAreValues(Digit(b[0] / 4), b[0] / 4);
      DigitsAreValues(Digit(b[0] % 4 * 16), b[0] % 4 * 16);
      assert b == [b[0]];
    } else if |b| == 2 {
      TwoBytes(b[0], b[1]);
      DigitsAreValues(Digit(b[0] / 4), b[0] / 4);
      DigitsAreValues(Digit(b[0] % 4 * 16 + b[1] / 16), b[0] % 4 * 16 + b[1] / 16);
      assert b == [b[0], b[1]];
    } else {
      DecodeInvertsEncode(b[3..]);
      DecodeGroup(b[0], b[1], b[2], Encode(b[3..]));
      assert b == [b[0], b[1], b[2]] + b[3..];
    }
  }

  lemma DecodeGroup(x: Byte, y: Byte, z: Byte, rest: string)
    requires Decode(rest).Some?
    ensures Decode(Quad(x, y, z) + rest) == Some([x, y, z] + Decode(rest).value)
  {
    QuadAndTriple(x, y, z);
    DigitsAreValues(Digit(x / 4), x / 4);
    DigitsAreValues(Digit(x % 4 * 16 + y / 16), x % 4 * 16 + y / 16);
    DigitsAreValues(Digit(y % 16 * 4 + z / 64), y % 16 * 4 + z / 64);
    DigitsAreValues(Digit(z % 64), z % 64);
    assert (Quad(x, y, z) + rest)[4..] == rest;
  }

  lemma LastIsCanonical(s: string)
    requires |s| == 4 && s[3] == '=' && Value(s[0]).Some? && Value(s[1]).Some? && DecodeLast(s).Some?
    ensures s == Encode(DecodeLast(s).value)
  {
    hide Value, Digit;
    ValuesAreSmall(s[0]); ValuesAreSmall(s[1]); ValuesAreSmall(s[2]);
    var b := DecodeLast(s).value;
    var p, q := Value(s[0]).value, Value(s[1]).value;
    assert b[0] / 4 == p;
    if |b| == 1 {
      assert b[0] % 4 * 16 == q;
    } else {
      var r := Value(s[2]).value;
      assert b[0] % 4 * 16 + b[1] / 16 == q;
      assert b[1] % 16 * 4 == r;
    }
    assert s == [s[0], s[1], s[2], s[3]];
  }

  // Only one text decodes to given bytes: the one the encoder writes.
  lemma {:induction false} DecodeIsCanonical(s: string)
    ensures Decode(s).Some? ==> s == Encode(Decode(s).value)
  {
    hide Value, Digit, DecodeLast, Quad, Encode;
    if s != "" && Decode(s).Some? {
      if |s| == 4 && s[3] == '=' {
        LastIsCanonical(s);
      } else {
        DecodeIsCanonical(s[4..]);
        GroupIsCanonical(s, Decode(s[4..]).value);
      }
    } else {
      NothingEncoded();
    }
  }

  lemma NothingEncoded()
    ensures Encode([]) == ""
  {
  }

  lemma GroupIsCanonical(s: string, rest: seq<Byte>)
    requires |s| >= 4 && s[4..] == Encode(rest)
    requires Value(s[0]).Some? && Value(s[1]).Some? && Value(s[2]).Some? && Value(s[3]).Some?
    ensures Value(s[0]).value < 64 && Value(s[1]).value < 64 && Value(s[2]).value < 64 && Value(s[3]).value < 64
    ensures s == Encode(Triple(Value(s[0]).value, Value(s[1]).value, Value(s[2]).value, Value(s[3]).value) + rest)
  {
    hide Value, Digit, Quad, Triple;
    ValuesAreSmall(s[0]); ValuesAreSmall(s[1]); ValuesAreSmall(s[2]); ValuesAreSmall(s[3]);
    var p, q, r, t := Value(s[0]).value, Value(s[1]).value, Value(s[2]).value, Value(s[3]).value;
    TripleAndQuad(p, q, r, t);
    var group := Triple(p, q, r, t);
    assert (group + rest)[3..] == rest;
    assert s == [s[0], s[1], s[2], s[3]] + s[4..];
  }

  lemma {:induction false} EncodedLength(b: seq<Byte>)
    ensures |Encode(b)| == (|b| + 2) / 3 * 4
  {
    hide Digit, Quad;
    if |b| >= 3 {
      EncodedLength(b[3..]);
      assert (|b| + 2) / 3 == (|b| - 3 + 2) / 3 + 1;
    }
  }

  lemma {:induction false} EncodedIsAscii(b: seq<Byte>)
    ensures Utf8Len(Encode(b)) == |Encode(b)|
  {
    if |b| == 0 {
    } else if |b| < 3 {
      FourAscii(Encode(b), "");
      assert Encode(b) + "" == Encode(b);
    } else {
      EncodedIsAscii(b[3..]);
      FourAscii(Quad(b[0], b[1], b[2]), Encode(b[3..]));
    }
  }

  lemma FourAscii(s: string, rest: string)
    requires |s| == 4 && s[0] < '\U{80}' && s[1] < '\U{80}' && s[2] < '\U{80}' && s[3] < '\U{80}'
    ensures Utf8Len(s + rest) == 4 + Utf8Len(rest)
  {
    var t := s + rest;
    assert t[1..][1..][1..][1..] == rest;
    assert Utf8Len(t) == 1 + Utf8Len(t[1..]);
    assert Utf8Len(t[1..]) == 1 + Utf8Len(t[1..][1..]);
    assert Utf8Len(t[1..][1..]) == 1 + Utf8Len(t[1..][1..][1..]);
  }

  // ------------------------------------------------- the alphabet of the standard

  // Table 1 of RFC 4648.
  const TABLE := "ABCDEFGHIJKLMNOPQRSTUVWXYZ" + "abcdefghijklmnopqrstuvwxyz" + "0123456789+/"

  // The character stands at this place of the table.
  predicate Stands(c: char, place: nat) {
    place < |TABLE| && TABLE[place] == c
  }

  // Three bytes, and four places, as the number their bits make.
  function Bits(x: nat, y: nat, z: nat): nat {
    65536 * x + 256 * y + z
  }

  predicate Writes(s: string, p: nat, q: nat, r: nat, t: nat, bits: nat) {
    && |s| >= 4 && Stands(s[0], p) && Stands(s[1], q) && Stands(s[2], r) && Stands(s[3], t)
    && bits == 262144 * p + 4096 * q + 64 * r + t
  }

  // The bits of the bytes, from left to right, are those of the places of the
  // characters, six to each; a last group of fewer bytes is filled up with zero
  // bits, and its characters without a bit of any byte are written as padding.
  ghost predicate Spells(s: string, b: seq<Byte>) {
    if |b| == 0 then s == ""
    else if |b| == 1 then
      |s| == 4 && s[2] == '=' && s[3] == '='
      && exists p, q :: Writes(s[..2] + "AA", p, q, 0, 0, Bits(b[0], 0, 0))
    else if |b| == 2 then
      |s| == 4 && s[3] == '=' && exists p, q, r :: Writes(s[..3] + "A", p, q, r, 0, Bits(b[0], b[1], 0))
    else
      |s| >= 4 && Spells(s[4..], b[3..]) && exists p, q, r, t :: Writes(s, p, q, r, t, Bits(b[0], b[1], b[2]))
  }

  lemma PlacesAreDigits(c: char, d: nat)
    requires d < 64
    ensures |TABLE| == 64 && (Stands(c, d) <==> c == Digit(d)) && (Stands(c, d) <==> Value(c) == Some(d))
    ensures c == '=' ==> !Stands(c, d)
  {
    assert TABLE[d] == Digit(d);
  }

  // Twenty-four bits split one way into bytes and one way into places.
  lemma SixBitsEach(x: Byte, y: Byte, z: Byte, p: nat, q: nat, r: nat, t: nat)
    requires p < 64 && q < 64 && r < 64 && t < 64
    ensures Bits(x, y, z) == 262144 * p + 4096 * q + 64 * r + t <==>
            p == x / 4 && q == x % 4 * 16 + y / 16 && r == y % 16 * 4 + z / 64 && t == z % 64
  {
    var a, b, c := p * 4 + q / 16, q % 16 * 16 + r / 4, r % 4 * 64 + t;
    assert Bits(a, b, c) == 262144 * p + 4096 * q + 64 * r + t;
    if p == x / 4 && q == x % 4 * 16 + y / 16 && r == y % 16 * 4 + z / 64 && t == z % 64 {
      QuadAndTriple(x, y, z);
      assert a == x && b == y && c == z;
    }
  }

  lemma QuadIsWritten(s: string, x: Byte, y: Byte, z: Byte)
    requires |s| >= 4
    ensures (exists p, q, r, t :: Writes(s, p, q, r, t, Bits(x, y, z))) <==> s[..4] == Quad(x, y, z)
    ensures forall p, q, r, t :: Writes(s, p, q, r, t, Bits(x, y, z)) ==>
                                   p == x / 4 && q == x % 4 * 16 + y / 16 && r == y % 16 * 4 + z / 64 && t == z % 64
  {
    hide Bits, Digit, Value, Stands;
    QuadAndTriple(x, y, z);
    var a, b, c, d := x / 4, x % 4 * 16 + y / 16, y % 16 * 4 + z / 64, z % 64;
    forall p, q, r, t | Writes(s, p, q, r, t, Bits(x, y, z))
      ensures p == a && q == b && r == c && t == d
      ensures s[..4] == Quad(x, y, z)
    {
      InTable(s, p, q, r, t);
      SixBitsEach(x, y, z, p, q, r, t);
    }
    if s[..4] == Quad(x, y, z) {
      assert s[0] == s[..4][0] && s[1] == s[..4][1] && s[2] == s[..4][2] && s[3] == s[..4][3];
      PlacesAreDigits(s[0], a); PlacesAreDigits(s[1], b); PlacesAreDigits(s[2], c); PlacesAreDigits(s[3], d);
      SixBitsEach(x, y, z, a, b, c, d);
      assert Writes(s, a, b, c, d, Bits(x, y, z));
    }
  }

  lemma InTable(s: string, p: nat, q: nat, r: nat, t: nat)
    requires |s| >= 4 && Stands(s[0], p) && Stands(s[1], q) && Stands(s[2], r) && Stands(s[3], t)
    ensures p < 64 && q < 64 && r < 64 && t < 64
    ensures s[..4] == [Digit(p), Digit(q), Digit(r), Digit(t)]
  {
    hide Digit, Value;
    PlacesAreDigits(s[0], 0);
    PlacesAreDigits(s[0], p); PlacesAreDigits(s[1], q); PlacesAreDigits(s[2], r); PlacesAreDigits(s[3], t);
  }

  lemma OneIsWritten(s: string, x: Byte)
    requires |s| == 4
    ensures s[2] == '=' && s[3] == '=' && (exists p, q :: Writes(s[..2] + "AA", p, q, 0, 0, Bits(x, 0, 0))) <==>
            s == Encode([x])
  {
    hide Writes, Bits, Digit, Value;
    var u := s[..2] + "AA";
    PlacesAreDigits('A', 0);
    QuadIsWritten(u, x, 0, 0);
    assert u[..4] == u && u[0] == s[0] && u[1] == s[1];
    assert s == [s[0], s[1], s[2], s[3]];
    if s == Encode([x]) {
      assert u == Quad(x, 0, 0);
      var p, q, r, t :| Writes(u, p, q, r, t, Bits(x, 0, 0));
      assert Writes(u, p, q, 0, 0, Bits(x, 0, 0));
    }
  }

  lemma TwoAreWritten(s: string, x: Byte, y: Byte)
    requires |s| == 4
    ensures s[3] == '=' && (exists p, q, r :: Writes(s[..3] + "A", p, q, r, 0, Bits(x, y, 0))) <==>
            s == Encode([x, y])
  {
    hide Writes, Bits, Digit, Value;
    var u := s[..3] + "A";
    PlacesAreDigits('A', 0);
    QuadIsWritten(u, x, y, 0);
    assert u[..4] == u && u[0] == s[0] && u[1] == s[1] && u[2] == s[2];
    assert s == [s[0], s[1], s[2], s[3]];
    if s == Encode([x, y]) {
      assert u == Quad(x, y, 0);
      var p, q, r, t :| Writes(u, p, q, r, t, Bits(x, y, 0));
      assert Writes(u, p, q, r, 0, Bits(x, y, 0));
    }
  }

  // The encoder writes, bit for bit, what the table of the standard says.
  lemma {:induction false} EncodeSpells(s: string, b: seq<Byte>)
    ensures Spells(s, b) <==> s == Encode(b)
  {
    hide Writes, Bits, Digit, Value, Quad;
    if |b| == 1 {
      assert b == [b[0]];
      if |s| == 4 {
        OneIsWritten(s, b[0]);
      }
    } else if |b| == 2 {
      assert b == [b[0], b[1]];
      if |s| == 4 {
        TwoAreWritten(s, b[0], b[1]);
      }
    } else if |b| > 2 && |s| >= 4 {
      QuadIsWritten(s, b[0], b[1], b[2]);
      EncodeSpells(s[4..], b[3..]);
      assert s == s[..4] + s[4..];
    }
  }

  // Decoding is the inverse of the standard's table, padding included: it yields
  // bytes just for the texts whose characters spell those bytes.
  lemma DecodesByTheTable(s: string, b: seq<Byte>)
    ensures Decode(s) == Some(b) <==> Spells(s, b)
  {
    hide Decode, Encode, Spells;
    EncodeSpells(s, b);
    DecodeInvertsEncode(b);
    DecodeIsCanonical(s);
  }
}
