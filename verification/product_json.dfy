/** The serialized form of a cart, as written under the `"products"` key: a
    JSON array of `{"name":…,"price":…,"image":…}` objects, laid out the way
    `JSON.stringify` lays out such an array (no whitespace, keys in declaration
    order, prices as decimal integers).

    `Encode` produces that text; `Decode` accepts exactly the texts `Encode`
    produces and nothing else (`DecodeEncode`, `EncodeDecode`). */
module ProductJson {
  import opened Types

  // ---------------------------------------------------------------------
  // Encoding
  // ---------------------------------------------------------------------

  /** The characters escaped with a backslash inside a JSON string. */
  predicate NeedsEscape(c: char) {
    c == '"' || c == '\\'
  }

  function EscapeChar(c: char): string {
    if NeedsEscape(c) then ['\\', c] else [c]
  }

  function Escape(s: string): string {
    if s == [] then [] else EscapeChar(s[0]) + Escape(s[1..])
  }

  /** A JSON string literal holding `s`. */
  function Quote(s: string): string {
    "\"" + Escape(s) + "\""
  }

  predicate IsDigit(c: char) {
    '0' <= c <= '9'
  }

  predicate AllDigits(ds: string) {
    forall i :: 0 <= i < |ds| ==> IsDigit(ds[i])
  }

  function DigitChar(d: nat): char
    requires d < 10
  {
    ('0' as int + d) as char
  }

  function DigitValue(c: char): nat
    requires IsDigit(c)
  {
    c as int - '0' as int
  }

  /** The value of a string of decimal digits, most significant first. */
  function DigitsValue(ds: string): nat
    requires AllDigits(ds)
  {
    if ds == [] then 0 else DigitsValue(ds[..|ds| - 1]) * 10 + DigitValue(ds[|ds| - 1])
  }

  /** The decimal numeral of `n` as `JSON.stringify` writes it: at least one
      digit, no leading zero, and denoting `n`. */
  function Digits(n: nat): (ds: string)
    ensures |ds| >= 1 && AllDigits(ds)
    ensures ds[0] == '0' <==> n == 0
    ensures DigitsValue(ds) == n
    decreases n
  {
    if n < 10 then [DigitChar(n)]
    else
      var high := Digits(n / 10);
      var ds := high + [DigitChar(n % 10)];
      assert ds[..|ds| - 1] == high;
      ds
  }

  /** One product as a JSON object; the keys come in the order the product
      literals of the cart declare them. */
  function EncodeProduct(p: Product): string {
    "{\"name\":" + Quote(p.name) + ",\"price\":" + Digits(p.price) + ",\"image\":" + Quote(p.image) + "}"
  }

  /** The array elements, separated by commas. */
  function Join(ps: seq<Product>): string {
    if ps == [] then ""
    else if |ps| == 1 then EncodeProduct(ps[0])
    else EncodeProduct(ps[0]) + "," + Join(ps[1..])
  }

  /** The text stored under `"products"` for the cart `ps`. */
  function Encode(ps: seq<Product>): (t: string)
    ensures |t| >= 2 && t[0] == '[' && t[|t| - 1] == ']'
    ensures t == "[]" <==> ps == []
  {
    assert ps != [] ==> Join(ps)[0] == '{';
    "[" + Join(ps) + "]"
  }

  // ---------------------------------------------------------------------
  // Decoding: each parser returns what it read and the text after it
  // ---------------------------------------------------------------------

  /** Consumes the literal `lit` at the front of `t`. */
  function Expect(lit: string, t: string): (r: Option<string>)
    ensures r.Some? <==> lit <= t
    ensures r.Some? ==> t == lit + r.value
  {
    if lit <= t then Some(t[|lit|..]) else None
  }

  /** Reads the characters of a string literal up to and including its
      closing quote; a backslash must be followed by a quote or a backslash. */
  function ParseStringBody(t: string): (r: Option<(string, string)>)
    ensures r.Some? ==> |r.value.1| < |t|
  {
    if t == [] then None
    else if t[0] == '"' then Some(([], t[1..]))
    else if t[0] == '\\' then
      if |t| < 2 || !NeedsEscape(t[1]) then None
      else
        var body :- ParseStringBody(t[2..]);
        Some(([t[1]] + body.0, body.1))
    else
      var body :- ParseStringBody(t[1..]);
      Some(([t[0]] + body.0, body.1))
  }

  function ParseString(t: string): (r: Option<(string, string)>)
    ensures r.Some? ==> |r.value.1| < |t|
  {
    if t != [] && t[0] == '"' then ParseStringBody(t[1..]) else None
  }

  /** The length of the longest run of digits at the front of `t`. */
  function DigitRun(t: string): (k: nat)
    ensures k <= |t| && AllDigits(t[..k])
    ensures k < |t| ==> !IsDigit(t[k])
  {
    if t == [] || !IsDigit(t[0]) then 0
    else
      var k := 1 + DigitRun(t[1..]);
      assert t[..k] == [t[0]] + t[1..][..k - 1];
      k
  }

  /** Reads a non-negative JSON integer: a lone `0`, or a run of digits
      that does not start with `0`. */
  function ParseNat(t: string): (r: Option<(nat, string)>)
    ensures r.Some? ==> |r.value.1| < |t|
  {
    if t == [] || !IsDigit(t[0]) then None
    else if t[0] == '0' then Some((0, t[1..]))
    else
      var k := DigitRun(t);
      Some((DigitsValue(t[..k]), t[k..]))
  }

  /** Reads `key` followed by a string literal. */
  function ParseStringField(key: string, t: string): (r: Option<(string, string)>)
    ensures r.Some? ==> |r.value.1| < |t|
  {
    var t1 :- Expect(key, t);
    ParseString(t1)
  }

  /** Reads `key` followed by an integer. */
  function ParseNatField(key: string, t: string): (r: Option<(nat, string)>)
    ensures r.Some? ==> |r.value.1| < |t|
  {
    var t1 :- Expect(key, t);
    ParseNat(t1)
  }

  function ParseProduct(t: string): (r: Option<(Product, string)>)
    ensures r.Some? ==> |r.value.1| < |t|
  {
    var name :- ParseStringField("{\"name\":", t);
    var price :- ParseNatField(",\"price\":", name.1);
    var image :- ParseStringField(",\"image\":", price.1);
    var t4 :- Expect("}", image.1);
    Some((Product(name.0, price.0, image.0), t4))
  }

  /** Reads one or more products separated by commas, and the closing `]`. */
  function ParseItems(t: string): (r: Option<(seq<Product>, string)>)
    ensures r.Some? ==> |r.value.1| < |t|
    decreases |t|
  {
    var first :- ParseProduct(t);
    var rest := first.1;
    if rest != [] && rest[0] == ',' then
      var others :- ParseItems(rest[1..]);
      Some(([first.0] + others.0, others.1))
    else if rest != [] && rest[0] == ']' then
      Some(([first.0], rest[1..]))
    else
      None
  }

  /** The cart held by a stored text, or None when the text is not one. */
  function Decode(t: string): Option<seq<Product>> {
    if t == "[]" then Some([])
    else if t != [] && t[0] == '[' then
      match ParseItems(t[1..])
      case Some((ps, rest)) => if rest == [] then Some(ps) else None
      case None => None
    else None
  }

  // ---------------------------------------------------------------------
  // Decode(Encode(ps)) == Some(ps)
  // ---------------------------------------------------------------------

  /** ParseStringBody reads one written character and goes on with the rest. */
  lemma StringBodyStep(c: char, tail: string)
    ensures ParseStringBody(EscapeChar(c) + tail).Some? == ParseStringBody(tail).Some?
    ensures ParseStringBody(tail).Some? ==>
              var (s, rest) := ParseStringBody(tail).value;
              ParseStringBody(EscapeChar(c) + tail).value == ([c] + s, rest)
  {
  }

  lemma {:induction false} StringBodyRoundTrip(s: string, rest: string)
    ensures ParseStringBody(Escape(s) + "\"" + rest) == Some((s, rest))
  {
    var t := Escape(s) + "\"" + rest;
    if s == [] {
      assert t == "\"" + rest;
    } else {
      var tail := Escape(s[1..]) + "\"" + rest;
      assert t == EscapeChar(s[0]) + tail;
      StringBodyRoundTrip(s[1..], rest);
      StringBodyStep(s[0], tail);
      assert [s[0]] + s[1..] == s;
    }
  }

  lemma StringRoundTrip(s: string, rest: string)
    ensures ParseString(Quote(s) + rest) == Some((s, rest))
  {
    var t := Quote(s) + rest;
    assert t[1..] == Escape(s) + "\"" + rest;
    StringBodyRoundTrip(s, rest);
  }

  lemma DigitRunOfDigits(ds: string, rest: string)
    requires AllDigits(ds)
    requires rest == [] || !IsDigit(rest[0])
    ensures DigitRun(ds + rest) == |ds|
  {
    var t := ds + rest;
    var k := DigitRun(t);
    assert t[..|ds|] == ds;
  }

  lemma NatRoundTrip(n: nat, rest: string)
    requires rest == [] || !IsDigit(rest[0])
    ensures ParseNat(Digits(n) + rest) == Some((n, rest))
  {
    var ds := Digits(n);
    var t := ds + rest;
    if n != 0 {
      DigitRunOfDigits(ds, rest);
      assert t[..|ds|] == ds;
      assert t[|ds|..] == rest;
    } else {
      assert ds == "0";
    }
  }

  lemma StringFieldRoundTrip(key: string, s: string, rest: string)
    ensures ParseStringField(key, key + Quote(s) + rest) == Some((s, rest))
  {
    assert key + Quote(s) + rest == key + (Quote(s) + rest);
    StringRoundTrip(s, rest);
  }

  lemma NatFieldRoundTrip(key: string, n: nat, rest: string)
    requires rest == [] || !IsDigit(rest[0])
    ensures ParseNatField(key, key + Digits(n) + rest) == Some((n, rest))
  {
    assert key + Digits(n) + rest == key + (Digits(n) + rest);
    NatRoundTrip(n, rest);
  }

  lemma ProductRoundTrip(p: Product, rest: string)
    ensures ParseProduct(EncodeProduct(p) + rest) == Some((p, rest))
  {
    var t3 := "}" + rest;
    var t2 := ",\"image\":" + Quote(p.image) + t3;
    var t1 := ",\"price\":" + Digits(p.price) + t2;
    assert EncodeProduct(p) + rest == "{\"name\":" + Quote(p.name) + t1;
    StringFieldRoundTrip("{\"name\":", p.name, t1);
    NatFieldRoundTrip(",\"price\":", p.price, t2);
    StringFieldRoundTrip(",\"image\":", p.image, t3);
  }

  /** What ParseItems does once the first product has been read. */
  lemma ParseItemsLast(t: string, p: Product, rest: string)
    requires ParseProduct(t) == Some((p, "]" + rest))
    ensures ParseItems(t) == Some(([p], rest))
  {
  }

  lemma ParseItemsMore(t: string, p: Product, tail: string, qs: seq<Product>, rest: string)
    requires ParseProduct(t) == Some((p, "," + tail))
    requires ParseItems(tail) == Some((qs, rest))
    ensures ParseItems(t) == Some(([p] + qs, rest))
  {
    assert ("," + tail)[1..] == tail;
  }

  lemma {:induction false} ItemsRoundTrip(ps: seq<Product>, rest: string)
    requires ps != []
    ensures ParseItems(Join(ps) + "]" + rest) == Some((ps, rest))
    decreases |ps|
  {
    var t := Join(ps) + "]" + rest;
    if |ps| == 1 {
      assert t == EncodeProduct(ps[0]) + ("]" + rest);
      ProductRoundTrip(ps[0], "]" + rest);
      ParseItemsLast(t, ps[0], rest);
      assert ps == [ps[0]];
    } else {
      var tail := Join(ps[1..]) + "]" + rest;
      JoinCons(ps[0], ps[1..]);
      assert [ps[0]] + ps[1..] == ps;
      Regroup(EncodeProduct(ps[0]), ",", Join(ps[1..]), "]", rest);
      ProductRoundTrip(ps[0], "," + tail);
      ItemsRoundTrip(ps[1..], rest);
      ParseItemsMore(t, ps[0], tail, ps[1..], rest);
    }
  }

  lemma DecodeItems(t: string, ps: seq<Product>)
    requires t != "[]" && t != [] && t[0] == '['
    requires ParseItems(t[1..]) == Some((ps, []))
    ensures Decode(t) == Some(ps)
  {
  }

  /** Every cart reads back as itself from its encoding. */
  lemma DecodeEncode(ps: seq<Product>)
    ensures Decode(Encode(ps)) == Some(ps)
  {
    if ps != [] {
      var t := Encode(ps);
      var items := Join(ps) + "]" + [];
      assert t == "[" + items;
      ItemsRoundTrip(ps, []);
      DecodeItems(t, ps);
    }
  }

  /** Two carts with the same encoding are the same cart. */
  lemma EncodeInjective(ps: seq<Product>, qs: seq<Product>)
    requires Encode(ps) == Encode(qs)
    ensures ps == qs
  {
    DecodeEncode(ps);
    DecodeEncode(qs);
  }

  // ---------------------------------------------------------------------
  // Decode accepts nothing but encodings: Decode(t) == Some(ps) ==> t == Encode(ps)
  // ---------------------------------------------------------------------

  lemma {:induction false} StringBodyCanonical(t: string)
    requires ParseStringBody(t).Some?
    ensures var (s, rest) := ParseStringBody(t).value; t == Escape(s) + "\"" + rest
    decreases |t|
  {
    var (s, rest) := ParseStringBody(t).value;
    if t[0] == '"' {
      assert s == [] && t == "\"" + rest;
    } else {
      var c := if t[0] == '\\' then t[1] else t[0];
      var tail := t[|EscapeChar(c)|..];
      assert t == EscapeChar(c) + tail;
      assert ParseStringBody(tail).Some? && ParseStringBody(tail).value == (s[1..], rest) && s == [c] + s[1..] by {
        StringBodyStep(c, tail);
      }
      StringBodyCanonical(tail);
      calc {
        t;
        EscapeChar(c) + tail;
        EscapeChar(c) + (Escape(s[1..]) + "\"" + rest);
        EscapeChar(s[0]) + Escape(s[1..]) + "\"" + rest;
      }
    }
  }

  lemma StringCanonical(t: string)
    requires ParseString(t).Some?
    ensures var (s, rest) := ParseString(t).value; t == Quote(s) + rest
  {
    StringBodyCanonical(t[1..]);
    assert t == "\"" + t[1..];
  }

  lemma {:induction false} DigitsValuePositive(ds: string)
    requires |ds| >= 1 && AllDigits(ds) && ds[0] != '0'
    ensures DigitsValue(ds) >= 1
    decreases |ds|
  {
    if |ds| > 1 {
      DigitsValuePositive(ds[..|ds| - 1]);
    }
  }

  /** A numeral without a leading zero is the numeral of its value. */
  lemma {:induction false} DigitsOfValue(ds: string)
    requires |ds| >= 1 && AllDigits(ds) && ds[0] != '0'
    ensures Digits(DigitsValue(ds)) == ds
    decreases |ds|
  {
    var v := DigitsValue(ds);
    var last := ds[|ds| - 1];
    if |ds| == 1 {
      assert ds == [last];
    } else {
      var high := ds[..|ds| - 1];
      DigitsValuePositive(high);
      DigitsOfValue(high);
      assert v / 10 == DigitsValue(high) && v % 10 == DigitValue(last);
      assert ds == high + [last];
    }
  }

  lemma NatCanonical(t: string)
    requires ParseNat(t).Some?
    ensures var (n, rest) := ParseNat(t).value; t == Digits(n) + rest
  {
    if t[0] == '0' {
      assert t == "0" + t[1..];
    } else {
      var k := DigitRun(t);
      DigitsOfValue(t[..k]);
      assert t == t[..k] + t[k..];
    }
  }

  lemma Reassociate(a: string, b: string, c: string, d: string, e: string, f: string, g: string, h: string)
    ensures a + b + (c + d + (e + f + (g + h))) == a + b + c + d + e + f + g + h
  {
  }

  lemma Regroup(a: string, b: string, c: string, d: string, e: string)
    ensures a + (b + (c + d + e)) == a + b + c + d + e
  {
  }

  lemma StringFieldCanonical(key: string, t: string)
    requires ParseStringField(key, t).Some?
    ensures var (s, rest) := ParseStringField(key, t).value; t == key + Quote(s) + rest
  {
    StringCanonical(Expect(key, t).value);
  }

  lemma NatFieldCanonical(key: string, t: string)
    requires ParseNatField(key, t).Some?
    ensures var (n, rest) := ParseNatField(key, t).value; t == key + Digits(n) + rest
  {
    NatCanonical(Expect(key, t).value);
  }

  lemma ProductCanonical(t: string)
    requires ParseProduct(t).Some?
    ensures var (p, rest) := ParseProduct(t).value; t == EncodeProduct(p) + rest
  {
    var name := ParseStringField("{\"name\":", t).value;
    StringFieldCanonical("{\"name\":", t);
    var price := ParseNatField(",\"price\":", name.1).value;
    NatFieldCanonical(",\"price\":", name.1);
    var image := ParseStringField(",\"image\":", price.1).value;
    StringFieldCanonical(",\"image\":", price.1);
    var t4 := Expect("}", image.1).value;
    var p := Product(name.0, price.0, image.0);
    assert ParseProduct(t).value == (p, t4);
    Reassociate("{\"name\":", Quote(p.name), ",\"price\":", Digits(p.price), ",\"image\":", Quote(p.image), "}", t4);
  }

  lemma JoinCons(p: Product, others: seq<Product>)
    requires others != []
    ensures Join([p] + others) == EncodeProduct(p) + "," + Join(others)
  {
  }

  /** The two ways ParseItems can succeed: the first product is the last
      one, or it is followed by a comma and more products. */
  lemma ParseItemsShape(t: string)
    requires ParseItems(t).Some?
    ensures ParseProduct(t).Some?
    ensures var (p, after) := ParseProduct(t).value;
            var (ps, rest) := ParseItems(t).value;
            || (after == "]" + rest && ps == [p])
            || (after == "," + after[1..] && ParseItems(after[1..]).Some?
                && ps == [p] + ParseItems(after[1..]).value.0 && rest == ParseItems(after[1..]).value.1)
  {
  }

  lemma {:induction false} ItemsCanonical(t: string)
    requires ParseItems(t).Some?
    ensures var (ps, rest) := ParseItems(t).value; ps != [] && t == Join(ps) + "]" + rest
    decreases |t|
  {
    ParseItemsShape(t);
    ProductCanonical(t);
    var (p, after) := ParseProduct(t).value;
    var (ps, rest) := ParseItems(t).value;
    if after == "]" + rest {
      assert Join(ps) == EncodeProduct(p);
    } else {
      ItemsCanonical(after[1..]);
      var others := ParseItems(after[1..]).value.0;
      JoinCons(p, others);
      Regroup(EncodeProduct(p), ",", Join(others), "]", rest);
    }
  }

  /** Only encodings decode: a stored text that yields a cart is that cart's encoding. */
  lemma EncodeDecode(t: string)
    requires Decode(t).Some?
    ensures Encode(Decode(t).value) == t
  {
    if t != "[]" {
      ItemsCanonical(t[1..]);
      assert t == "[" + t[1..];
    }
  }
}
