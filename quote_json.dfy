/**
 * The persisted form of the quote list. The site stores `JSON.stringify(quoteItems)`
 * and reads it back with `JSON.parse`; this module replaces that pair by a small
 * concrete text codec of the same shape (a bracketed list of braced records whose
 * string fields are quoted with backslash escapes) and proves that decoding undoes
 * encoding. `Decode` returning `None` stands for `JSON.parse` throwing.
 */
module QuoteJson {
  import opened Wrappers
  import opened Strings

  /** One line of the quote: the product fields copied from the add button, plus a count. */
  datatype Item = Item(id: string, name: string, image: string, details: string, quantity: int)

  function EscapeText(s: string): (r: string)
    ensures |r| >= |s|
  {
    if s == [] then []
    else (if s[0] == '"' || s[0] == '\\' then ['\\', s[0]] else [s[0]]) + EscapeText(s[1..])
  }

  /** A string field: quoted, with `"` and `\` escaped. */
  function EncodeText(s: string): string {
    "\"" + EscapeText(s) + "\""
  }

  /** Reads escaped characters up to the closing quote; returns the text and what follows. */
  function ReadEscaped(t: string): (r: Option<(string, string)>)
    ensures r.Some? ==> |r.value.1| < |t|
  {
    if |t| == 0 then None
    else if t[0] == '"' then Some(([], t[1..]))
    else if t[0] == '\\' then
      if |t| < 2 then None
      else
        var (v, rest) :- ReadEscaped(t[2..]);
        Some(([t[1]] + v, rest))
    else
      var (v, rest) :- ReadEscaped(t[1..]);
      Some(([t[0]] + v, rest))
  }

  function DecodeText(t: string): (r: Option<(string, string)>)
    ensures r.Some? ==> |r.value.1| < |t|
  {
    if |t| == 0 || t[0] != '"' then None else ReadEscaped(t[1..])
  }

  predicate IsNumberChar(c: char) {
    c == '-' || IsDigit(c)
  }

  /** Length of the longest prefix of `t` made of number characters. */
  function NumberLength(t: string): (n: nat)
    ensures n <= |t|
    ensures forall i :: 0 <= i < n ==> IsNumberChar(t[i])
    ensures n < |t| ==> !IsNumberChar(t[n])
  {
    if t == [] || !IsNumberChar(t[0]) then 0 else 1 + NumberLength(t[1..])
  }

  /** Reads the quantity and the closing brace of a record. */
  function DecodeQuantity(t: string): (r: Option<(int, string)>)
    ensures r.Some? ==> |r.value.1| < |t|
  {
    var n := NumberLength(t);
    var q :- ParseInt(t[..n]);
    if n < |t| && t[n] == '}' then Some((q, t[n + 1..])) else None
  }

  function EncodeItem(x: Item): string {
    "{" + EncodeText(x.id) + EncodeText(x.name) + EncodeText(x.image) + EncodeText(x.details)
    + IntToString(x.quantity) + "}"
  }

  function DecodeItem(t: string): (r: Option<(Item, string)>)
    ensures r.Some? ==> |r.value.1| < |t|
  {
    if |t| == 0 || t[0] != '{' then None else DecodeFields(t[1..])
  }

  /** The fields of a record, after its opening brace. */
  function DecodeFields(t: string): (r: Option<(Item, string)>)
    ensures r.Some? ==> |r.value.1| < |t|
  {
    var (id, t1) :- DecodeText(t);
    var (name, t2) :- DecodeText(t1);
    DecodeLaterFields(id, name, t2)
  }

  function DecodeLaterFields(id: string, name: string, t: string): (r: Option<(Item, string)>)
    ensures r.Some? ==> |r.value.1| < |t|
  {
    var (image, t1) :- DecodeText(t);
    var (details, t2) :- DecodeText(t1);
    var (q, rest) :- DecodeQuantity(t2);
    Some((Item(id, name, image, details, q), rest))
  }

  function EncodeItems(xs: seq<Item>): string {
    if xs == [] then [] else EncodeItem(xs[0]) + EncodeItems(xs[1..])
  }

  /** Reads records up to the closing bracket, which must end the text. */
  function DecodeItems(t: string): Option<seq<Item>>
    decreases |t|
  {
    if t == "]" then Some([])
    else
      var (x, rest) :- DecodeItem(t);
      var xs :- DecodeItems(rest);
      Some([x] + xs)
  }

  /** `JSON.stringify(items)`: never the empty string. */
  function Encode(xs: seq<Item>): (r: string)
    ensures r != ""
  {
    "[" + EncodeItems(xs) + "]"
  }

  /** `JSON.parse(text)`, `None` when it would throw. */
  function Decode(t: string): Option<seq<Item>> {
    if |t| == 0 || t[0] != '[' then None else DecodeItems(t[1..])
  }

  lemma {:induction false} ReadEscapedRoundTrip(s: string, rest: string)
    ensures ReadEscaped(EscapeText(s) + "\"" + rest) == Some((s, rest))
  {
    var t := EscapeText(s) + "\"" + rest;
    if s == [] {
      assert t == "\"" + rest;
    } else {
      ReadEscapedRoundTrip(s[1..], rest);
      var tail := EscapeText(s[1..]) + "\"" + rest;
      if s[0] == '"' || s[0] == '\\' {
        assert t == ['\\', s[0]] + tail;
        assert t[2..] == tail;
      } else {
        assert t == [s[0]] + tail;
        assert t[1..] == tail;
      }
      assert [s[0]] + s[1..] == s;
    }
  }

  lemma DecodeTextRoundTrip(s: string, rest: string)
    ensures DecodeText(EncodeText(s) + rest) == Some((s, rest))
  {
    ReadEscapedRoundTrip(s, rest);
    assert (EncodeText(s) + rest)[1..] == EscapeText(s) + "\"" + rest;
  }

  lemma DecodeQuantityRoundTrip(q: int, rest: string)
    ensures DecodeQuantity(IntToString(q) + "}" + rest) == Some((q, rest))
  {
    var p := IntToString(q);
    var t := p + "}" + rest;
    assert forall i :: 0 <= i < |p| ==> IsNumberChar(p[i]);
    NumberLengthOfNumber(p, "}" + rest);
    assert t[..|p|] == p;
    ParseIntToString(q);
    assert t[|p|] == '}';
    assert t[|p| + 1..] == rest;
  }

  lemma {:induction false} NumberLengthOfNumber(p: string, u: string)
    requires forall i :: 0 <= i < |p| ==> IsNumberChar(p[i])
    requires u != [] && !IsNumberChar(u[0])
    ensures NumberLength(p + u) == |p|
  {
    if p != [] {
      assert (p + u)[1..] == p[1..] + u;
      NumberLengthOfNumber(p[1..], u);
    } else {
      assert p + u == u;
    }
  }

  lemma DecodeLaterFieldsRoundTrip(x: Item, rest: string)
    ensures DecodeLaterFields(x.id, x.name,
      EncodeText(x.image) + (EncodeText(x.details) + (IntToString(x.quantity) + "}" + rest)))
      == Some((x, rest))
  {
    var t4 := IntToString(x.quantity) + "}" + rest;
    var t3 := EncodeText(x.details) + t4;
    DecodeTextRoundTrip(x.image, t3);
    DecodeTextRoundTrip(x.details, t4);
    DecodeQuantityRoundTrip(x.quantity, rest);
  }

  lemma DecodeFieldsRoundTrip(x: Item, rest: string)
    ensures DecodeFields(EncodeText(x.id) + (EncodeText(x.name) + (EncodeText(x.image)
      + (EncodeText(x.details) + (IntToString(x.quantity) + "}" + rest))))) == Some((x, rest))
  {
    var t2 := EncodeText(x.image) + (EncodeText(x.details) + (IntToString(x.quantity) + "}" + rest));
    var t1 := EncodeText(x.name) + t2;
    DecodeLaterFieldsRoundTrip(x, rest);
    DecodeTextRoundTrip(x.id, t1);
    DecodeTextRoundTrip(x.name, t2);
  }

  lemma Reassociate(a: string, b: string, c: string, d: string, e: string, f: string, g: string, h: string)
    ensures a + b + c + d + e + f + g + h == a + (b + (c + (d + (e + (f + g + h)))))
  {
  }

  lemma DecodeItemRoundTrip(x: Item, rest: string)
    ensures DecodeItem(EncodeItem(x) + rest) == Some((x, rest))
  {
    var t0 := EncodeText(x.id) + (EncodeText(x.name) + (EncodeText(x.image)
      + (EncodeText(x.details) + (IntToString(x.quantity) + "}" + rest))));
    Reassociate("{", EncodeText(x.id), EncodeText(x.name), EncodeText(x.image),
      EncodeText(x.details), IntToString(x.quantity), "}", rest);
    assert ("{" + t0)[1..] == t0;
    DecodeFieldsRoundTrip(x, rest);
  }

  lemma {:induction false} DecodeItemsRoundTrip(xs: seq<Item>)
    ensures DecodeItems(EncodeItems(xs) + "]") == Some(xs)
  {
    if xs == [] {
      assert EncodeItems(xs) + "]" == "]";
    } else {
      var rest := EncodeItems(xs[1..]) + "]";
      assert EncodeItems(xs) + "]" == EncodeItem(xs[0]) + rest;
      DecodeItemRoundTrip(xs[0], rest);
      DecodeItemsRoundTrip(xs[1..]);
      assert EncodeItem(xs[0]) + rest != "]" by {
        assert (EncodeItem(xs[0]) + rest)[0] == '{';
      }
      assert [xs[0]] + xs[1..] == xs;
    }
  }

  /** Storing then parsing gives back the same list (`JSON.parse(JSON.stringify(x))`). */
  lemma RoundTrip(xs: seq<Item>)
    ensures Decode(Encode(xs)) == Some(xs)
  {
    assert Encode(xs)[1..] == EncodeItems(xs) + "]";
    DecodeItemsRoundTrip(xs);
  }
}
