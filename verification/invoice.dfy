/** The invoice generator: HTML escaping of free text, euro amounts with a
    decimal comma, and the invoice document with its conditional blocks and
    one table row per order item. */
module InvoiceTemplate {
  import opened Optional
  import opened Digits
  import opened JsString
  import opened Storage

  // ---------------------------------------------------------------- escaping

  /** `s.replace(/c/g, t)`: every occurrence of `c` replaced by `t`. */
  function ReplaceAll(s: string, c: char, t: string): string {
    if s == [] then [] else (if s[0] == c then t else [s[0]]) + ReplaceAll(s[1..], c, t)
  }

  /** `escapeHtml`: five global replacements, ampersand first, newline last. */
  function EscapeHtml(s: string): string {
    ReplaceAll(ReplaceAll(ReplaceAll(ReplaceAll(ReplaceAll(s, '&', "&amp;"), '<', "&lt;"), '>', "&gt;"), '"', "&quot;"), '\n', "<br/>")
  }

  predicate IsSpecial(c: char) { c == '&' || c == '<' || c == '>' || c == '"' || c == '\n' }

  /** What one input character becomes. */
  function EscapeChar(c: char): string {
    if c == '&' then "&amp;"
    else if c == '<' then "&lt;"
    else if c == '>' then "&gt;"
    else if c == '"' then "&quot;"
    else if c == '\n' then "<br/>"
    else [c]
  }

  /** The per-character reading of escaping: each character mapped on its own. */
  function EscapeEach(s: string): (r: string)
    ensures |r| >= |s|
  {
    if s == [] then [] else EscapeChar(s[0]) + EscapeEach(s[1..])
  }

  lemma {:induction false} ReplaceAllConcat(a: string, b: string, c: char, t: string)
    ensures ReplaceAll(a + b, c, t) == ReplaceAll(a, c, t) + ReplaceAll(b, c, t)
    decreases |a|
  {
    if a == [] {
      assert a + b == b;
    } else {
      assert (a + b)[1..] == a[1..] + b;
      ReplaceAllConcat(a[1..], b, c, t);
    }
  }

  lemma {:induction false} ReplaceAllAbsent(s: string, c: char, t: string)
    requires c !in s
    ensures ReplaceAll(s, c, t) == s
    decreases |s|
  {
    if s != [] {
      ReplaceAllAbsent(s[1..], c, t);
    }
  }

  /** Escaping distributes over concatenation. */
  lemma EscapeHtmlConcat(a: string, b: string)
    ensures EscapeHtml(a + b) == EscapeHtml(a) + EscapeHtml(b)
  {
    var a1, b1 := ReplaceAll(a, '&', "&amp;"), ReplaceAll(b, '&', "&amp;");
    ReplaceAllConcat(a, b, '&', "&amp;");
    var a2, b2 := ReplaceAll(a1, '<', "&lt;"), ReplaceAll(b1, '<', "&lt;");
    ReplaceAllConcat(a1, b1, '<', "&lt;");
    var a3, b3 := ReplaceAll(a2, '>', "&gt;"), ReplaceAll(b2, '>', "&gt;");
    ReplaceAllConcat(a2, b2, '>', "&gt;");
    var a4, b4 := ReplaceAll(a3, '"', "&quot;"), ReplaceAll(b3, '"', "&quot;");
    ReplaceAllConcat(a3, b3, '"', "&quot;");
    ReplaceAllConcat(a4, b4, '\n', "<br/>");
  }

  lemma ReplaceAllSingle(c: char, x: char, t: string)
    ensures ReplaceAll([c], x, t) == if c == x then t else [c]
  {
    assert [c][1..] == [];
  }

  /** The text of an entity: only `&`, `;` and lower-case letters. */
  predicate EntityText(t: string) { forall i :: 0 <= i < |t| ==> t[i] == '&' || t[i] == ';' || 'a' <= t[i] <= 'z' }

  lemma EntitiesText()
    ensures EntityText("&amp;") && EntityText("&lt;") && EntityText("&gt;") && EntityText("&quot;")
  {
  }

  /** A replacement of a character that no entity contains leaves an entity alone. */
  lemma KeepsEntity(t: string, x: char, e: string)
    requires EntityText(t) && x != '&' && x != ';' && !('a' <= x <= 'z')
    ensures ReplaceAll(t, x, e) == t
  {
    ReplaceAllAbsent(t, x, e);
  }

  lemma AmpChar(c: char)
    requires c == '&'
    ensures EscapeHtml([c]) == "&amp;"
  {
    var t := "&amp;";
    EntitiesText();
    var s1 := ReplaceAll([c], '&', "&amp;");
    assert s1 == t by { ReplaceAllSingle(c, '&', "&amp;"); }
    var s2 := ReplaceAll(s1, '<', "&lt;");
    assert s2 == t by { KeepsEntity(t, '<', "&lt;"); }
    var s3 := ReplaceAll(s2, '>', "&gt;");
    assert s3 == t by { KeepsEntity(t, '>', "&gt;"); }
    var s4 := ReplaceAll(s3, '"', "&quot;");
    assert s4 == t by { KeepsEntity(t, '"', "&quot;"); }
    assert ReplaceAll(s4, '\n', "<br/>") == t by { KeepsEntity(t, '\n', "<br/>"); }
  }

  lemma LtChar(c: char)
    requires c == '<'
    ensures EscapeHtml([c]) == "&lt;"
  {
    var t := "&lt;";
    EntitiesText();
    var s1 := ReplaceAll([c], '&', "&amp;");
    assert s1 == [c] by { ReplaceAllSingle(c, '&', "&amp;"); }
    var s2 := ReplaceAll(s1, '<', "&lt;");
    assert s2 == t by { ReplaceAllSingle(c, '<', "&lt;"); }
    var s3 := ReplaceAll(s2, '>', "&gt;");
    assert s3 == t by { KeepsEntity(t, '>', "&gt;"); }
    var s4 := ReplaceAll(s3, '"', "&quot;");
    assert s4 == t by { KeepsEntity(t, '"', "&quot;"); }
    assert ReplaceAll(s4, '\n', "<br/>") == t by { KeepsEntity(t, '\n', "<br/>"); }
  }

  lemma GtChar(c: char)
    requires c == '>'
    ensures EscapeHtml([c]) == "&gt;"
  {
    var t := "&gt;";
    EntitiesText();
    var s1 := ReplaceAll([c], '&', "&amp;");
    assert s1 == [c] by { ReplaceAllSingle(c, '&', "&amp;"); }
    var s2 := ReplaceAll(s1, '<', "&lt;");
    assert s2 == [c] by { ReplaceAllSingle(c, '<', "&lt;"); }
    var s3 := ReplaceAll(s2, '>', "&gt;");
    assert s3 == t by { ReplaceAllSingle(c, '>', "&gt;"); }
    var s4 := ReplaceAll(s3, '"', "&quot;");
    assert s4 == t by { KeepsEntity(t, '"', "&quot;"); }
    assert ReplaceAll(s4, '\n', "<br/>") == t by { KeepsEntity(t, '\n', "<br/>"); }
  }

  lemma QuoteChar(c: char)
    requires c == '"'
    ensures EscapeHtml([c]) == "&quot;"
  {
    var t := "&quot;";
    EntitiesText();
    var s1 := ReplaceAll([c], '&', "&amp;");
    assert s1 == [c] by { ReplaceAllSingle(c, '&', "&amp;"); }
    var s2 := ReplaceAll(s1, '<', "&lt;");
    assert s2 == [c] by { ReplaceAllSingle(c, '<', "&lt;"); }
    var s3 := ReplaceAll(s2, '>', "&gt;");
    assert s3 == [c] by { ReplaceAllSingle(c, '>', "&gt;"); }
    var s4 := ReplaceAll(s3, '"', "&quot;");
    assert s4 == t by { ReplaceAllSingle(c, '"', "&quot;"); }
    assert ReplaceAll(s4, '\n', "<br/>") == t by { KeepsEntity(t, '\n', "<br/>"); }
  }

  lemma OtherChar(c: char)
    requires c != '&' && c != '<' && c != '>' && c != '"'
    ensures EscapeHtml([c]) == EscapeChar(c)
  {
    var s1 := ReplaceAll([c], '&', "&amp;");
    ReplaceAllSingle(c, '&', "&amp;");
    assert s1 == [c];
    var s2 := ReplaceAll(s1, '<', "&lt;");
    ReplaceAllSingle(c, '<', "&lt;");
    assert s2 == [c];
    var s3 := ReplaceAll(s2, '>', "&gt;");
    ReplaceAllSingle(c, '>', "&gt;");
    assert s3 == [c];
    var s4 := ReplaceAll(s3, '"', "&quot;");
    ReplaceAllSingle(c, '"', "&quot;");
    assert s4 == [c];
    ReplaceAllSingle(c, '\n', "<br/>");
  }

  /** On one character the replacement chain agrees with the per-character
      mapping: no entity produced by an earlier replacement is escaped again. */
  lemma EscapeHtmlChar(c: char)
    ensures EscapeHtml([c]) == EscapeChar(c)
  {
    if c == '&' { AmpChar(c); }
    else if c == '<' { LtChar(c); }
    else if c == '>' { GtChar(c); }
    else if c == '"' { QuoteChar(c); }
    else { OtherChar(c); }
  }

  /** `escapeHtml` is the concatenation of the per-character mapping. */
  lemma {:induction false} EscapeHtmlPerChar(s: string)
    ensures EscapeHtml(s) == EscapeEach(s)
    decreases |s|
  {
    if s == [] {
    } else {
      assert s == [s[0]] + s[1..];
      EscapeHtmlConcat([s[0]], s[1..]);
      EscapeHtmlChar(s[0]);
      EscapeHtmlPerChar(s[1..]);
    }
  }

  /** Escaping is the identity on text without `& < > "` and newlines. */
  lemma {:induction false} EscapeHtmlIdentity(s: string)
    requires forall i :: 0 <= i < |s| ==> !IsSpecial(s[i])
    ensures EscapeHtml(s) == s
    decreases |s|
  {
    EscapeHtmlPerChar(s);
    if s != [] {
      EscapeHtmlIdentity(s[1..]);
      EscapeHtmlPerChar(s[1..]);
    }
  }

  /** Escaped text holds no double quote and no newline. */
  predicate QuoteAndNewlineFree(r: string) {
    forall i :: 0 <= i < |r| ==> r[i] != '"' && r[i] != '\n'
  }

  /** Every `<` and `>` in `r` belongs to a `<br/>`. */
  predicate AnglesInBreaks(r: string) {
    && (forall i :: 0 <= i < |r| && r[i] == '<' ==> i + 5 <= |r| && r[i..i + 5] == "<br/>")
    && (forall i :: 0 <= i < |r| && r[i] == '>' ==> 4 <= i && r[i - 4..i + 1] == "<br/>")
  }

  lemma AnglesInBreaksConcat(a: string, b: string)
    requires AnglesInBreaks(a) && AnglesInBreaks(b)
    ensures AnglesInBreaks(a + b)
  {
    var r := a + b;
    forall i | 0 <= i < |r| && r[i] == '<' ensures i + 5 <= |r| && r[i..i + 5] == "<br/>" {
      if i < |a| {
        assert r[i..i + 5] == a[i..i + 5];
      } else {
        assert r[i..i + 5] == b[i - |a|..i - |a| + 5];
      }
    }
    forall i | 0 <= i < |r| && r[i] == '>' ensures 4 <= i && r[i - 4..i + 1] == "<br/>" {
      if i < |a| {
        assert r[i - 4..i + 1] == a[i - 4..i + 1];
      } else {
        assert b[i - |a|] == '>';
        assert r[i - 4..i + 1] == b[i - |a| - 4..i - |a| + 1];
      }
    }
  }

  lemma QuoteAndNewlineFreeConcat(a: string, b: string)
    requires QuoteAndNewlineFree(a) && QuoteAndNewlineFree(b)
    ensures QuoteAndNewlineFree(a + b)
  {
    forall i | 0 <= i < |a + b|
      ensures (a + b)[i] != '"' && (a + b)[i] != '\n'
    {
      if i < |a| { assert (a + b)[i] == a[i]; } else { assert (a + b)[i] == b[i - |a|]; }
    }
  }

  /** The replacement of one character already has the shape of escaped text. */
  lemma EscapeCharShape(c: char)
    ensures QuoteAndNewlineFree(EscapeChar(c)) && AnglesInBreaks(EscapeChar(c))
  {
    var e := EscapeChar(c);
    if c == '\n' {
      assert e == "<br/>";
      assert e[0..5] == "<br/>";
      assert e[4 - 4..4 + 1] == "<br/>";
    } else {
      assert forall i :: 0 <= i < |e| ==> e[i] != '<' && e[i] != '>';
    }
  }

  lemma {:induction false} EscapeEachShape(s: string)
    ensures QuoteAndNewlineFree(EscapeEach(s)) && AnglesInBreaks(EscapeEach(s))
    decreases |s|
  {
    if s != [] {
      EscapeEachShape(s[1..]);
      EscapeCharShape(s[0]);
      QuoteAndNewlineFreeConcat(EscapeChar(s[0]), EscapeEach(s[1..]));
      AnglesInBreaksConcat(EscapeChar(s[0]), EscapeEach(s[1..]));
    }
  }

  /** The output of `escapeHtml` has no `"` and no newline, and each `<`
      or `>` in it is part of a `<br/>` that stands for an input newline. */
  lemma EscapeHtmlShape(s: string)
    ensures QuoteAndNewlineFree(EscapeHtml(s))
    ensures AnglesInBreaks(EscapeHtml(s))
    ensures |EscapeHtml(s)| >= |s|
  {
    EscapeHtmlPerChar(s);
    EscapeEachShape(s);
  }

  predicate IsPrefix(p: string, s: string) { |p| <= |s| && s[..|p|] == p }

  /** The character that the text at the start of `s` stands for, and how
      many characters it takes: one of the five entities, else one character. */
  function Decoded(s: string): (r: (char, nat))
    requires s != []
    ensures 1 <= r.1 <= |s|
  {
    if IsPrefix("&amp;", s) then ('&', 5)
    else if IsPrefix("&lt;", s) then ('<', 4)
    else if IsPrefix("&gt;", s) then ('>', 4)
    else if IsPrefix("&quot;", s) then ('"', 6)
    else if IsPrefix("<br/>", s) then ('\n', 5)
    else (s[0], 1)
  }

  /** Decoding the five entities `escapeHtml` produces, a reference inverse. */
  function Unescape(s: string): string
    decreases |s|
  {
    if s == [] then [] else var d := Decoded(s); [d.0] + Unescape(s[d.1..])
  }

  lemma DecodedChunk(c: char, rest: string)
    ensures Decoded(EscapeChar(c) + rest) == (c, |EscapeChar(c)|)
  {
    var t := EscapeChar(c);
    var s := t + rest;
    assert s[..|t|] == t;
    if c == '<' {
      assert s[1] == 'l';
    } else if c == '>' {
      assert s[1] == 'g';
    } else if c == '"' {
      assert s[1] == 'q';
    } else if c == '\n' {
      assert s[0] == '<';
    } else if c != '&' {
      assert s[0] == c;
    }
  }

  lemma UnescapeChunk(c: char, rest: string)
    ensures Unescape(EscapeChar(c) + rest) == [c] + Unescape(rest)
  {
    DecodedChunk(c, rest);
    assert (EscapeChar(c) + rest)[|EscapeChar(c)|..] == rest;
  }

  lemma UnescapeEscapeStep(s: string, rest: string)
    requires s != []
    ensures Unescape(EscapeEach(s) + rest) == [s[0]] + Unescape(EscapeEach(s[1..]) + rest)
  {
    var tail := EscapeEach(s[1..]) + rest;
    assert EscapeEach(s) + rest == EscapeChar(s[0]) + tail;
    UnescapeChunk(s[0], tail);
  }

  lemma {:induction false} UnescapeEscapeEach(s: string, rest: string)
    ensures Unescape(EscapeEach(s) + rest) == s + Unescape(rest)
    decreases |s|
  {
    if s == [] {
      assert EscapeEach(s) + rest == rest;
    } else {
      calc {
        Unescape(EscapeEach(s) + rest);
        { UnescapeEscapeStep(s, rest); }
        [s[0]] + Unescape(EscapeEach(s[1..]) + rest);
        { UnescapeEscapeEach(s[1..], rest); }
        [s[0]] + (s[1..] + Unescape(rest));
        { assert s == [s[0]] + s[1..]; }
        s + Unescape(rest);
      }
    }
  }

  /** Escaped text decodes back to the original, whatever follows it. */
  lemma UnescapeAfterEscape(s: string, rest: string)
    ensures Unescape(EscapeHtml(s) + rest) == s + Unescape(rest)
  {
    EscapeHtmlPerChar(s);
    UnescapeEscapeEach(s, rest);
  }

  /** `escapeHtml` loses nothing: decoding recovers the input, so distinct
      texts stay distinct. */
  lemma EscapeHtmlRoundTrip(s: string)
    ensures Unescape(EscapeHtml(s)) == s
    ensures forall t :: EscapeHtml(t) == EscapeHtml(s) ==> t == s
  {
    UnescapeAfterEscape(s, "");
    assert EscapeHtml(s) + "" == EscapeHtml(s);
    forall t | EscapeHtml(t) == EscapeHtml(s) ensures t == s {
      UnescapeAfterEscape(t, "");
      assert EscapeHtml(t) + "" == EscapeHtml(t);
      assert t + Unescape("") == t;
    }
  }

  lemma DecodedPlain(s: string)
    requires s != [] && s[0] != '&' && s[0] != '<'
    ensures Decoded(s) == (s[0], 1)
  {
    assert !IsPrefix("&amp;", s) && !IsPrefix("&lt;", s) && !IsPrefix("&gt;", s) by {
      assert forall p: string :: p != [] && p[0] == '&' && IsPrefix(p, s) ==> s[0] == '&';
    }
    assert !IsPrefix("&quot;", s) && !IsPrefix("<br/>", s) by {
      assert forall p: string :: p != [] && IsPrefix(p, s) ==> s[0] == p[0];
    }
  }

  /** Markup-free text decodes to itself. */
  lemma {:induction false} UnescapePlain(a: string, rest: string)
    requires forall i :: 0 <= i < |a| ==> a[i] != '&' && a[i] != '<'
    ensures Unescape(a + rest) == a + Unescape(rest)
    decreases |a|
  {
    if a == [] {
      assert a + rest == rest;
    } else {
      var s := a + rest;
      calc {
        Unescape(s);
        { DecodedPlain(s); }
        [a[0]] + Unescape(s[1..]);
        { assert s[1..] == a[1..] + rest; UnescapePlain(a[1..], rest); }
        [a[0]] + (a[1..] + Unescape(rest));
        { assert a == [a[0]] + a[1..]; }
        a + Unescape(rest);
      }
    }
  }

  // ---------------------------------------------------------------- amounts

  /** `formatEur`: `amount.toFixed(2)` with a decimal comma, then a space
      and the euro sign; the amount is given in cents. */
  function FormatEur(cents: int): string {
    Signed(cents < 0, EurBody(Magnitude(cents)))
  }

  function Magnitude(cents: int): nat {
    if cents < 0 then -cents else cents
  }

  /** A minus sign in front of `body` when `negative`. */
  function Signed(negative: bool, body: string): string {
    if negative then "-" + body else body
  }

  /** A space and the euro sign, after the cents. */
  const EuroSuffix: string := " \U{20AC}"

  /** Reads the unsigned part: whole euros, then the rest. */
  function ParseEurBody(body: string): Option<nat> {
    var n := DigitPrefixLen(body);
    if n == 0 then None else ParseEurTail(DigitsValue(body[..n]), body[n..])
  }

  /** After the whole euros: comma, two cents digits, space, euro sign. */
  function ParseEurTail(euros: nat, t: string): Option<nat> {
    if |t| != 5 || t[0] != ',' || !IsDigit(t[1]) || !IsDigit(t[2]) || t[3..] != EuroSuffix then None
    else Some(euros * 100 + DigitsValue(t[1..3]))
  }

  /** Reading a formatted amount back: an optional minus, then the unsigned part. */
  function ParseEur(s: string): Option<int> {
    if s != [] && s[0] == '-' then
      var v :- ParseEurBody(s[1..]);
      Some(0 - v as int)
    else
      var v :- ParseEurBody(s);
      Some(v as int)
  }

  /** The unsigned part of a formatted amount. */
  function EurBody(m: nat): string {
    Amount(NatToDecimal(m / 100), TwoDigits(m % 100))
  }

  /** Whole euros `d` and cents `c`, joined by a comma, then the euro sign. */
  function Amount(d: string, c: string): string {
    d + ("," + (c + EuroSuffix))
  }

  lemma EurTailRead(euros: nat, c: string)
    requires |c| == 2 && AllDigits(c)
    ensures ParseEurTail(euros, "," + (c + EuroSuffix)) == Some(euros * 100 + DigitsValue(c))
  {
    var t := "," + (c + EuroSuffix);
    assert t[1..3] == c;
    assert t[3..] == EuroSuffix;
  }

  /** The parser stops the whole euros at the first non-digit. */
  lemma EurPartsSplit(d: string, tail: string)
    requires |d| >= 1 && AllDigits(d)
    requires tail != [] && !IsDigit(tail[0])
    ensures ParseEurBody(d + tail) == ParseEurTail(DigitsValue(d), tail)
  {
    var body := d + tail;
    DigitPrefixLenConcat(d, tail);
    assert body[..|d|] == d;
    assert body[|d|..] == tail;
  }

  /** The parser splits the unsigned part at the comma and reads both sides. */
  lemma EurPartsRead(d: string, c: string)
    requires |d| >= 1 && AllDigits(d)
    requires |c| == 2 && AllDigits(c)
    ensures ParseEurBody(Amount(d, c)) == Some(DigitsValue(d) * 100 + DigitsValue(c))
    ensures IsDigit(Amount(d, c)[0])
  {
    var tail := "," + (c + EuroSuffix);
    assert tail[0] == ',';
    var v := DigitsValue(d);
    EurTailRead(v, c);
    EurPartsSplit(d, tail);
    calc {
      ParseEurBody(d + tail);
      ParseEurTail(v, tail);
      Some(v * 100 + DigitsValue(c));
    }
  }

  lemma EurBodyRoundTrip(m: nat)
    ensures ParseEurBody(EurBody(m)) == Some(m)
    ensures IsDigit(EurBody(m)[0])
  {
    var q := m / 100;
    var r := m % 100;
    NatToDecimalValue(q);
    EurPartsRead(NatToDecimal(q), TwoDigits(r));
    assert q * 100 + r == m;
  }

  /** The sign and the unsigned part read back independently. */
  lemma SignedRead(negative: bool, body: string, v: nat)
    requires ParseEurBody(body) == Some(v)
    requires body != [] && IsDigit(body[0])
    ensures ParseEur(Signed(negative, body)) == Some(if negative then 0 - v as int else v as int)
  {
    if negative {
      assert Signed(negative, body)[1..] == body;
    }
  }

  /** Formatting loses no cent: the amount reads back exactly. */
  lemma FormatEurRoundTrip(cents: int)
    ensures ParseEur(FormatEur(cents)) == Some(cents)
  {
    var m := Magnitude(cents);
    EurBodyRoundTrip(m);
    SignedRead(cents < 0, EurBody(m), m);
  }

  // ---------------------------------------------------------------- item rows

  const RowOpen := "\n      <tr>\n        <td class=\"item-desc\">"
  const NameClose := "</td>\n        <td class=\"item-qty\">"
  const QuantityClose := "</td>\n        <td class=\"item-price\">"
  const PriceClose := "</td>\n        <td class=\"item-total\">"
  const RowClose := "</td>\n      </tr>"

  /** One row of the items table. */
  function ItemRow(item: OrderItem): string {
    RowOpen + (EscapeHtml(item.name) + (NameClose + (IntToDecimal(item.quantity) + (QuantityClose
    + (FormatEur(item.price) + (PriceClose + (FormatEur(item.price * item.quantity) + RowClose)))))))
  }

  /** `items.map(row).join("")`. */
  function ItemRows(items: seq<OrderItem>): string {
    if items == [] then "" else ItemRow(items[0]) + ItemRows(items[1..])
  }

  /** What a row shows: name, quantity, unit price, line total. */
  datatype RowData = RowData(name: string, quantity: int, unitPrice: int, lineTotal: int)

  function RowOf(item: OrderItem): RowData {
    RowData(item.name, item.quantity, item.price, item.price * item.quantity)
  }

  function RowsOf(items: seq<OrderItem>): (r: seq<RowData>)
    ensures |r| == |items| && forall i :: 0 <= i < |items| ==> r[i] == RowOf(items[i])
  {
    if items == [] then [] else [RowOf(items[0])] + RowsOf(items[1..])
  }

  function Expect(p: string, s: string): (r: Option<string>)
    ensures r.Some? ==> |r.value| == |s| - |p|
  {
    if IsPrefix(p, s) then Some(s[|p|..]) else None
  }

  lemma ExpectPrefix(p: string, rest: string)
    ensures Expect(p, p + rest) == Some(rest)
  {
    assert (p + rest)[..|p|] == p;
  }

  /** The position of the first `</`, or the length of `s`. */
  function FirstTagClose(s: string): (n: nat)
    ensures n <= |s|
  {
    if |s| < 2 then |s| else if s[0] == '<' && s[1] == '/' then 0 else 1 + FirstTagClose(s[1..])
  }

  /** The position of the first `<`, or the length of `s`. */
  function FirstAngle(s: string): (n: nat)
    ensures n <= |s|
  {
    if s == [] then 0 else if s[0] == '<' then 0 else 1 + FirstAngle(s[1..])
  }

  lemma {:induction false} FirstTagCloseAfter(e: string, x: string)
    requires forall i :: 0 <= i < |e| && e[i] == '<' ==> i + 1 < |e| && e[i + 1] != '/'
    requires |x| >= 2 && x[0] == '<' && x[1] == '/'
    ensures FirstTagClose(e + x) == |e|
    decreases |e|
  {
    if e == [] {
      assert e + x == x;
    } else {
      assert (e + x)[1..] == e[1..] + x;
      FirstTagCloseAfter(e[1..], x);
    }
  }

  lemma {:induction false} FirstAngleAfter(a: string, x: string)
    requires forall i :: 0 <= i < |a| ==> a[i] != '<'
    requires x != [] && x[0] == '<'
    ensures FirstAngle(a + x) == |a|
    decreases |a|
  {
    if a == [] {
      assert a + x == x;
    } else {
      assert (a + x)[1..] == a[1..] + x;
      FirstAngleAfter(a[1..], x);
    }
  }

  /** Reads one cell: its text up to the first `<`, then the closing markup
      `close`; gives the text and what follows. */
  function Cell(s: string, close: string): (r: Option<(string, string)>)
    ensures r.Some? ==> |r.value.1| <= |s|
  {
    var j := FirstAngle(s);
    var rest :- Expect(close, s[j..]);
    Some((s[..j], rest))
  }

  /** Reads one table row back. */
  function ParseRow(s: string): (r: Option<(RowData, string)>)
    ensures r.Some? ==> |r.value.1| < |s|
  {
    var s1 :- Expect(RowOpen, s);
    var i := FirstTagClose(s1);
    var s2 :- Expect(NameClose, s1[i..]);
    var cells :- NumberCells(s2);
    Some((RowData(Unescape(s1[..i]), cells.0, cells.1, cells.2), cells.3))
  }

  /** Reads the quantity, unit price and line total cells and the row end. */
  function NumberCells(s: string): (r: Option<(int, int, int, string)>)
    ensures r.Some? ==> |r.value.3| <= |s|
  {
    var q :- Cell(s, QuantityClose);
    var quantity :- ParseInt(q.0);
    var p :- Cell(q.1, PriceClose);
    var price :- ParseEur(p.0);
    var l :- Cell(p.1, RowClose);
    var line :- ParseEur(l.0);
    Some((quantity, price, line, l.1))
  }

  /** Reads a block of table rows back. */
  function ParseRows(s: string): Option<seq<RowData>>
    decreases |s|
  {
    if s == [] then Some([])
    else
      var first :- ParseRow(s);
      var more :- ParseRows(first.1);
      Some([first.0] + more)
  }

  predicate NoAngle(a: string) { forall i :: 0 <= i < |a| ==> a[i] != '<' }

  lemma CellRead(a: string, close: string, rest: string)
    requires NoAngle(a)
    requires close != [] && close[0] == '<'
    ensures Cell(a + (close + rest), close) == Some((a, rest))
  {
    FirstAngleAfter(a, close + rest);
    var s := a + (close + rest);
    assert s[..|a|] == a && s[|a|..] == close + rest;
    ExpectPrefix(close, rest);
  }

  lemma NoAngleConcat(a: string, b: string)
    requires NoAngle(a) && NoAngle(b)
    ensures NoAngle(a + b)
  {
    forall i | 0 <= i < |a + b|
      ensures (a + b)[i] != '<'
    {
      if i < |a| { assert (a + b)[i] == a[i]; } else { assert (a + b)[i] == b[i - |a|]; }
    }
  }

  lemma DigitsNoAngle(d: string)
    requires AllDigits(d)
    ensures NoAngle(d)
  {
    forall i | 0 <= i < |d|
      ensures d[i] != '<'
    {
      assert IsDigit(d[i]);
    }
  }

  lemma DecimalNoAngle(i: int)
    ensures NoAngle(IntToDecimal(i))
  {
    var d := NatToDecimal(if i < 0 then -i else i);
    DigitsNoAngle(d);
    if i < 0 {
      NoAngleConcat("-", d);
    }
  }

  lemma AmountNoAngle(d: string, c: string)
    requires AllDigits(d) && AllDigits(c)
    ensures NoAngle(Amount(d, c))
  {
    DigitsNoAngle(d);
    DigitsNoAngle(c);
    NoAngleConcat(c, EuroSuffix);
    NoAngleConcat(",", c + EuroSuffix);
    NoAngleConcat(d, "," + (c + EuroSuffix));
  }

  lemma SignedNoAngle(negative: bool, body: string)
    requires NoAngle(body)
    ensures NoAngle(Signed(negative, body))
  {
    NoAngleConcat("-", body);
  }

  lemma FormatEurNoAngle(cents: int)
    ensures NoAngle(FormatEur(cents))
  {
    var m := Magnitude(cents);
    AmountNoAngle(NatToDecimal(m / 100), TwoDigits(m % 100));
    SignedNoAngle(cents < 0, EurBody(m));
  }

  /** The name cell: escaped text, read back up to the first closing tag. */
  lemma NameCellRead(name: string, rest: string)
    ensures var s1 := EscapeHtml(name) + (NameClose + rest);
      var i := FirstTagClose(s1);
      Expect(NameClose, s1[i..]) == Some(rest) && Unescape(s1[..i]) == name
  {
    var e := EscapeHtml(name);
    var s1 := e + (NameClose + rest);
    EscapeHtmlShape(name);
    FirstTagCloseAfter(e, NameClose + rest);
    assert s1[..|e|] == e && s1[|e|..] == NameClose + rest;
    ExpectPrefix(NameClose, rest);
    UnescapeAfterEscape(name, "");
    assert e + "" == e;
    assert name + Unescape("") == name;
  }

  /** The three number cells read back whatever text they hold, as long as
      it has no angle bracket and parses. */
  lemma CellsRead(q: string, p1: string, p2: string, rest: string, quantity: int, price: int, line: int)
    requires NoAngle(q) && NoAngle(p1) && NoAngle(p2)
    requires ParseInt(q) == Some(quantity)
    requires ParseEur(p1) == Some(price) && ParseEur(p2) == Some(line)
    ensures NumberCells(q + (QuantityClose + (p1 + (PriceClose + (p2 + (RowClose + rest))))))
      == Some((quantity, price, line, rest))
  {
    var t2 := p2 + (RowClose + rest);
    var t1 := p1 + (PriceClose + t2);
    CellRead(q, QuantityClose, t1);
    CellRead(p1, PriceClose, t2);
    CellRead(p2, RowClose, rest);
  }

  lemma NumberCellsRead(quantity: int, price: int, line: int, rest: string)
    ensures NumberCells(IntToDecimal(quantity) + (QuantityClose + (FormatEur(price) + (PriceClose
      + (FormatEur(line) + (RowClose + rest)))))) == Some((quantity, price, line, rest))
  {
    DecimalNoAngle(quantity);
    ParseIntDecimal(quantity);
    FormatEurNoAngle(price);
    FormatEurRoundTrip(price);
    FormatEurNoAngle(line);
    FormatEurRoundTrip(line);
    CellsRead(IntToDecimal(quantity), FormatEur(price), FormatEur(line), rest, quantity, price, line);
  }

  lemma ItemRowParts(item: OrderItem, rest: string)
    ensures ItemRow(item) + rest == RowOpen + (EscapeHtml(item.name) + (NameClose + (IntToDecimal(item.quantity)
      + (QuantityClose + (FormatEur(item.price) + (PriceClose + (FormatEur(item.price * item.quantity)
      + (RowClose + rest))))))))
  {
    var u7 := FormatEur(item.price * item.quantity);
    Assoc(u7, RowClose, rest);
    var u6 := PriceClose;
    Assoc(u6, u7 + RowClose, rest);
    var u5 := FormatEur(item.price);
    Assoc(u5, u6 + (u7 + RowClose), rest);
    var u4 := QuantityClose;
    Assoc(u4, u5 + (u6 + (u7 + RowClose)), rest);
    var u3 := IntToDecimal(item.quantity);
    Assoc(u3, u4 + (u5 + (u6 + (u7 + RowClose))), rest);
    var u2 := NameClose;
    Assoc(u2, u3 + (u4 + (u5 + (u6 + (u7 + RowClose)))), rest);
    var u1 := EscapeHtml(item.name);
    Assoc(u1, u2 + (u3 + (u4 + (u5 + (u6 + (u7 + RowClose))))), rest);
    Assoc(RowOpen, u1 + (u2 + (u3 + (u4 + (u5 + (u6 + (u7 + RowClose)))))), rest);
  }

  lemma Assoc(a: string, b: string, c: string)
    ensures (a + b) + c == a + (b + c)
  {
  }

  /** A rendered row reads back as its item's name, quantity, unit price and line total. */
  lemma ParseItemRow(item: OrderItem, rest: string)
    ensures ParseRow(ItemRow(item) + rest) == Some((RowOf(item), rest))
  {
    var t0 := IntToDecimal(item.quantity) + (QuantityClose + (FormatEur(item.price) + (PriceClose
      + (FormatEur(item.price * item.quantity) + (RowClose + rest)))));
    var s1 := EscapeHtml(item.name) + (NameClose + t0);
    ItemRowParts(item, rest);
    ExpectPrefix(RowOpen, s1);
    NameCellRead(item.name, t0);
    NumberCellsRead(item.quantity, item.price, item.price * item.quantity, rest);
  }

  /** The items table has exactly one row per order item, in order, and each
      row shows the item's name, quantity, unit price and line total. */
  lemma {:induction false} ItemRowsRoundTrip(items: seq<OrderItem>)
    ensures ParseRows(ItemRows(items)) == Some(RowsOf(items))
    decreases |items|
  {
    if items != [] {
      ParseItemRow(items[0], ItemRows(items[1..]));
      ItemRowsRoundTrip(items[1..]);
    }
  }

  // ---------------------------------------------------------------- the document

  /** The labels of the selected display language. */
  datatype Labels = Labels(
    invoiceTitle: string,
    invoiceNumber: string,
    invoiceDate: string,
    invoiceTo: string,
    invoiceItem: string,
    invoiceQty: string,
    invoiceUnitPrice: string,
    invoiceAmount: string,
    invoiceTotal: string,
    invoiceThankYou: string)

  const DefaultThankYou := "Vielen Dank f\U{00FC}r Ihren Einkauf!"

  /** The date the invoice shows: the order date, else the creation time. */
  function InvoiceDate(order: Order): (d: string)
    ensures order.orderDate != "" ==> d == order.orderDate
    ensures order.orderDate == "" ==> d == order.createdAt
  {
    if order.orderDate != "" then order.orderDate else order.createdAt
  }

  /** The closing line: the translation, or the German default when it is empty. */
  function ThankYouText(t: Labels): (r: string)
    ensures r != ""
    ensures t.invoiceThankYou != "" ==> r == t.invoiceThankYou
    ensures t.invoiceThankYou == "" ==> r == DefaultThankYou
  {
    if t.invoiceThankYou != "" then t.invoiceThankYou else DefaultThankYou
  }

  function CompanyHeading(p: CompanyProfile): (r: string)
    ensures r == "" <==> p.name == ""
  {
    if p.name != "" then "<h1>" + EscapeHtml(p.name) + "</h1>" else ""
  }

  function CompanyAddress(p: CompanyProfile): (r: string)
    ensures r == "" <==> p.address == ""
  {
    if p.address != "" then EscapeHtml(p.address) + "<br/>" else ""
  }

  function CompanyEmail(p: CompanyProfile): (r: string)
    ensures r == "" <==> p.email == ""
  {
    if p.email != "" then "E-Mail: " + EscapeHtml(p.email) else ""
  }

  function CompanyPhone(p: CompanyProfile): (r: string)
    ensures r == "" <==> p.phone == ""
  {
    if p.phone != "" then "<br/>" + EscapeHtml(p.phone) else ""
  }

  function TaxNoteBlock(p: CompanyProfile): (r: string)
    ensures r == "" <==> p.taxNote == ""
  {
    if p.taxNote != "" then "<div class=\"tax-note\">" + EscapeHtml(p.taxNote) + "</div>" else ""
  }

  function RecipientAddress(order: Order): (r: string)
    ensures r == "" <==> order.customerAddress == ""
  {
    EscapeHtmlShape(order.customerAddress);
    if order.customerAddress != "" then EscapeHtml(order.customerAddress) else ""
  }

  /** The customer email, after a line break only when an address precedes it. */
  function RecipientEmail(order: Order): (r: string)
    ensures r == "" <==> order.customerEmail == ""
  {
    if order.customerEmail != "" then
      (if order.customerAddress != "" then "<br/>" else "") + EscapeHtml(order.customerEmail)
    else ""
  }

  lemma UnescapeEscaped(s: string)
    ensures Unescape(EscapeHtml(s)) == s
  {
    UnescapeAfterEscape(s, "");
    assert EscapeHtml(s) + "" == EscapeHtml(s);
    assert s + Unescape("") == s;
  }

  lemma UnescapeBreak(rest: string)
    ensures Unescape("<br/>" + rest) == "\n" + Unescape(rest)
  {
    UnescapeChunk('\n', rest);
  }

  /** Read as text (entities and `<br/>` decoded), the company address
      shows exactly the address and ends the line. */
  lemma CompanyAddressReadBack(p: CompanyProfile)
    ensures p.address != "" ==> Unescape(CompanyAddress(p)) == p.address + "\n"
  {
    UnescapeAfterEscape(p.address, "<br/>");
    UnescapeBreak("");
    assert "<br/>" + "" == "<br/>";
  }

  /** Read as text, the company email follows its `E-Mail: ` label. */
  lemma CompanyEmailReadBack(p: CompanyProfile)
    ensures p.email != "" ==> Unescape(CompanyEmail(p)) == "E-Mail: " + p.email
  {
    UnescapeEscaped(p.email);
    UnescapePlain("E-Mail: ", EscapeHtml(p.email));
  }

  /** Read as text, the company phone starts a new line. */
  lemma CompanyPhoneReadBack(p: CompanyProfile)
    ensures p.phone != "" ==> Unescape(CompanyPhone(p)) == "\n" + p.phone
  {
    UnescapeEscaped(p.phone);
    UnescapeBreak(EscapeHtml(p.phone));
  }

  /** Read as text, the recipient fragments show the customer address and
      email, the email on a new line exactly when an address stands before it. */
  lemma RecipientFragmentsReadBack(order: Order)
    ensures order.customerAddress != "" ==> Unescape(RecipientAddress(order)) == order.customerAddress
    ensures order.customerEmail != "" ==>
      Unescape(RecipientEmail(order)) == (if order.customerAddress != "" then "\n" else "") + order.customerEmail
  {
    UnescapeEscaped(order.customerAddress);
    var e := EscapeHtml(order.customerEmail);
    if order.customerEmail != "" {
      UnescapeEscaped(order.customerEmail);
      if order.customerAddress != "" {
        assert RecipientEmail(order) == "<br/>" + e;
        UnescapeBreak(e);
      } else {
        assert RecipientEmail(order) == e;
      }
    }
  }

  /** The static text of the invoice template between its interpolations:
      layout, indentation and the table head markup. */
  datatype Markup = Markup(
    docStart: string,
    detailsOpen: string,
    detailsLine: string,
    titleOpen: string,
    metaOpen: string,
    metaLine: string,
    recipientOpen: string,
    recipientLabelClose: string,
    detailOpen: string,
    tableOpen: string,
    qtyHeader: string,
    priceHeader: string,
    amountHeader: string,
    theadClose: string,
    totalOpen: string,
    totalLabelClose: string,
    footerOpen: string,
    thankYouIndent: string,
    docEnd: string)

  /** The template's static text as written (the stylesheet between
      `<style>` and `</style>` left out). */
  const InvoiceMarkup := Markup(
    "<!DOCTYPE html>\n<html>\n<head>\n<meta charset=\"utf-8\"/>\n"
      + "<meta name=\"viewport\" content=\"width=device-width, initial-scale=1\"/>\n<style>\n"
      + "</style>\n</head>\n<body>\n  <div class=\"page-wrapper\">\n    <div class=\"content\">\n\n"
      + "      <div class=\"header\">\n        <div class=\"company-block\">\n          ",
    "\n          <div class=\"company-details\">\n            ",
    "\n            ",
    "\n          </div>\n        </div>\n        <div class=\"invoice-title-block\">\n          <h2>",
    "</h2>\n          <div class=\"invoice-meta\">\n            ",
    "<br/>\n            ",
    "\n          </div>\n        </div>\n      </div>\n\n      <div class=\"recipient-section\">\n"
      + "        <div class=\"recipient-box\">\n          <div class=\"recipient-label\">",
    ":</div>\n          ",
    "\n          <div class=\"recipient-detail\">\n            ",
    "\n          </div>\n        </div>\n      </div>\n\n      <table>\n        <thead>\n          <tr>\n            <th>",
    "</th>\n            <th class=\"item-qty\">",
    "</th>\n            <th class=\"item-price\">",
    "</th>\n            <th class=\"item-total\">",
    "</th>\n          </tr>\n        </thead>\n        ",
    "\n      </table>\n\n      <div class=\"total-row\">\n        <span class=\"total-label\">",
    ":</span>\n        ",
    "\n      </div>\n\n    </div>\n\n    <div class=\"footer-section\">\n      ",
    "\n      ",
    "\n    </div>\n  </div>\n</body>\n</html>")

  /** The company details, the title and the invoice number label. */
  function CompanyDetails(m: Markup, profile: CompanyProfile, t: Labels): string {
    m.detailsOpen + CompanyAddress(profile) + m.detailsLine + CompanyEmail(profile) + m.detailsLine
    + CompanyPhone(profile) + m.titleOpen + EscapeHtml(t.invoiceTitle) + m.metaOpen + EscapeHtml(t.invoiceNumber)
  }

  /** The invoice number. */
  function NumberSpan(order: Order): string {
    " <span>" + EscapeHtml(order.invoiceNumber) + "</span>"
  }

  /** The invoice date label. */
  function DateLabel(m: Markup, t: Labels): string {
    m.metaLine + EscapeHtml(t.invoiceDate)
  }

  /** The localized invoice date. */
  function DateSpan(dateStr: string): string {
    " <span>" + dateStr + "</span>"
  }

  /** The end of the header and the recipient label. */
  function RecipientLabel(m: Markup, t: Labels): string {
    m.recipientOpen + EscapeHtml(t.invoiceTo) + m.recipientLabelClose
  }

  /** The customer name. */
  function RecipientName(order: Order): string {
    "<div class=\"recipient-name\">" + EscapeHtml(order.customerName) + "</div>"
  }

  /** The customer address and email. */
  function RecipientDetails(m: Markup, order: Order): string {
    m.detailOpen + RecipientAddress(order) + m.detailsLine + RecipientEmail(order)
  }

  /** The column headers of the items table. */
  function TableHead(m: Markup, t: Labels): string {
    m.tableOpen + EscapeHtml(t.invoiceItem) + m.qtyHeader + EscapeHtml(t.invoiceQty)
    + m.priceHeader + EscapeHtml(t.invoiceUnitPrice) + m.amountHeader + EscapeHtml(t.invoiceAmount) + m.theadClose
  }

  /** The table body: one row per item. */
  function TableBody(order: Order): string {
    "<tbody>\n          " + ItemRows(order.items) + "\n        </tbody>"
  }

  /** The end of the table and the total label. */
  function TotalLabel(m: Markup, t: Labels): string {
    m.totalOpen + EscapeHtml(t.invoiceTotal) + m.totalLabelClose
  }

  /** The order total. */
  function TotalValue(order: Order): string {
    "<span class=\"total-value\">" + FormatEur(order.total) + "</span>"
  }

  /** The closing line. */
  function ThankYou(t: Labels): string {
    "<div class=\"thank-you\">" + EscapeHtml(ThankYouText(t)) + "</div>"
  }

  /** The header: company block, title, invoice number and date. */
  function Header(m: Markup, order: Order, profile: CompanyProfile, t: Labels, dateStr: string): string {
    m.docStart + (CompanyHeading(profile) + (CompanyDetails(m, profile, t) + (NumberSpan(order)
      + (DateLabel(m, t) + DateSpan(dateStr)))))
  }

  /** The recipient block. */
  function Recipient(m: Markup, order: Order, t: Labels): string {
    RecipientLabel(m, t) + (RecipientName(order) + RecipientDetails(m, order))
  }

  /** The items table and the total line. */
  function Table(m: Markup, order: Order, t: Labels): string {
    TableHead(m, t) + (TableBody(order) + (TotalLabel(m, t) + TotalValue(order)))
  }

  /** The footer and the end of the document. */
  function Footer(m: Markup, profile: CompanyProfile, t: Labels): string {
    m.footerOpen + (TaxNoteBlock(profile) + (m.thankYouIndent + (ThankYou(t) + m.docEnd)))
  }

  /** The template filled in with markup `m`, section by section. */
  function Render(m: Markup, order: Order, profile: CompanyProfile, t: Labels, dateStr: string): string {
    Header(m, order, profile, t, dateStr) + (Recipient(m, order, t) + (Table(m, order, t) + Footer(m, profile, t)))
  }

  /** `generateInvoiceHtml`: the template's own markup filled in; `localDate`
      stands for the de-DE `toLocaleDateString` of the invoice date. */
  function GenerateInvoiceHtml(order: Order, profile: CompanyProfile, t: Labels, localDate: string -> string): string {
    Render(InvoiceMarkup, order, profile, t, localDate(InvoiceDate(order)))
  }

  /** `piece` occurs somewhere in `s`. */
  ghost predicate Contains(s: string, piece: string) {
    exists before: string, after: string :: s == before + piece + after
  }

  lemma ContainsStart(x: string, y: string)
    ensures Contains(x + y, x)
  {
    assert x + y == "" + x + y;
  }

  lemma ContainsEnd(x: string, y: string)
    ensures Contains(x + y, y)
  {
    assert x + y == x + y + "";
  }

  lemma ContainsTrans(s: string, middle: string, piece: string)
    requires Contains(s, middle) && Contains(middle, piece)
    ensures Contains(s, piece)
  {
    var b1, a1 :| s == b1 + middle + a1;
    var b2, a2 :| middle == b2 + piece + a2;
    assert s == (b1 + b2) + piece + (a2 + a1);
  }

  lemma HeaderContents(m: Markup, order: Order, profile: CompanyProfile, t: Labels, dateStr: string)
    ensures var header := Header(m, order, profile, t, dateStr);
      Contains(header, CompanyHeading(profile)) && Contains(header, NumberSpan(order)) && Contains(header, DateSpan(dateStr))
  {
    var header := Header(m, order, profile, t, dateStr);
    var h2 := CompanyDetails(m, profile, t) + (NumberSpan(order) + (DateLabel(m, t) + DateSpan(dateStr)));
    var h3 := NumberSpan(order) + (DateLabel(m, t) + DateSpan(dateStr));
    var h4 := DateLabel(m, t) + DateSpan(dateStr);
    ContainsEnd(m.docStart, CompanyHeading(profile) + h2);
    ContainsStart(CompanyHeading(profile), h2);
    ContainsTrans(header, CompanyHeading(profile) + h2, CompanyHeading(profile));
    ContainsEnd(CompanyHeading(profile), h2);
    ContainsTrans(header, CompanyHeading(profile) + h2, h2);
    ContainsEnd(CompanyDetails(m, profile, t), h3);
    ContainsTrans(header, h2, h3);
    ContainsStart(NumberSpan(order), h4);
    ContainsTrans(header, h3, NumberSpan(order));
    ContainsEnd(NumberSpan(order), h4);
    ContainsTrans(header, h3, h4);
    ContainsEnd(DateLabel(m, t), DateSpan(dateStr));
    ContainsTrans(header, h4, DateSpan(dateStr));
  }

  lemma TableContents(m: Markup, order: Order, t: Labels)
    ensures Contains(Table(m, order, t), TableBody(order)) && Contains(Table(m, order, t), TotalValue(order))
  {
    var table := Table(m, order, t);
    var t1 := TableBody(order) + (TotalLabel(m, t) + TotalValue(order));
    ContainsEnd(TableHead(m, t), t1);
    ContainsStart(TableBody(order), TotalLabel(m, t) + TotalValue(order));
    ContainsTrans(table, t1, TableBody(order));
    ContainsEnd(TableBody(order), TotalLabel(m, t) + TotalValue(order));
    ContainsEnd(TotalLabel(m, t), TotalValue(order));
    ContainsTrans(table, t1, TotalLabel(m, t) + TotalValue(order));
    ContainsTrans(table, TotalLabel(m, t) + TotalValue(order), TotalValue(order));
  }

  lemma FooterContents(m: Markup, profile: CompanyProfile, t: Labels)
    ensures Contains(Footer(m, profile, t), TaxNoteBlock(profile)) && Contains(Footer(m, profile, t), ThankYou(t))
  {
    var footer := Footer(m, profile, t);
    var f1 := TaxNoteBlock(profile) + (m.thankYouIndent + (ThankYou(t) + m.docEnd));
    var f2 := m.thankYouIndent + (ThankYou(t) + m.docEnd);
    ContainsEnd(m.footerOpen, f1);
    ContainsStart(TaxNoteBlock(profile), f2);
    ContainsTrans(footer, f1, TaxNoteBlock(profile));
    ContainsEnd(TaxNoteBlock(profile), f2);
    ContainsTrans(footer, f1, f2);
    ContainsEnd(m.thankYouIndent, ThankYou(t) + m.docEnd);
    ContainsTrans(footer, f2, ThankYou(t) + m.docEnd);
    ContainsStart(ThankYou(t), m.docEnd);
    ContainsTrans(footer, ThankYou(t) + m.docEnd, ThankYou(t));
  }

  /** The header and the recipient block show the company name when it is
      set, the invoice number and date, and the customer name. */
  lemma RenderFront(m: Markup, order: Order, profile: CompanyProfile, t: Labels, dateStr: string)
    ensures var html := Render(m, order, profile, t, dateStr);
      && (profile.name != "" ==> Contains(html, "<h1>" + EscapeHtml(profile.name) + "</h1>"))
      && Contains(html, " <span>" + EscapeHtml(order.invoiceNumber) + "</span>")
      && Contains(html, " <span>" + dateStr + "</span>")
      && Contains(html, "<div class=\"recipient-name\">" + EscapeHtml(order.customerName) + "</div>")
  {
    var header := Header(m, order, profile, t, dateStr);
    var recipient := Recipient(m, order, t);
    var table := Table(m, order, t);
    var footer := Footer(m, profile, t);
    var html := header + (recipient + (table + footer));
    ContainsStart(header, recipient + (table + footer));
    HeaderContents(m, order, profile, t, dateStr);
    ContainsTrans(html, header, CompanyHeading(profile));
    ContainsTrans(html, header, NumberSpan(order));
    ContainsTrans(html, header, DateSpan(dateStr));
    ContainsEnd(header, recipient + (table + footer));
    ContainsStart(recipient, table + footer);
    ContainsTrans(html, recipient + (table + footer), recipient);
    ContainsEnd(RecipientLabel(m, t), RecipientName(order) + RecipientDetails(m, order));
    ContainsStart(RecipientName(order), RecipientDetails(m, order));
    ContainsTrans(recipient, RecipientName(order) + RecipientDetails(m, order), RecipientName(order));
    ContainsTrans(html, recipient, RecipientName(order));
  }

  /** The table and the footer show the items table body, the total, the tax
      note when it is set, and the closing line. */
  lemma RenderBack(m: Markup, order: Order, profile: CompanyProfile, t: Labels, dateStr: string)
    ensures var html := Render(m, order, profile, t, dateStr);
      && Contains(html, "<tbody>\n          " + ItemRows(order.items) + "\n        </tbody>")
      && Contains(html, "<span class=\"total-value\">" + FormatEur(order.total) + "</span>")
      && (profile.taxNote != "" ==> Contains(html, "<div class=\"tax-note\">" + EscapeHtml(profile.taxNote) + "</div>"))
      && Contains(html, "<div class=\"thank-you\">" + EscapeHtml(ThankYouText(t)) + "</div>")
  {
    var header := Header(m, order, profile, t, dateStr);
    var recipient := Recipient(m, order, t);
    var table := Table(m, order, t);
    var footer := Footer(m, profile, t);
    var html := header + (recipient + (table + footer));
    ContainsEnd(header, recipient + (table + footer));
    ContainsEnd(recipient, table + footer);
    ContainsTrans(html, recipient + (table + footer), table + footer);
    ContainsStart(table, footer);
    ContainsTrans(html, table + footer, table);
    TableContents(m, order, t);
    ContainsTrans(html, table, TableBody(order));
    ContainsTrans(html, table, TotalValue(order));
    ContainsEnd(table, footer);
    ContainsTrans(html, table + footer, footer);
    FooterContents(m, profile, t);
    ContainsTrans(html, footer, TaxNoteBlock(profile));
    ContainsTrans(html, footer, ThankYou(t));
  }

  /** What the invoice shows, whatever its layout text: the items table body
      (one row per item, see `ItemRowsRoundTrip`), the invoice number and
      date, the customer name, the total, the company name and the tax note
      when they are set, and the closing line. */
  lemma RenderContents(m: Markup, order: Order, profile: CompanyProfile, t: Labels, dateStr: string)
    ensures var html := Render(m, order, profile, t, dateStr);
      && (profile.name != "" ==> Contains(html, "<h1>" + EscapeHtml(profile.name) + "</h1>"))
      && Contains(html, " <span>" + EscapeHtml(order.invoiceNumber) + "</span>")
      && Contains(html, " <span>" + dateStr + "</span>")
      && Contains(html, "<div class=\"recipient-name\">" + EscapeHtml(order.customerName) + "</div>")
      && Contains(html, "<tbody>\n          " + ItemRows(order.items) + "\n        </tbody>")
      && Contains(html, "<span class=\"total-value\">" + FormatEur(order.total) + "</span>")
      && (profile.taxNote != "" ==> Contains(html, "<div class=\"tax-note\">" + EscapeHtml(profile.taxNote) + "</div>"))
      && Contains(html, "<div class=\"thank-you\">" + EscapeHtml(ThankYouText(t)) + "</div>")
  {
    RenderFront(m, order, profile, t, dateStr);
    RenderBack(m, order, profile, t, dateStr);
  }

  /** The generated invoice lists the order's items (each reading back as
      name, quantity, unit price and line total) and shows the order total. */
  lemma InvoiceShowsItemsAndTotal(order: Order, profile: CompanyProfile, t: Labels, localDate: string -> string)
    ensures var html := GenerateInvoiceHtml(order, profile, t, localDate);
      && Contains(html, "<tbody>\n          " + ItemRows(order.items) + "\n        </tbody>")
      && ParseRows(ItemRows(order.items)) == Some(RowsOf(order.items))
      && Contains(html, "<span class=\"total-value\">" + FormatEur(order.total) + "</span>")
  {
    RenderContents(InvoiceMarkup, order, profile, t, localDate(InvoiceDate(order)));
    ItemRowsRoundTrip(order.items);
  }
}
