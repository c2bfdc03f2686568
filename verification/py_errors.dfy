/**
 * The Python exceptions the request path raises, and the text `str(e)` gives for each:
 * the router copies that text into its "Internal Server Error: ..." detail.
 */
module PyErrors {
  import opened Text

  datatype PyException =
    | HttpException(status: nat, detail: string)
    | ValueError(message: string)
    | KeyError(key: string)
    | OtherException(text: string)
      /** An exception of the named built-in type whose message the model does not reproduce. */
    | Unworded(typeName: string)

  /** A character `repr` writes as itself inside a string quoted with `quote`. */
  predicate PlainInRepr(c: char, quote: char) {
    ' ' <= c && c != '\U{7f}' && c != quote && c != '\\'
  }

  /** The lowercase hexadecimal digit of `n`. */
  function HexDigit(n: int): (c: char)
    requires 0 <= n < 16
    ensures PlainInRepr(c, '\'') && PlainInRepr(c, '"')
  {
    if n < 10 then DigitChar(n) else ('a' as int + n - 10) as char
  }

  /**
   * How `repr` writes one character inside a string quoted with `quote`: the quote and the
   * backslash are escaped with a backslash, tab, line feed and carriage return by their letter,
   * the other control characters and DEL as `\xHH`, and everything else as itself.
   */
  function ReprChar(c: char, quote: char): (r: string)
    ensures 1 <= |r| <= 4
    ensures r == [c] <==> PlainInRepr(c, quote)
    ensures r != [c] ==> r[0] == '\\'
  {
    if c == quote || c == '\\' then ['\\', c]
    else if c == '\t' then "\\t"
    else if c == '\n' then "\\n"
    else if c == '\r' then "\\r"
    else if c < ' ' || c == '\U{7f}' then ['\\', 'x', HexDigit(c as int / 16), HexDigit(c as int % 16)]
    else [c]
  }

  /** The characters of `s` as `repr` writes them between the quotes. */
  function ReprBody(s: string, quote: char): (r: string)
    ensures |r| >= |s|
    ensures (forall i | 0 <= i < |s| :: PlainInRepr(s[i], quote)) ==> r == s
  {
    if s == [] then [] else ReprChar(s[0], quote) + ReprBody(s[1..], quote)
  }

  /**
   * Python's `repr` of a string: single quotes, unless the string holds a single quote and no
   * double quote; inside them the characters as `ReprChar` writes them.
   */
  function QuotedRepr(s: string): (r: string)
    ensures |r| >= |s| + 2 && r[0] == r[|r| - 1]
    ensures r[0] == '"' <==> '\'' in s && '"' !in s
    ensures r[0] == '\'' <==> !('\'' in s && '"' !in s)
    ensures (forall i | 0 <= i < |s| :: PlainInRepr(s[i], r[0])) ==> r[1..|r| - 1] == s
  {
    var quote := if '\'' in s && '"' !in s then '"' else '\'';
    [quote] + ReprBody(s, quote) + [quote]
  }

  /**
   * `str(e)`. Starlette's HTTPException prints as "<status>: <detail>"; a KeyError prints the
   * `repr` of its key; the other exceptions print their message. An `Unworded` exception has
   * no message in the model, and only its type name stands in for it.
   */
  function Str(e: PyException): (r: string)
    ensures e.HttpException? ==>
      var n := |r| - |e.detail| - 2;
      && n >= 1 && (forall i | 0 <= i < n :: IsDigit(r[i])) && NumeralValue(r[..n]) == e.status
      && (n > 1 ==> r[0] != '0') && r[n..n + 2] == ": " && r[n + 2..] == e.detail
    ensures e.KeyError? ==> |r| >= |e.key| + 2 && r[0] == r[|r| - 1] && (r[0] == '\'' || r[0] == '"')
    ensures e.KeyError? && (forall i | 0 <= i < |e.key| :: PlainInRepr(e.key[i], r[0])) ==>
      r[1..|r| - 1] == e.key
    ensures e.ValueError? ==> r == e.message
  {
    match e
    case HttpException(status, detail) =>
      var numeral := NatToString(status);
      assert (numeral + ": " + detail)[..|numeral|] == numeral;
      numeral + ": " + detail
    case ValueError(message) => message
    case KeyError(key) => QuotedRepr(key)
    case OtherException(text) => text
    case Unworded(typeName) => typeName
  }

  /** `repr` escapes a string character by character, so the escaped text of a join is the join. */
  lemma {:induction false} ReprBodyAppend(a: string, b: string, quote: char)
    ensures ReprBody(a + b, quote) == ReprBody(a, quote) + ReprBody(b, quote)
  {
    if a == [] {
      assert a + b == b;
    } else {
      assert (a + b)[0] == a[0];
      assert (a + b)[1..] == a[1..] + b;
      ReprBodyAppend(a[1..], b, quote);
      assert ReprBody(a + b, quote) == ReprChar(a[0], quote) + ReprBody(a[1..] + b, quote);
    }
  }

  /**
   * A string holding both quotes is written in single quotes, and each of its single quotes is
   * escaped: here the first single quote, after a part `a` that holds a double quote.
   */
  lemma ReprEscapesQuote(a: string, b: string)
    requires '"' in a
    ensures QuotedRepr(a + ("'" + b)) == "'" + (ReprBody(a, '\'') + ("\\'" + ReprBody(b, '\''))) + "'"
  {
    var s := a + ("'" + b);
    assert s[|a|] == '\'';
    assert '"' in s by {
      var k :| 0 <= k < |a| && a[k] == '"';
      assert s[k] == '"';
    }
    ReprBodyAppend(a, "'" + b, '\'');
    ReprBodyAppend("'", b, '\'');
    assert ReprBody("'", '\'') == "\\'" by {
      assert ReprBody([], '\'') == [];
    }
  }

  lemma StatusNumerals()
    ensures NatToString(400) == "400" && NatToString(500) == "500"
  {
    assert NatToString(40) == "40";
    assert NatToString(50) == "50";
  }
}
