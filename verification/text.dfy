/** The JavaScript string operations the generators apply to emitted text:
    number formatting, `JSON.stringify` on strings, the quote-stripping and
    sanitising regular expressions, `toLowerCase`, `trim`, `startsWith`,
    `includes`, and the two regular expressions used as tests
    (the function-name pattern and the "looks like an expression" heuristic). */
module Text {

  // ---------------------------------------------------------------------
  // Character classes
  // ---------------------------------------------------------------------

  predicate IsAsciiUpper(c: char) { 'A' <= c <= 'Z' }
  predicate IsAsciiLower(c: char) { 'a' <= c <= 'z' }
  predicate IsDigit(c: char) { '0' <= c <= '9' }

  /** `\w` in a JavaScript regular expression without the `u` flag. */
  predicate IsWordChar(c: char) {
    IsAsciiUpper(c) || IsAsciiLower(c) || IsDigit(c) || c == '_'
  }

  /** `[a-zA-Z_]` */
  predicate IsLetterOrUnderscore(c: char) {
    IsAsciiUpper(c) || IsAsciiLower(c) || c == '_'
  }

  /** The line terminators that `.` refuses to match. */
  predicate IsLineTerminator(c: char) {
    c == '\n' || c == '\r' || c == '\U{2028}' || c == '\U{2029}'
  }

  /** `\s` and the characters `String.prototype.trim` removes:
      WhiteSpace and LineTerminator of the ECMAScript grammar. */
  predicate IsJsSpace(c: char) {
    || c == '\t' || c == '\U{000B}' || c == '\U{000C}' || c == ' '
    || c == '\U{00A0}' || c == '\U{1680}' || ('\U{2000}' <= c <= '\U{200A}')
    || c == '\U{202F}' || c == '\U{205F}' || c == '\U{3000}' || c == '\U{FEFF}'
    || IsLineTerminator(c)
  }

  // ---------------------------------------------------------------------
  // Substrings
  // ---------------------------------------------------------------------

  predicate OccursAt(s: string, sub: string, k: nat) {
    k + |sub| <= |s| && s[k..k + |sub|] == sub
  }

  /** `s.includes(sub)` */
  predicate Contains(s: string, sub: string) {
    exists k | 0 <= k <= |s| :: OccursAt(s, sub, k)
  }

  /** `s.startsWith(prefix)` */
  predicate StartsWith(s: string, prefix: string) {
    OccursAt(s, prefix, 0)
  }

  lemma StartsWithConcat(a: string, b: string)
    ensures StartsWith(a + b, a)
  {
    assert (a + b)[..|a|] == a;
  }

  /** A prefix stays a prefix when text is appended. */
  lemma StartsWithAppend(s: string, prefix: string, more: string)
    requires StartsWith(s, prefix)
    ensures StartsWith(s + more, prefix)
  {
    assert (s + more)[..|prefix|] == s[..|prefix|];
  }

  /** Text occurs in anything that ends with it. */
  lemma ContainsSuffix(a: string, sub: string)
    ensures Contains(a + sub, sub)
  {
    assert OccursAt(a + sub, sub, |a|) by {
      assert (a + sub)[|a|..|a| + |sub|] == sub;
    }
  }

  /** What occurs in a text still occurs once more text is appended. */
  lemma ContainsAppend(s: string, sub: string, more: string)
    requires Contains(s, sub)
    ensures Contains(s + more, sub)
  {
    var k :| 0 <= k <= |s| && OccursAt(s, sub, k);
    assert (s + more)[k..k + |sub|] == s[k..k + |sub|];
    assert OccursAt(s + more, sub, k);
  }

  lemma ContainsConcat(a: string, sub: string, b: string)
    ensures Contains(a + sub + b, sub)
  {
    assert OccursAt(a + sub + b, sub, |a|) by {
      assert (a + sub + b)[|a|..|a| + |sub|] == sub;
    }
  }

  // ---------------------------------------------------------------------
  // Numbers
  // ---------------------------------------------------------------------

  function DigitChar(d: nat): (c: char)
    requires d < 10
    ensures IsDigit(c)
  {
    "0123456789"[d]
  }

  function NatToString(n: nat): (r: string)
    ensures |r| >= 1
  {
    if n < 10 then [DigitChar(n)] else NatToString(n / 10) + [DigitChar(n % 10)]
  }

  /** `String(n)` / `${n}` for an integral JavaScript number. */
  function IntToString(n: int): (r: string)
    ensures |r| >= 1
  {
    if n < 0 then "-" + NatToString(-n) else NatToString(n)
  }

  /** A natural number prints as decimal digits only. */
  lemma {:induction false} NatToStringDigits(n: nat)
    ensures forall i :: 0 <= i < |NatToString(n)| ==> IsDigit(NatToString(n)[i])
  {
    if n >= 10 {
      NatToStringDigits(n / 10);
      var s := NatToString(n);
      assert s == NatToString(n / 10) + [DigitChar(n % 10)];
    }
  }

  /** An integer prints as digits, after a minus sign exactly when it is negative. */
  lemma IntToStringDigits(n: int)
    ensures n >= 0 ==> forall i :: 0 <= i < |IntToString(n)| ==> IsDigit(IntToString(n)[i])
    ensures n < 0 ==> IntToString(n)[0] == '-' && forall i :: 1 <= i < |IntToString(n)| ==> IsDigit(IntToString(n)[i])
  {
    if n < 0 {
      NatToStringDigits(-n);
      var s := IntToString(n);
      assert s == "-" + NatToString(-n);
      forall i | 1 <= i < |s| ensures IsDigit(s[i]) {
        assert s[i] == NatToString(-n)[i - 1];
      }
    } else {
      NatToStringDigits(n);
    }
  }

  lemma DigitCharInjective(d: nat, e: nat)
    requires d < 10 && e < 10 && DigitChar(d) == DigitChar(e)
    ensures d == e
  { }

  /** Different numbers print differently. */
  lemma {:induction false} NatToStringInjective(a: nat, b: nat)
    requires NatToString(a) == NatToString(b)
    ensures a == b
  {
    var s := NatToString(a);
    if a < 10 && b < 10 {
      DigitCharInjective(a, b);
    } else if a >= 10 && b >= 10 {
      assert s[|s| - 1] == DigitChar(a % 10) && s[|s| - 1] == DigitChar(b % 10);
      DigitCharInjective(a % 10, b % 10);
      assert NatToString(a / 10) == s[..|s| - 1] == NatToString(b / 10);
      NatToStringInjective(a / 10, b / 10);
    }
  }

  lemma IntToStringInjective(a: int, b: int)
    requires IntToString(a) == IntToString(b)
    ensures a == b
  {
    var s := IntToString(a);
    IntToStringDigits(a);
    IntToStringDigits(b);
    if a < 0 && b < 0 {
      assert NatToString(-a) == s[1..] == NatToString(-b);
      NatToStringInjective(-a, -b);
    } else if a >= 0 && b >= 0 {
      NatToStringInjective(a, b);
    }
  }

  // ---------------------------------------------------------------------
  // JSON.stringify on a string
  // ---------------------------------------------------------------------

  function HexDigit(d: nat): char
    requires d < 16
  {
    "0123456789abcdef"[d]
  }

  /** The escape JSON.stringify writes for one character of a string. */
  function EscapeChar(c: char): (r: string)
    ensures |r| >= 1
    ensures |r| == 1 <==> r == [c]
  {
    if c == '"' then "\\\""
    else if c == '\\' then "\\\\"
    else if c as int == 8 then "\\b"
    else if c as int == 12 then "\\f"
    else if c == '\n' then "\\n"
    else if c == '\r' then "\\r"
    else if c == '\t' then "\\t"
    else if (c as int) < 32 then "\\u00" + [HexDigit(c as int / 16), HexDigit(c as int % 16)]
    else [c]
  }

  /** A character JSON.stringify copies unchanged. */
  predicate IsPlainJsonChar(c: char) {
    c != '"' && c != '\\' && (c as int) >= 32
  }

  function Escape(s: string): (r: string)
    ensures |r| >= |s|
  {
    if |s| == 0 then "" else EscapeChar(s[0]) + Escape(s[1..])
  }

  /** `JSON.stringify(s)` for a string `s`: a double-quoted JSON string literal. */
  function Quote(s: string): (r: string)
    ensures |r| >= 2 && r[0] == '"' && r[|r| - 1] == '"'
  {
    "\"" + Escape(s) + "\""
  }

  lemma {:induction false} EscapePlain(s: string)
    requires forall i :: 0 <= i < |s| ==> IsPlainJsonChar(s[i])
    ensures Escape(s) == s
  {
    if |s| > 0 {
      EscapePlain(s[1..]);
    }
  }

  // ---------------------------------------------------------------------
  // The regular-expression rewrites applied to resolved text
  // ---------------------------------------------------------------------

  /** `s.replace(/^"|"$/g, '')`: drops one leading and one trailing double quote. */
  function StripOuterQuotes(s: string): (r: string)
    ensures |s| - 2 <= |r| <= |s|
    ensures (|s| == 0 || s[0] != '"') && (|s| == 0 || s[|s| - 1] != '"') ==> r == s
  {
    var t := if |s| > 0 && s[0] == '"' then s[1..] else s;
    if |t| > 0 && t[|t| - 1] == '"' then t[..|t| - 1] else t
  }

  /** `s.replace(/"/g, '')`: drops every double quote. */
  function StripAllQuotes(s: string): (r: string)
    ensures |r| <= |s|
    ensures forall i :: 0 <= i < |r| ==> r[i] != '"'
    ensures (forall i :: 0 <= i < |s| ==> s[i] != '"') ==> r == s
  {
    if |s| == 0 then ""
    else if s[0] == '"' then StripAllQuotes(s[1..])
    else [s[0]] + StripAllQuotes(s[1..])
  }

  /** Stripping the outer quotes of a JSON string literal gives back a text
      that needs no escaping. */
  lemma StripOuterQuotesOfQuote(s: string)
    requires forall i :: 0 <= i < |s| ==> IsPlainJsonChar(s[i])
    ensures StripOuterQuotes(Quote(s)) == s
  {
    EscapePlain(s);
    var q := Quote(s);
    assert q == "\"" + s + "\"";
    assert q[1..] == s + "\"";
    assert (s + "\"")[..|s|] == s;
  }

  lemma {:induction false} StripAllQuotesTrailing(s: string)
    requires forall i :: 0 <= i < |s| ==> s[i] != '"'
    ensures StripAllQuotes(s + "\"") == s
  {
    if |s| == 0 {
      assert s + "\"" == "\"";
    } else {
      assert (s + "\"")[1..] == s[1..] + "\"";
      StripAllQuotesTrailing(s[1..]);
    }
  }

  /** Removing every double quote from a JSON string literal gives back a
      text that needs no escaping. */
  lemma StripAllQuotesOfQuote(s: string)
    requires forall i :: 0 <= i < |s| ==> IsPlainJsonChar(s[i])
    ensures StripAllQuotes(Quote(s)) == s
  {
    EscapePlain(s);
    var q := Quote(s);
    assert q == "\"" + s + "\"";
    assert q[1..] == s + "\"";
    StripAllQuotesTrailing(s);
  }

  function LowerChar(c: char): (r: char)
    ensures !IsAsciiUpper(r)
    ensures !IsAsciiUpper(c) ==> r == c
  {
    if IsAsciiUpper(c) then (c as int + 32) as char else c
  }

  /** `s.toLowerCase()` on the ASCII letters. */
  function ToLower(s: string): (r: string)
    ensures |r| == |s|
    ensures forall i :: 0 <= i < |r| ==> !IsAsciiUpper(r[i]) && r[i] == LowerChar(s[i])
  {
    if |s| == 0 then "" else [LowerChar(s[0])] + ToLower(s[1..])
  }

  /** `s.replace(/[^a-zA-Z0-9_]/g, '_')` */
  function SanitizeKey(s: string): (r: string)
    ensures |r| == |s|
    ensures forall i :: 0 <= i < |r| ==> IsWordChar(r[i])
    ensures forall i :: 0 <= i < |s| && IsWordChar(s[i]) ==> r[i] == s[i]
  {
    if |s| == 0 then ""
    else [if IsWordChar(s[0]) then s[0] else '_'] + SanitizeKey(s[1..])
  }

  // ---------------------------------------------------------------------
  // trim
  // ---------------------------------------------------------------------

  function TrimStart(s: string): (r: string)
    ensures |r| <= |s| && r == s[|s| - |r|..]
    ensures |r| > 0 ==> !IsJsSpace(r[0])
    ensures forall i :: 0 <= i < |s| - |r| ==> IsJsSpace(s[i])
  {
    if |s| > 0 && IsJsSpace(s[0]) then TrimStart(s[1..]) else s
  }

  function TrimEnd(s: string): (r: string)
    ensures |r| <= |s| && r == s[..|r|]
    ensures |r| > 0 ==> !IsJsSpace(r[|r| - 1])
    ensures forall i :: |r| <= i < |s| ==> IsJsSpace(s[i])
  {
    if |s| > 0 && IsJsSpace(s[|s| - 1]) then TrimEnd(s[..|s| - 1]) else s
  }

  /** `s.trim()` */
  function Trim(s: string): (r: string)
    ensures |r| <= |s|
    ensures |r| > 0 ==> !IsJsSpace(r[0]) && !IsJsSpace(r[|r| - 1])
  {
    TrimEnd(TrimStart(s))
  }

  /** A text trims to the empty string exactly when it is all white space. */
  lemma TrimEmptyIffBlank(s: string)
    ensures Trim(s) == "" <==> forall i :: 0 <= i < |s| ==> IsJsSpace(s[i])
  {
    var t := TrimStart(s);
    if Trim(s) != "" {
      assert Trim(s)[0] == t[0] == s[|s| - |t|];
    }
  }

  /** Trimming a text that starts with a non-blank character keeps every prefix
      of it that ends in a non-blank character. */
  lemma TrimKeepsLeadingText(s: string, p: string)
    requires |s| > 0 && !IsJsSpace(s[0])
    requires StartsWith(s, p) && |p| > 0 && !IsJsSpace(p[|p| - 1])
    ensures StartsWith(Trim(s), p)
  {
    assert TrimStart(s) == s;
    var r := Trim(s);
    assert s[|p| - 1] == p[|p| - 1];
    assert r[..|p|] == s[..|p|];
  }

  // ---------------------------------------------------------------------
  // Regular-expression tests
  // ---------------------------------------------------------------------

  predicate IsIdentifierStart(c: char) { IsLetterOrUnderscore(c) || c == '$' }
  predicate IsIdentifierPart(c: char) { IsWordChar(c) || c == '$' }

  /** `/^[a-zA-Z_$][0-9a-zA-Z_$]*$/.test(s)` */
  predicate IsIdentifier(s: string) {
    |s| > 0 && IsIdentifierStart(s[0]) && forall i :: 1 <= i < |s| ==> IsIdentifierPart(s[i])
  }

  /** One match of `/[a-zA-Z_]\w*\s*\(.*\)/`: the identifier start at `i`,
      word characters up to `m`, white space up to `p`, `(` at `p`,
      no line terminator up to `q`, `)` at `q`. */
  predicate CallShapeAt(s: string, i: nat, m: nat, p: nat, q: nat)
    requires i < m <= p < q < |s|
  {
    && IsLetterOrUnderscore(s[i])
    && (forall k :: i < k < m ==> IsWordChar(s[k]))
    && (forall k :: m <= k < p ==> IsJsSpace(s[k]))
    && s[p] == '('
    && (forall k :: p < k < q ==> !IsLineTerminator(s[k]))
    && s[q] == ')'
  }

  predicate HasCallShape(s: string) {
    exists i, m, p, q | 0 <= i < m <= p < q < |s| :: CallShapeAt(s, i, m, p, q)
  }

  /** `/[\+\-\*\/\%\&\|\<\>\=\!]/` */
  predicate IsOperatorChar(c: char) {
    c in "+-*/%&|<>=!"
  }

  predicate HasOperatorChar(s: string) {
    exists k | 0 <= k < |s| :: IsOperatorChar(s[k])
  }

  /** The heuristic that lets a string default on a number/boolean port be
      emitted as raw code: a reference into the runtime objects, a call shape,
      or an operator character. */
  predicate LooksLikeExpression(s: string) {
    || Contains(s, "variables.") || Contains(s, "Math.") || Contains(s, "canvas.")
    || Contains(s, "window.") || HasCallShape(s) || HasOperatorChar(s)
  }
}
