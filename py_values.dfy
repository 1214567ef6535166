/** Python runtime values and the few built-in text operations the travel
    planner relies on: truthiness, str()/repr(), int() on a string,
    str.strip(), str.join(), str.lower()/upper(), substring tests and
    str.split(sep)[0]. */
module PyValues {

  datatype Option<T> = None | Some(value: T)

  /** A Python call that either returns a value or raises an exception. */
  datatype Result<T, E> = Ok(value: T) | Raised(error: E)

  /** A Python value, as far as the planner inspects one. `VOther` stands for
      any other object (a date, a float, a list, a Crew result object) and
      carries what the planner asks of it: the text of its str(), the text
      of its repr() and its truthiness (0.0, [], () and set() are false). */
  datatype Value =
    | VNone
    | VBool(b: bool)
    | VInt(i: int)
    | VStr(s: string)
    | VDict(entries: seq<Entry>)
    | VOther(text: string, reprText: string, truthy: bool)

  /** One key/value pair of a dict, in insertion order. */
  datatype Entry = Entry(key: Value, val: Value)

  /** Python truthiness: None, False, 0, "" and {} are false; another object
      is as truthy as its bool() says. */
  predicate Truthy(v: Value) {
    match v
    case VNone => false
    case VBool(b) => b
    case VInt(i) => i != 0
    case VStr(s) => s != ""
    case VDict(entries) => entries != []
    case VOther(_, _, truthy) => truthy
  }

  /** `key in d` for a dict. */
  predicate HasKey(entries: seq<Entry>, key: Value) {
    exists k :: 0 <= k < |entries| && entries[k].key == key
  }

  /** `d[key]`: the value stored under the first entry with that key. */
  function Lookup(entries: seq<Entry>, key: Value): (v: Value)
    requires HasKey(entries, key)
    ensures exists k :: 0 <= k < |entries| && entries[k].key == key && entries[k].val == v
  {
    if entries[0].key == key then entries[0].val
    else
      assert exists k :: 1 <= k < |entries| && entries[k].key == key;
      assert exists k :: 0 <= k < |entries[1..]| && entries[1..][k].key == key by {
        var k :| 1 <= k < |entries| && entries[k].key == key;
        assert entries[1..][k - 1].key == key;
      }
      Lookup(entries[1..], key)
  }

  // ---------------------------------------------------------------------
  // Decimal digits

  predicate IsDigit(c: char) { '0' <= c <= '9' }

  function DigitChar(d: nat): (c: char)
    requires d < 10
    ensures IsDigit(c) && DigitValue(c) == d
  {
    ['0', '1', '2', '3', '4', '5', '6', '7', '8', '9'][d]
  }

  function DigitValue(c: char): nat
    requires IsDigit(c)
  {
    (c as int - '0' as int) as nat
  }

  /** The decimal digits of a natural number, most significant first, no leading zeros. */
  function Digits(n: nat): (s: string)
    ensures |s| > 0
    ensures forall k :: 0 <= k < |s| ==> IsDigit(s[k])
  {
    if n < 10 then [DigitChar(n)] else Digits(n / 10) + [DigitChar(n % 10)]
  }

  /** str(n) for a Python int. */
  function DecimalString(n: int): string {
    if n < 0 then "-" + Digits(-n) else Digits(n)
  }

  predicate AllDigits(s: string) {
    forall k :: 0 <= k < |s| ==> IsDigit(s[k])
  }

  /** The number a string of decimal digits denotes. */
  function DigitsValue(s: string): nat
    requires AllDigits(s)
  {
    if |s| == 0 then 0 else DigitsValue(s[..|s| - 1]) * 10 + DigitValue(s[|s| - 1])
  }

  lemma {:induction false} DigitsValueOfDigits(n: nat)
    ensures DigitsValue(Digits(n)) == n
  {
    if n >= 10 {
      var s := Digits(n);
      assert s[..|s| - 1] == Digits(n / 10);
      DigitsValueOfDigits(n / 10);
    }
  }

  // ---------------------------------------------------------------------
  // Whitespace and str.strip()

  /** The characters Python's str.isspace() accepts, which str.strip() and int() remove. */
  predicate IsSpace(c: char) {
    || c == ' ' || c == '\t' || c == '\n' || c == '\r' || c == '\U{0B}' || c == '\U{0C}'
    || ('\U{1C}' <= c <= '\U{1F}') || c == '\U{85}' || c == '\U{A0}' || c == '\U{1680}'
    || ('\U{2000}' <= c <= '\U{200A}') || c == '\U{2028}' || c == '\U{2029}'
    || c == '\U{202F}' || c == '\U{205F}' || c == '\U{3000}'
  }

  function StripLeft(s: string): (r: string)
    ensures |r| <= |s| && r == s[|s| - |r|..]
    ensures r == [] || !IsSpace(r[0])
    ensures forall k :: 0 <= k < |s| - |r| ==> IsSpace(s[k])
  {
    if |s| > 0 && IsSpace(s[0]) then StripLeft(s[1..]) else s
  }

  function StripRight(s: string): (r: string)
    ensures |r| <= |s| && r == s[..|r|]
    ensures r == [] || !IsSpace(r[|r| - 1])
    ensures forall k :: |r| <= k < |s| ==> IsSpace(s[k])
  {
    if |s| > 0 && IsSpace(s[|s| - 1]) then StripRight(s[..|s| - 1]) else s
  }

  /** str.strip() with no argument. */
  function Strip(s: string): string {
    StripRight(StripLeft(s))
  }

  /** `s.strip()` is truthy exactly when s holds a character that is not whitespace. */
  lemma StripNonEmptyIff(s: string)
    ensures Strip(s) != "" <==> exists k :: 0 <= k < |s| && !IsSpace(s[k])
  {
    var l := StripLeft(s);
    var r := StripRight(l);
    if r != "" {
      assert !IsSpace(s[|s| - |l|]);
    } else {
      assert l == [];
    }
  }

  // ---------------------------------------------------------------------
  // int() on a string

  /** The digits part int() accepts: digits, with single underscores only between two digits. */
  predicate ValidDigitRun(b: string) {
    && |b| > 0
    && DigitsOrUnderscores(b)
    && forall k :: 0 <= k < |b| && b[k] == '_' ==> 0 < k < |b| - 1 && IsDigit(b[k - 1]) && IsDigit(b[k + 1])
  }

  predicate DigitsOrUnderscores(b: string) {
    forall k :: 0 <= k < |b| ==> IsDigit(b[k]) || b[k] == '_'
  }

  function RemoveUnderscores(b: string): (r: string)
    requires DigitsOrUnderscores(b)
    ensures AllDigits(r)
    ensures AllDigits(b) ==> r == b
  {
    if |b| == 0 then ""
    else (if b[0] == '_' then "" else [b[0]]) + RemoveUnderscores(b[1..])
  }

  function RunValue(b: string): nat
    requires ValidDigitRun(b)
  {
    DigitsValue(RemoveUnderscores(b))
  }

  /** int(s) for a string s: Some(the value), or None where Python raises
      ValueError. Surrounding whitespace is ignored. */
  function ParseInt(s: string): Option<int> {
    ParseStripped(Strip(s))
  }

  /** int() of text without surrounding whitespace: an optional sign, then a digit run. */
  function ParseStripped(t: string): Option<int> {
    if |t| == 0 then None
    else if t[0] == '-' || t[0] == '+' then Signed(t[0] == '-', ParseRun(t[1..]))
    else ParseRun(t)
  }

  function ParseRun(b: string): Option<int> {
    if ValidDigitRun(b) then Some(RunValue(b)) else None
  }

  function Signed(negative: bool, r: Option<int>): Option<int> {
    if r.None? then None else Some(if negative then -r.value else r.value)
  }

  lemma StripOfUnpadded(s: string)
    requires |s| > 0 && !IsSpace(s[0]) && !IsSpace(s[|s| - 1])
    ensures Strip(s) == s
  {
  }

  lemma DigitsAreValidRun(n: nat)
    ensures ParseRun(Digits(n)) == Some(n)
  {
    var ds := Digits(n);
    assert AllDigits(ds);
    assert RemoveUnderscores(ds) == ds;
    DigitsValueOfDigits(n);
  }

  /** int() of an unsigned decimal string is its value. */
  lemma ParseIntOfDigits(m: nat)
    ensures ParseInt(Digits(m)) == Some(m)
  {
    var ds := Digits(m);
    assert IsDigit(ds[0]) && IsDigit(ds[|ds| - 1]);
    StripOfUnpadded(ds);
    assert ParseStripped(ds) == ParseRun(ds);
    DigitsAreValidRun(m);
  }

  /** int() of a minus sign and a decimal string is the negated value. */
  lemma ParseIntOfNegative(m: nat)
    ensures ParseInt("-" + Digits(m)) == Some(-(m as int))
  {
    NegativeUnpadded(m);
    NegativeSigned(m);
  }

  lemma NegativeUnpadded(m: nat)
    ensures Strip("-" + Digits(m)) == "-" + Digits(m)
  {
    var ds := Digits(m);
    var s := "-" + ds;
    assert s[0] == '-' && !IsSpace(s[0]);
    assert s[|s| - 1] == ds[|ds| - 1] && IsDigit(ds[|ds| - 1]);
    StripOfUnpadded(s);
  }

  lemma NegativeSigned(m: nat)
    ensures ParseStripped("-" + Digits(m)) == Some(-(m as int))
  {
    var s := "-" + Digits(m);
    assert s[1..] == Digits(m);
    DigitsAreValidRun(m);
    SignedRun(s, m);
  }

  lemma SignedRun(s: string, v: int)
    requires |s| > 0 && s[0] == '-' && ParseRun(s[1..]) == Some(v)
    ensures ParseStripped(s) == Some(-v)
  {
  }

  /** int(str(n)) == n: printing an integer and parsing it back is the identity. */
  lemma ParseIntOfDecimal(n: int)
    ensures ParseInt(DecimalString(n)) == Some(n)
  {
    if n < 0 {
      var m: nat := -n;
      assert DecimalString(n) == "-" + Digits(m);
      ParseIntOfNegative(m);
    } else {
      var m: nat := n;
      assert DecimalString(n) == Digits(m);
      ParseIntOfDigits(m);
    }
  }

  // ---------------------------------------------------------------------
  // str() and repr()

  /** str(v). Strings and other objects render as their str() text; None,
      booleans, integers and dicts render as their repr. */
  function Str(v: Value): string {
    match v
    case VStr(s) => s
    case VOther(text, _, _) => text
    case _ => Repr(v)
  }

  /** repr(v). A dict shows the repr of each key and value. */
  function Repr(v: Value): string
    decreases v, 1
  {
    match v
    case VNone => "None"
    case VBool(b) => if b then "True" else "False"
    case VInt(i) => DecimalString(i)
    case VStr(s) => StrRepr(s)
    case VDict(entries) => "{" + EntriesRepr(v, entries) + "}"
    case VOther(_, reprText, _) => reprText
  }

  function EntriesRepr(ghost whole: Value, entries: seq<Entry>): string
    requires whole.VDict? && |entries| <= |whole.entries| && entries == whole.entries[|whole.entries| - |entries|..]
    decreases whole, 0, |entries|
  {
    if |entries| == 0 then ""
    else
      assert entries[0] in whole.entries;
      var item := Repr(entries[0].key) + ": " + Repr(entries[0].val);
      if |entries| == 1 then item else item + ", " + EntriesRepr(whole, entries[1..])
  }

  /** The quote repr() puts around a string: a double quote when the text
      holds a single quote and no double quote, else a single quote. */
  function QuoteFor(s: string): (q: char)
    ensures q == '"' <==> '\'' in s && '"' !in s
    ensures q == '"' || q == '\''
  {
    if '\'' in s && '"' !in s then '"' else '\''
  }

  function HexDigit(n: nat): char
    requires n < 16
  {
    if n < 10 then ('0' as int + n) as char else ('a' as int + n - 10) as char
  }

  /** A character repr() writes with a backslash inside quotes q: the
      backslash, the quote, and the ASCII control characters. */
  predicate Escapes(c: char, q: char) {
    c == '\\' || c == q || c < ' ' || c == '\U{7F}'
  }

  /** How repr() writes one character inside quotes q: a backslash and the
      quote are preceded by a backslash, tab, newline and carriage return
      become \t, \n and \r, other control characters \x and two
      lower-case hex digits. */
  function EscapeChar(c: char, q: char): (e: string)
    ensures Escapes(c, q) <==> |e| > 1
    ensures Escapes(c, q) ==> e[0] == '\\'
    ensures !Escapes(c, q) ==> e == [c]
  {
    if c == '\\' || c == q then ['\\', c]
    else if c == '\t' then "\\t"
    else if c == '\n' then "\\n"
    else if c == '\r' then "\\r"
    else if c < ' ' || c == '\U{7F}' then ['\\', 'x', HexDigit(c as int / 16), HexDigit(c as int % 16)]
    else [c]
  }

  /** The text repr() writes between the quotes. */
  function Escaped(s: string, q: char): string {
    if |s| == 0 then "" else EscapeChar(s[0], q) + Escaped(s[1..], q)
  }

  /** repr() of a str: the escaped text between the chosen quotes. */
  function StrRepr(s: string): (r: string)
    ensures |r| >= 2 && r[0] == QuoteFor(s) && r[|r| - 1] == QuoteFor(s)
  {
    [QuoteFor(s)] + Escaped(s, QuoteFor(s)) + [QuoteFor(s)]
  }

  function HexValue(c: char): int {
    if '0' <= c <= '9' then c as int - '0' as int else c as int - 'a' as int + 10
  }

  /** Reading back what repr() wrote between the quotes: each backslash
      sequence stands for the character it escapes. */
  function Unescaped(t: string): string
    decreases |t|
  {
    if |t| == 0 then ""
    else if t[0] != '\\' || |t| == 1 then [t[0]] + Unescaped(t[1..])
    else if t[1] == 't' then "\t" + Unescaped(t[2..])
    else if t[1] == 'n' then "\n" + Unescaped(t[2..])
    else if t[1] == 'r' then "\r" + Unescaped(t[2..])
    else if t[1] == 'x' && |t| >= 4 && 0 <= HexValue(t[2]) * 16 + HexValue(t[3]) < 0xD800 then
      [(HexValue(t[2]) * 16 + HexValue(t[3])) as char] + Unescaped(t[4..])
    else [t[1]] + Unescaped(t[2..])
  }

  lemma HexDigitValue(n: nat)
    requires n < 16
    ensures HexValue(HexDigit(n)) == n
  {
  }

  /** One escaped character reads back as itself, whatever follows it. */
  lemma UnescapeChar(c: char, q: char, rest: string)
    requires q == '"' || q == '\''
    ensures Unescaped(EscapeChar(c, q) + rest) == [c] + Unescaped(rest)
  {
    var e := EscapeChar(c, q);
    if c == '\\' || c == q {
      assert (e + rest)[2..] == rest;
    } else if c == '\t' || c == '\n' || c == '\r' {
      assert (e + rest)[2..] == rest;
    } else if c < ' ' || c == '\U{7F}' {
      var n := c as int;
      HexDigitValue(n / 16);
      HexDigitValue(n % 16);
      assert (e + rest)[2] == HexDigit(n / 16) && (e + rest)[3] == HexDigit(n % 16);
      assert HexValue((e + rest)[2]) * 16 + HexValue((e + rest)[3]) == n;
      assert (e + rest)[4..] == rest;
    } else {
      assert (e + rest)[1..] == rest;
    }
  }

  /** repr() loses nothing: the text between the quotes reads back as the string. */
  lemma {:induction false} EscapedRoundTrip(s: string, q: char)
    requires q == '"' || q == '\''
    ensures Unescaped(Escaped(s, q)) == s
  {
    if |s| > 0 {
      UnescapeChar(s[0], q, Escaped(s[1..], q));
      EscapedRoundTrip(s[1..], q);
      assert [s[0]] + s[1..] == s;
    }
  }

  /** The repr of a string reads back as the string. */
  lemma StrReprRoundTrip(s: string)
    ensures var r := StrRepr(s); Unescaped(r[1..|r| - 1]) == s
  {
    var q := QuoteFor(s);
    assert StrRepr(s)[1..|StrRepr(s)| - 1] == Escaped(s, q);
    EscapedRoundTrip(s, q);
  }

  /** A string without quotes, backslashes or control characters shows
      between single quotes, unchanged. */
  lemma StrReprPlain(s: string)
    requires forall k :: 0 <= k < |s| ==> !Escapes(s[k], '\'') && s[k] != '"'
    ensures Repr(VStr(s)) == "'" + s + "'"
  {
    assert '\'' !in s by {
      forall k | 0 <= k < |s| ensures s[k] != '\'' { assert !Escapes(s[k], '\''); }
    }
    EscapedPlain(s, '\'');
  }

  /** A string holding a single quote and no double quote shows between
      double quotes, the single quote unescaped. */
  lemma StrReprApostrophe()
    ensures Repr(VStr("it's")) == "\"it's\""
  {
    var t := "it's";
    assert t == ['i', 't', '\'', 's'];
    assert QuoteFor(t) == '"' by { assert t[2] == '\''; }
    assert forall k :: 0 <= k < |t| ==> !Escapes(t[k], '"');
    EscapedPlain(t, '"');
  }

  /** A newline shows as backslash and n. */
  lemma StrReprNewline()
    ensures Repr(VStr("a\nb")) == "'a\\nb'"
  {
    assert QuoteFor("a\nb") == '\'' by { assert '\'' !in "a\nb"; }
    assert Escaped("a\nb", '\'') == "a\\nb";
  }

  /** Text with nothing to escape is written as it is. */
  lemma {:induction false} EscapedPlain(s: string, q: char)
    requires forall k :: 0 <= k < |s| ==> !Escapes(s[k], q)
    ensures Escaped(s, q) == s
  {
    if |s| > 0 {
      EscapedPlain(s[1..], q);
      assert [s[0]] + s[1..] == s;
    }
  }

  // ---------------------------------------------------------------------
  // Text helpers

  /** sep.join(parts). */
  function Join(sep: string, parts: seq<string>): string {
    if |parts| == 0 then ""
    else if |parts| == 1 then parts[0]
    else parts[0] + sep + Join(sep, parts[1..])
  }

  /** str.lower() on ASCII letters; other characters are unchanged. */
  function Lower(s: string): (r: string)
    ensures |r| == |s|
  {
    if |s| == 0 then ""
    else [if 'A' <= s[0] <= 'Z' then (s[0] as int + 32) as char else s[0]] + Lower(s[1..])
  }

  /** str.upper() on ASCII letters; other characters are unchanged. */
  function Upper(s: string): (r: string)
    ensures |r| == |s|
  {
    if |s| == 0 then ""
    else [if 'a' <= s[0] <= 'z' then (s[0] as int - 32) as char else s[0]] + Upper(s[1..])
  }

  /** `sub in s` for strings. */
  predicate Contains(s: string, sub: string) {
    exists k :: 0 <= k <= |s| - |sub| && OccursAt(s, sub, k)
  }

  predicate OccursAt(s: string, sub: string, k: int)
    requires 0 <= k <= |s| - |sub|
  {
    s[k..k + |sub|] == sub
  }

  /** s.split(sep)[0] for a one-character separator: the text before the first sep, or all of s. */
  function SplitHead(s: string, sep: char): (r: string)
    ensures |r| <= |s| && r == s[..|r|]
    ensures sep !in r
    ensures |r| < |s| ==> s[|r|] == sep
  {
    if |s| == 0 || s[0] == sep then "" else [s[0]] + SplitHead(s[1..], sep)
  }

  /** Splitting at the first separator returns exactly the text before it. */
  lemma {:induction false} SplitHeadBefore(d: string, sep: char, rest: string)
    requires sep !in d
    ensures SplitHead(d + [sep] + rest, sep) == d
  {
    if |d| == 0 {
      assert (d + [sep] + rest)[0] == sep;
    } else {
      SplitHeadBefore(d[1..], sep, rest);
      assert (d + [sep] + rest)[1..] == d[1..] + [sep] + rest;
    }
  }
}
