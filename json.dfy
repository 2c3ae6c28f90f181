/** The serialisation the store applies to node and edge lists before it edits
    them as text: `JSON.stringify` (no indentation) and `JSON.parse`.
    `Parse` accepts exactly the text `Print` produces, so the two are inverse
    in both directions. */
module Json {
  import opened Wrappers

  datatype Json =
    | JNull
    | JBool(b: bool)
    | JNum(n: int)
    | JStr(s: string)
    | JArr(items: seq<Json>)
    | JObj(fields: seq<Field>)

  datatype Field = Field(key: string, value: Json)

  // ---------------------------------------------------------------- printing

  predicate IsDigit(c: char)
  {
    '0' <= c <= '9'
  }

  function DigitChar(d: nat): (c: char)
    requires d < 10
    ensures IsDigit(c)
  {
    ('0' as int + d) as char
  }

  function DigitVal(c: char): (d: nat)
    requires IsDigit(c)
    ensures d < 10
  {
    c as int - '0' as int
  }

  /** Decimal digits of `n`, without leading zeros. */
  function PrintNat(n: nat): (text: string)
    ensures |text| > 0 && IsDigit(text[0])
  {
    if n < 10 then [DigitChar(n)] else PrintNat(n / 10) + [DigitChar(n % 10)]
  }

  function PrintInt(n: int): (text: string)
    ensures |text| > 0
  {
    if n < 0 then "-" + PrintNat(-n) else PrintNat(n)
  }

  function HexDigit(d: nat): char
    requires d < 16
  {
    if d < 10 then ('0' as int + d) as char else ('a' as int + d - 10) as char
  }

  predicate IsLowerHex(c: char)
  {
    ('0' <= c <= '9') || ('a' <= c <= 'f')
  }

  function HexVal(c: char): (d: nat)
    requires IsLowerHex(c)
    ensures d < 16
  {
    if c <= '9' then c as int - '0' as int else c as int - 'a' as int + 10
  }

  /** The control characters that have a two-character escape. */
  predicate HasShortEscape(c: char)
  {
    c == '\U{0008}' || c == '\U{000C}' || c == '\n' || c == '\r' || c == '\t'
  }

  /** How `JSON.stringify` writes one character inside a string literal. */
  function EscapeChar(c: char): string
  {
    if c == '"' then "\\\""
    else if c == '\\' then "\\\\"
    else if c == '\U{0008}' then "\\b"
    else if c == '\U{000C}' then "\\f"
    else if c == '\n' then "\\n"
    else if c == '\r' then "\\r"
    else if c == '\t' then "\\t"
    else if c < ' ' then "\\u00" + [HexDigit(c as int / 16), HexDigit(c as int % 16)]
    else [c]
  }

  function Escape(s: string): string
  {
    if s == [] then [] else EscapeChar(s[0]) + Escape(s[1..])
  }

  function Quote(s: string): string
  {
    "\"" + Escape(s) + "\""
  }

  /** `JSON.stringify(j)`. */
  function Print(j: Json): (text: string)
    ensures |text| > 0 && text[0] != ']' && text[0] != '}'
    decreases j, 1
  {
    match j
    case JNull => "null"
    case JBool(b) => if b then "true" else "false"
    case JNum(n) => PrintInt(n)
    case JStr(s) => Quote(s)
    case JArr(items) => "[" + PrintItems(items) + "]"
    case JObj(fields) => "{" + PrintFields(fields) + "}"
  }

  function PrintItems(items: seq<Json>): string
    decreases items, 0
  {
    if items == [] then ""
    else if |items| == 1 then Print(items[0])
    else Print(items[0]) + "," + PrintItems(items[1..])
  }

  function PrintFields(fields: seq<Field>): string
    decreases fields, 0
  {
    if fields == [] then ""
    else
      var head := Quote(fields[0].key) + ":" + Print(fields[0].value);
      if |fields| == 1 then head else head + "," + PrintFields(fields[1..])
  }

  // ----------------------------------------------------------------- parsing

  /** Length of the run of digits at the start of `s`. */
  function DigitRun(s: string): (k: nat)
    ensures k <= |s|
    ensures forall i :: 0 <= i < k ==> IsDigit(s[i])
    ensures k < |s| ==> !IsDigit(s[k])
  {
    if s != [] && IsDigit(s[0]) then 1 + DigitRun(s[1..]) else 0
  }

  /** The number a run of decimal digits denotes. */
  function DigitsValue(ds: string): nat
    requires forall i :: 0 <= i < |ds| ==> IsDigit(ds[i])
  {
    if ds == [] then 0 else DigitsValue(ds[..|ds| - 1]) * 10 + DigitVal(ds[|ds| - 1])
  }

  /** A digit run that does not start with `0` is the decimal form of its value. */
  lemma {:induction false} PrintDigitsValue(ds: string)
    requires |ds| > 0 && ds[0] != '0'
    requires forall i :: 0 <= i < |ds| ==> IsDigit(ds[i])
    ensures DigitsValue(ds) > 0 && PrintNat(DigitsValue(ds)) == ds
    decreases |ds|
  {
    var last := ds[|ds| - 1];
    assert DigitChar(DigitVal(last)) == last;
    if |ds| > 1 {
      var init := ds[..|ds| - 1];
      PrintDigitsValue(init);
      var v := DigitsValue(ds);
      assert v == DigitsValue(init) * 10 + DigitVal(last);
      assert v / 10 == DigitsValue(init) && v % 10 == DigitVal(last);
      assert ds == init + [last];
    } else {
      assert ds == [last];
    }
  }

  /** Reading back the digits of `n` gives `n`. */
  lemma {:induction false} DigitsValuePrint(n: nat)
    ensures forall i :: 0 <= i < |PrintNat(n)| ==> IsDigit(PrintNat(n)[i])
    ensures n > 0 ==> PrintNat(n)[0] != '0'
    ensures DigitsValue(PrintNat(n)) == n
  {
    if n >= 10 {
      DigitsValuePrint(n / 10);
      var p := PrintNat(n);
      assert p == PrintNat(n / 10) + [DigitChar(n % 10)];
      assert p[..|p| - 1] == PrintNat(n / 10);
    }
  }

  /** A number: `0`, a digit run not starting with `0`, or `-` followed by such a run. */
  function ParseNumber(s: string): (r: Option<(int, string)>)
    ensures r.Some? ==> s == PrintInt(r.value.0) + r.value.1
  {
    if s == [] then None
    else if s[0] == '0' then Some((0, s[1..]))
    else if '1' <= s[0] <= '9' then
      var k := DigitRun(s);
      PrintDigitsValue(s[..k]);
      assert s == s[..k] + s[k..];
      Some((DigitsValue(s[..k]), s[k..]))
    else if s[0] == '-' && |s| > 1 && '1' <= s[1] <= '9' then
      var t := s[1..];
      var k := DigitRun(t);
      PrintDigitsValue(t[..k]);
      assert t == t[..k] + t[k..];
      Prepend(s, t[..k], t[k..]);
      var v: int := DigitsValue(t[..k]);
      assert PrintInt(-v) == [s[0]] + t[..k];
      Some((-v, t[k..]))
    else None
  }

  /** One character of a string literal, with the number of text characters it used. */
  function ParseChar(s: string): (r: Option<(char, nat)>)
    ensures r.Some? ==> 0 < r.value.1 <= |s| && s[..r.value.1] == EscapeChar(r.value.0)
  {
    if s == [] || s[0] == '"' then None
    else if s[0] != '\\' then
      if s[0] < ' ' then None else Some((s[0], 1))
    else if |s| < 2 then None
    else if s[1] == '"' then Some(('"', 2))
    else if s[1] == '\\' then Some(('\\', 2))
    else if s[1] == 'b' then Some(('\U{0008}', 2))
    else if s[1] == 'f' then Some(('\U{000C}', 2))
    else if s[1] == 'n' then Some(('\n', 2))
    else if s[1] == 'r' then Some(('\r', 2))
    else if s[1] == 't' then Some(('\t', 2))
    else if s[1] == 'u' && |s| >= 6 && s[2] == '0' && s[3] == '0' && IsLowerHex(s[4]) && IsLowerHex(s[5]) then
      var code := HexVal(s[4]) * 16 + HexVal(s[5]);
      if code < 0x20 && !HasShortEscape(code as char) then
        assert HexDigit(code / 16) == s[4] && HexDigit(code % 16) == s[5];
        Some((code as char, 6))
      else None
    else None
  }

  /** The body of a string literal after its opening quote, up to and including
      the closing quote. */
  function ParseString(s: string): (r: Option<(string, string)>)
    ensures r.Some? ==> s == Escape(r.value.0) + "\"" + r.value.1
    decreases |s|
  {
    if s == [] then None
    else if s[0] == '"' then Some(([], s[1..]))
    else
      match ParseChar(s)
      case None => None
      case Some((c, k)) =>
        match ParseString(s[k..])
        case None => None
        case Some((body, rest)) =>
          EscapeConsText(s, k, c, body, rest);
          Some(([c] + body, rest))
  }

  /** Regrouping the text of a string literal body whose first character escapes as `s[..k]`. */
  lemma EscapeConsText(s: string, k: nat, c: char, body: string, rest: string)
    requires k <= |s| && s[..k] == EscapeChar(c) && s[k..] == Escape(body) + "\"" + rest
    ensures s == Escape([c] + body) + "\"" + rest
  {
    assert ([c] + body)[0] == c && ([c] + body)[1..] == body;
    assert Escape([c] + body) == EscapeChar(c) + Escape(body);
    assert s == s[..k] + s[k..];
  }

  function ParseLiteral(s: string, word: string, j: Json): (r: Option<(Json, string)>)
    ensures r.Some? ==> r.value.0 == j && s == word + r.value.1
  {
    if |s| >= |word| && s[..|word|] == word then
      assert s == s[..|word|] + s[|word|..];
      Some((j, s[|word|..]))
    else None
  }

  /** One value at the start of `s`, and the text after it. */
  function ParseValue(s: string): (r: Option<(Json, string)>)
    ensures r.Some? ==> s == Print(r.value.0) + r.value.1
    decreases |s|, 0
  {
    if s == [] then None
    else if s[0] == 'n' then ParseLiteral(s, "null", JNull)
    else if s[0] == 't' then ParseLiteral(s, "true", JBool(true))
    else if s[0] == 'f' then ParseLiteral(s, "false", JBool(false))
    else if s[0] == '"' then
      match ParseString(s[1..])
      case None => None
      case Some((str, rest)) =>
        Prepend(s, Escape(str) + "\"", rest);
        Some((JStr(str), rest))
    else if s[0] == '[' then
      match ParseArray(s[1..])
      case None => None
      case Some((items, rest)) =>
        Prepend(s, PrintItems(items) + "]", rest);
        Some((JArr(items), rest))
    else if s[0] == '{' then
      match ParseObject(s[1..])
      case None => None
      case Some((fields, rest)) =>
        Prepend(s, PrintFields(fields) + "}", rest);
        Some((JObj(fields), rest))
    else
      match ParseNumber(s)
      case None => None
      case Some((n, rest)) => Some((JNum(n), rest))
  }

  /** The elements of an array after its `[`, up to and including its `]`. */
  function ParseArray(s: string): (r: Option<(seq<Json>, string)>)
    ensures r.Some? ==> s == PrintItems(r.value.0) + "]" + r.value.1
    decreases |s|, 2
  {
    if s != [] && s[0] == ']' then
      assert s == [s[0]] + s[1..];
      Some(([], s[1..]))
    else ParseElements(s)
  }

  function ParseElements(s: string): (r: Option<(seq<Json>, string)>)
    ensures r.Some? ==> r.value.0 != [] && s == PrintItems(r.value.0) + "]" + r.value.1
    decreases |s|, 1
  {
    match ParseValue(s)
    case None => None
    case Some((v, rest)) =>
      if rest != [] && rest[0] == ']' then
        CloseText(s, Print(v), rest, ']');
        assert PrintItems([v]) == Print(v);
        Some(([v], rest[1..]))
      else if rest != [] && rest[0] == ',' then
        match ParseElements(rest[1..])
        case None => None
        case Some((vs, rest2)) =>
          PrintItemsCons(v, vs);
          ConsText(s, Print(v), rest, PrintItems(vs) + "]", rest2);
          Some(([v] + vs, rest2))
      else None
  }

  /** The members of an object after its `{`, up to and including its `}`. */
  function ParseObject(s: string): (r: Option<(seq<Field>, string)>)
    ensures r.Some? ==> s == PrintFields(r.value.0) + "}" + r.value.1
    decreases |s|, 2
  {
    if s != [] && s[0] == '}' then
      assert s == [s[0]] + s[1..];
      Some(([], s[1..]))
    else ParseMembers(s)
  }

  /** One `"key":value` member. */
  function ParseMember(s: string): (r: Option<(Field, string)>)
    ensures r.Some? ==> s == Quote(r.value.0.key) + ":" + Print(r.value.0.value) + r.value.1
    decreases |s|, 0
  {
    if s == [] || s[0] != '"' then None
    else
      match ParseString(s[1..])
      case None => None
      case Some((key, r1)) =>
        if r1 == [] || r1[0] != ':' then None
        else
          match ParseValue(r1[1..])
          case None => None
          case Some((v, r2)) =>
            MemberText(s, key, r1, v, r2);
            Some((Field(key, v), r2))
  }

  lemma MemberText(s: string, key: string, r1: string, v: Json, r2: string)
    requires s != [] && s[0] == '"' && s[1..] == Escape(key) + "\"" + r1
    requires r1 != [] && r1[0] == ':' && r1[1..] == Print(v) + r2
    ensures s == Quote(key) + ":" + Print(v) + r2
  {
    assert s == "\"" + s[1..];
    assert r1 == ":" + r1[1..];
    QuotedMemberText(Escape(key), Print(v), r2);
  }

  function ParseMembers(s: string): (r: Option<(seq<Field>, string)>)
    ensures r.Some? ==> r.value.0 != [] && s == PrintFields(r.value.0) + "}" + r.value.1
    decreases |s|, 1
  {
    match ParseMember(s)
    case None => None
    case Some((f, rest)) =>
      if rest != [] && rest[0] == '}' then
        LastMemberText(s, f, rest);
        Some(([f], rest[1..]))
      else if rest != [] && rest[0] == ',' then
        match ParseMembers(rest[1..])
        case None => None
        case Some((fs, rest2)) =>
          NextMemberText(s, f, rest, fs, rest2);
          Some(([f] + fs, rest2))
      else None
  }

  /** Regrouping the text of an object's last member and the closing brace. */
  lemma LastMemberText(s: string, f: Field, rest: string)
    requires s == Quote(f.key) + ":" + Print(f.value) + rest && rest != [] && rest[0] == '}'
    ensures s == PrintFields([f]) + "}" + rest[1..]
  {
    CloseText(s, Quote(f.key) + ":" + Print(f.value), rest, '}');
    assert PrintFields([f]) == Quote(f.key) + ":" + Print(f.value);
  }

  /** Regrouping the text of an object member followed by more members. */
  lemma NextMemberText(s: string, f: Field, rest: string, fs: seq<Field>, rest2: string)
    requires s == Quote(f.key) + ":" + Print(f.value) + rest && rest != [] && rest[0] == ','
    requires fs != [] && rest[1..] == PrintFields(fs) + "}" + rest2
    ensures s == PrintFields([f] + fs) + "}" + rest2
  {
    PrintFieldsCons(f, fs);
    ConsText(s, Quote(f.key) + ":" + Print(f.value), rest, PrintFields(fs) + "}", rest2);
  }

  /** Regrouping the text of a value that starts with one opening character. */
  lemma Prepend(s: string, body: string, rest: string)
    requires s != [] && s[1..] == body + rest
    ensures s == [s[0]] + body + rest
  {
    assert s == [s[0]] + s[1..];
  }

  lemma PrintItemsCons(v: Json, vs: seq<Json>)
    requires vs != []
    ensures PrintItems([v] + vs) == Print(v) + "," + PrintItems(vs)
  {
    assert ([v] + vs)[0] == v && ([v] + vs)[1..] == vs;
  }

  lemma PrintFieldsCons(f: Field, fs: seq<Field>)
    requires fs != []
    ensures PrintFields([f] + fs) == Quote(f.key) + ":" + Print(f.value) + "," + PrintFields(fs)
  {
    assert ([f] + fs)[0] == f && ([f] + fs)[1..] == fs;
  }

  /** Regrouping `head + close + rest` text. */
  lemma CloseText(s: string, head: string, rest: string, close: char)
    requires s == head + rest && rest != [] && rest[0] == close
    ensures s == head + [close] + rest[1..]
  {
    assert rest == [close] + rest[1..];
  }

  /** Regrouping `head + "," + tail + close + rest` text. */
  lemma ConsText(s: string, head: string, rest: string, tailClose: string, rest2: string)
    requires s == head + rest && rest != [] && rest[0] == ','
    requires rest[1..] == tailClose + rest2
    ensures s == head + "," + tailClose + rest2
  {
    assert rest == [rest[0]] + rest[1..];
  }

  /** `JSON.parse(s)`, restricted to the text `JSON.stringify` writes. */
  function Parse(s: string): (r: Option<Json>)
    ensures r.Some? ==> Print(r.value) == s
  {
    match ParseValue(s)
    case Some((j, rest)) => if rest == [] then Some(j) else None
    case None => None
  }

  // ------------------------------------------------------------ completeness

  /** Text after a value that cannot be mistaken for more digits of it. */
  predicate NoDigitStart(rest: string)
  {
    rest == [] || !IsDigit(rest[0])
  }

  lemma {:induction false} DigitRunConcat(ds: string, rest: string)
    requires forall i :: 0 <= i < |ds| ==> IsDigit(ds[i])
    requires NoDigitStart(rest)
    ensures DigitRun(ds + rest) == |ds|
    decreases |ds|
  {
    if ds != [] {
      assert (ds + rest)[1..] == ds[1..] + rest;
      DigitRunConcat(ds[1..], rest);
    } else {
      assert ds + rest == rest;
    }
  }

  lemma NatTextComplete(n: nat, rest: string)
    requires n > 0 && NoDigitStart(rest)
    ensures var s := PrintNat(n) + rest;
      '1' <= s[0] <= '9' && DigitRun(s) == |PrintNat(n)|
      && s[..DigitRun(s)] == PrintNat(n) && s[DigitRun(s)..] == rest
      && DigitsValue(s[..DigitRun(s)]) == n
  {
    DigitsValuePrint(n);
    DigitRunConcat(PrintNat(n), rest);
  }

  /** A number followed by text that does not continue it reads back as itself. */
  lemma ParseNumberComplete(n: int, rest: string)
    requires NoDigitStart(rest)
    ensures ParseNumber(PrintInt(n) + rest) == Some((n, rest))
  {
    if n > 0 {
      ParsePositiveComplete(n, rest);
    } else if n < 0 {
      ParseNegativeComplete(n, rest);
    } else {
      assert PrintInt(n) + rest == "0" + rest;
    }
  }

  lemma ParsePositiveComplete(n: int, rest: string)
    requires n > 0 && NoDigitStart(rest)
    ensures ParseNumber(PrintInt(n) + rest) == Some((n, rest))
  {
    var s := PrintNat(n) + rest;
    NatTextComplete(n, rest);
    assert PrintInt(n) == PrintNat(n);
    assert s[0] != '0';
  }

  lemma ParseNegativeComplete(n: int, rest: string)
    requires n < 0 && NoDigitStart(rest)
    ensures ParseNumber(PrintInt(n) + rest) == Some((n, rest))
  {
    var t := PrintNat(-n) + rest;
    var s := "-" + t;
    NatTextComplete(-n, rest);
    assert PrintInt(n) + rest == s;
    assert s[1..] == t && s[0] == '-' && '1' <= s[1] <= '9';
    var k := DigitRun(t);
    var v: int := DigitsValue(t[..k]);
    assert -v == n;
  }

  lemma HexDigitVal(d: nat)
    requires d < 16
    ensures IsLowerHex(HexDigit(d)) && HexVal(HexDigit(d)) == d
  {
  }

  /** The escape of one character reads back as that character. */
  lemma ParseCharComplete(c: char, more: string)
    ensures ParseChar(EscapeChar(c) + more) == Some((c, |EscapeChar(c)|))
  {
    var s := EscapeChar(c) + more;
    if c < ' ' && !HasShortEscape(c) {
      var hi, lo := c as int / 16, c as int % 16;
      HexDigitVal(hi);
      HexDigitVal(lo);
      assert s[..6] == "\\u00" + [HexDigit(hi), HexDigit(lo)];
      assert s[4] == HexDigit(hi) && s[5] == HexDigit(lo);
      assert HexVal(s[4]) * 16 + HexVal(s[5]) == c as int;
    }
  }

  /** A string literal body reads back as the string it escapes. */
  lemma {:induction false} ParseStringComplete(x: string, rest: string)
    ensures ParseString(Escape(x) + "\"" + rest) == Some((x, rest))
    decreases |x|
  {
    var s := Escape(x) + "\"" + rest;
    if x == [] {
      assert s == "\"" + rest;
    } else {
      var tail := Escape(x[1..]) + "\"" + rest;
      assert s == EscapeChar(x[0]) + tail;
      ParseCharComplete(x[0], tail);
      var k := |EscapeChar(x[0])|;
      assert s[k..] == tail;
      ParseStringComplete(x[1..], rest);
      assert [x[0]] + x[1..] == x;
    }
  }

  /** The text of a value, followed by text that does not continue it, reads
      back as that value and that text. */
  lemma {:induction false} ParseValueComplete(j: Json, rest: string)
    requires NoDigitStart(rest)
    ensures ParseValue(Print(j) + rest) == Some((j, rest))
    decreases j, 2
  {
    match j
    case JNull => ParseWordComplete("null", j, rest);
    case JBool(b) => ParseWordComplete(if b then "true" else "false", j, rest);
    case JNum(n) => ParseNumValueComplete(n, rest);
    case JStr(str) => ParseStrValueComplete(str, rest);
    case JArr(items) => ParseArrValueComplete(items, rest);
    case JObj(fields) => ParseObjValueComplete(fields, rest);
  }

  lemma ParseWordComplete(word: string, j: Json, rest: string)
    requires j.JNull? || j.JBool?
    requires word == Print(j)
    ensures ParseValue(Print(j) + rest) == Some((j, rest))
  {
    var s := word + rest;
    assert s[..|word|] == word && s[|word|..] == rest;
  }

  lemma ParseNumValueComplete(n: int, rest: string)
    requires NoDigitStart(rest)
    ensures ParseValue(Print(JNum(n)) + rest) == Some((JNum(n), rest))
  {
    var s := PrintInt(n) + rest;
    ParseNumberComplete(n, rest);
    if n < 0 {
      assert s[0] == '-';
    } else {
      assert IsDigit(PrintNat(n)[0]) && s[0] == PrintNat(n)[0];
    }
  }

  lemma ParseStrValueComplete(str: string, rest: string)
    ensures ParseValue(Print(JStr(str)) + rest) == Some((JStr(str), rest))
  {
    var s := Print(JStr(str)) + rest;
    assert s[0] == '"' && s[1..] == Escape(str) + "\"" + rest;
    ParseStringComplete(str, rest);
  }

  lemma {:induction false} ParseArrValueComplete(items: seq<Json>, rest: string)
    ensures ParseValue(Print(JArr(items)) + rest) == Some((JArr(items), rest))
    decreases JArr(items), 1
  {
    var s := Print(JArr(items)) + rest;
    assert s[0] == '[' && s[1..] == PrintItems(items) + "]" + rest;
    ParseArrayComplete(items, rest);
  }

  lemma {:induction false} ParseObjValueComplete(fields: seq<Field>, rest: string)
    ensures ParseValue(Print(JObj(fields)) + rest) == Some((JObj(fields), rest))
    decreases JObj(fields), 1
  {
    var s := Print(JObj(fields)) + rest;
    assert s[0] == '{' && s[1..] == PrintFields(fields) + "}" + rest;
    ParseObjectComplete(fields, rest);
  }

  lemma {:induction false} ParseArrayComplete(items: seq<Json>, rest: string)
    ensures ParseArray(PrintItems(items) + "]" + rest) == Some((items, rest))
    decreases items, 1
  {
    if items == [] {
      assert PrintItems(items) + "]" + rest == "]" + rest;
    } else {
      ParseElementsComplete(items, rest);
      assert (PrintItems(items) + "]" + rest)[0] == Print(items[0])[0];
    }
  }

  lemma {:induction false} ParseElementsComplete(items: seq<Json>, rest: string)
    requires items != []
    ensures ParseElements(PrintItems(items) + "]" + rest) == Some((items, rest))
    decreases items, 0
  {
    var s := PrintItems(items) + "]" + rest;
    if |items| == 1 {
      assert s == Print(items[0]) + ("]" + rest);
      ParseValueComplete(items[0], "]" + rest);
      assert ("]" + rest)[1..] == rest;
      assert [items[0]] == items;
    } else {
      var tail := PrintItems(items[1..]) + "]" + rest;
      assert s == Print(items[0]) + ("," + tail);
      ParseValueComplete(items[0], "," + tail);
      assert ("," + tail)[1..] == tail;
      ParseElementsComplete(items[1..], rest);
      assert [items[0]] + items[1..] == items;
    }
  }

  lemma {:induction false} ParseObjectComplete(fields: seq<Field>, rest: string)
    ensures ParseObject(PrintFields(fields) + "}" + rest) == Some((fields, rest))
    decreases fields, 1
  {
    if fields == [] {
      assert PrintFields(fields) + "}" + rest == "}" + rest;
    } else {
      ParseMembersComplete(fields, rest);
      assert (PrintFields(fields) + "}" + rest)[0] == '"';
    }
  }

  lemma {:induction false} ParseMemberComplete(f: Field, rest: string)
    requires NoDigitStart(rest)
    ensures ParseMember(Quote(f.key) + ":" + Print(f.value) + rest) == Some((f, rest))
    decreases f, 0
  {
    var e := Escape(f.key);
    var p := Print(f.value);
    var r1 := ":" + (p + rest);
    var s := "\"" + (e + "\"" + r1);
    QuotedMemberText(e, p, rest);
    ParseStringComplete(f.key, r1);
    DropFirst("\"", e + "\"" + r1);
    DropFirst(":", p + rest);
    ParseValueComplete(f.value, rest);
    MemberStep(s, f.key, r1, f.value, rest);
  }

  lemma QuotedMemberText(e: string, p: string, rest: string)
    ensures "\"" + e + "\"" + ":" + p + rest == "\"" + (e + "\"" + (":" + (p + rest)))
  {
  }

  lemma DropFirst(c: string, t: string)
    requires |c| == 1
    ensures (c + t)[0] == c[0] && (c + t)[1..] == t
  {
  }

  lemma MemberStep(s: string, key: string, r1: string, v: Json, rest: string)
    requires s != [] && s[0] == '"' && ParseString(s[1..]) == Some((key, r1))
    requires r1 != [] && r1[0] == ':' && ParseValue(r1[1..]) == Some((v, rest))
    ensures ParseMember(s) == Some((Field(key, v), rest))
  {
  }

  lemma {:induction false} ParseMembersComplete(fields: seq<Field>, rest: string)
    requires fields != []
    ensures ParseMembers(PrintFields(fields) + "}" + rest) == Some((fields, rest))
    decreases fields, 0
  {
    var f := fields[0];
    var s := PrintFields(fields) + "}" + rest;
    FieldsText(fields, rest);
    if |fields| == 1 {
      ParseMemberComplete(f, "}" + rest);
      MembersLast(fields, s, "}" + rest, rest);
    } else {
      var tail := PrintFields(fields[1..]) + "}" + rest;
      ParseMemberComplete(f, "," + tail);
      ParseMembersComplete(fields[1..], rest);
      MembersStep(fields, s, "," + tail, tail, rest);
    }
  }

  lemma FieldsText(fields: seq<Field>, rest: string)
    requires fields != []
    ensures var head := Quote(fields[0].key) + ":" + Print(fields[0].value);
      if |fields| == 1 then PrintFields(fields) + "}" + rest == head + ("}" + rest)
      else PrintFields(fields) + "}" + rest == head + ("," + (PrintFields(fields[1..]) + "}" + rest))
  {
    var head := Quote(fields[0].key) + ":" + Print(fields[0].value);
    if |fields| == 1 {
      Assoc(head, "}", rest);
    } else {
      var p := PrintFields(fields[1..]);
      assert PrintFields(fields) == head + "," + p;
      Assoc4(head, ",", p, "}", rest);
    }
  }

  lemma Assoc(a: string, b: string, c: string)
    ensures a + b + c == a + (b + c)
  {
  }

  lemma Assoc4(a: string, b: string, c: string, d: string, e: string)
    ensures a + b + c + d + e == a + (b + (c + d + e))
  {
  }

  lemma MembersLast(fields: seq<Field>, s: string, r: string, rest: string)
    requires |fields| == 1 && r == "}" + rest
    requires ParseMember(s) == Some((fields[0], r))
    ensures ParseMembers(s) == Some((fields, rest))
  {
    assert r[1..] == rest;
    assert [fields[0]] == fields;
  }

  lemma MembersStep(fields: seq<Field>, s: string, r: string, tail: string, rest: string)
    requires |fields| > 1 && r == "," + tail
    requires ParseMember(s) == Some((fields[0], r))
    requires ParseMembers(tail) == Some((fields[1..], rest))
    ensures ParseMembers(s) == Some((fields, rest))
  {
    assert r[1..] == tail;
    assert [fields[0]] + fields[1..] == fields;
  }

  /** `JSON.parse(JSON.stringify(j))` gives `j` back. */
  lemma ParsePrint(j: Json)
    ensures Parse(Print(j)) == Some(j)
  {
    ParseValueComplete(j, []);
    assert Print(j) + [] == Print(j);
  }
}
