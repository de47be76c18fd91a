/** JSON text (RFC 8259) as Go's encoding/json writes and reads it: strings escaped as
    json.Marshal escapes them, and a parser for every JSON text json.Unmarshal accepts. */
module Json {

  datatype Value =
    | Null
    | Bool(b: bool)
    | Number
    | String(s: string)
    | Array(elements: Elements)
    | Object(members: Members)

  datatype Elements = NoElements | Element(head: Value, tail: Elements)

  datatype Members = NoMembers | Member(key: string, value: Value, rest: Members)

  datatype Parsed<+T> = Fail | Done(value: T, rest: string)

  // ---- writing -------------------------------------------------------------

  function Hex(n: nat): char
    requires n < 16
  {
    "0123456789abcdef"[n]
  }

  /** Section 7 of RFC 8259, with the HTML-safe escapes json.Marshal adds. */
  function EscapeChar(c: char): string {
    var n := c as int;
    if c == '\"' || c == '\\' then ['\\', c]
    else if n == 8 then "\\b"
    else if n == 9 then "\\t"
    else if n == 10 then "\\n"
    else if n == 12 then "\\f"
    else if n == 13 then "\\r"
    else if n < 0x20 || c == '<' || c == '>' || c == '&' then "\\u00" + [Hex(n / 16), Hex(n % 16)]
    else if n == 0x2028 then "\\u2028"
    else if n == 0x2029 then "\\u2029"
    else [c]
  }

  function Escape(s: string): string {
    if s == "" then "" else EscapeChar(s[0]) + Escape(s[1..])
  }

  function Quote(s: string): string {
    "\"" + Escape(s) + "\""
  }

  function Print(v: Value): string {
    match v
    case Null => "null"
    case Bool(b) => if b then "true" else "false"
    case Number => "0"
    case String(s) => Quote(s)
    case Array(es) => "[" + PrintElements(es) + "]"
    case Object(ms) => "{" + PrintMembers(ms) + "}"
  }

  function PrintElements(es: Elements): string {
    match es
    case NoElements => ""
    case Element(v, NoElements) => Print(v)
    case Element(v, tail) => Print(v) + "," + PrintElements(tail)
  }

  function PrintMembers(ms: Members): string {
    match ms
    case NoMembers => ""
    case Member(k, v, NoMembers) => Quote(k) + ":" + Print(v)
    case Member(k, v, rest) => Quote(k) + ":" + Print(v) + "," + PrintMembers(rest)
  }

  // ---- reading strings -----------------------------------------------------

  function HexValue(c: char): int {
    if '0' <= c <= '9' then c as int - '0' as int
    else if 'a' <= c <= 'f' then c as int - 'a' as int + 10
    else if 'A' <= c <= 'F' then c as int - 'A' as int + 10
    else -1
  }

  /** The code unit of "\uXXXX" at the front of s, or -1. */
  function CodeUnit(s: string): (n: int)
    ensures -1 <= n < 0x1_0000
    ensures n >= 0 ==> |s| >= 6
  {
    if |s| < 6 || s[0] != '\\' || s[1] != 'u' then -1
    else
      var a, b, c, d := HexValue(s[2]), HexValue(s[3]), HexValue(s[4]), HexValue(s[5]);
      if a < 0 || b < 0 || c < 0 || d < 0 then -1 else ((a * 16 + b) * 16 + c) * 16 + d
  }

  predicate HighSurrogate(n: int) { 0xD800 <= n < 0xDC00 }

  predicate LowSurrogate(n: int) { 0xDC00 <= n < 0xE000 }

  const REPLACEMENT := 0xFFFD as char

  /** One character of a string body; an unpaired surrogate reads as U+FFFD. */
  function ParseChar(s: string): (p: Parsed<char>)
    ensures p.Done? ==> |p.rest| < |s|
  {
    if s == "" || s[0] as int < 0x20 then Fail
    else if s[0] != '\\' then Done(s[0], s[1..])
    else if |s| < 2 then Fail
    else if s[1] == 'u' then
      var n := CodeUnit(s);
      if n < 0 then Fail
      else if HighSurrogate(n) then
        var m := CodeUnit(s[6..]);
        if LowSurrogate(m)
        then Done((0x1_0000 + (n - 0xD800) * 0x400 + (m - 0xDC00)) as char, s[12..])
        else Done(REPLACEMENT, s[6..])
      else if LowSurrogate(n) then Done(REPLACEMENT, s[6..])
      else Done(n as char, s[6..])
    else
      match s[1]
      case '\"' => Done('\"', s[2..])
      case '\\' => Done('\\', s[2..])
      case '/' => Done('/', s[2..])
      case 'b' => Done(8 as char, s[2..])
      case 'f' => Done(12 as char, s[2..])
      case 'n' => Done(10 as char, s[2..])
      case 'r' => Done(13 as char, s[2..])
      case 't' => Done(9 as char, s[2..])
      case _ => Fail
  }

  /** The body of a string, after its opening quote. */
  function ParseString(s: string): (p: Parsed<string>)
    ensures p.Done? ==> |p.rest| < |s|
    decreases |s|
  {
    if s == "" then Fail
    else if s[0] == '\"' then Done("", s[1..])
    else
      match ParseChar(s)
      case Fail => Fail
      case Done(c, r) =>
        match ParseString(r)
        case Fail => Fail
        case Done(tail, r') => Done([c] + tail, r')
  }

  // ---- reading values ------------------------------------------------------

  function SkipSpace(s: string): (r: string)
    ensures |r| <= |s|
    decreases |s|
  {
    if s != "" && (s[0] == ' ' || s[0] == '\t' || s[0] == '\n' || s[0] == '\r')
    then SkipSpace(s[1..]) else s
  }

  predicate StartsWithDigit(s: string) {
    s != "" && '0' <= s[0] <= '9'
  }

  function SkipDigits(s: string): (r: string)
    ensures |r| <= |s|
    ensures StartsWithDigit(s) ==> |r| < |s|
    decreases |s|
  {
    if StartsWithDigit(s) then SkipDigits(s[1..]) else s
  }

  /** Section 6 of RFC 8259: the fraction and the exponent are optional, leading zeros are not allowed. */
  function ParseNumber(s: string): (p: Parsed<Value>)
    ensures p.Done? ==> |p.rest| < |s|
  {
    var t := if s != "" && s[0] == '-' then s[1..] else s;
    if !StartsWithDigit(t) then Fail
    else
      var u := if t[0] == '0' then t[1..] else SkipDigits(t);
      if u != "" && u[0] == '.' && !StartsWithDigit(u[1..]) then Fail
      else
        var v := if u != "" && u[0] == '.' then SkipDigits(u[1..]) else u;
        if v != "" && (v[0] == 'e' || v[0] == 'E') then
          var w := if |v| >= 2 && (v[1] == '+' || v[1] == '-') then v[2..] else v[1..];
          if StartsWithDigit(w) then Done(Number, SkipDigits(w)) else Fail
        else Done(Number, v)
  }

  function ParseWord(s: string, word: string, v: Value): (p: Parsed<Value>)
    requires word != ""
    ensures p.Done? ==> |p.rest| < |s|
  {
    if word <= s then Done(v, s[|word|..]) else Fail
  }

  /** One value at the front of s, which has no leading space. */
  function ParseValue(s: string): (p: Parsed<Value>)
    ensures p.Done? ==> |p.rest| < |s|
    decreases |s|, 1
  {
    if s == "" then Fail
    else
      match s[0]
      case '{' =>
        var t := SkipSpace(s[1..]);
        if t != "" && t[0] == '}' then Done(Object(NoMembers), t[1..])
        else (match ParseMembers(t)
              case Fail => Fail
              case Done(ms, r) => Done(Object(ms), r))
      case '[' =>
        var t := SkipSpace(s[1..]);
        if t != "" && t[0] == ']' then Done(Array(NoElements), t[1..])
        else (match ParseElements(t)
              case Fail => Fail
              case Done(es, r) => Done(Array(es), r))
      case '\"' =>
        (match ParseString(s[1..])
         case Fail => Fail
         case Done(body, r) => Done(String(body), r))
      case 'n' => ParseWord(s, "null", Null)
      case 't' => ParseWord(s, "true", Bool(true))
      case 'f' => ParseWord(s, "false", Bool(false))
      case _ => ParseNumber(s)
  }

  /** At least one member, and the brace that closes the object. */
  function ParseMembers(s: string): (p: Parsed<Members>)
    ensures p.Done? ==> |p.rest| < |s|
    decreases |s|, 0
  {
    if s == "" || s[0] != '\"' then Fail
    else
      match ParseString(s[1..])
      case Fail => Fail
      case Done(k, r) =>
        var t := SkipSpace(r);
        if t == "" || t[0] != ':' then Fail
        else
          match ParseValue(SkipSpace(t[1..]))
          case Fail => Fail
          case Done(v, r') =>
            var u := SkipSpace(r');
            if u == "" then Fail
            else if u[0] == '}' then Done(Member(k, v, NoMembers), u[1..])
            else if u[0] != ',' then Fail
            else
              match ParseMembers(SkipSpace(u[1..]))
              case Fail => Fail
              case Done(ms, r'') => Done(Member(k, v, ms), r'')
  }

  /** At least one element, and the bracket that closes the array. */
  function ParseElements(s: string): (p: Parsed<Elements>)
    ensures p.Done? ==> |p.rest| < |s|
    decreases |s|, 2
  {
    match ParseValue(s)
    case Fail => Fail
    case Done(v, r) =>
      var t := SkipSpace(r);
      if t == "" then Fail
      else if t[0] == ']' then Done(Element(v, NoElements), t[1..])
      else if t[0] != ',' then Fail
      else
        match ParseElements(SkipSpace(t[1..]))
        case Fail => Fail
        case Done(es, r') => Done(Element(v, es), r')
  }

  /** A whole text: one value with nothing but space around it. */
  function Parse(text: string): Parsed<Value> {
    match ParseValue(SkipSpace(text))
    case Fail => Fail
    case Done(v, r) => if SkipSpace(r) == "" then Done(v, "") else Fail
  }

  // ---- reading what was written -------------------------------------------

  lemma HexReads(n: nat)
    requires n < 16
    ensures HexValue(Hex(n)) == n
  {
  }

  /** The six-character escape of a code unit below 0xD800 reads back as that character. */
  lemma CodeUnitReads(a: nat, b: nat, c: nat, d: nat, rest: string)
    requires a < 13 && b < 16 && c < 16 && d < 16
    ensures ParseChar("\\u" + [Hex(a), Hex(b), Hex(c), Hex(d)] + rest)
         == Done((((a * 16 + b) * 16 + c) * 16 + d) as char, rest)
  {
    hide HexValue, Hex;
    var s := "\\u" + [Hex(a), Hex(b), Hex(c), Hex(d)] + rest;
    HexReads(a);
    HexReads(b);
    HexReads(c);
    HexReads(d);
    assert CodeUnit(s) == ((a * 16 + b) * 16 + c) * 16 + d;
    assert s[6..] == rest;
  }

  lemma EscapedCharReads(c: char, rest: string)
    ensures EscapeChar(c)[0] != '\"'
    ensures ParseChar(EscapeChar(c) + rest) == Done(c, rest)
  {
    hide CodeUnit;
    var n, s := c as int, EscapeChar(c) + rest;
    if |EscapeChar(c)| == 6 {
      hide ParseChar;
      if n < 0x80 {
        CodeUnitReads(0, 0, n / 16, n % 16, rest);
        assert s == "\\u" + [Hex(0), Hex(0), Hex(n / 16), Hex(n % 16)] + rest;
      } else {
        CodeUnitReads(2, 0, 2, n % 16, rest);
        assert s == "\\u" + [Hex(2), Hex(0), Hex(2), Hex(n % 16)] + rest;
      }
    } else if |EscapeChar(c)| == 2 {
      assert s[0] == '\\' && s[1] == EscapeChar(c)[1];
      assert s[2..] == rest;
    } else {
      assert s == [c] + rest;
    }
  }

  lemma StringStep(s: string, c: char, r: string, tail: string, rest: string)
    requires s != "" && s[0] != '\"'
    requires ParseChar(s) == Done(c, r)
    requires ParseString(r) == Done(tail, rest)
    ensures ParseString(s) == Done([c] + tail, rest)
  {
    hide ParseChar;
  }

  lemma StringEnds(rest: string)
    ensures ParseString(Escape("") + ("\"" + rest)) == Done("", rest)
  {
    var s := Escape("") + ("\"" + rest);
    assert s[0] == '\"' && s[1..] == rest;
  }

  lemma {:induction false} EscapedStringReads(s: string, rest: string)
    ensures ParseString(Escape(s) + ("\"" + rest)) == Done(s, rest)
  {
    hide ParseString, ParseChar, EscapeChar;
    if s == "" {
      StringEnds(rest);
    } else {
      var e, more := EscapeChar(s[0]), Escape(s[1..]) + ("\"" + rest);
      EscapedCharReads(s[0], more);
      EscapedStringReads(s[1..], rest);
      assert e != "" by { EscapedNotEmpty(s[0]); }
      StringStep(e + more, s[0], more, s[1..], rest);
      assert Escape(s) + ("\"" + rest) == e + more;
      assert [s[0]] + s[1..] == s;
    }
  }

  lemma EscapedNotEmpty(c: char)
    ensures EscapeChar(c) != ""
  {
  }

  lemma QuotedStringReads(s: string, rest: string)
    ensures var q := Quote(s) + rest; q[0] == '\"' && ParseString(q[1..]) == Done(s, rest)
  {
    hide ParseString, ParseChar;
    var q := Quote(s) + rest;
    assert q[1..] == Escape(s) + ("\"" + rest);
    EscapedStringReads(s, rest);
  }

  /** A character a value can start with. */
  predicate Opens(c: char) {
    c != ' ' && c != '\t' && c != '\n' && c != '\r' && c != ']' && c != '}'
  }

  lemma ObjectStep(t: string, ms: Members, rest: string)
    requires t != "" && t[0] == '\"' && ParseMembers(t) == Done(ms, rest)
    ensures ParseValue("{" + t) == Done(Object(ms), rest)
  {
    hide ParseMembers;
    assert ("{" + t)[1..] == t;
  }

  lemma ArrayStep(t: string, es: Elements, rest: string)
    requires t != "" && Opens(t[0]) && ParseElements(t) == Done(es, rest)
    ensures ParseValue("[" + t) == Done(Array(es), rest)
  {
    hide ParseElements;
    assert ("[" + t)[1..] == t;
  }

  lemma StringValueReads(s: string, rest: string)
    ensures (Quote(s) + rest)[0] == '\"'
    ensures ParseValue(Quote(s) + rest) == Done(String(s), rest)
  {
    hide ParseString, ParseChar, Escape;
    QuotedStringReads(s, rest);
  }

  lemma WordReads(word: string, v: Value, rest: string)
    requires (word == "null" && v == Null) || (word == "true" && v == Bool(true))
             || (word == "false" && v == Bool(false))
    ensures ParseValue(word + rest) == Done(v, rest)
  {
    assert (word + rest)[|word|..] == rest;
  }

  lemma EmptyReads(rest: string)
    ensures ParseValue("{}" + rest) == Done(Object(NoMembers), rest)
    ensures ParseValue("[]" + rest) == Done(Array(NoElements), rest)
  {
    assert ("{}" + rest)[1..] == "}" + rest && ("}" + rest)[1..] == rest;
    assert ("[]" + rest)[1..] == "]" + rest && ("]" + rest)[1..] == rest;
  }

  /** Text that cannot go on a number. */
  predicate EndsNumber(rest: string) {
    rest == "" || rest[0] == ',' || rest[0] == ']' || rest[0] == '}'
  }

  lemma ZeroReads(rest: string)
    requires EndsNumber(rest)
    ensures ParseValue("0" + rest) == Done(Number, rest)
  {
    assert ("0" + rest)[1..] == rest;
  }

  lemma ObjectText(ms: Members, rest: string)
    ensures Print(Object(ms)) + rest == if ms == NoMembers then "{}" + rest else "{" + (PrintMembers(ms) + ("}" + rest))
  {
    assert ms == NoMembers ==> PrintMembers(ms) == "";
  }

  lemma ArrayText(es: Elements, rest: string)
    ensures Print(Array(es)) + rest ==
              if es == NoElements then "[]" + rest else "[" + (PrintElements(es) + ("]" + rest))
  {
    assert es == NoElements ==> PrintElements(es) == "";
  }

  /** The text of a value reads back as that value, whatever may follow it. */
  lemma {:induction false} PrintedValueReads(v: Value, rest: string)
    requires EndsNumber(rest)
    ensures Opens((Print(v) + rest)[0])
    ensures ParseValue(Print(v) + rest) == Done(v, rest)
    decreases v, 0
  {
    hide ParseValue, ParseMembers, ParseElements, PrintMembers, PrintElements, Escape;
    match v
    case Null => WordReads("null", v, rest);
    case Bool(b) => WordReads(if b then "true" else "false", v, rest);
    case Number => ZeroReads(rest);
    case String(b) => StringValueReads(b, rest);
    case Object(ms) =>
      ObjectText(ms, rest);
      EmptyReads(rest);
      if ms != NoMembers {
        PrintedMembersRead(ms, rest);
        ObjectStep(PrintMembers(ms) + ("}" + rest), ms, rest);
      }
    case Array(es) =>
      ArrayText(es, rest);
      EmptyReads(rest);
      if es != NoElements {
        PrintedElementsRead(es, rest);
        ArrayStep(PrintElements(es) + ("]" + rest), es, rest);
      }
  }

  /** The text after the value of a list's first member. */
  function Following(last: bool, more: string, close: string): string {
    if last then close else "," + more
  }

  lemma MembersStep(k: string, v: Value, ms: Members, after: string, more: string, rest: string)
    requires after == Following(ms == NoMembers, more, "}" + rest)
    requires Opens((Print(v) + after)[0]) && ParseValue(Print(v) + after) == Done(v, after)
    requires ms != NoMembers ==> more != "" && more[0] == '\"' && ParseMembers(more) == Done(ms, rest)
    ensures var s := Quote(k) + (":" + (Print(v) + after));
            s[0] == '\"' && ParseMembers(s) == Done(Member(k, v, ms), rest)
  {
    hide ParseValue, ParseString, Print, Escape, ParseChar;
    var t := ":" + (Print(v) + after);
    QuotedStringReads(k, t);
    assert t[1..] == Print(v) + after;
    assert after[1..] == if ms == NoMembers then rest else more;
  }

  lemma {:induction false} PrintedMembersRead(ms: Members, rest: string)
    requires ms != NoMembers
    ensures (PrintMembers(ms) + ("}" + rest))[0] == '\"'
    ensures ParseMembers(PrintMembers(ms) + ("}" + rest)) == Done(ms, rest)
    decreases ms, 1
  {
    hide ParseValue, ParseMembers, ParseElements, ParseString, Escape;
    var more := PrintMembers(ms.rest) + ("}" + rest);
    var after := Following(ms.rest == NoMembers, more, "}" + rest);
    PrintedValueReads(ms.value, after);
    if ms.rest != NoMembers {
      PrintedMembersRead(ms.rest, rest);
    }
    MembersStep(ms.key, ms.value, ms.rest, after, more, rest);
    assert PrintMembers(ms) + ("}" + rest) == Quote(ms.key) + (":" + (Print(ms.value) + after));
  }

  lemma ElementsStep(v: Value, es: Elements, after: string, more: string, rest: string)
    requires after == Following(es == NoElements, more, "]" + rest)
    requires Opens((Print(v) + after)[0]) && ParseValue(Print(v) + after) == Done(v, after)
    requires es != NoElements ==> more != "" && Opens(more[0]) && ParseElements(more) == Done(es, rest)
    ensures ParseElements(Print(v) + after) == Done(Element(v, es), rest)
  {
    hide ParseValue, Print;
    assert after[1..] == if es == NoElements then rest else more;
  }

  lemma {:induction false} PrintedElementsRead(es: Elements, rest: string)
    requires es != NoElements
    ensures Opens((PrintElements(es) + ("]" + rest))[0])
    ensures ParseElements(PrintElements(es) + ("]" + rest)) == Done(es, rest)
    decreases es, 1
  {
    hide ParseValue, ParseMembers, ParseElements, ParseString, Escape;
    var more := PrintElements(es.tail) + ("]" + rest);
    var after := Following(es.tail == NoElements, more, "]" + rest);
    PrintedValueReads(es.head, after);
    if es.tail != NoElements {
      PrintedElementsRead(es.tail, rest);
    }
    ElementsStep(es.head, es.tail, after, more, rest);
    assert PrintElements(es) + ("]" + rest) == Print(es.head) + after;
  }

  lemma PrintedTextParses(v: Value)
    ensures Parse(Print(v)) == Done(v, "")
  {
    PrintedValueReads(v, "");
    assert Print(v) + "" == Print(v);
  }
}
