/**
 * Quoting for the PowerShell 5 launch command, against the parsers that read it back: PowerShell's
 * single-quoted literals, the argv rules of the Microsoft C runtime, and JSON strings.
 */
module ArgumentQuoting {
  import opened Common

  // ----- PowerShell single-quoted literals

  /** PowerShell takes the typographic single quotes for the plain one. */
  predicate SingleQuote(c: char) {
    c == '\'' || '\U{2018}' <= c <= '\U{201B}'
  }

  predicate Typographic(c: char) {
    SingleQuote(c) && c != '\''
  }

  ghost predicate Plain(value: string) {
    forall i :: 0 <= i < |value| ==> !Typographic(value[i])
  }

  function DoubleQuotes(value: string): string {
    if value == "" then ""
    else (if value[0] == '\'' then "''" else [value[0]]) + DoubleQuotes(value[1..])
  }

  /** quotePowerShellArgument */
  function QuotePowerShellArgument(value: string): string {
    "'" + DoubleQuotes(value) + "'"
  }

  function Prepend(c: char, r: Option<(string, string)>): Option<(string, string)> {
    if r.None? then None else Some(([c] + r.value.0, r.value.1))
  }

  /** A literal after its opening quote: its value and what follows it. A doubled quote stands for the second one. */
  function ScanLiteral(s: string): Option<(string, string)>
    decreases |s|
  {
    if s == "" then None
    else if SingleQuote(s[0]) then
      if |s| >= 2 && SingleQuote(s[1]) then Prepend(s[1], ScanLiteral(s[2..])) else Some(("", s[1..]))
    else Prepend(s[0], ScanLiteral(s[1..]))
  }

  function ParseLiteral(s: string): Option<(string, string)> {
    if s != "" && SingleQuote(s[0]) then ScanLiteral(s[1..]) else None
  }

  lemma {:induction false} DoubledScans(value: string, tail: string)
    requires Plain(value)
    requires tail == "" || !SingleQuote(tail[0])
    ensures ScanLiteral(DoubleQuotes(value) + "'" + tail) == Some((value, tail))
  {
    var text := DoubleQuotes(value) + "'" + tail;
    if value == "" {
      assert text == "'" + tail && text[1..] == tail;
    } else {
      DoubledScans(value[1..], tail);
      var rest := DoubleQuotes(value[1..]) + "'" + tail;
      assert value == [value[0]] + value[1..];
      if value[0] == '\'' {
        assert text == "''" + rest && text[2..] == rest;
      } else {
        assert text == [value[0]] + rest && text[1..] == rest;
      }
    }
  }

  /** Half a character for a quote, a whole one for anything else: what scanning makes of a text. */
  ghost function Weight(s: string): nat {
    if s == "" then 0 else (if SingleQuote(s[0]) then 1 else 2) + Weight(s[1..])
  }

  lemma {:induction false} WeightOfBoth(a: string, b: string)
    ensures Weight(a + b) == Weight(a) + Weight(b)
  {
    if a == "" {
      assert a + b == b;
    } else {
      WeightOfBoth(a[1..], b);
      assert (a + b)[1..] == a[1..] + b;
    }
  }

  lemma {:induction false} ScannedWeight(s: string)
    requires ScanLiteral(s).Some?
    ensures Weight(s) == 2 * |ScanLiteral(s).value.0| + 1 + Weight(ScanLiteral(s).value.1)
    decreases |s|
  {
    if SingleQuote(s[0]) && |s| >= 2 && SingleQuote(s[1]) {
      ScannedWeight(s[2..]);
      assert s[1..][1..] == s[2..];
    } else if !SingleQuote(s[0]) {
      ScannedWeight(s[1..]);
    }
  }

  lemma {:induction false} DoubledWeight(value: string)
    ensures Weight(DoubleQuotes(value)) <= 2 * |value|
    ensures Weight(DoubleQuotes(value)) == 2 * |value| <==> Plain(value)
  {
    if value != "" {
      DoubledWeight(value[1..]);
      var head := if value[0] == '\'' then "''" else [value[0]];
      WeightOfBoth(head, DoubleQuotes(value[1..]));
      assert head[1..] == if value[0] == '\'' then "'" else "";
      assert Weight("'") == 1 by {
        assert "'"[1..] == "";
      }
      assert Plain(value) <==> !Typographic(value[0]) && Plain(value[1..]) by {
        assert forall i :: 0 < i < |value| ==> value[i] == value[1..][i - 1];
      }
    }
  }

  /**
   * PowerShell reads a quoted argument back, and goes on behind it, exactly when the argument holds no
   * typographic quote: those end the literal early or swallow a character.
   */
  lemma QuotedArgumentRoundTrip(value: string, tail: string)
    requires tail == "" || !SingleQuote(tail[0])
    ensures ParseLiteral(QuotePowerShellArgument(value) + tail) == Some((value, tail))
            <==> Plain(value)
  {
    var text := QuotePowerShellArgument(value) + tail;
    var body := DoubleQuotes(value) + "'" + tail;
    assert text[1..] == body;
    if Plain(value) {
      DoubledScans(value, tail);
    }
    if ScanLiteral(body) == Some((value, tail)) {
      ScannedWeight(body);
      DoubledWeight(value);
      WeightOfBoth(DoubleQuotes(value) + "'", tail);
      WeightOfBoth(DoubleQuotes(value), "'");
    }
  }

  // ----- The argv rules of the C runtime

  function Backslashes(n: nat): (s: string)
    ensures |s| == n && forall c :: c in s ==> c == '\\'
  {
    if n == 0 then "" else Backslashes(n - 1) + "\\"
  }

  function Cons(prefix: string, r: (string, string)): (string, string) {
    (prefix + r.0, r.1)
  }

  /**
   * One argument and the text behind it, `slashes` backslashes having been read. Before a quote, 2n of
   * them are n and the quote delimits; 2n+1 are n and a literal quote. Elsewhere they stand for themselves.
   */
  function ReadArgument(s: string, inQuotes: bool, slashes: nat): (string, string)
    decreases |s|
  {
    if s == "" then
      (Backslashes(slashes), "")
    else if s[0] == '\\' then
      ReadArgument(s[1..], inQuotes, slashes + 1)
    else if s[0] == '"' then
      if slashes % 2 == 1 then
        Cons(Backslashes(slashes / 2) + "\"", ReadArgument(s[1..], inQuotes, 0))
      else if inQuotes && |s| >= 2 && s[1] == '"' then
        Cons(Backslashes(slashes / 2) + "\"", ReadArgument(s[2..], inQuotes, 0))
      else
        Cons(Backslashes(slashes / 2), ReadArgument(s[1..], !inQuotes, 0))
    else if !inQuotes && (s[0] == ' ' || s[0] == '\t') then
      (Backslashes(slashes), s)
    else
      Cons(Backslashes(slashes) + [s[0]], ReadArgument(s[1..], inQuotes, 0))
  }

  /** Doubles the backslashes before every quote and escapes it; `slashes` backslashes are pending. */
  function EscapeQuotes(s: string, slashes: nat): string
    decreases |s|
  {
    if s == "" then Backslashes(slashes)
    else if s[0] == '\\' then EscapeQuotes(s[1..], slashes + 1)
    else if s[0] == '"' then Backslashes(2 * slashes + 1) + ("\"" + EscapeQuotes(s[1..], 0))
    else Backslashes(slashes) + ([s[0]] + EscapeQuotes(s[1..], 0))
  }

  function EscapedChar(c: char): string {
    if c == ' ' then "\\u0020" else [c]
  }

  function EscapeSpaces(s: string): string {
    if s == "" then "" else EscapedChar(s[0]) + EscapeSpaces(s[1..])
  }

  lemma Assoc(a: string, b: string, c: string)
    ensures a + b + c == a + (b + c)
  {
  }

  /** quotePowerShellNativeJsonArgument, for the serialized value. */
  function QuotePowerShellNativeJson(json: string): string {
    QuotePowerShellArgument(EscapeSpaces(EscapeQuotes(json, 0)))
  }

  lemma {:induction false} SpacesOfBoth(a: string, b: string)
    ensures EscapeSpaces(a + b) == EscapeSpaces(a) + EscapeSpaces(b)
  {
    if a == "" {
      assert a + b == b;
    } else {
      SpacesOfBoth(a[1..], b);
      assert (a + b)[1..] == a[1..] + b;
      Assoc(EscapedChar(a[0]), EscapeSpaces(a[1..]), EscapeSpaces(b));
    }
  }

  lemma {:induction false} NoSpaces(s: string)
    requires ' ' !in s
    ensures EscapeSpaces(s) == s
  {
    if s != "" {
      NoSpaces(s[1..]);
      assert s == [s[0]] + s[1..];
    }
  }

  lemma {:induction false} BackslashesAdd(m: nat, n: nat)
    ensures Backslashes(m) + Backslashes(n) == Backslashes(m + n)
  {
    if n == 0 {
      assert Backslashes(m) + "" == Backslashes(m);
    } else {
      BackslashesAdd(m, n - 1);
      assert Backslashes(m) + (Backslashes(n - 1) + "\\") == Backslashes(m) + Backslashes(n - 1) + "\\";
    }
  }

  lemma {:induction false} ReadBackslashes(n: nat, s: string, inQuotes: bool, slashes: nat)
    ensures ReadArgument(Backslashes(n) + s, inQuotes, slashes) == ReadArgument(s, inQuotes, slashes + n)
  {
    if n == 0 {
      assert Backslashes(0) + s == s;
    } else {
      assert Backslashes(n) + s == Backslashes(n - 1) + ("\\" + s);
      ReadBackslashes(n - 1, "\\" + s, inQuotes, slashes);
      assert ("\\" + s)[1..] == s;
    }
  }

  predicate EndsArgument(tail: string) {
    tail == "" || tail[0] == ' '
  }

  lemma SpacesAfterBackslashes(n: nat, s: string)
    ensures EscapeSpaces(Backslashes(n) + s) == Backslashes(n) + EscapeSpaces(s)
  {
    SpacesOfBoth(Backslashes(n), s);
    NoSpaces(Backslashes(n));
  }

  lemma SpacesAfterOne(c: char, s: string)
    ensures EscapeSpaces([c] + s) == EscapedChar(c) + EscapeSpaces(s)
  {
    assert ([c] + s)[1..] == s;
  }

  /** One character that is neither a quote nor a backslash nor a separator is read as it is. */
  lemma ReadPlain(c: char, s: string, slashes: nat)
    requires c !in {'"', '\\', ' ', '\t'}
    ensures ReadArgument([c] + s, false, slashes) == Cons(Backslashes(slashes) + [c], ReadArgument(s, false, 0))
  {
    assert ([c] + s)[1..] == s;
  }

  lemma ReadPlainBehind(c: char, s: string, slashes: nat)
    requires c !in {'"', '\\', ' ', '\t'}
    ensures ReadArgument(Backslashes(slashes) + ([c] + s), false, 0)
         == Cons(Backslashes(slashes) + [c], ReadArgument(s, false, 0))
  {
    ReadBackslashes(slashes, [c] + s, false, 0);
    ReadPlain(c, s, slashes);
  }

  lemma ReadQuoteBehind(s: string, slashes: nat)
    ensures ReadArgument(Backslashes(2 * slashes + 1) + ("\"" + s), false, 0)
         == Cons(Backslashes(slashes) + "\"", ReadArgument(s, false, 0))
  {
    ReadBackslashes(2 * slashes + 1, "\"" + s, false, 0);
    assert ("\"" + s)[1..] == s;
  }

  lemma ReadZeroes(s: string)
    ensures ReadArgument("0020" + s, false, 0) == Cons("0020", ReadArgument(s, false, 0))
  {
    hide ReadArgument;
    var r := ReadArgument(s, false, 0);
    assert Backslashes(0) == "" && "" + "0" == "0" && "" + "2" == "2";
    ReadPlain('0', s, 0);
    ReadPlain('2', "0" + s, 0);
    assert "2" + ("0" + s) == "20" + s && "2" + ("0" + r.0) == "20" + r.0;
    ReadPlain('0', "20" + s, 0);
    assert "0" + ("20" + s) == "020" + s && "0" + ("20" + r.0) == "020" + r.0;
    ReadPlain('0', "020" + s, 0);
    assert "0" + ("020" + s) == "0020" + s && "0" + ("020" + r.0) == "0020" + r.0;
  }

  /** The escape of a space is read as it is, whatever backslashes come before it. */
  lemma ReadSpaceBehind(s: string, slashes: nat)
    ensures ReadArgument(Backslashes(slashes) + ("\\u0020" + s), false, 0)
         == Cons(Backslashes(slashes) + "\\u0020", ReadArgument(s, false, 0))
  {
    hide ReadArgument;
    var r := ReadArgument(s, false, 0);
    assert Backslashes(slashes) + ("\\u0020" + s) == Backslashes(slashes + 1) + ("u" + ("0020" + s));
    ReadPlainBehind('u', "0020" + s, slashes + 1);
    ReadZeroes(s);
    assert Backslashes(slashes + 1) + "u" + ("0020" + r.0) == Backslashes(slashes) + "\\u0020" + r.0;
  }

  /** The C runtime undoes the escaping: the text is one argument, with its spaces as escapes. */
  lemma {:induction false} EscapedReadsBack(s: string, slashes: nat, tail: string)
    requires '\t' !in s && EndsArgument(tail)
    ensures ReadArgument(EscapeSpaces(EscapeQuotes(s, slashes)) + tail, false, 0)
         == (Backslashes(slashes) + EscapeSpaces(s), tail)
    decreases |s|
  {
    if s == "" {
      NoSpaces(Backslashes(slashes));
      ReadBackslashes(slashes, tail, false, 0);
      assert Backslashes(slashes) + EscapeSpaces("") == Backslashes(slashes);
    } else if s[0] == '\\' {
      EscapedReadsBack(s[1..], slashes + 1, tail);
      assert Backslashes(slashes + 1) + EscapeSpaces(s[1..]) == Backslashes(slashes) + ("\\" + EscapeSpaces(s[1..]));
    } else {
      EscapedReadsBack(s[1..], 0, tail);
      assert Backslashes(0) + EscapeSpaces(s[1..]) == EscapeSpaces(s[1..]);
      if s[0] == '"' {
        EscapedQuote(s, slashes, tail);
      } else {
        EscapedOther(s, slashes, tail);
      }
    }
  }

  /** What comes after the pending backslashes is escaped on its own. */
  lemma EscapedBehind(slashes: nat, c: char, escaped: string, tail: string)
    ensures EscapeSpaces(Backslashes(slashes) + ([c] + escaped)) + tail
         == Backslashes(slashes) + (EscapedChar(c) + (EscapeSpaces(escaped) + tail))
  {
    hide Backslashes;
    SpacesAfterBackslashes(slashes, [c] + escaped);
    SpacesAfterOne(c, escaped);
    hide EscapeSpaces;
    hide EscapedChar;
    Assoc(Backslashes(slashes), EscapedChar(c) + EscapeSpaces(escaped), tail);
    Assoc(EscapedChar(c), EscapeSpaces(escaped), tail);
  }

  lemma EscapedQuote(s: string, slashes: nat, tail: string)
    requires s != "" && s[0] == '"'
    requires ReadArgument(EscapeSpaces(EscapeQuotes(s[1..], 0)) + tail, false, 0) == (EscapeSpaces(s[1..]), tail)
    ensures ReadArgument(EscapeSpaces(EscapeQuotes(s, slashes)) + tail, false, 0)
         == (Backslashes(slashes) + EscapeSpaces(s), tail)
  {
    assert EscapeSpaces(s) == "\"" + EscapeSpaces(s[1..]);
    hide ReadArgument;
    hide Backslashes;
    hide EscapeSpaces;
    EscapedBehind(2 * slashes + 1, '"', EscapeQuotes(s[1..], 0), tail);
    ReadQuoteBehind(EscapeSpaces(EscapeQuotes(s[1..], 0)) + tail, slashes);
    Assoc(Backslashes(slashes), "\"", EscapeSpaces(s[1..]));
  }

  lemma EscapedOther(s: string, slashes: nat, tail: string)
    requires s != "" && s[0] != '"' && s[0] != '\\' && s[0] != '\t'
    requires ReadArgument(EscapeSpaces(EscapeQuotes(s[1..], 0)) + tail, false, 0) == (EscapeSpaces(s[1..]), tail)
    ensures ReadArgument(EscapeSpaces(EscapeQuotes(s, slashes)) + tail, false, 0)
         == (Backslashes(slashes) + EscapeSpaces(s), tail)
  {
    assert EscapeSpaces(s) == EscapedChar(s[0]) + EscapeSpaces(s[1..]);
    hide ReadArgument;
    hide Backslashes;
    hide EscapeSpaces;
    EscapedBehind(slashes, s[0], EscapeQuotes(s[1..], 0), tail);
    var rest := EscapeSpaces(EscapeQuotes(s[1..], 0)) + tail;
    if s[0] == ' ' {
      ReadSpaceBehind(rest, slashes);
    } else {
      ReadPlainBehind(s[0], rest, slashes);
    }
    Assoc(Backslashes(slashes), EscapedChar(s[0]), EscapeSpaces(s[1..]));
  }

  // ----- JSON

  /** The UTF-16 code units of a character. */
  function Units(c: char): seq<nat> {
    var n := c as int;
    if n < 0x1_0000 then [n] else [0xD800 + (n - 0x1_0000) / 0x400, 0xDC00 + (n - 0x1_0000) % 0x400]
  }

  function HexDigit(c: char): Option<nat> {
    if '0' <= c <= '9' then Some(c as int - '0' as int)
    else if 'a' <= c <= 'f' then Some(c as int - 'a' as int + 10)
    else if 'A' <= c <= 'F' then Some(c as int - 'A' as int + 10)
    else None
  }

  function HexUnit(s: string): Option<nat>
    requires |s| == 4
  {
    if HexDigit(s[0]).None? || HexDigit(s[1]).None? || HexDigit(s[2]).None? || HexDigit(s[3]).None? then None
    else Some(((HexDigit(s[0]).value * 16 + HexDigit(s[1]).value) * 16 + HexDigit(s[2]).value) * 16
              + HexDigit(s[3]).value)
  }

  function SimpleEscape(c: char): Option<nat> {
    match c
    case '"' => Some(34)
    case '\\' => Some(92)
    case '/' => Some(47)
    case 'b' => Some(8)
    case 'f' => Some(12)
    case 'n' => Some(10)
    case 'r' => Some(13)
    case 't' => Some(9)
    case _ => None
  }

  function Behind<T>(units: seq<T>, r: Option<(seq<T>, string)>): (q: Option<(seq<T>, string)>)
    ensures r.Some? && q.Some? ==> q.value.1 == r.value.1
  {
    if r.None? then None else Some((units + r.value.0, r.value.1))
  }

  /** A string body, after its opening quote: its code units and what follows the string (RFC 8259, section 7). */
  function ReadString(s: string): (r: Option<(seq<nat>, string)>)
    ensures r.Some? ==> |r.value.1| < |s|
    decreases |s|
  {
    if s == "" then None
    else if s[0] == '"' then Some(([], s[1..]))
    else if s[0] == '\\' then
      if |s| < 2 then None
      else if SimpleEscape(s[1]).Some? then Behind([SimpleEscape(s[1]).value], ReadString(s[2..]))
      else if s[1] == 'u' && |s| >= 6 && HexUnit(s[2..6]).Some? then
        Behind([HexUnit(s[2..6]).value], ReadString(s[6..]))
      else None
    else if s[0] < ' ' then None
    else Behind(Units(s[0]), ReadString(s[1..]))
  }

  datatype Token = Mark(c: char) | Text(units: seq<nat>)

  /** What compact JSON has outside its strings. */
  predicate Outside(c: char) {
    c in "{}[]:,+-." || '0' <= c <= '9' || 'a' <= c <= 'z' || 'A' <= c <= 'Z'
  }

  /** The tokens of a compact JSON text, which determine the value it denotes. */
  function Tokens(s: string): Option<seq<Token>>
    decreases |s|
  {
    if s == "" then Some([])
    else if s[0] == '"' then
      match ReadString(s[1..])
      case None => None
      case Some((units, rest)) =>
        var more := Tokens(rest);
        if more.None? then None else Some([Text(units)] + more.value)
    else if Outside(s[0]) then
      var more := Tokens(s[1..]);
      if more.None? then None else Some([Mark(s[0])] + more.value)
    else None
  }

  /** The escape of a space denotes a space. */
  lemma SpaceUnit(s: string)
    ensures ReadString("\\u0020" + s) == Behind([32], ReadString(s))
  {
    var t := "\\u0020" + s;
    assert t[2..6] == "0020" && t[6..] == s;
    assert HexUnit("0020") == Some(32);
    assert SimpleEscape('u').None?;
  }

  lemma SpaceEscapes(s: string)
    requires s != "" && s[0] == ' '
    ensures EscapeSpaces(s) == "\\u0020" + EscapeSpaces(s[1..])
  {
  }

  /** An escape sequence holds no raw space, so it stays as it is. */
  lemma EscapeSequenceStays(s: string, n: nat)
    requires n <= |s| && ' ' !in s[..n]
    ensures EscapeSpaces(s) == s[..n] + EscapeSpaces(s[n..])
  {
    hide *;
    assert s == s[..n] + s[n..];
    SpacesOfBoth(s[..n], s[n..]);
    NoSpaces(s[..n]);
  }

  /** Escaping the raw spaces changes no string: a raw space is never the character after an escaping backslash. */
  lemma {:induction false} SpacesKeepString(s: string)
    requires ReadString(s).Some?
    ensures ReadString(EscapeSpaces(s)) == Some((ReadString(s).value.0, EscapeSpaces(ReadString(s).value.1)))
    decreases |s|
  {
    hide EscapeSpaces;
    var t := EscapeSpaces(s);
    if s[0] == '"' {
      EscapeSequenceStays(s, 1);
      assert t[0] == '"' && t[1..] == EscapeSpaces(s[1..]);
    } else if s[0] == '\\' && SimpleEscape(s[1]).Some? {
      SpacesKeepString(s[2..]);
      EscapeSequenceStays(s, 2);
      assert t[0] == s[0] && t[1] == s[1] && t[2..] == EscapeSpaces(s[2..]);
    } else if s[0] == '\\' {
      SpacesKeepString(s[6..]);
      assert s[..6] == s[..2] + s[2..6];
      EscapeSequenceStays(s, 6);
      assert t[..6] == s[..6] && t[6..] == EscapeSpaces(s[6..]);
      assert t[2..6] == t[..6][2..6] == s[..6][2..6] == s[2..6];
      assert t[0] == t[..6][0] && t[1] == t[..6][1];
    } else if s[0] == ' ' {
      SpacesKeepString(s[1..]);
      SpaceEscapes(s);
      SpaceUnit(EscapeSpaces(s[1..]));
    } else {
      SpacesKeepString(s[1..]);
      EscapeSequenceStays(s, 1);
      assert t[0] == s[0] && t[1..] == EscapeSpaces(s[1..]);
    }
  }

  /** Writing every raw space of a compact JSON text as an escape keeps its tokens, hence its value. */
  lemma {:induction false} SpacesKeepMeaning(s: string)
    requires Tokens(s).Some?
    ensures Tokens(EscapeSpaces(s)) == Tokens(s)
    decreases |s|
  {
    var t := EscapeSpaces(s);
    if s != "" {
      EscapeSequenceStays(s, 1);
      assert t[0] == s[0] && t[1..] == EscapeSpaces(s[1..]);
      if s[0] == '"' {
        SpacesKeepString(s[1..]);
        SpacesKeepMeaning(ReadString(s[1..]).value.1);
      } else {
        SpacesKeepMeaning(s[1..]);
      }
    }
  }

  /** It needs a JSON text: behind a backslash that escapes nothing, the rewriting makes the text valid. */
  lemma SpaceAfterStrayBackslash()
    ensures ReadString("\\ \"") == None
    ensures ReadString(EscapeSpaces("\\ \"")) != None
  {
    EscapeSequenceStays("\\ \"", 1);
    assert "\\ \""[1..] == " \"";
    assert " \""[1..] == "\"";
    EscapeSequenceStays("\"", 1);
    assert EscapeSpaces("\\ \"") == "\\\\u0020\"";
    assert "\\\\u0020\""[2..] == "u0020\"";
    assert "u0020\""[1..] == "0020\"" && "0020\""[1..] == "020\"" && "020\""[1..] == "20\"";
    assert "20\""[1..] == "0\"" && "0\""[1..] == "\"";
    assert ReadString("\"").Some?;
    assert ReadString("0\"").Some?;
    assert ReadString("20\"").Some?;
    assert ReadString("020\"").Some?;
    assert ReadString("0020\"").Some?;
    assert ReadString("u0020\"").Some?;
  }

  // ----- From the serialized value to the program

  lemma {:induction false} StringHasNoTab(s: string)
    requires ReadString(s).Some? && '\t' !in ReadString(s).value.1
    ensures '\t' !in s
    decreases |s|
  {
    if s[0] == '\\' && SimpleEscape(s[1]).Some? {
      StringHasNoTab(s[2..]);
      assert s == s[..2] + s[2..];
    } else if s[0] == '\\' {
      StringHasNoTab(s[6..]);
      assert s == s[..2] + s[2..6] + s[6..];
      assert '\t' !in s[2..6];
    } else if s[0] != '"' {
      StringHasNoTab(s[1..]);
      assert s == [s[0]] + s[1..];
    } else {
      assert s == [s[0]] + s[1..];
    }
  }

  lemma {:induction false} JsonHasNoTab(s: string)
    requires Tokens(s).Some?
    ensures '\t' !in s
    decreases |s|
  {
    if s != "" {
      assert s == [s[0]] + s[1..];
      if s[0] == '"' {
        JsonHasNoTab(ReadString(s[1..]).value.1);
        StringHasNoTab(s[1..]);
      } else {
        JsonHasNoTab(s[1..]);
      }
    }
  }

  lemma {:induction false} SpacesKeepPlain(s: string)
    ensures Plain(EscapeSpaces(s)) <==> Plain(s)
    ensures ' ' !in EscapeSpaces(s)
  {
    if s != "" {
      SpacesKeepPlain(s[1..]);
      PlainOfBoth(EscapedChar(s[0]), EscapeSpaces(s[1..]));
      PlainOfBoth([s[0]], s[1..]);
      assert s == [s[0]] + s[1..];
      assert Plain("\\u0020");
    }
  }

  lemma PlainOfBoth(a: string, b: string)
    ensures Plain(a + b) <==> Plain(a) && Plain(b)
  {
    assert forall i :: 0 <= i < |a| ==> (a + b)[i] == a[i];
    assert forall i :: 0 <= i < |b| ==> (a + b)[|a| + i] == b[i];
  }

  lemma PlainBackslashes(n: nat)
    ensures Plain(Backslashes(n))
  {
    var s := Backslashes(n);
    assert forall i :: 0 <= i < |s| ==> s[i] in s;
  }

  lemma {:induction false} EscapeKeepsPlain(s: string, slashes: nat)
    ensures Plain(EscapeQuotes(s, slashes)) <==> Plain(s)
    decreases |s|
  {
    PlainBackslashes(slashes);
    PlainBackslashes(2 * slashes + 1);
    if s != "" {
      var next := if s[0] == '\\' then slashes + 1 else 0;
      EscapeKeepsPlain(s[1..], next);
      PlainOfBoth([s[0]], s[1..]);
      assert s == [s[0]] + s[1..];
      PlainOfBoth([s[0]], EscapeQuotes(s[1..], next));
      PlainOfBoth(Backslashes(if s[0] == '"' then 2 * slashes + 1 else slashes), [s[0]] + EscapeQuotes(s[1..], next));
    }
  }

  /**
   * Every compact JSON text reaches the program. PowerShell reads the quoted text back exactly when it
   * holds no typographic quote; the text it then hands on has no separator, the C runtime reads it as one
   * argument, and that argument is the JSON text with its spaces as escapes, so it means the same.
   */
  lemma NativeJsonArrives(json: string, tail: string, more: string)
    requires Tokens(json).Some?
    requires tail == "" || !SingleQuote(tail[0])
    requires EndsArgument(more)
    ensures var handed := EscapeSpaces(EscapeQuotes(json, 0));
            && (ParseLiteral(QuotePowerShellNativeJson(json) + tail) == Some((handed, tail)) <==> Plain(json))
            && ' ' !in handed
            && ReadArgument(handed + more, false, 0) == (EscapeSpaces(json), more)
    ensures Tokens(EscapeSpaces(json)) == Tokens(json)
  {
    var handed := EscapeSpaces(EscapeQuotes(json, 0));
    EscapeKeepsPlain(json, 0);
    SpacesKeepPlain(EscapeQuotes(json, 0));
    QuotedArgumentRoundTrip(handed, tail);
    JsonHasNoTab(json);
    EscapedReadsBack(json, 0, more);
    assert Backslashes(0) + EscapeSpaces(json) == EscapeSpaces(json);
    SpacesKeepMeaning(json);
  }
}
