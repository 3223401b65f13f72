/**
 The JSON of on-ramp intents: a minified object of ASCII strings and naturals.

 The parser reads what the printer emits, and other spellings of an escape: no whitespace between
 tokens, no signs or fractions.  Text outside this language that a general JSON reader accepts is
 printed differently, so the codec refuses it either way.
 */
module IntentJson {
  import opened Options

  datatype Value = Text(text: string) | Number(number: nat)

  type Member = (string, Value)

  // ----- characters -----

  /** A character printed as itself inside a string. */
  predicate IsPlain(c: char) {
    ' ' <= c <= '~' && c != '"' && c != '\\'
  }

  predicate AllPlain(s: string) {
    forall i :: 0 <= i < |s| ==> IsPlain(s[i])
  }

  predicate IsAscii(c: char) {
    c as int < 128
  }

  predicate AllAscii(s: string) {
    forall i :: 0 <= i < |s| ==> IsAscii(s[i])
  }

  predicate IsHexDigit(c: char) {
    '0' <= c <= '9' || 'a' <= c <= 'f'
  }

  function HexValue(c: char): (n: nat)
    requires IsHexDigit(c)
    ensures n < 16
  {
    if c <= '9' then c as int - '0' as int else c as int - 'a' as int + 10
  }

  function HexChar(n: nat): (c: char)
    requires n < 16
    ensures IsHexDigit(c) && HexValue(c) == n
  {
    if n < 10 then ('0' as int + n) as char else ('a' as int + n - 10) as char
  }

  /** What the letter of a two-character escape stands for. */
  function Unescaped(letter: char): Option<char> {
    match letter
    case '"' => Some('"')
    case '\\' => Some('\\')
    case 'b' => Some(8 as char)
    case 't' => Some('\t')
    case 'n' => Some('\n')
    case 'f' => Some(12 as char)
    case 'r' => Some('\r')
    case _ => None
  }

  predicate IsDigit(c: char) {
    '0' <= c <= '9'
  }

  // ----- printing -----

  function PrintNumber(n: nat): (s: string)
    ensures s != "" && forall i :: 0 <= i < |s| ==> IsDigit(s[i])
  {
    (if n < 10 then "" else PrintNumber(n / 10)) + [('0' as int + n % 10) as char]
  }

  /** A plain character stands for itself; others have an escape of two characters or of six. */
  function PrintChar(c: char): (s: string)
    requires IsAscii(c)
    ensures s != "" && AllAscii(s)
    ensures IsPlain(c) ==> s == [c]
  {
    if IsPlain(c) then [c]
    else if c == '"' then "\\\""
    else if c == '\\' then "\\\\"
    else if c == 8 as char then "\\b"
    else if c == '\t' then "\\t"
    else if c == '\n' then "\\n"
    else if c == 12 as char then "\\f"
    else if c == '\r' then "\\r"
    else "\\u00" + [HexChar(c as int / 16), HexChar(c as int % 16)]
  }

  function PrintChars(s: string): (r: string)
    requires AllAscii(s)
    ensures |r| >= |s| && AllAscii(r)
    ensures AllPlain(s) ==> r == s
  {
    if s == "" then "" else PrintChar(s[0]) + PrintChars(s[1..])
  }

  function PrintText(s: string): string
    requires AllAscii(s)
  {
    "\"" + PrintChars(s) + "\""
  }

  predicate IsAsciiValue(v: Value) {
    v.Text? ==> AllAscii(v.text)
  }

  function PrintValue(v: Value): string
    requires IsAsciiValue(v)
  {
    match v
    case Text(s) => PrintText(s)
    case Number(n) => PrintNumber(n)
  }

  predicate IsAsciiMember(m: Member) {
    AllAscii(m.0) && IsAsciiValue(m.1)
  }

  predicate AllAsciiMembers(members: seq<Member>) {
    forall i :: 0 <= i < |members| ==> IsAsciiMember(members[i])
  }

  function PrintMember(m: Member): string
    requires IsAsciiMember(m)
  {
    PrintText(m.0) + ":" + PrintValue(m.1)
  }

  /** The members after the first, each behind its comma, and the closing brace. */
  function PrintRest(members: seq<Member>): string
    requires AllAsciiMembers(members)
  {
    if members == [] then "}" else "," + (PrintMember(members[0]) + PrintRest(members[1..]))
  }

  function Print(members: seq<Member>): string
    requires AllAsciiMembers(members)
  {
    if members == [] then "{}" else "{" + (PrintMember(members[0]) + PrintRest(members[1..]))
  }

  // ----- parsing: each reader returns what it read and the text left -----

  /** One character of a string, plain or escaped. */
  function ReadChar(s: string): (r: Option<(char, string)>)
    ensures r.Some? ==> |r.value.1| < |s|
  {
    if s != "" && IsPlain(s[0]) then Some((s[0], s[1..]))
    else if |s| < 2 || s[0] != '\\' then None
    else if Unescaped(s[1]).Some? then Some((Unescaped(s[1]).value, s[2..]))
    else if |s| < 6 || s[1..4] != "u00" || !IsHexDigit(s[4]) || !IsHexDigit(s[5]) then None
    else Some(((HexValue(s[4]) * 16 + HexValue(s[5])) as char, s[6..]))
  }

  /** Up to the closing quote. */
  function ReadChars(s: string): (r: Option<(string, string)>)
    ensures r.Some? ==> |r.value.1| < |s|
  {
    if s != "" && s[0] == '"' then Some(("", s[1..]))
    else
      match ReadChar(s)
      case None => None
      case Some(first) =>
        match ReadChars(first.1)
        case None => None
        case Some(read) => Some(([first.0] + read.0, read.1))
  }

  function ReadText(s: string): (r: Option<(string, string)>)
    ensures r.Some? ==> |r.value.1| < |s|
  {
    if s == "" || s[0] != '"' then None else ReadChars(s[1..])
  }

  /** The leading digits continue the number read so far. */
  function ReadDigits(soFar: nat, s: string): (r: (nat, string))
    ensures |r.1| <= |s|
    decreases |s|
  {
    if s == "" || !IsDigit(s[0]) then (soFar, s)
    else ReadDigits(soFar * 10 + (s[0] as int - '0' as int), s[1..])
  }

  /** A number starts with a digit, and with zero only when it is zero. */
  function ReadNumber(s: string): (r: Option<(nat, string)>)
    ensures r.Some? ==> |r.value.1| < |s|
  {
    if s == "" || !IsDigit(s[0]) then None
    else if s[0] == '0' && |s| > 1 && IsDigit(s[1]) then None
    else Some(ReadDigits(s[0] as int - '0' as int, s[1..]))
  }

  function ReadValue(s: string): (r: Option<(Value, string)>)
    ensures r.Some? ==> |r.value.1| < |s|
  {
    if s != "" && s[0] == '"' then
      match ReadText(s)
      case None => None
      case Some(read) => Some((Text(read.0), read.1))
    else
      match ReadNumber(s)
      case None => None
      case Some(read) => Some((Number(read.0), read.1))
  }

  function ReadMember(s: string): (r: Option<(Member, string)>)
    ensures r.Some? ==> |r.value.1| < |s|
  {
    match ReadText(s)
    case None => None
    case Some(key) =>
      if key.1 == "" || key.1[0] != ':' then None
      else
        match ReadValue(key.1[1..])
        case None => None
        case Some(value) => Some(((key.0, value.0), value.1))
  }

  /** The members after the first, to the end of the text. */
  function ReadRest(s: string): Option<seq<Member>>
    decreases |s|
  {
    if s == "}" then Some([])
    else if s == "" || s[0] != ',' then None
    else
      match ReadMember(s[1..])
      case None => None
      case Some(first) =>
        match ReadRest(first.1)
        case None => None
        case Some(rest) => Some([first.0] + rest)
  }

  function Parse(s: string): Option<seq<Member>> {
    if s == "{}" then Some([])
    else if s == "" || s[0] != '{' then None
    else
      match ReadMember(s[1..])
      case None => None
      case Some(first) =>
        match ReadRest(first.1)
        case None => None
        case Some(rest) => Some([first.0] + rest)
  }

  // ----- parsing undoes printing -----

  lemma ReadPrintedChar(c: char, rest: string)
    requires IsAscii(c)
    ensures PrintChar(c)[0] != '"' && ReadChar(PrintChar(c) + rest) == Some((c, rest))
  {
    var s := PrintChar(c) + rest;
    assert s[|PrintChar(c)|..] == rest;
    if |PrintChar(c)| == 6 {
      assert s[1..4] == "u00";
      assert c as int == c as int / 16 * 16 + c as int % 16;
    }
  }

  lemma {:induction false} ReadPrintedChars(text: string, rest: string)
    requires AllAscii(text)
    ensures ReadChars(PrintChars(text) + "\"" + rest) == Some((text, rest))
  {
    var s := PrintChars(text) + "\"" + rest;
    if text == "" {
      assert s == "\"" + rest;
      assert s[1..] == rest;
    } else {
      var tail := PrintChars(text[1..]) + "\"" + rest;
      assert s == PrintChar(text[0]) + tail;
      ReadPrintedChar(text[0], tail);
      ReadPrintedChars(text[1..], rest);
      assert [text[0]] + text[1..] == text;
    }
  }

  lemma QuoteFirst(chars: string, rest: string)
    ensures var s := "\"" + chars + "\"" + rest; s[0] == '"' && s[1..] == chars + "\"" + rest
  {
  }

  lemma ReadPrintedText(text: string, rest: string)
    requires AllAscii(text)
    ensures ReadText(PrintText(text) + rest) == Some((text, rest))
  {
    ReadPrintedChars(text, rest);
    QuoteFirst(PrintChars(text), rest);
  }

  predicate StartsWithDigit(s: string) {
    s != "" && IsDigit(s[0])
  }

  lemma {:induction false} ReadPrintedDigits(n: nat, rest: string)
    ensures ReadDigits(0, PrintNumber(n) + rest) == ReadDigits(n, rest)
  {
    var last := [('0' as int + n % 10) as char];
    assert (last + rest)[1..] == rest;
    if n < 10 {
      assert PrintNumber(n) + rest == last + rest;
    } else {
      ReadPrintedDigits(n / 10, last + rest);
      assert PrintNumber(n) + rest == PrintNumber(n / 10) + (last + rest);
    }
  }

  lemma {:induction false} NoLeadingZero(n: nat)
    ensures PrintNumber(n)[0] == '0' ==> PrintNumber(n) == "0"
    ensures n > 0 ==> PrintNumber(n)[0] != '0'
  {
    if n >= 10 {
      NoLeadingZero(n / 10);
    }
  }

  lemma ReadPrintedNumber(n: nat, rest: string)
    requires !StartsWithDigit(rest)
    ensures ReadNumber(PrintNumber(n) + rest) == Some((n, rest))
  {
    NoLeadingZero(n);
    ReadPrintedDigits(n, rest);
    var s := PrintNumber(n) + rest;
    assert s[0] == PrintNumber(n)[0];
    assert |PrintNumber(n)| == 1 && |s| > 1 ==> s[1] == rest[0];
    assert ReadDigits(0, s) == ReadDigits(s[0] as int - '0' as int, s[1..]);
  }

  lemma ReadPrintedValue(v: Value, rest: string)
    requires IsAsciiValue(v) && !StartsWithDigit(rest)
    ensures ReadValue(PrintValue(v) + rest) == Some((v, rest))
  {
    match v
    case Text(s) => ReadPrintedText(s, rest);
    case Number(n) => ReadPrintedNumber(n, rest);
  }

  lemma ReadPrintedMember(m: Member, rest: string)
    requires IsAsciiMember(m) && !StartsWithDigit(rest)
    ensures ReadMember(PrintMember(m) + rest) == Some((m, rest))
  {
    var tail := ":" + (PrintValue(m.1) + rest);
    ReadPrintedText(m.0, tail);
    assert PrintMember(m) + rest == PrintText(m.0) + tail;
    assert tail[1..] == PrintValue(m.1) + rest;
    ReadPrintedValue(m.1, rest);
  }

  lemma RestIsNoNumber(members: seq<Member>)
    requires AllAsciiMembers(members)
    ensures !StartsWithDigit(PrintRest(members))
  {
  }

  lemma {:induction false} ReadPrintedRest(members: seq<Member>)
    requires AllAsciiMembers(members)
    ensures ReadRest(PrintRest(members)) == Some(members)
  {
    if members != [] {
      var first, rest := members[0], members[1..];
      ReadPrintedRest(rest);
      RestIsNoNumber(rest);
      ReadPrintedMember(first, PrintRest(rest));
      var body := PrintMember(first) + PrintRest(rest);
      ReadRestStep(body, first, PrintRest(rest), rest);
      assert PrintRest(members) == "," + body;
      assert members == [first] + rest;
    }
  }

  lemma ReadRestStep(body: string, first: Member, tail: string, rest: seq<Member>)
    requires ReadMember(body) == Some((first, tail)) && ReadRest(tail) == Some(rest)
    ensures ReadRest("," + body) == Some([first] + rest)
  {
    assert ("," + body)[1..] == body;
  }

  lemma ParseStep(body: string, first: Member, tail: string, rest: seq<Member>)
    requires ReadMember(body) == Some((first, tail)) && ReadRest(tail) == Some(rest)
    ensures Parse("{" + body) == Some([first] + rest)
  {
    assert ("{" + body)[1..] == body;
  }

  /** Parsing a printed object of ASCII strings gives its members back. */
  lemma ParsePrint(members: seq<Member>)
    requires AllAsciiMembers(members)
    ensures Parse(Print(members)) == Some(members)
  {
    if members != [] {
      var first, rest := members[0], members[1..];
      ReadPrintedRest(rest);
      RestIsNoNumber(rest);
      ReadPrintedMember(first, PrintRest(rest));
      var body := PrintMember(first) + PrintRest(rest);
      ParseStep(body, first, PrintRest(rest), rest);
      assert Print(members) == "{" + body;
      assert members == [first] + rest;
    }
  }

  /** A text without anything to escape is printed between quotes; else tabs, line ends, quotes and
      backslashes have an escape of two characters and other control characters one of six. */
  lemma PrintedText(s: string)
    ensures AllPlain(s) ==> AllAscii(s) && PrintText(s) == "\"" + s + "\""
    ensures PrintChar('\t') == "\\t" && PrintChar('\n') == "\\n" && PrintChar('\r') == "\\r"
    ensures PrintChar('"') == "\\\"" && PrintChar('\\') == "\\\\"
    ensures PrintChar(8 as char) == "\\b" && PrintChar(12 as char) == "\\f"
    ensures PrintChar(11 as char) == "\\u000b" && PrintChar(31 as char) == "\\u001f"
  {
  }

  function Decimal(digits: string): int
    requires forall i :: 0 <= i < |digits| ==> IsDigit(digits[i])
  {
    if digits == "" then 0
    else Decimal(digits[..|digits| - 1]) * 10 + (digits[|digits| - 1] as int - '0' as int)
  }

  /** Numbers are printed in decimal without leading zeros. */
  lemma {:induction false} PrintedNumber(n: nat)
    ensures Decimal(PrintNumber(n)) == n && (n > 0 ==> PrintNumber(n)[0] != '0')
  {
    if n >= 10 {
      PrintedNumber(n / 10);
      assert PrintNumber(n)[..|PrintNumber(n)| - 1] == PrintNumber(n / 10);
    }
  }

  /** A member is its quoted key, a colon and its value; an object is its members between braces, with
      commas. */
  lemma PrintedMembers(key: string, text: string, m: Member)
    requires AllPlain(key) && AllPlain(text) && IsAsciiMember(m)
    ensures PrintMember((key, Text(text))) == "\"" + key + "\"" + ":" + ("\"" + text + "\"")
    ensures AllAsciiMembers([m]) && Print([m]) == "{" + (PrintMember(m) + "}")
    ensures PrintRest([m]) == "," + (PrintMember(m) + "}")
  {
    PrintedText(key);
    PrintedText(text);
    assert [m][1..] == [];
  }

  // ----- objects as maps -----

  /** A repeated key keeps its last value. */
  function ToMap(members: seq<Member>): map<string, Value> {
    if members == [] then map[]
    else ToMap(members[..|members| - 1])[members[|members| - 1].0 := members[|members| - 1].1]
  }
}
