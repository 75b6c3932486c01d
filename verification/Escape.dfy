/** The two escapers of the console: both can be undone. */
module Escape {
  import opened Text
  import opened Replacing

  /** What one character of the shell's output becomes. */
  function Entity(c: char): string {
    match c
    case '&' => "&amp;"
    case '>' => "&gt;"
    case '<' => "&lt;"
    case '"' => "&quot;"
    case '\'' => "&apos;"
    case '\n' => "&NewLine;"
    case '\r' => ""
    case _ => [c]
  }

  function Escaped(s: string): string {
    if s == [] then [] else Entity(s[0]) + Escaped(s[1..])
  }

  /** Seven replacements of the whole string, one after the other; the ampersands go first. */
  function SevenTimes(s: string): string {
    var s1 := Expand(s, '&', "&amp;");
    var s2 := Expand(s1, '>', "&gt;");
    var s3 := Expand(s2, '<', "&lt;");
    var s4 := Expand(s3, '"', "&quot;");
    var s5 := Expand(s4, '\'', "&apos;");
    var s6 := Expand(s5, '\n', "&NewLine;");
    Expand(s6, '\r', "")
  }

  lemma SevenConcat(a: string, b: string)
    ensures SevenTimes(a + b) == SevenTimes(a) + SevenTimes(b)
  {
    hide Expand;
    var a1, b1 := Expand(a, '&', "&amp;"), Expand(b, '&', "&amp;");
    var a2, b2 := Expand(a1, '>', "&gt;"), Expand(b1, '>', "&gt;");
    var a3, b3 := Expand(a2, '<', "&lt;"), Expand(b2, '<', "&lt;");
    var a4, b4 := Expand(a3, '"', "&quot;"), Expand(b3, '"', "&quot;");
    var a5, b5 := Expand(a4, '\'', "&apos;"), Expand(b4, '\'', "&apos;");
    var a6, b6 := Expand(a5, '\n', "&NewLine;"), Expand(b5, '\n', "&NewLine;");
    ExpandConcat(a, b, '&', "&amp;");
    ExpandConcat(a1, b1, '>', "&gt;");
    ExpandConcat(a2, b2, '<', "&lt;");
    ExpandConcat(a3, b3, '"', "&quot;");
    ExpandConcat(a4, b4, '\'', "&apos;");
    ExpandConcat(a5, b5, '\n', "&NewLine;");
    ExpandConcat(a6, b6, '\r', "");
  }

  lemma OneExpanded(c: char, d: char, t: string)
    ensures Expand([c], d, t) == if c == d then t else [c]
  {
    assert [c][1..] == [];
  }

  /** A string in which a character does not occur is left alone by its replacement. */
  lemma SevenOne(c: char)
    ensures SevenTimes([c]) == Entity(c)
  {
    hide Expand;
    OneExpanded(c, '&', "&amp;");
    OneExpanded(c, '>', "&gt;");
    OneExpanded(c, '<', "&lt;");
    OneExpanded(c, '"', "&quot;");
    OneExpanded(c, '\'', "&apos;");
    OneExpanded(c, '\n', "&NewLine;");
    OneExpanded(c, '\r', "");
    var e := Entity(c);
    if c == '&' { ExpandWithout(e, '>', "&gt;"); }
    if c == '&' || c == '>' { ExpandWithout(e, '<', "&lt;"); }
    if c in "&><" { ExpandWithout(e, '"', "&quot;"); }
    if c in "&><\"" { ExpandWithout(e, '\'', "&apos;"); }
    if c in "&><\"'" { ExpandWithout(e, '\n', "&NewLine;"); }
    if c in "&><\"'\n" { ExpandWithout(e, '\r', ""); }
  }

  /** The seven replacements are one map over the characters. */
  lemma {:induction false} SevenIsOne(s: string)
    ensures SevenTimes(s) == Escaped(s)
  {
    hide SevenTimes;
    if s == [] {
      assert SevenTimes([]) == [] by { SevenNone(); }
    } else {
      assert s == [s[0]] + s[1..];
      SevenConcat([s[0]], s[1..]);
      SevenOne(s[0]);
      SevenIsOne(s[1..]);
    }
  }

  lemma SevenNone()
    ensures SevenTimes([]) == []
  {
    assert Expand([], '&', "&amp;") == [];
  }

  /** The characters that mean something to a browser become their entities, carriage returns
      disappear, and every other character stands for itself. */
  lemma EscapedMeans(c: char, rest: string)
    ensures Escaped("") == ""
    ensures Escaped([c] + rest) ==
              (if c == '&' then "&amp;" else if c == '<' then "&lt;" else if c == '>' then "&gt;"
               else if c == '"' then "&quot;" else if c == '\'' then "&apos;" else if c == '\n' then "&NewLine;"
               else if c == '\r' then "" else [c]) + Escaped(rest)
  {
    assert ([c] + rest)[1..] == rest;
  }

  /** Nothing in the escaped text can open or close a tag or end a string or a line. */
  lemma {:induction false} EscapedHarmless(s: string)
    ensures forall c :: c in Escaped(s) ==> c != '<' && c != '>' && c != '"' && c != '\'' && c != '\n' && c != '\r'
  {
    if s != [] {
      EscapedHarmless(s[1..]);
      assert forall c :: c in Entity(s[0]) ==> c != '<' && c != '>' && c != '"' && c != '\'' && c != '\n' && c != '\r';
    }
  }

  method CgiHtmlEscape(context0: string) returns (context: string)
    ensures context == Escaped(context0)
    ensures forall c :: c in context ==> c != '<' && c != '>' && c != '"' && c != '\'' && c != '\n' && c != '\r'
  {
    hide Expand;
    context := ReplaceEach(context0, '&', "&amp;");
    context := ReplaceEach(context, '>', "&gt;");
    context := ReplaceEach(context, '<', "&lt;");
    context := ReplaceEach(context, '"', "&quot;");
    context := ReplaceEach(context, '\'', "&apos;");
    context := ReplaceEach(context, '\n', "&NewLine;");
    context := ReplaceEach(context, '\r', "");
    SevenIsOne(context0);
    EscapedHarmless(context0);
  }

  /** Reading entities back, as a browser does. */
  function Unescaped(s: string): string
    decreases |s|
  {
    if s == [] then []
    else if "&amp;" <= s then "&" + Unescaped(s[5..])
    else if "&gt;" <= s then ">" + Unescaped(s[4..])
    else if "&lt;" <= s then "<" + Unescaped(s[4..])
    else if "&quot;" <= s then "\"" + Unescaped(s[6..])
    else if "&apos;" <= s then "'" + Unescaped(s[6..])
    else if "&NewLine;" <= s then "\n" + Unescaped(s[9..])
    else [s[0]] + Unescaped(s[1..])
  }

  function WithoutReturns(s: string): string {
    if s == [] then [] else (if s[0] == '\r' then [] else [s[0]]) + WithoutReturns(s[1..])
  }

  /** What tells the entities apart. */
  lemma Apart(s: string)
    ensures "&amp;" <= s ==> s[1] == 'a' && s[2] == 'm'
    ensures "&gt;" <= s ==> s[1] == 'g'
    ensures "&lt;" <= s ==> s[1] == 'l'
    ensures "&quot;" <= s ==> s[1] == 'q'
    ensures "&apos;" <= s ==> s[1] == 'a' && s[2] == 'p'
    ensures "&NewLine;" <= s ==> s[1] == 'N'
  {
  }

  lemma Behind(e: string, rest: string)
    requires |e| >= 3
    ensures e <= e + rest && (e + rest)[1] == e[1] && (e + rest)[2] == e[2] && (e + rest)[|e|..] == rest
  {
  }

  lemma PlainRead(c: char, rest: string)
    requires c != '&'
    ensures Unescaped([c] + rest) == [c] + Unescaped(rest)
  {
    var s := [c] + rest;
    assert s[0] == c && s[1..] == rest;
  }

  lemma EntityRead(c: char, rest: string)
    requires c != '\r'
    ensures Unescaped(Entity(c) + rest) == [c] + Unescaped(rest)
  {
    hide Unescaped;
    if c in "&><" {
      FirstEntity(c, rest);
    } else if c in "\"'\n" {
      SecondEntity(c, rest);
    } else {
      PlainRead(c, rest);
    }
  }

  lemma FirstEntity(c: char, rest: string)
    requires c in "&><"
    ensures Unescaped(Entity(c) + rest) == [c] + Unescaped(rest)
  {
    Apart(Entity(c) + rest);
    Behind(Entity(c), rest);
  }

  lemma SecondEntity(c: char, rest: string)
    requires c in "\"'\n"
    ensures Unescaped(Entity(c) + rest) == [c] + Unescaped(rest)
  {
    Apart(Entity(c) + rest);
    Behind(Entity(c), rest);
  }

  /** Decoding the escaped text gives back the text without its carriage returns. */
  lemma {:induction false} UnescapeEscaped(s: string)
    ensures Unescaped(Escaped(s)) == WithoutReturns(s)
  {
    if s != [] {
      UnescapeEscaped(s[1..]);
      if s[0] == '\r' {
        assert Escaped(s) == Escaped(s[1..]);
      } else {
        EntityRead(s[0], Escaped(s[1..]));
      }
    }
  }

  predicate IsAlnum(c: char) {
    IsDigit(c) || 'a' <= c <= 'z' || 'A' <= c <= 'Z'
  }

  /** The value of a byte as a signed char. */
  function Signed(c: char): int
    requires c as int < 256
  {
    if c as int < 128 then c as int else c as int - 256
  }

  /** A byte as the number of an entity. */
  function Numeric(c: char): string
    requires c as int < 256
  {
    if IsAlnum(c) then [c] else "&#" + Itoa(Signed(c)) + ";"
  }

  predicate Bytes(s: string) {
    forall i :: 0 <= i < |s| ==> s[i] as int < 256
  }

  function NumericAll(s: string): string
    requires Bytes(s)
  {
    if s == [] then [] else Numeric(s[0]) + NumericAll(s[1..])
  }

  /** Letters and digits stand for themselves, every other byte becomes the numeric entity of its
      value as a signed char. */
  lemma NumericMeans(c: char, rest: string)
    requires c as int < 256 && Bytes(rest)
    ensures Bytes([c] + rest) && NumericAll("") == ""
    ensures NumericAll([c] + rest) ==
              (if '0' <= c <= '9' || 'A' <= c <= 'Z' || 'a' <= c <= 'z' then [c]
               else "&#" + Itoa(if c as int < 128 then c as int else c as int - 256) + ";") + NumericAll(rest)
  {
    hide Itoa;
    assert ([c] + rest)[1..] == rest;
  }

  /** A text of letters, digits and numeric entities. */
  lemma {:induction false} NumericHarmless(s: string)
    requires Bytes(s)
    ensures forall c :: c in NumericAll(s) ==>
              '0' <= c <= '9' || 'A' <= c <= 'Z' || 'a' <= c <= 'z' || c == '&' || c == '#' || c == ';' || c == '-'
  {
    hide Itoa;
    if s != [] {
      NumericHarmless(s[1..]);
      ItoaChars(Signed(s[0]));
      assert s == [s[0]] + s[1..];
      NumericMeans(s[0], s[1..]);
    }
  }

  lemma ItoaChars(n: int)
    ensures forall c :: c in Itoa(n) ==> '0' <= c <= '9' || c == '-'
  {
    var d := Decimal(if n < 0 then -n else n);
    assert forall c :: c in d ==> IsDigit(c);
  }

  method PrintEscape(content: string) returns (out: string)
    requires Bytes(content)
    ensures out == NumericAll(content)
    ensures forall c :: c in out ==>
              '0' <= c <= '9' || 'A' <= c <= 'Z' || 'a' <= c <= 'z' || c == '&' || c == '#' || c == ';' || c == '-'
  {
    hide Itoa, IsAlnum;
    out := [];
    var i := 0;
    while i < |content|
      invariant 0 <= i <= |content| && out == NumericAll(content[..i])
    {
      NumericConcat(content[..i], [content[i]]);
      assert content[..i + 1] == content[..i] + [content[i]];
      assert [content[i]][1..] == [];
      if IsAlnum(content[i]) {
        out := out + [content[i]];
      } else {
        out := out + "&#" + Itoa(Signed(content[i])) + ";";
      }
      i := i + 1;
    }
    assert content[..i] == content;
    NumericHarmless(content);
  }

  lemma {:induction false} NumericConcat(a: string, b: string)
    requires Bytes(a) && Bytes(b)
    ensures NumericAll(a + b) == NumericAll(a) + NumericAll(b)
    decreases |a|
  {
    if a == [] {
      assert a + b == b;
    } else {
      assert (a + b)[1..] == a[1..] + b;
      NumericConcat(a[1..], b);
    }
  }

  /** The leading digits of s. */
  function DigitRun(s: string): (r: string)
    ensures r <= s
  {
    if s != [] && IsDigit(s[0]) then [s[0]] + DigitRun(s[1..]) else []
  }

  /** Reading numeric entities back: `&#`, digits, `;`. */
  function ReadNumeric(s: string): string
    decreases |s|
  {
    if s == [] then []
    else
      var d := if "&#" <= s then DigitRun(s[2..]) else [];
      var n := Digits(d, 0);
      if d != [] && 2 + |d| < |s| && s[2 + |d|] == ';' && n < 256 then [n as char] + ReadNumeric(s[3 + |d|..])
      else [s[0]] + ReadNumeric(s[1..])
  }

  lemma {:induction false} RunOf(d: string, rest: string)
    requires (forall i :: 0 <= i < |d| ==> IsDigit(d[i])) && (rest == [] || !IsDigit(rest[0]))
    ensures DigitRun(d + rest) == d
    decreases |d|
  {
    if d == [] {
      assert d + rest == rest;
    } else {
      assert (d + rest)[1..] == d[1..] + rest;
      RunOf(d[1..], rest);
    }
  }

  lemma ReadStep(s: string, d: string)
    requires "&#" <= s && DigitRun(s[2..]) == d && d != [] && 2 + |d| < |s| && s[2 + |d|] == ';' && Digits(d, 0) < 256
    ensures ReadNumeric(s) == [Digits(d, 0) as char] + ReadNumeric(s[3 + |d|..])
  {
    hide Digits, DigitRun;
  }

  lemma EntityDecoded(d: string, rest: string, n: nat)
    requires d != [] && (forall i :: 0 <= i < |d| ==> IsDigit(d[i])) && Digits(d, 0) == n < 256
    ensures ReadNumeric("&#" + (d + (";" + rest))) == [n as char] + ReadNumeric(rest)
  {
    hide Digits, DigitRun, ReadNumeric;
    var s := "&#" + (d + (";" + rest));
    assert s[..2] == "&#" && s[2..] == d + (";" + rest);
    RunOf(d, ";" + rest);
    assert s[2 + |d|] == ';' && s[3 + |d|..] == rest;
    ReadStep(s, d);
  }

  lemma NumericRead(c: char, rest: string)
    requires c as int < 128
    ensures ReadNumeric(Numeric(c) + rest) == [c] + ReadNumeric(rest)
  {
    if IsAlnum(c) {
      var s := [c] + rest;
      assert s[0] == c && s[1..] == rest;
    } else {
      hide ReadNumeric, Decimal;
      var d := Decimal(c as int);
      assert Numeric(c) + rest == "&#" + (d + (";" + rest));
      DigitsDecimal(c as int);
      EntityDecoded(d, rest, c as int);
    }
  }

  /** Decoding gives back every ASCII text exactly. */
  lemma {:induction false} ReadAscii(s: string)
    requires forall i :: 0 <= i < |s| ==> s[i] as int < 128
    ensures Bytes(s) && ReadNumeric(NumericAll(s)) == s
  {
    if s != [] {
      ReadAscii(s[1..]);
      NumericRead(s[0], NumericAll(s[1..]));
    }
  }

  lemma ReadPlain(s: string)
    requires s != [] && s[0] != '&'
    ensures ReadNumeric(s) == [s[0]] + ReadNumeric(s[1..])
  {
  }

  /** An entity without digits is read as it stands. */
  lemma ReadBare(s: string)
    requires |s| >= 3 && s[0] == '&' && s[2] == '-'
    ensures ReadNumeric(s) == [s[0]] + ReadNumeric(s[1..])
  {
    assert DigitRun(s[2..]) == [];
  }

  lemma {:induction false} LiteralRead(w: string, rest: string)
    requires '&' !in w
    ensures ReadNumeric(w + rest) == w + ReadNumeric(rest)
    decreases |w|
  {
    hide ReadNumeric;
    if w == [] {
      assert w + rest == rest;
      assert w + ReadNumeric(rest) == ReadNumeric(rest);
    } else {
      assert w[0] in w;
      var s := w + rest;
      assert s[0] == w[0] && s[1..] == w[1..] + rest;
      ReadPlain(s);
      LiteralRead(w[1..], rest);
      assert w + ReadNumeric(rest) == [w[0]] + (w[1..] + ReadNumeric(rest));
    }
  }

  lemma HighNumeric(c: char) returns (w: string)
    requires 128 <= c as int < 256
    ensures Numeric(c) == "&" + w && '&' !in w && |w| >= 2 && w[1] == '-'
  {
    hide Decimal;
    var d := Decimal(-Signed(c));
    assert '&' !in d;
    w := "#-" + d + ";";
    assert Itoa(Signed(c)) == "-" + d;
    assert "&#" + ("-" + d) + ";" == "&" + w;
  }

  /** A byte from 128 on becomes a negative number, which is no entity. */
  lemma HighRead(c: char, rest: string)
    requires 128 <= c as int < 256
    ensures |Numeric(c)| > 1 && ReadNumeric(Numeric(c) + rest) == Numeric(c) + ReadNumeric(rest)
  {
    hide ReadNumeric, Numeric;
    var w := HighNumeric(c);
    var s := Numeric(c) + rest;
    assert s == "&" + (w + rest);
    assert s[2] == '-' && s[0] == '&' && s[1..] == w + rest;
    ReadBare(s);
    LiteralRead(w, rest);
    assert "&" + (w + ReadNumeric(rest)) == Numeric(c) + ReadNumeric(rest);
  }

  predicate Ascii(s: string) {
    forall i :: 0 <= i < |s| ==> s[i] as int < 128
  }

  lemma {:induction false} ReadLonger(s: string)
    requires Bytes(s)
    ensures |ReadNumeric(NumericAll(s))| >= |s|
    ensures !Ascii(s) ==> |ReadNumeric(NumericAll(s))| > |s|
  {
    if s != [] {
      ReadLonger(s[1..]);
      if s[0] as int < 128 {
        NumericRead(s[0], NumericAll(s[1..]));
        assert Ascii(s[1..]) ==> Ascii(s);
      } else {
        HighRead(s[0], NumericAll(s[1..]));
      }
    }
  }

  /** Decoding gives back a text exactly if all of it is ASCII. */
  lemma ReadExact(s: string)
    requires Bytes(s)
    ensures ReadNumeric(NumericAll(s)) == s <==> Ascii(s)
  {
    if Ascii(s) { ReadAscii(s); } else { ReadLonger(s); }
  }

  /** The first byte past ASCII is not read back. */
  lemma HighByte()
    ensures ReadNumeric(NumericAll([128 as char])) != [128 as char]
  {
    var s := [128 as char];
    ReadExact(s);
  }
}
