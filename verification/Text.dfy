/** Words and decimal numbers, as istringstream extraction, atoi and to_string treat them. */
module Text {

  datatype Option<T> = None | Some(value: T)

  predicate IsSpace(c: char) {
    c in " \t\n\r" || c == 11 as char || c == 12 as char
  }

  predicate IsDigit(c: char) {
    '0' <= c <= '9'
  }

  function SkipSpace(s: string): (r: string)
    ensures |r| <= |s|
    ensures r != [] ==> !IsSpace(r[0])
    decreases |s|
  {
    if s != [] && IsSpace(s[0]) then SkipSpace(s[1..]) else s
  }

  /** The longest prefix of s without white space. */
  function Word(s: string): (r: string)
    ensures r <= s
    ensures forall i :: 0 <= i < |r| ==> !IsSpace(r[i])
    ensures |r| < |s| ==> IsSpace(s[|r|])
    decreases |s|
  {
    if s != [] && !IsSpace(s[0]) then [s[0]] + Word(s[1..]) else []
  }

  /** What repeated extraction into a string yields. */
  function Words(s: string): seq<string>
    decreases |s|
  {
    var t := SkipSpace(s);
    if t == [] then [] else [Word(t)] + Words(t[|Word(t)|..])
  }

  /** A non-empty string without white space. */
  predicate IsWord(w: string) {
    w != [] && forall i :: 0 <= i < |w| ==> !IsSpace(w[i])
  }

  function Join(ws: seq<string>): string {
    if ws == [] then [] else ws[0] + " " + Join(ws[1..])
  }

  lemma {:induction false} WordOf(w: string, s: string)
    requires forall i :: 0 <= i < |w| ==> !IsSpace(w[i])
    requires s == [] || IsSpace(s[0])
    ensures Word(w + s) == w
    decreases |w|
  {
    if w == [] {
      assert w + s == s;
    } else {
      assert (w + s)[1..] == w[1..] + s;
      WordOf(w[1..], s);
    }
  }

  /** Splitting words joined by blanks gives back the words. */
  lemma {:induction false} WordsJoin(ws: seq<string>)
    requires forall i :: 0 <= i < |ws| ==> IsWord(ws[i])
    ensures Words(Join(ws)) == ws
    decreases |ws|
  {
    if ws != [] {
      var rest := " " + Join(ws[1..]);
      var s := Join(ws);
      assert s == ws[0] + rest;
      assert s[0] == ws[0][0];
      WordOf(ws[0], rest);
      assert s[|ws[0]|..] == rest;
      WordsJoin(ws[1..]);
      assert SkipSpace(rest) == SkipSpace(Join(ws[1..])) by { assert rest[1..] == Join(ws[1..]); }
      assert Words(rest) == Words(Join(ws[1..]));
    }
  }

  function DigitValue(c: char): (d: nat)
    requires IsDigit(c)
    ensures d < 10
  {
    c as int - '0' as int
  }

  function DigitChar(d: nat): (c: char)
    requires d < 10
    ensures IsDigit(c) && DigitValue(c) == d
  {
    (d + '0' as int) as char
  }

  /** The value of the leading digits of s, continuing from acc. */
  function Digits(s: string, acc: nat): nat
    decreases |s|
  {
    if s != [] && IsDigit(s[0]) then Digits(s[1..], acc * 10 + DigitValue(s[0])) else acc
  }

  /** The number a text starts with, however large. */
  function Number(s: string): int {
    var t := SkipSpace(s);
    if t != [] && t[0] == '-' then 0 - Digits(t[1..], 0)
    else if t != [] && t[0] == '+' then Digits(t[1..], 0)
    else Digits(t, 0)
  }

  /** The numbers of the type int. */
  predicate IsInt(n: int) {
    -0x8000_0000 <= n < 0x8000_0000
  }

  /** The nearest number of 64 bits. */
  function ToLong(n: int): int {
    if n < -0x8000_0000_0000_0000 then -0x8000_0000_0000_0000
    else if 0x8000_0000_0000_0000 <= n then 0x7FFF_FFFF_FFFF_FFFF
    else n
  }

  /** The lower 32 bits, as an int. */
  function ToInt(n: int): (r: int)
    ensures IsInt(r)
  {
    (n + 0x8000_0000) % 0x1_0000_0000 - 0x8000_0000
  }

  /** atoi: reading stops at the ends of long, and what is left is cut to an int. */
  function Atoi(s: string): (r: int)
    ensures IsInt(r)
  {
    ToInt(ToLong(Number(s)))
  }

  function Decimal(n: nat): (s: string)
    ensures s != [] && forall i :: 0 <= i < |s| ==> IsDigit(s[i])
  {
    if n < 10 then [DigitChar(n)] else Decimal(n / 10) + [DigitChar(n % 10)]
  }

  function Itoa(n: int): string {
    if n < 0 then "-" + Decimal(-n) else Decimal(n)
  }

  lemma {:induction false} DigitsConcat(a: string, b: string, acc: nat)
    requires forall i :: 0 <= i < |a| ==> IsDigit(a[i])
    ensures Digits(a + b, acc) == Digits(b, Digits(a, acc))
    decreases |a|
  {
    if a == [] {
      assert a + b == b;
    } else {
      assert (a + b)[1..] == a[1..] + b;
      DigitsConcat(a[1..], b, acc * 10 + DigitValue(a[0]));
    }
  }

  lemma {:induction false} DigitsDecimal(n: nat)
    ensures Digits(Decimal(n), 0) == n
  {
    if n < 10 {
      assert [DigitChar(n)][1..] == [];
    } else {
      DigitsDecimal(n / 10);
      DigitsConcat(Decimal(n / 10), [DigitChar(n % 10)], 0);
      var one := [DigitChar(n % 10)];
      assert one[1..] == [];
      assert Digits(one, n / 10) == Digits([], n / 10 * 10 + n % 10);
    }
  }

  lemma DigitNotSpace(c: char)
    requires IsDigit(c)
    ensures !IsSpace(c) && c != '-' && c != '+' && c != '|' && c != '!'
  {
  }

  lemma NumberItoa(n: int)
    ensures Number(Itoa(n)) == n
  {
    var s := Itoa(n);
    if n < 0 {
      DigitsDecimal(-n);
      assert s[1..] == Decimal(-n);
    } else {
      DigitsDecimal(n);
      DigitNotSpace(s[0]);
    }
  }

  /** Reading back a printed number. */
  lemma AtoiItoa(n: int)
    ensures Atoi(Itoa(n)) == n <==> IsInt(n)
  {
    hide Number, Itoa;
    NumberItoa(n);
  }

  /** What atoi makes of a text that starts with the number n: n itself if it is an int, what is left
      of n modulo 2^32 if it fits into 64 bits, and the lower half of the nearest number that does
      otherwise. */
  lemma AtoiCuts(s: string)
    ensures var n, r := Number(s), Atoi(s);
            && -2147483648 <= r <= 2147483647
            && (-2147483648 <= n <= 2147483647 ==> r == n)
            && (-9223372036854775808 <= n <= 9223372036854775807 ==> (r - n) % 4294967296 == 0)
            && (n > 9223372036854775807 ==> r == -1)
            && (n < -9223372036854775808 ==> r == 0)
  {
    hide Number;
  }

  /** One more than the greatest int is read as the least. */
  lemma AtoiWraps()
    ensures Atoi(Itoa(2147483648)) == -2147483648
  {
    hide Number, Itoa;
    NumberItoa(2147483648);
  }

  lemma {:induction false} DigitsStop(s: string, more: string, acc: nat)
    requires forall i :: 0 <= i < |s| ==> IsDigit(s[i])
    requires more == [] || !IsDigit(more[0])
    ensures Digits(s + more, acc) == Digits(s, acc)
    decreases |s|
  {
    if s == [] {
      assert s + more == more;
    } else {
      assert (s + more)[1..] == s[1..] + more;
      DigitsStop(s[1..], more, acc * 10 + DigitValue(s[0]));
    }
  }

  /** The number a text starts with: digits count tens, a sign may stand in front and blanks in front
      of it, and whatever follows the digits does not matter. */
  lemma NumberMeans(blanks: string, s: string, c: char, more: string)
    requires forall i :: 0 <= i < |blanks| ==> blanks[i] in " \t\n\r" || blanks[i] == 11 as char || blanks[i] == 12 as char
    requires '0' <= c <= '9' && forall i :: 0 <= i < |s| ==> '0' <= s[i] <= '9'
    requires more == [] || !('0' <= more[0] <= '9')
    ensures Number("") == 0 && Number(s + [c]) == 10 * Number(s) + (c as int - 48)
    ensures Number(blanks + (s + [c] + more)) == Number(s + [c])
    ensures Number(blanks + ("-" + (s + [c] + more))) == -Number(s + [c])
    ensures Number(blanks + ("+" + (s + [c] + more))) == Number(s + [c])
  {
    var d := s + [c];
    DigitsConcat(s, [c], 0);
    assert [c][1..] == [];
    DigitsStop(d, more, 0);
    assert (d + more)[0] == d[0] && d[0] == if s == [] then c else s[0];
    DigitNotSpace(d[0]);
    if s != [] { DigitNotSpace(s[0]); }
    Unblanked(blanks, d + more);
    Unblanked(blanks, "-" + (d + more));
    Unblanked(blanks, "+" + (d + more));
    assert ("-" + (d + more))[1..] == d + more && ("+" + (d + more))[1..] == d + more;
  }

  lemma {:induction false} Unblanked(blanks: string, t: string)
    requires forall i :: 0 <= i < |blanks| ==> IsSpace(blanks[i])
    requires t == [] || !IsSpace(t[0])
    ensures SkipSpace(blanks + t) == t
    decreases |blanks|
  {
    if blanks == [] {
      assert blanks + t == t;
    } else {
      assert (blanks + t)[1..] == blanks[1..] + t;
      Unblanked(blanks[1..], t);
    }
  }

  lemma {:induction false} SkipBlanks(blanks: string, t: string)
    requires forall i :: 0 <= i < |blanks| ==> IsSpace(blanks[i])
    ensures SkipSpace(blanks + t) == SkipSpace(t)
    decreases |blanks|
  {
    if blanks == [] {
      assert blanks + t == t;
    } else {
      assert (blanks + t)[1..] == blanks[1..] + t;
      SkipBlanks(blanks[1..], t);
    }
  }

  /** How a line falls into words: at blanks, tabs, line ends and carriage returns, vertical tabs and
      form feeds, any number of them, and nowhere else. */
  lemma WordsSplit(blanks: string, w: string, rest: string)
    requires blanks != [] && w != []
    requires forall i :: 0 <= i < |blanks| ==> blanks[i] in " \t\n\r" || blanks[i] == 11 as char || blanks[i] == 12 as char
    requires forall i :: 0 <= i < |w| ==> !(w[i] in " \t\n\r" || w[i] == 11 as char || w[i] == 12 as char)
    ensures Words(blanks) == [] && Words(blanks + rest) == Words(rest)
    ensures Words(w) == [w] && Words(w + (blanks + rest)) == [w] + Words(rest)
  {
    assert blanks + "" == blanks && w + "" == w;
    SkipBlanks(blanks, "");
    SkipBlanks(blanks, rest);
    WordOf(w, "");
    WordOf(w, blanks + rest);
    assert w[|w|..] == [] && (w + (blanks + rest))[|w|..] == blanks + rest;
    assert Words([]) == [];
  }

  /** No word is empty, and none has a blank in it. */
  lemma {:induction false} WordsAre(s: string)
    ensures forall k :: 0 <= k < |Words(s)| ==> Words(s)[k] != "" && IsWord(Words(s)[k])
    ensures forall k, i :: 0 <= k < |Words(s)| && 0 <= i < |Words(s)[k]| ==>
              var c := Words(s)[k][i]; c !in " \t\n\r" && c != 11 as char && c != 12 as char
    decreases |s|
  {
    var t := SkipSpace(s);
    if t != [] {
      var w := Word(t);
      WordsAre(t[|w|..]);
      assert Words(s) == [w] + Words(t[|w|..]);
    }
  }

  /** Numbers are printed in digits, without zeros in front. */
  lemma {:induction false} DecimalMeans(n: nat)
    ensures n < 10 ==> Decimal(n) == [(48 + n) as char]
    ensures n >= 10 ==> Decimal(n) == Decimal(n / 10) + [(48 + n % 10) as char]
    ensures n > 0 ==> Decimal(n)[0] != '0'
    ensures Itoa(n) == Decimal(n) && (n > 0 ==> Itoa(0 - (n as int)) == "-" + Decimal(n))
  {
    if n >= 10 { DecimalMeans(n / 10); }
  }

  lemma ItoaWord(n: int)
    ensures IsWord(Itoa(n))
  {
    var d := Decimal(if n < 0 then -n else n);
    forall i | 0 <= i < |Itoa(n)|
      ensures !IsSpace(Itoa(n)[i])
    {
      if n < 0 && i > 0 { DigitNotSpace(d[i - 1]); }
      if n >= 0 { DigitNotSpace(d[i]); }
    }
  }
}
