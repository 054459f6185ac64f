/** pkg/pipelines/vega.go: the header of the Kurucz model, and what the rewrite
    for synspec makes of such a header. */
module Kurucz {
  import opened Objects
  import opened Synspec
  import opened SynspecFile

  // ----- Numbers -----

  predicate IsDigit(c: char) {
    '0' <= c <= '9'
  }

  predicate Digits(s: string) {
    s != "" && forall i | 0 <= i < |s| :: IsDigit(s[i])
  }

  function Decimal(n: nat): (s: string)
    ensures Digits(s)
  {
    var last := [('0' as int + n % 10) as char];
    if n < 10 then last else Decimal(n / 10) + last
  }

  function Itoa(t: int): (s: string)
    ensures s != "" && Word(s) && ' ' !in s
  {
    if t < 0 then "-" + Decimal(-t) else Decimal(t)
  }

  // What a number read from digits is worth, whoever printed them.
  function Value(s: string): nat
    requires forall i | 0 <= i < |s| :: IsDigit(s[i])
  {
    if s == "" then 0
    else
      assert IsDigit(s[|s| - 1]);
      10 * Value(s[..|s| - 1]) + (s[|s| - 1] as int - '0' as int)
  }

  // strconv.Atoi on a field with blanks before it
  function Atoi(s: string): Option<int> {
    var u := SkipSpaces(s);
    if u != "" && u[0] == '-' then (if Digits(u[1..]) then (var v: int := Value(u[1..]); Some(-v)) else None)
    else if Digits(u) then Some(Value(u)) else None
  }

  lemma {:induction false} ValueDecimal(n: nat)
    ensures Value(Decimal(n)) == n
    ensures Decimal(n)[0] == '0' <==> n == 0
  {
    if n >= 10 {
      ValueDecimal(n / 10);
      var s := Decimal(n);
      assert s[..|s| - 1] == Decimal(n / 10);
    }
  }

  function Power10(k: nat): nat {
    if k == 0 then 1 else 10 * Power10(k - 1)
  }

  lemma {:induction false} DecimalLength(n: nat, k: nat)
    requires k > 0
    ensures |Decimal(n)| <= k <==> n < Power10(k)
  {
    if n < 10 {
      PowerPositive(k - 1);
    } else if k > 1 {
      DecimalLength(n / 10, k - 1);
    } else {
      assert |Decimal(n / 10)| >= 1;
    }
  }

  lemma {:induction false} PowerPositive(k: nat)
    ensures Power10(k) > 0
  {
    if k > 0 {
      PowerPositive(k - 1);
    }
  }

  lemma ItoaLength(t: int)
    ensures |Itoa(t)| <= 6 <==> -99999 <= t <= 999999
    ensures |Itoa(t)| == 6 || |Itoa(t)| == 5 <==> 10000 <= t <= 999999 || -99999 <= t <= -1000
  {
    var n := if t < 0 then -t else t;
    DecimalLength(n, 3);
    DecimalLength(n, 4);
    DecimalLength(n, 5);
    DecimalLength(n, 6);
    PowersOfTen();
  }

  lemma PowersOfTen()
    ensures Power10(3) == 1000 && Power10(4) == 10000 && Power10(5) == 100000 && Power10(6) == 1000000
  {
    assert Power10(1) == 10 * Power10(0);
    assert Power10(2) == 100;
    assert Power10(3) == 1000;
    assert Power10(4) == 10000;
  }

  // int(f): the conversion truncates toward zero.
  function Truncate(x: real): int {
    if x >= 0.0 then x.Floor else -(-x).Floor
  }

  /** The conversion cuts the fraction: the result is on the same side of zero, at
      most as far from it, and less than one away. */
  lemma TruncateExactly(x: real)
    ensures x >= 0.0 ==> Truncate(x) >= 0 && Truncate(x) as real <= x < Truncate(x) as real + 1.0
    ensures x <= 0.0 ==> Truncate(x) <= 0 && Truncate(x) as real - 1.0 < x <= Truncate(x) as real
  {
  }

  // ----- The header -----

  // %6d
  function Pad6(s: string): (r: string)
    ensures |r| == if |s| < 6 then 6 else |s|
  {
    if |s| < 6 then seq(6 - |s|, _ => ' ') + s else s
  }

  // The printed gravity, %.5f, is a parameter.
  function Header(teff: int, logg: string): string {
    "TEFF " + (Pad6(Itoa(teff)) + (".  GRAVITY " + (logg + " LTE ")))
  }

  /** strings.Split always gives a first line, so the header replaces whatever
      stands before the first line break, and nothing after it. */
  method GenerateKuruzInputFile(template: string, params: Params, logg: string) returns (contents: string)
    ensures contents == Header(Truncate(params.teff), logg) + template[LineLength(template)..]
  {
    var lines := Split(template, '\n');
    lines := lines[0 := Header(Truncate(params.teff), logg)];
    contents := Join(lines, '\n');
    FirstLine(template, lines[0]);
  }

  lemma {:induction false} FirstLine(s: string, h: string)
    ensures Join(Split(s, '\n')[0 := h], '\n') == h + s[LineLength(s)..]
  {
    if s == "" {
      assert [""][0 := h] == [h];
      assert h + "" == h;
    } else if s[0] == '\n' {
      FirstLineEmpty(s, h);
    } else {
      FirstLine(s[1..], h);
      assert Split(s, '\n')[0 := h] == Split(s[1..], '\n')[0 := h];
      assert s[1..][LineLength(s[1..])..] == s[LineLength(s)..];
    }
  }

  lemma FirstLineEmpty(s: string, h: string)
    requires s != "" && s[0] == '\n'
    ensures Join(Split(s, '\n')[0 := h], '\n') == h + s
  {
    var r := Split(s[1..], '\n');
    JoinSplit(s[1..], '\n');
    JoinCons(h, r, '\n');
    assert Split(s, '\n')[0 := h] == [h] + r;
    FirstChar(h, s);
  }

  lemma JoinCons(h: string, r: seq<string>, sep: char)
    requires r != []
    ensures Join([h] + r, sep) == h + [sep] + Join(r, sep)
  {
    assert ([h] + r)[1..] == r;
  }

  lemma FirstChar(h: string, s: string)
    requires s != ""
    ensures h + [s[0]] + s[1..] == h + s
  {
  }

  lemma SkipPadding(s: string)
    requires s != "" && !IsSpace(s[0])
    ensures SkipSpaces(Pad6(s)) == s
  {
    if |s| < 6 {
      SkipBlanks(6 - |s|, s);
    }
  }

  lemma AtoiItoa(t: int)
    ensures Atoi(Itoa(t)) == Some(t)
  {
    var n := if t < 0 then -t else t;
    ValueDecimal(n);
    var s := Itoa(t);
    assert SkipSpaces(s) == s;
    if t < 0 {
      assert s[1..] == Decimal(n);
    } else {
      assert IsDigit(s[0]);
    }
  }

  lemma AtoiPadded(t: int)
    ensures Atoi(Pad6(Itoa(t))) == Some(t)
  {
    var s := Itoa(t);
    SkipPadding(s);
    AtoiItoa(t);
    assert SkipSpaces(s) == s;
  }

  // The same text for any printed number.
  lemma GravityAfter(d: string, tail: string)
    requires |d| >= 6 && 'G' !in d
    ensures var h := "TEFF " + (d + (".  GRAVITY " + tail));
            |h| >= 21 && (h[14..21] == "GRAVITY" <==> |d| == 6) && h[5..5 + |d|] == d
  {
    var u := ".  GRAVITY " + tail;
    var h := "TEFF " + (d + u);
    assert forall i | 0 <= i < |d| :: h[5 + i] == d[i];
    assert forall i | 0 <= i < 11 :: h[5 + |d| + i] == ".  GRAVITY "[i];
    assert h[14..21][0] == h[14];
    if |d| > 9 {
      assert h[5 + 9] == d[9];
    } else {
      assert h[5 + |d| + (9 - |d|)] == ".  GRAVITY "[9 - |d|];
    }
  }

  lemma NoG(t: int)
    ensures 'G' !in Pad6(Itoa(t))
  {
    assert forall i | 0 <= i < |Itoa(t)| :: Itoa(t)[i] != 'G';
  }

  /** GRAVITY starts at offset 14 exactly for the temperatures that fit in six
      characters, and for those the six columns read back as the temperature. */
  lemma HeaderColumns(teff: int, logg: string)
    ensures var h := Header(teff, logg);
            && |h| >= 21
            && (h[14..21] == "GRAVITY" <==> -99999 <= teff <= 999999)
            && (-99999 <= teff <= 999999 ==>
                  Atoi(h[5..11]) == Some(teff) &&
                  h == "TEFF " + h[5..11] + ".  GRAVITY " + logg + " LTE ")
  {
    NoG(teff);
    ItoaLength(teff);
    AtoiPadded(teff);
    GravityAfter(Pad6(Itoa(teff)), logg + " LTE ");
    var d := Pad6(Itoa(teff));
    assert "TEFF " + (d + (".  GRAVITY " + (logg + " LTE "))) == "TEFF " + d + ".  GRAVITY " + logg + " LTE ";
  }

  // ----- The header on its way to synspec -----

  function HeaderFields(teff: int, logg: string): seq<string> {
    ["TEFF", Itoa(teff) + ".", "GRAVITY", logg, "LTE", ""]
  }

  // One more word in front.
  lemma HeaderStep(w: string, b: string, y: string, fs: seq<string>)
    requires Word(w) && b != "" && b == seq(|b|, _ => ' ')
    requires (y != "" ==> !IsSpace(y[0])) && fs != [] && Collapse(y) == Join(fs)
    ensures Collapse(w + b + y) == Join([w] + fs)
  {
    WordThenBlanks(w, b, y);
    assert ([w] + fs)[1..] == fs;
  }

  lemma CollapseHeader(teff: int, logg: string)
    requires logg != "" && Word(logg) && ' ' !in logg
    ensures Collapse(Header(teff, logg)) == Join(HeaderFields(teff, logg))
  {
    var s := Itoa(teff);
    var gap := seq((if |s| < 6 then 6 - |s| else 0) + 1, _ => ' ');
    HeaderStep("LTE", " ", "", [""]);
    HeaderStep(logg, " ", "LTE" + " " + "", ["LTE"] + [""]);
    HeaderStep("GRAVITY", " ", logg + " " + ("LTE" + " " + ""), [logg] + (["LTE"] + [""]));
    HeaderEnd(teff, logg, gap, "GRAVITY" + " " + (logg + " " + ("LTE" + " " + "")));
    HeaderText(teff, logg, gap);
    assert ["TEFF"] + ([s + "."] + (["GRAVITY"] + ([logg] + (["LTE"] + [""])))) == HeaderFields(teff, logg);
  }

  lemma HeaderEnd(teff: int, logg: string, gap: string, y: string)
    requires gap != "" && gap == seq(|gap|, _ => ' ')
    requires y != "" && !IsSpace(y[0]) && Collapse(y) == Join(["GRAVITY"] + ([logg] + (["LTE"] + [""])))
    ensures Collapse("TEFF" + gap + ((Itoa(teff) + ".") + "  " + y))
         == Join(["TEFF"] + ([Itoa(teff) + "."] + (["GRAVITY"] + ([logg] + (["LTE"] + [""])))))
  {
    HeaderStep(Itoa(teff) + ".", "  ", y, ["GRAVITY"] + ([logg] + (["LTE"] + [""])));
    HeaderStep("TEFF", gap, (Itoa(teff) + ".") + "  " + y, [Itoa(teff) + "."] + (["GRAVITY"] + ([logg] + (["LTE"] + [""]))));
  }

  lemma HeaderText(teff: int, logg: string, gap: string)
    requires var s := Itoa(teff); gap == seq((if |s| < 6 then 6 - |s| else 0) + 1, _ => ' ')
    ensures Header(teff, logg)
         == "TEFF" + gap + ((Itoa(teff) + ".") + "  " + ("GRAVITY" + " " + (logg + " " + ("LTE" + " " + ""))))
  {
    var s := Itoa(teff);
    var tail := logg + " LTE ";
    assert logg + " " + ("LTE" + " " + "") == tail;
    assert "TEFF " + Pad6(s) == "TEFF" + gap + s;
    assert (s + ".") + "  " + ("GRAVITY" + " " + tail) == s + (".  GRAVITY " + tail);
    assert "TEFF " + (Pad6(s) + (".  GRAVITY " + tail)) == ("TEFF " + Pad6(s)) + (".  GRAVITY " + tail);
  }

  // Where GRAVITY can stand in a rebuilt line.
  lemma GravityColumn(fs: seq<string>)
    requires |fs| == 5 && fs[0] == "TEFF" && fs[2] == "GRAVITY" && fs[4] == "LTE" && 'G' !in fs[1] && |fs[1]| >= 2
    requires fs[3] != ""
    ensures |Recreate(fs)| >= 20 && (Recreate(fs)[13..20] == "GRAVITY" <==> |fs[1]| == 6 || |fs[1]| == 7)
  {
    var r, c := Recreate(fs), ThirdColumn(fs);
    ThirdFieldColumn(fs);
    var start := "TEFF" + (if |fs[1]| == 6 then "  " else " ") + fs[1] + " ";
    assert |start| == c && r == start + ("GRAVITY" + ("  " + (fs[3] + "   " + "LTE")));
    assert r[13..20][0] == r[13];
    if c > 13 {
      assert r[13] == start[13];
    } else if c < 13 {
      assert r[13] == "GRAVITY"[13 - c];
    }
  }

  /** A header of this form never makes the rewriter panic, keeps its five words,
      and has GRAVITY at offset 13 exactly for temperatures printed in five or six
      characters: below 10000 the column is another one. */
  lemma HeaderRewritten(teff: int, logg: string)
    requires logg != "" && Word(logg) && ' ' !in logg
    ensures var r := Rewrite(Header(teff, logg));
            && r.Some?
            && Split(Collapse(r.value)) == ["TEFF", Itoa(teff) + ".", "GRAVITY", logg, "LTE"]
            && |r.value| >= 20
            && (r.value[13..20] == "GRAVITY" <==>
                  10000 <= teff <= 999999 || -99999 <= teff <= -1000)
  {
    var h := Header(teff, logg);
    var fs := HeaderFields(teff, logg);
    CollapseHeader(teff, logg);
    SplitJoin(fs);
    StartsTeff(fs);
    TeffKeepsFields(h);
    NoG(teff);
    ItoaLength(teff);
    SameRecreation(fs);
    assert fs[..5] == ["TEFF", Itoa(teff) + ".", "GRAVITY", logg, "LTE"];
    assert 'G' !in Itoa(teff);
    GravityColumn(fs[..5]);
  }

  lemma StartsTeff(fs: seq<string>)
    requires |fs| > 1 && fs[0] == "TEFF"
    ensures StartsWith(Join(fs), "TEFF")
  {
  }
}
