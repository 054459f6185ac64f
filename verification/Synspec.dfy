/** pkg/pipelines/vega.go: rewriting the model file for synspec, and the header
    line of the Kurucz model. A Go string is a sequence of bytes, here chars. */
module Synspec {
  import opened Objects

  // `\s` of the regular expression.
  predicate IsSpace(c: char) {
    c == ' ' || c == '\t' || c == '\n' || c == '\U{000C}' || c == '\r'
  }

  function SkipSpaces(s: string): (r: string)
    ensures |r| <= |s|
    ensures r != "" ==> !IsSpace(r[0])
  {
    if s != "" && IsSpace(s[0]) then SkipSpaces(s[1..]) else s
  }

  // Every run of white space becomes one blank.
  function Collapse(s: string): string
    decreases |s|
  {
    if s == "" then ""
    else if IsSpace(s[0]) then " " + Collapse(SkipSpaces(s[1..]))
    else [s[0]] + Collapse(s[1..])
  }

  // strings.Split and strings.Join, with a separator of one byte
  function Split(s: string, sep: char := ' '): (r: seq<string>)
    ensures |r| > 0
  {
    if s == "" then [""]
    else
      var r := Split(s[1..], sep);
      if s[0] == sep then [""] + r else [[s[0]] + r[0]] + r[1..]
  }

  function Join(fs: seq<string>, sep: char := ' '): string {
    if fs == [] then "" else if |fs| == 1 then fs[0] else fs[0] + [sep] + Join(fs[1..], sep)
  }

  predicate StartsWith(s: string, p: string) {
    |p| <= |s| && s[..|p|] == p
  }

  const OLD := "READ DECK6 72"
  const NEW := "READ DECK6 64"

  // strings.Replace(s, OLD, NEW, -1)
  function Replace(s: string): string {
    if s == "" then ""
    else if StartsWith(s, OLD) then NEW + Replace(s[13..])
    else [s[0]] + Replace(s[1..])
  }

  // recreateVarsLine; fewer than five fields is an index out of range.
  function Recreate(fs: seq<string>): string
    requires |fs| >= 5
  {
    if |fs[1]| == 6 then fs[0] + "  " + (fs[1] + " " + (fs[2] + "  " + (fs[3] + "   " + fs[4])))
    else fs[0] + " " + (fs[1] + " " + (fs[2] + "  " + (fs[3] + "   " + fs[4])))
  }

  // One line; None is the panic.
  function Rewrite(line: string): Option<string> {
    var a := Collapse(line);
    if StartsWith(a, "TEFF") then
      (if |Split(a)| >= 5 then Some(Recreate(Split(a))) else None)
    else if StartsWith(a, OLD) then Some(Replace(a))
    else Some(a)
  }

  // ----- White space -----

  predicate Word(s: string) {
    forall i | 0 <= i < |s| :: !IsSpace(s[i])
  }

  // Single blanks only.
  predicate Tidy(s: string) {
    (forall i | 0 <= i < |s| && IsSpace(s[i]) :: s[i] == ' ') &&
    (forall i | 0 <= i < |s| - 1 :: !(s[i] == ' ' && s[i + 1] == ' '))
  }

  lemma {:induction false} CollapseTidy(s: string)
    ensures Tidy(Collapse(s))
    ensures Collapse(s) != "" ==> s != "" && (Collapse(s)[0] == ' ' <==> IsSpace(s[0]))
    decreases |s|
  {
    if s != "" {
      if IsSpace(s[0]) {
        CollapseTidy(SkipSpaces(s[1..]));
      } else {
        CollapseTidy(s[1..]);
      }
    }
  }

  lemma {:induction false} TidyCollapse(s: string)
    requires Tidy(s)
    ensures Collapse(s) == s
    decreases |s|
  {
    if s != "" {
      TidyCollapse(s[1..]);
      if IsSpace(s[0]) {
        assert s[1..] != "" ==> !IsSpace(s[1..][0]);
        assert SkipSpaces(s[1..]) == s[1..];
      }
      assert s == [s[0]] + s[1..];
    }
  }

  lemma {:induction false} CollapseWord(w: string, y: string)
    requires Word(w)
    ensures Collapse(w + y) == w + Collapse(y)
  {
    if w == "" {
      assert w + y == y;
    } else {
      CollapseWord(w[1..], y);
      assert (w + y)[1..] == w[1..] + y;
      assert w + Collapse(y) == [w[0]] + (w[1..] + Collapse(y));
    }
  }

  // n blanks before a word boundary become one.
  lemma {:induction false} CollapseBlanks(n: nat, y: string)
    requires n > 0 && (y != "" ==> !IsSpace(y[0]))
    ensures Collapse(seq(n, _ => ' ') + y) == " " + Collapse(y)
  {
    var b := seq(n, _ => ' ');
    SkipBlanks(n - 1, y);
    assert (b + y)[1..] == seq(n - 1, _ => ' ') + y;
  }

  lemma {:induction false} SkipBlanks(n: nat, y: string)
    requires y != "" ==> !IsSpace(y[0])
    ensures SkipSpaces(seq(n, _ => ' ') + y) == y
  {
    if n > 0 {
      SkipBlanks(n - 1, y);
      assert (seq(n, _ => ' ') + y)[1..] == seq(n - 1, _ => ' ') + y;
    } else {
      assert seq(0, _ => ' ') + y == y;
    }
  }

  // ----- Fields -----

  lemma {:induction false} JoinSplit(s: string, sep: char := ' ')
    ensures Join(Split(s, sep), sep) == s
  {
    if s != "" {
      JoinSplit(s[1..], sep);
      var r := Split(s[1..], sep);
      if s[0] == sep {
        assert Split(s, sep)[1..] == r;
      } else if |r| > 1 {
        assert Split(s, sep)[1..] == r[1..];
      }
      assert s == [s[0]] + s[1..];
    }
  }

  predicate NoBlank(s: string) {
    ' ' !in s
  }

  lemma {:induction false} SplitFirst(f: string, y: string)
    requires NoBlank(f)
    ensures Split(f + " " + y) == [f] + Split(y)
    ensures Split(f) == [f]
  {
    if f == "" {
      assert f + " " + y == " " + y;
      assert (" " + y)[1..] == y;
    } else {
      SplitFirst(f[1..], y);
      assert (f + " " + y)[1..] == f[1..] + " " + y;
      assert f == [f[0]] + f[1..];
    }
  }

  lemma {:induction false} SplitJoin(fs: seq<string>)
    requires fs != [] && forall i | 0 <= i < |fs| :: NoBlank(fs[i])
    ensures Split(Join(fs)) == fs
  {
    if |fs| == 1 {
      SplitFirst(fs[0], "");
    } else {
      SplitJoin(fs[1..]);
      SplitFirst(fs[0], Join(fs[1..]));
    }
  }

  // In a tidy line only the first and the last field can be empty.
  lemma {:induction false} SplitTidy(s: string)
    requires Tidy(s)
    ensures forall i | 0 <= i < |Split(s)| :: Word(Split(s)[i]) && NoBlank(Split(s)[i])
    ensures forall i | 0 < i < |Split(s)| - 1 :: Split(s)[i] != ""
    ensures s != "" && s[0] != ' ' ==> Split(s)[0] != ""
    ensures s != "" && s[0] == ' ' ==> |Split(s)| >= 2 && Split(s)[0] == ""
  {
    if s != "" {
      var r := Split(s[1..]);
      SplitTidy(s[1..]);
      assert Word([s[0]] + r[0]) || s[0] == ' ';
      if s[0] == ' ' {
        assert s[1..] != "" ==> s[1..][0] != ' ';
        assert s[1..] == "" ==> r == [""];
      }
    }
  }

  // ----- One line, twice -----

  lemma WordThenBlanks(w: string, b: string, y: string)
    requires Word(w) && b != "" && b == seq(|b|, _ => ' ')
    requires y != "" ==> !IsSpace(y[0])
    ensures Collapse(w + b + y) == w + " " + Collapse(y)
  {
    CollapseWord(w, b + y);
    CollapseBlanks(|b|, y);
    assert w + b + y == w + (b + y);
  }

  predicate FiveFields(fs: seq<string>) {
    |fs| >= 5 && (forall i | 0 <= i < 5 :: Word(fs[i]) && NoBlank(fs[i])) && forall i | 0 <= i < 4 :: fs[i] != ""
  }

  // Recreate, with the line built from its end.
  function Rest(fs: seq<string>, i: nat): string
    requires |fs| >= 5 && 1 <= i < 5
    decreases 5 - i
  {
    if i == 4 then fs[4]
    else fs[i] + (if i == 1 then " " else if i == 2 then "  " else "   ") + Rest(fs, i + 1)
  }

  lemma RecreateIsRest(fs: seq<string>)
    requires |fs| >= 5
    ensures Recreate(fs) == fs[0] + (if |fs[1]| == 6 then "  " else " ") + Rest(fs, 1)
  {
    assert Rest(fs, 3) == fs[3] + "   " + fs[4];
    assert Rest(fs, 2) == fs[2] + "  " + (fs[3] + "   " + fs[4]);
  }

  lemma {:induction false} RestCollapses(fs: seq<string>, i: nat)
    requires FiveFields(fs) && 1 <= i < 5
    ensures Collapse(Rest(fs, i)) == Join(fs[i..5])
    ensures Rest(fs, i) != "" ==> !IsSpace(Rest(fs, i)[0])
    decreases 5 - i
  {
    if i == 4 {
      CollapseWord(fs[4], "");
      assert fs[4] + "" == fs[4];
      assert fs[4..5] == [fs[4]];
    } else {
      RestCollapses(fs, i + 1);
      WordThenBlanks(fs[i], if i == 1 then " " else if i == 2 then "  " else "   ", Rest(fs, i + 1));
      assert fs[i..5][1..] == fs[i + 1..5];
    }
  }

  // The gaps of the rebuilt line collapse to single blanks.
  lemma RecreateCollapses(fs: seq<string>)
    requires FiveFields(fs)
    ensures Collapse(Recreate(fs)) == Join(fs[..5])
  {
    RecreateIsRest(fs);
    RestCollapses(fs, 1);
    WordThenBlanks(fs[0], if |fs[1]| == 6 then "  " else " ", Rest(fs, 1));
    assert fs[..5][1..] == fs[1..5];
  }

  // A tidy line that starts with TEFF has a first field that does.
  lemma TeffField(a: string)
    requires Tidy(a) && StartsWith(a, "TEFF")
    ensures StartsWith(Split(a)[0], "TEFF")
  {
    assert a[0] == 'T' && a[1] == 'E' && a[2] == 'F' && a[3] == 'F';
    var r3 := Split(a[1..][1..][1..]);
    assert a[1..][1..][1..][0] == 'F' && a[1..][1..][0] == 'F' && a[1..][0] == 'E';
    assert r3[0][0] == 'F';
    assert Split(a[1..][1..])[0] == ['F'] + r3[0];
    assert Split(a[1..])[0] == ['E'] + (['F'] + r3[0]);
  }

  lemma TeffFields(a: string)
    requires Tidy(a) && StartsWith(a, "TEFF") && |Split(a)| >= 5
    ensures FiveFields(Split(a))
  {
    SplitTidy(a);
  }

  /** Rebuilding a TEFF line keeps its first five fields, in order, and nothing
      else: read back, they are the same five. */
  lemma TeffKeepsFields(line: string)
    requires StartsWith(Collapse(line), "TEFF") && |Split(Collapse(line))| >= 5
    ensures Rewrite(line) == Some(Recreate(Split(Collapse(line))))
    ensures Split(Collapse(Rewrite(line).value)) == Split(Collapse(line))[..5]
    ensures StartsWith(Collapse(Rewrite(line).value), "TEFF")
  {
    var a := Collapse(line);
    var fs := Split(a);
    CollapseTidy(line);
    TeffFields(a);
    TeffField(a);
    RecreateCollapses(fs);
    SplitJoin(fs[..5]);
  }

  // Where the old text is found, reading from the left.
  predicate Occurs(s: string, p: int) {
    0 <= p && p + 13 <= |s| && s[p..p + 13] == OLD
  }

  // Two occurrences cannot overlap, as R is only its first letter.
  lemma NoOverlap(s: string, p: int, q: int)
    requires Occurs(s, p) && Occurs(s, q) && p < q
    ensures p + 13 <= q
  {
    assert s[p] == 'R' && s[q] == OLD[0];
  }

  lemma OccursTail(s: string, n: nat, p: int)
    requires n <= |s|
    ensures p >= 0 ==> (Occurs(s[n..], p) <==> Occurs(s, p + n))
  {
    if p >= 0 && p + n + 13 <= |s| {
      assert s[n..][p..p + 13] == s[p + n..p + n + 13];
    }
  }

  function ReplacedAt(s: string, i: nat): char
    requires i < |s|
  {
    if Occurs(s, i - 11) then '6' else if Occurs(s, i - 12) then '4' else s[i]
  }

  /** The replacement changes exactly the two digits of every "READ DECK6 72". */
  lemma ReplacedDigits(s: string, i: nat)
    requires i < |s|
    ensures |Replace(s)| == |s|
    ensures Replace(s)[i] ==
              if i >= 11 && i + 2 <= |s| && s[i - 11..i + 2] == "READ DECK6 72" then '6'
              else if i >= 12 && s[i - 12..i + 1] == "READ DECK6 72" then '4'
              else s[i]
  {
    ReplaceExact(s);
  }

  // The same with the occurrences named.
  lemma {:induction false} ReplaceExact(s: string)
    ensures |Replace(s)| == |s|
    ensures forall i | 0 <= i < |s| :: Replace(s)[i] == ReplacedAt(s, i)
    decreases |s|
  {
    if s != "" {
      if StartsWith(s, OLD) {
        ReplaceExact(s[13..]);
        assert Occurs(s, 0) by { assert s[0..13] == s[..13]; }
        forall i | 0 <= i < |s|
          ensures Replace(s)[i] == ReplacedAt(s, i)
        {
          ReplacedAfterHit(s, i);
        }
      } else {
        ReplaceExact(s[1..]);
        assert !Occurs(s, 0) by { if |s| >= 13 { assert s[0..13] == s[..13]; } }
        forall i | 0 <= i < |s|
          ensures Replace(s)[i] == ReplacedAt(s, i)
        {
          if i > 0 {
            OccursTail(s, 1, i - 12);
            OccursTail(s, 1, i - 13);
            assert Replace(s)[i] == Replace(s[1..])[i - 1];
          }
        }
      }
    }
  }

  lemma ReplacedAfterHit(s: string, i: nat)
    requires i < |s| && StartsWith(s, OLD) && Occurs(s, 0)
    requires |Replace(s[13..])| == |s| - 13
    requires forall j | 0 <= j < |s| - 13 :: Replace(s[13..])[j] == ReplacedAt(s[13..], j)
    ensures Replace(s)[i] == ReplacedAt(s, i)
  {
    if Occurs(s, i - 11) && i - 11 > 0 {
      NoOverlap(s, 0, i - 11);
    }
    if Occurs(s, i - 12) && i - 12 > 0 {
      NoOverlap(s, 0, i - 12);
    }
    if i < 13 {
      assert Replace(s)[i] == NEW[i];
      assert s[i] == OLD[i];
      if i == 12 && Occurs(s, 1) {
        NoOverlap(s, 0, 1);
      }
    } else {
      OccursTail(s, 13, i - 24);
      OccursTail(s, 13, i - 25);
      assert Replace(s)[i] == Replace(s[13..])[i - 13];
      AfterHitShift(s, i);
    }
  }

  // Positions past the first hit refer to occurrences past it.
  lemma AfterHitShift(s: string, i: nat)
    requires 13 <= i < |s| && Occurs(s, 0)
    ensures Occurs(s[13..], i - 24) <==> Occurs(s, i - 11)
    ensures Occurs(s[13..], i - 25) <==> Occurs(s, i - 12)
  {
    PastHit(s, i - 24);
    PastHit(s, i - 25);
  }

  lemma PastHit(s: string, p: int)
    requires |s| >= 13 && Occurs(s, 0) && p + 13 > 0
    ensures Occurs(s[13..], p) <==> Occurs(s, p + 13)
  {
    if p >= 0 {
      OccursTail(s, 13, p);
    } else if Occurs(s, p + 13) {
      NoOverlap(s, 0, p + 13);
    }
  }

  lemma ReplaceKeepsBlanks(a: string)
    requires Tidy(a)
    ensures Tidy(Replace(a))
    ensures forall i | 0 <= i < |a| :: |Replace(a)| == |a| && (Replace(a)[i] == ' ' <==> a[i] == ' ')
  {
    ReplaceExact(a);
    forall i | 0 <= i < |a|
      ensures Replace(a)[i] == ' ' <==> a[i] == ' '
      ensures IsSpace(Replace(a)[i]) ==> a[i] == ' '
    {
      if Occurs(a, i - 11) {
        assert a[i - 11..i + 2][11] == OLD[11];
      }
      if Occurs(a, i - 12) {
        assert a[i - 12..i + 1][12] == OLD[12];
      }
    }
  }

  // The number of fields and their lengths depend on the blanks alone.
  lemma {:induction false} SameBlanksSameShape(a: string, b: string)
    requires |a| == |b| && forall i | 0 <= i < |a| :: a[i] == ' ' <==> b[i] == ' '
    ensures |Split(a)| == |Split(b)| && forall k | 0 <= k < |Split(a)| :: |Split(a)[k]| == |Split(b)[k]|
  {
    if a != "" {
      SameBlanksSameShape(a[1..], b[1..]);
    }
  }

  /** A READ line keeps its fields in number and length, and every byte but the
      two digits of each "READ DECK6 72". */
  lemma ReadKeepsFields(line: string)
    requires |Collapse(line)| >= 13 && Collapse(line)[..13] == "READ DECK6 72"
    ensures var a := Collapse(line);
            Rewrite(line).Some? &&
            var r := Rewrite(line).value;
            && |r| == |a| && (forall i | 0 <= i < |a| :: r[i] == ReplacedAt(a, i))
            && |Split(r)| == |Split(a)| && (forall k | 0 <= k < |Split(a)| :: |Split(r)[k]| == |Split(a)[k]|)
            && r[..13] == "READ DECK6 64"
  {
    var a := Collapse(line);
    CollapseTidy(line);
    assert a[0] == 'R';
    ReplaceExact(a);
    ReplaceKeepsBlanks(a);
    SameBlanksSameShape(Replace(a), a);
  }

  /** Rewriting a line twice is rewriting it once. */
  lemma RewriteTwice(line: string)
    requires Rewrite(line).Some?
    ensures Rewrite(Rewrite(line).value) == Rewrite(line)
  {
    var a := Collapse(line);
    CollapseTidy(line);
    if StartsWith(a, "TEFF") {
      TeffKeepsFields(line);
      SameRecreation(Split(a));
    } else if StartsWith(a, OLD) {
      ReadKeepsFields(line);
      ReplaceKeepsBlanks(a);
      TidyCollapse(Replace(a));
      assert Replace(a)[11] == '6' && Replace(a)[0] == 'R';
      assert OLD[11] == '7';
    } else {
      TidyCollapse(a);
    }
  }

  lemma SameRecreation(fs: seq<string>)
    requires |fs| >= 5
    ensures Recreate(fs[..5]) == Recreate(fs)
  {
  }

  // ----- Words of a line, whatever the white space -----

  function WordLength(s: string): (n: nat)
    ensures n <= |s|
    ensures forall i | 0 <= i < n :: !IsSpace(s[i])
    ensures n < |s| ==> IsSpace(s[n])
  {
    if s == "" || IsSpace(s[0]) then 0 else 1 + WordLength(s[1..])
  }

  // strings.Fields
  function Words(s: string): seq<string>
    decreases |s|
  {
    var t := SkipSpaces(s);
    if t == "" then [] else [t[..WordLength(t)]] + Words(t[WordLength(t)..])
  }

  lemma {:induction false} WordLengthOf(w: string, y: string)
    requires Word(w) && (y != "" ==> IsSpace(y[0]))
    ensures WordLength(w + y) == |w|
  {
    if w == "" {
      assert w + y == y;
    } else {
      WordLengthOf(w[1..], y);
      assert (w + y)[1..] == w[1..] + y;
    }
  }

  lemma WordsCons(w: string, y: string)
    requires Word(w) && w != "" && (y != "" ==> IsSpace(y[0]))
    ensures Words(w + y) == [w] + Words(y)
  {
    WordLengthOf(w, y);
    assert SkipSpaces(w + y) == w + y;
    assert (w + y)[..|w|] == w && (w + y)[|w|..] == y;
  }

  lemma {:induction false} CollapseKeepsWords(s: string)
    ensures Words(Collapse(s)) == Words(s)
    decreases |s|
  {
    if s != "" {
      if IsSpace(s[0]) {
        var t := SkipSpaces(s[1..]);
        CollapseKeepsWords(t);
        assert SkipSpaces(t) == t;
        assert Words(s) == Words(t);
        assert (" " + Collapse(t))[1..] == Collapse(t);
      } else {
        var n := WordLength(s);
        var w, y := s[..n], s[n..];
        assert s == w + y;
        CollapseWord(w, y);
        CollapseKeepsWords(y);
        CollapseTidy(y);
        WordsCons(w, y);
        WordsCons(w, Collapse(y));
      }
    }
  }

  function NonEmpty(fs: seq<string>): seq<string> {
    if fs == [] then [] else (if fs[0] == "" then [] else [fs[0]]) + NonEmpty(fs[1..])
  }

  lemma {:induction false} WordsJoin(fs: seq<string>)
    requires forall i | 0 <= i < |fs| :: Word(fs[i])
    ensures Words(Join(fs)) == NonEmpty(fs)
  {
    if |fs| == 1 {
      if fs[0] != "" {
        WordsCons(fs[0], "");
        assert fs[0] + "" == fs[0];
      }
    } else if |fs| > 1 {
      WordsJoin(fs[1..]);
      var y := " " + Join(fs[1..]);
      assert y[1..] == Join(fs[1..]);
      assert Join(fs) == fs[0] + y;
      assert Words(y) == Words(Join(fs[1..]));
      if fs[0] != "" {
        WordsCons(fs[0], y);
      } else {
        assert fs[0] + y == y;
      }
    }
  }

  lemma {:induction false} NonEmptySplits(fs: seq<string>, k: nat)
    requires k <= |fs|
    ensures NonEmpty(fs) == NonEmpty(fs[..k]) + NonEmpty(fs[k..])
    ensures (forall i | 0 <= i < k :: fs[i] != "") ==> NonEmpty(fs[..k]) == fs[..k]
  {
    if k > 0 {
      NonEmptySplits(fs[1..], k - 1);
      assert fs[..k][1..] == fs[1..][..k - 1];
      assert fs[k..] == fs[1..][k - 1..];
      assert fs[..k] == [fs[0]] + fs[1..][..k - 1];
    } else {
      assert fs[0..] == fs;
    }
  }

  // In terms of the words of the input line.
  lemma TeffWords(a: string)
    requires Tidy(a) && StartsWith(a, "TEFF") && |Split(a)| >= 5
    ensures Words(Join(Split(a)[..5])) == Words(a)[..if |Words(a)| < 5 then |Words(a)| else 5]
    ensures |Words(a)| >= 4
  {
    var fs := Split(a);
    SplitTidy(a);
    JoinSplit(a);
    WordsJoin(fs);
    WordsJoin(fs[..5]);
    FirstFive(fs);
  }

  lemma FirstFive(fs: seq<string>)
    requires |fs| >= 5 && (forall i | 0 <= i < 4 :: fs[i] != "") && (|fs| > 5 ==> fs[4] != "")
    ensures NonEmpty(fs[..5]) == NonEmpty(fs)[..if |NonEmpty(fs)| < 5 then |NonEmpty(fs)| else 5]
    ensures |NonEmpty(fs)| >= 4
  {
    if fs[4] != "" {
      NonEmptySplits(fs, 5);
    } else {
      assert fs[..5] == fs;
      NonEmptySplits(fs, 4);
      assert NonEmpty(fs[4..]) == [] by { assert fs[4..] == [""]; }
    }
  }

  /** No word is invented, lost or moved: a TEFF line keeps its first five words,
      a READ line is treated digit by digit (`ReadKeepsFields`), and any other
      line keeps all its words. */
  lemma RewriteKeepsWords(line: string)
    requires Rewrite(line).Some?
    ensures var a := Collapse(line);
            && (StartsWith(a, "TEFF") ==>
                  Words(Rewrite(line).value) == Words(line)[..if |Words(line)| < 5 then |Words(line)| else 5])
            && (!StartsWith(a, "TEFF") && !StartsWith(a, "READ DECK6 72") ==>
                  Rewrite(line).value == a && Words(a) == Words(line))
  {
    var a := Collapse(line);
    CollapseTidy(line);
    CollapseKeepsWords(line);
    if StartsWith(a, "TEFF") {
      TeffFields(a);
      RecreateCollapses(Split(a));
      CollapseKeepsWords(Recreate(Split(a)));
      TeffWords(a);
    }
  }

  // ----- Columns -----

  // Offset of the third field in the rebuilt line.
  function ThirdColumn(fs: seq<string>): nat
    requires |fs| >= 5
  {
    |fs[0]| + (if |fs[1]| == 6 then 2 else 1) + |fs[1]| + 1
  }

  /** The third field starts at the same column for temperatures of six and of
      seven characters, and for no other length. */
  lemma ThirdFieldColumn(fs: seq<string>)
    requires |fs| >= 5
    ensures ThirdColumn(fs) + |fs[2]| <= |Recreate(fs)|
    ensures Recreate(fs)[ThirdColumn(fs)..ThirdColumn(fs) + |fs[2]|] == fs[2]
    ensures ThirdColumn(fs) == |fs[0]| + 9 <==> |fs[1]| == 6 || |fs[1]| == 7
  {
    var gap := if |fs[1]| == 6 then "  " else " ";
    var tail := "  " + (fs[3] + "   " + fs[4]);
    Middle(fs[0] + gap + fs[1] + " ", fs[2], tail);
    Regroup(fs[0], gap, fs[1], " ", fs[2] + tail);
  }

  lemma Regroup(a: string, b: string, c: string, d: string, e: string)
    ensures a + b + (c + d + e) == (a + b + c + d) + e
  {
  }

  lemma Middle(a: string, b: string, c: string)
    ensures (a + (b + c))[|a|..|a| + |b|] == b
  {
  }

  /** Where the five fields of a rebuilt line start, and what is between them: two
      blanks after the first field if the second has six characters, else one; one
      after the second; two after the third; three after the fourth; and nothing
      after the fifth. */
  lemma FieldColumns(fs: seq<string>) returns (r: string, gap: string, c1: nat, c2: nat, c3: nat, c4: nat)
    requires |fs| >= 5
    ensures r == Recreate(fs) && gap == (if |fs[1]| == 6 then "  " else " ")
    ensures c1 == |fs[0]| + |gap| && c2 == c1 + |fs[1]| + 1 && c3 == c2 + |fs[2]| + 2 && c4 == c3 + |fs[3]| + 3
    ensures |r| == c4 + |fs[4]|
    ensures r == fs[0] + gap + r[c1..]
    ensures r[c1..] == fs[1] + " " + r[c2..] && r[c2..] == fs[2] + "  " + r[c3..]
    ensures r[c3..] == fs[3] + "   " + r[c4..] && r[c4..] == fs[4]
  {
    r := Recreate(fs);
    gap := if |fs[1]| == 6 then "  " else " ";
    var t3 := fs[3] + "   " + fs[4];
    var t2 := fs[2] + "  " + t3;
    var t1 := fs[1] + " " + t2;
    RecreateIsNested(fs, gap);
    c1 := |fs[0]| + |gap|;
    FirstLayer(r, fs[0], gap, t1);
    c2, c3, c4 := Layers(r, c1, fs[1], t1, fs[2], t2, fs[3], t3, fs[4]);
  }

  lemma Layers(r: string, c1: nat, f1: string, t1: string, f2: string, t2: string, f3: string, t3: string, f4: string)
    returns (c2: nat, c3: nat, c4: nat)
    requires c1 <= |r| && r[c1..] == t1
    requires t1 == f1 + " " + t2 && t2 == f2 + "  " + t3 && t3 == f3 + "   " + f4
    ensures c2 == c1 + |f1| + 1 && c3 == c2 + |f2| + 2 && c4 == c3 + |f3| + 3 && |r| == c4 + |f4|
    ensures r[c1..] == f1 + " " + r[c2..] && r[c2..] == f2 + "  " + r[c3..] && r[c3..] == f3 + "   " + r[c4..]
    ensures r[c4..] == f4
  {
    c2 := c1 + |f1| + 1;
    c3 := c2 + |f2| + 2;
    c4 := c3 + |f3| + 3;
    Layer(r, c1, f1, " ", t2);
    Layer(r, c2, f2, "  ", t3);
    Layer(r, c3, f3, "   ", f4);
  }

  lemma FirstLayer(r: string, field: string, gap: string, rest: string)
    requires r == field + gap + rest
    ensures |field| + |gap| <= |r| && r[|field| + |gap|..] == rest && r == field + gap + r[|field| + |gap|..]
  {
    assert r[0..] == r;
    Layer(r, 0, field, gap, rest);
  }

  // One field and the gap after it.
  lemma Layer(r: string, n: nat, field: string, gap: string, rest: string)
    requires n <= |r| && r[n..] == field + gap + rest
    ensures |r| == n + |field| + |gap| + |rest|
    ensures r[n + |field| + |gap|..] == rest && r[n..] == field + gap + r[n + |field| + |gap|..]
  {
    assert r[n..][|field| + |gap|..] == r[n + |field| + |gap|..];
    assert (field + gap + rest)[|field| + |gap|..] == rest;
  }

  lemma RecreateIsNested(fs: seq<string>, gap: string)
    requires |fs| >= 5 && gap == if |fs[1]| == 6 then "  " else " "
    ensures Recreate(fs) == fs[0] + gap + (fs[1] + " " + (fs[2] + "  " + (fs[3] + "   " + fs[4])))
  {
    assert fs[3] + ("   " + fs[4]) == fs[3] + "   " + fs[4];
  }

  /** White space is blank, tab, newline, form feed and carriage return, and the
      collapse loses and adds no other byte. */
  lemma IsSpaceExactly(c: char)
    ensures IsSpace(c) <==> c as int == 32 || c as int == 9 || c as int == 10 || c as int == 12 || c as int == 13
  {
  }

  function Bytes(s: string): string {
    if s == "" then "" else (if IsSpace(s[0]) then "" else [s[0]]) + Bytes(s[1..])
  }

  lemma {:induction false} SkipKeepsBytes(s: string)
    ensures Bytes(SkipSpaces(s)) == Bytes(s)
  {
    if s != "" && IsSpace(s[0]) {
      SkipKeepsBytes(s[1..]);
    }
  }

  lemma {:induction false} CollapseKeepsBytes(s: string)
    ensures Bytes(Collapse(s)) == Bytes(s)
    decreases |s|
  {
    if s != "" {
      if IsSpace(s[0]) {
        SkipKeepsBytes(s[1..]);
        CollapseKeepsBytes(SkipSpaces(s[1..]));
        assert (" " + Collapse(SkipSpaces(s[1..])))[1..] == Collapse(SkipSpaces(s[1..]));
      } else {
        CollapseKeepsBytes(s[1..]);
        assert ([s[0]] + Collapse(s[1..]))[1..] == Collapse(s[1..]);
      }
    }
  }
}
