/** pkg/pipelines/vega.go: the input file of synspec as a whole, written from the
    model files below the calculation's folder. */
module SynspecFile {
  import opened Objects
  import opened Synspec

  // What the walk visits, in its order. The contents of a folder do not matter.
  // With `fault` a file cannot be opened or read to its end, and `data` is what
  // is read of it.
  datatype Entry = Entry(base: string, isDir: bool, data: string, fault: bool)

  // Failed is the error returned, or the exit of the process; nothing is written.
  datatype Outcome = Written(fort8: string) | Panicked | Failed

  const MOD_PREFIX := "t10000_400_72_strat.mod"

  predicate IsModel(e: Entry) {
    !e.isDir && StartsWith(e.base, MOD_PREFIX)
  }

  // ----- bufio.ScanLines -----

  function LineLength(s: string): (n: nat)
    ensures n <= |s| && '\n' !in s[..n]
    ensures n < |s| ==> s[n] == '\n'
  {
    if s == "" || s[0] == '\n' then 0 else 1 + LineLength(s[1..])
  }

  function DropCR(s: string): string {
    if s != "" && s[|s| - 1] == '\r' then s[..|s| - 1] else s
  }

  // No empty line after a last newline.
  function ScanLines(s: string): seq<string>
    decreases |s|
  {
    if s == "" then []
    else
      var n := LineLength(s);
      [DropCR(s[..n])] + if n < |s| then ScanLines(s[n + 1..]) else []
  }

  /** What the scanner reads, from the front: a line up to its newline, less one
      carriage return at its end; a last line need not have a newline; and nothing
      from nothing. Every text is of one of these forms. */
  lemma ScanExactly(r: string, t: string)
    requires '\n' !in r
    ensures var line := if r != "" && r[|r| - 1] == '\r' then r[..|r| - 1] else r;
            && ScanLines(r + "\n" + t) == [line] + ScanLines(t)
            && (r != "" ==> ScanLines(r) == [line])
    ensures ScanLines("") == []
  {
    LineLengthOf(r, t);
    assert (r + "\n" + t)[..|r|] == r && (r + "\n" + t)[|r| + 1..] == t;
    LineLengthOfAll(r);
    assert r[..|r|] == r;
  }

  lemma {:induction false} LineLengthOfAll(r: string)
    requires '\n' !in r
    ensures LineLength(r) == |r|
  {
    if r != "" {
      LineLengthOfAll(r[1..]);
    }
  }

  // ----- The file that is written -----

  // None once a line panics.
  function Rebuilt(lines: seq<string>): Option<string> {
    if lines == [] then Some("")
    else match Rewrite(lines[0])
      case None => None
      case Some(r) => Prefixed(r + "\n", Rebuilt(lines[1..]))
  }

  function Prefixed(s: string, o: Option<string>): Option<string> {
    match o
    case None => None
    case Some(t) => Some(s + t)
  }

  function ModelLines(entries: seq<Entry>): seq<string> {
    if entries == [] then []
    else (if IsModel(entries[0]) then ScanLines(entries[0].data) else []) + ModelLines(entries[1..])
  }

  /** The lines that are rewritten: those of the files, not folders, whose name
      starts with the prefix of the model files, in the order of the walk. */
  lemma ModelLinesExactly(e: Entry, entries: seq<Entry>)
    ensures ModelLines([]) == []
    ensures ModelLines([e] + entries) ==
              (if !e.isDir && |e.base| >= 23 && e.base[..23] == "t10000_400_72_strat.mod" then ScanLines(e.data) else [])
              + ModelLines(entries)
  {
    assert ([e] + entries)[1..] == entries;
  }

  lemma PrefixedTwice(s: string, t: string, o: Option<string>)
    ensures Prefixed(s, Prefixed(t, o)) == Prefixed(s + t, o)
  {
    if o.Some? {
      assert s + (t + o.value) == (s + t) + o.value;
    }
  }

  lemma {:induction false} RebuiltConcat(a: seq<string>, b: seq<string>)
    ensures Rebuilt(a + b) == if Rebuilt(a).None? then None else Prefixed(Rebuilt(a).value, Rebuilt(b))
  {
    if a == [] {
      assert a + b == b;
      PrefixedEmpty(Rebuilt(b));
    } else {
      RebuiltConcat(a[1..], b);
      assert (a + b)[1..] == a[1..] + b;
      if Rewrite(a[0]).Some? && Rebuilt(a[1..]).Some? {
        PrefixedTwice(Rewrite(a[0]).value + "\n", Rebuilt(a[1..]).value, Rebuilt(b));
      }
    }
  }

  lemma PrefixedEmpty(o: Option<string>)
    ensures Prefixed("", o) == o
  {
    if o.Some? {
      assert "" + o.value == o.value;
    }
  }

  // The visit of one file, appending to the contents so far.
  method Visit(e: Entry, contents: string) returns (r: Option<string>)
    ensures r == Prefixed(contents, Rebuilt(if IsModel(e) then ScanLines(e.data) else []))
  {
    var c := contents;
    if IsModel(e) {
      var lines := ScanLines(e.data);
      for j := 0 to |lines|
        invariant Prefixed(c, Rebuilt(lines[j..])) == Prefixed(contents, Rebuilt(lines))
      {
        var toAppend := Rewrite(lines[j]);
        assert lines[j..][1..] == lines[j + 1..];
        match toAppend
        case None =>
          return None;
        case Some(line) =>
          PrefixedTwice(c, line + "\n", Rebuilt(lines[j + 1..]));
          c := c + (line + "\n");
      }
      assert lines[|lines|..] == [];
    }
    assert c + "" == c;
    r := Some(c);
  }

  // Position of the first model file with a fault, or |entries|.
  function FirstFault(entries: seq<Entry>): (k: nat)
    ensures k <= |entries|
    ensures k < |entries| ==> IsModel(entries[k]) && entries[k].fault
    ensures forall i | 0 <= i < k :: !(IsModel(entries[i]) && entries[i].fault)
  {
    if entries == [] || (IsModel(entries[0]) && entries[0].fault) then 0 else 1 + FirstFault(entries[1..])
  }

  // What is visited: everything up to the first fault.
  function Visited(entries: seq<Entry>): seq<Entry> {
    entries[..if FirstFault(entries) < |entries| then FirstFault(entries) + 1 else |entries|]
  }

  function Result(entries: seq<Entry>, writable: bool): Outcome {
    match Rebuilt(ModelLines(Visited(entries)))
    case None => Panicked
    case Some(t) => if FirstFault(entries) < |entries| || !writable then Failed else Written(t)
  }

  lemma NextEntry(contents: string, entries: seq<Entry>)
    requires entries != []
    ensures var lines := if IsModel(entries[0]) then ScanLines(entries[0].data) else [];
            var visit := Prefixed(contents, Rebuilt(lines));
            Prefixed(contents, Rebuilt(ModelLines(entries))) ==
              if visit.None? then None else Prefixed(visit.value, Rebuilt(ModelLines(entries[1..])))
  {
    var lines := if IsModel(entries[0]) then ScanLines(entries[0].data) else [];
    RebuiltConcat(lines, ModelLines(entries[1..]));
    if Rebuilt(lines).Some? {
      PrefixedTwice(contents, Rebuilt(lines).value, Rebuilt(ModelLines(entries[1..])));
    }
  }

  /** One line for every line of every model file, in the order of the walk. A
      TEFF line with too few fields panics, unless a file failed before it. */
  method ReconstructSynspecInputFile(entries: seq<Entry>, writable: bool) returns (r: Outcome)
    ensures r == Result(entries, writable)
  {
    var contents := "";
    ghost var read := Visited(entries);
    PrefixedEmpty(Rebuilt(ModelLines(read)));
    assert read[0..] == read;
    for i := 0 to |entries|
      invariant i <= |read|
      invariant forall k | 0 <= k < i :: !(IsModel(entries[k]) && entries[k].fault)
      invariant Prefixed(contents, Rebuilt(ModelLines(read[i..]))) == Rebuilt(ModelLines(read))
    {
      assert read[i..][0] == entries[i] && read[i..][1..] == read[i + 1..];
      NextEntry(contents, read[i..]);
      var visit := Visit(entries[i], contents);
      if visit.None? {
        return Panicked;
      }
      contents := visit.value;
      if IsModel(entries[i]) && entries[i].fault {
        assert read[i + 1..] == [];
        return Failed;
      }
    }
    assert read[|entries|..] == [];
    assert contents + "" == contents;
    r := if writable then Written(contents) else Failed;
  }

  // ----- Properties of the whole file -----

  // What a line of the file can hold: no white space but blanks.
  predicate Blanks(s: string) {
    forall i | 0 <= i < |s| && IsSpace(s[i]) :: s[i] == ' '
  }

  lemma RewriteBlanks(line: string)
    requires Rewrite(line).Some?
    ensures Blanks(Rewrite(line).value)
  {
    var a := Collapse(line);
    CollapseTidy(line);
    if StartsWith(a, "TEFF") {
      RecreateBlanks(Split(a)) by { TeffFields(a); }
    } else if StartsWith(a, OLD) {
      ReplaceKeepsBlanks(a);
    }
  }

  lemma BlanksJoin(s: string, t: string)
    requires Blanks(s) && Blanks(t)
    ensures Blanks(s + t)
  {
  }

  lemma RecreateBlanks(fs: seq<string>)
    requires FiveFields(fs)
    ensures Blanks(Recreate(fs))
  {
    RecreateIsRest(fs);
    RestBlanks(fs, 1);
    BlanksJoin(fs[0] + (if |fs[1]| == 6 then "  " else " "), Rest(fs, 1));
  }

  lemma {:induction false} RestBlanks(fs: seq<string>, i: nat)
    requires FiveFields(fs) && 1 <= i < 5
    ensures Blanks(Rest(fs, i))
    decreases 5 - i
  {
    if i < 4 {
      RestBlanks(fs, i + 1);
      BlanksJoin(fs[i] + (if i == 1 then " " else if i == 2 then "  " else "   "), Rest(fs, i + 1));
    }
  }

  lemma {:induction false} LineLengthOf(r: string, t: string)
    requires '\n' !in r
    ensures LineLength(r + "\n" + t) == |r|
  {
    if r == "" {
      assert ("" + "\n" + t)[0] == '\n';
    } else {
      LineLengthOf(r[1..], t);
      assert (r + "\n" + t)[1..] == r[1..] + "\n" + t;
    }
  }

  lemma ScanLine(r: string, t: string)
    requires Blanks(r)
    ensures ScanLines(r + "\n" + t) == [r] + ScanLines(t)
  {
    var s := r + "\n" + t;
    if '\n' in r {
      var i :| 0 <= i < |r| && r[i] == '\n';
      assert IsSpace(r[i]);
    }
    LineLengthOf(r, t);
    assert s[..|r|] == r && s[|r| + 1..] == t;
    assert r != "" ==> r[|r| - 1] != '\r';
  }

  // The written file holds the rewritten lines, one each.
  lemma {:induction false} RebuiltLines(lines: seq<string>)
    requires Rebuilt(lines).Some?
    ensures |ScanLines(Rebuilt(lines).value)| == |lines|
    ensures forall k | 0 <= k < |lines| :: Rewrite(lines[k]) == Some(ScanLines(Rebuilt(lines).value)[k])
  {
    if lines != [] {
      RebuiltLines(lines[1..]);
      RewriteBlanks(lines[0]);
      ScanLine(Rewrite(lines[0]).value, Rebuilt(lines[1..]).value);
    }
  }

  // Every line ends with a newline, and there is no carriage return.
  lemma {:induction false} RebuiltEnds(lines: seq<string>)
    requires Rebuilt(lines).Some?
    ensures var out := Rebuilt(lines).value; (out != "" ==> out[|out| - 1] == '\n') && '\r' !in out
  {
    if lines != [] {
      RebuiltEnds(lines[1..]);
      RewriteBlanks(lines[0]);
      var r := Rewrite(lines[0]).value;
      assert '\r' !in r by {
        if i :| 0 <= i < |r| && r[i] == '\r' {
          assert IsSpace(r[i]);
        }
      }
    }
  }

  lemma {:induction false} RebuiltPanics(lines: seq<string>)
    ensures Rebuilt(lines).None? <==> exists k | 0 <= k < |lines| :: Rewrite(lines[k]).None?
  {
    if lines != [] {
      RebuiltPanics(lines[1..]);
      if k :| 0 <= k < |lines| && Rewrite(lines[k]).None? {
        assert k > 0 ==> lines[1..][k - 1] == lines[k];
      }
      if Rebuilt(lines[1..]).None? {
        var k :| 0 <= k < |lines[1..]| && Rewrite(lines[1..][k]).None?;
        assert Rewrite(lines[k + 1]).None?;
      }
    }
  }

  // Rewritten lines are left alone.
  lemma {:induction false} RebuiltFixed(lines: seq<string>)
    requires Rebuilt(lines).Some?
    ensures Rebuilt(ScanLines(Rebuilt(lines).value)) == Rebuilt(lines)
  {
    if lines != [] {
      var r, t := Rewrite(lines[0]).value, Rebuilt(lines[1..]).value;
      RebuiltFixed(lines[1..]);
      RewriteBlanks(lines[0]);
      ScanLine(r, t);
      RewriteTwice(lines[0]);
      assert ([r] + ScanLines(t))[1..] == ScanLines(t);
    }
  }

  /** The rewrite of a whole folder: it panics exactly when a TEFF line of some
      model file has fewer than five fields; otherwise the file has as many lines
      as the model files together, the k-th being the rewritten k-th, and taken
      as a model file itself it is written back unchanged. */
  lemma ReconstructTwice(entries: seq<Entry>, name: string)
    requires StartsWith(name, MOD_PREFIX)
    ensures var lines := ModelLines(entries);
            && (Rebuilt(lines).None? <==>
                  exists k | 0 <= k < |lines| ::
                    StartsWith(Collapse(lines[k]), "TEFF") && |Split(Collapse(lines[k]))| < 5)
            && (Rebuilt(lines).Some? ==>
                  var out := Rebuilt(lines).value;
                  && |ScanLines(out)| == |lines|
                  && (out != "" ==> out[|out| - 1] == '\n') && '\r' !in out
                  && (forall k | 0 <= k < |lines| :: Rewrite(lines[k]) == Some(ScanLines(out)[k]))
                  && Rebuilt(ModelLines([Entry(name, false, out, false)])) == Some(out))
  {
    var lines := ModelLines(entries);
    RebuiltPanics(lines);
    if Rebuilt(lines).None? {
      var k :| 0 <= k < |lines| && Rewrite(lines[k]).None?;
      assert StartsWith(Collapse(lines[k]), "TEFF") && |Split(Collapse(lines[k]))| < 5;
    } else {
      var out := Rebuilt(lines).value;
      RebuiltLines(lines);
      RebuiltFixed(lines);
      RebuiltEnds(lines);
      assert ModelLines([Entry(name, false, out, false)]) == ScanLines(out);
    }
  }
}
