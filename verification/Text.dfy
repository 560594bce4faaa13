/** The string functions of Go's `strings` and `bufio` packages that the operator relies on. */
module Text {

  /** strings.Split with a one-character separator. */
  function Split(s: string, sep: char): (parts: seq<string>)
    ensures |parts| >= 1
  {
    if s == "" then [""]
    else
      var rest := Split(s[1..], sep);
      if s[0] == sep then [""] + rest else [[s[0]] + rest[0]] + rest[1..]
  }

  /** strings.Join with a one-character separator. */
  function Join(parts: seq<string>, sep: char): string
  {
    if |parts| == 0 then ""
    else if |parts| == 1 then parts[0]
    else parts[0] + [sep] + Join(parts[1..], sep)
  }

  /** No part contains the separator. */
  ghost predicate AllFree(parts: seq<string>, sep: char)
  {
    forall i :: 0 <= i < |parts| ==> sep !in parts[i]
  }

  lemma {:induction false} SplitPartsFree(s: string, sep: char)
    ensures AllFree(Split(s, sep), sep)
  {
    if s != "" {
      SplitPartsFree(s[1..], sep);
    }
  }

  /** Joining undoes splitting, for every text. */
  lemma {:induction false} JoinSplit(s: string, sep: char)
    ensures Join(Split(s, sep), sep) == s
  {
    if s != "" {
      JoinSplit(s[1..], sep);
      var rest := Split(s[1..], sep);
      assert s == [s[0]] + s[1..];
      if s[0] == sep {
        assert ([""] + rest)[1..] == rest;
      } else {
        var parts := [[s[0]] + rest[0]] + rest[1..];
        assert parts[1..] == rest[1..];
      }
    }
  }

  lemma {:induction false} SplitFree(a: string, sep: char)
    requires sep !in a
    ensures Split(a, sep) == [a]
  {
    if a != "" {
      SplitFree(a[1..], sep);
      assert a == [a[0]] + a[1..];
    }
  }

  lemma {:induction false} SplitHead(a: string, sep: char, rest: string)
    requires sep !in a
    ensures Split(a + [sep] + rest, sep) == [a] + Split(rest, sep)
  {
    var s := a + [sep] + rest;
    if a == "" {
      assert s[1..] == rest;
    } else {
      assert s[1..] == a[1..] + [sep] + rest;
      SplitHead(a[1..], sep, rest);
      assert a == [a[0]] + a[1..];
    }
  }

  /** Splitting undoes joining exactly for non-empty lists of separator-free parts. */
  lemma {:induction false} SplitJoin(parts: seq<string>, sep: char)
    ensures Split(Join(parts, sep), sep) == parts <==> |parts| >= 1 && AllFree(parts, sep)
  {
    if |parts| >= 1 && AllFree(parts, sep) {
      SplitJoinFree(parts, sep);
    } else if |parts| >= 1 {
      SplitPartsFree(Join(parts, sep), sep);
    }
  }

  lemma {:induction false} SplitJoinFree(parts: seq<string>, sep: char)
    requires |parts| >= 1 && AllFree(parts, sep)
    ensures Split(Join(parts, sep), sep) == parts
  {
    if |parts| == 1 {
      SplitFree(parts[0], sep);
    } else {
      SplitJoinFree(parts[1..], sep);
      SplitHead(parts[0], sep, Join(parts[1..], sep));
    }
  }

  /** The part of `s` before its first `sep`, all of `s` when there is none: `Split(s, sep)[0]`. */
  function Head(s: string, sep: char): string
  {
    Split(s, sep)[0]
  }

  /** A text splits into more than one part exactly when it holds the separator. */
  lemma {:induction false} SplitCount(s: string, sep: char)
    ensures |Split(s, sep)| >= 2 <==> sep in s
  {
    if s != "" {
      SplitCount(s[1..], sep);
      assert s == [s[0]] + s[1..];
    }
  }

  /** strings.Replace(s, from, to, -1) for single characters. */
  function Replace(s: string, from: char, to: char): (r: string)
    ensures |r| == |s|
    ensures forall i :: 0 <= i < |s| ==> r[i] == if s[i] == from then to else s[i]
  {
    if s == "" then "" else [if s[0] == from then to else s[0]] + Replace(s[1..], from, to)
  }

  function DropCR(line: string): string
  {
    if |line| > 0 && line[|line| - 1] == '\r' then line[..|line| - 1] else line
  }

  function DropCRs(lines: seq<string>): (r: seq<string>)
    ensures |r| == |lines|
    ensures forall i :: 0 <= i < |lines| ==> r[i] == DropCR(lines[i])
  {
    if |lines| == 0 then [] else [DropCR(lines[0])] + DropCRs(lines[1..])
  }

  /** The tokens of a bufio.Scanner with its default line splitter, for lines below its buffer limit. */
  function ScanLines(s: string): seq<string>
  {
    DropCRs(DropLastEmpty(Split(s, '\n')))
  }

  /** No newline in a line, no carriage return at its end, and the last line is not empty. */
  ghost predicate Scannable(lines: seq<string>)
  {
    && AllFree(lines, '\n')
    && (forall i :: 0 <= i < |lines| ==> DropCR(lines[i]) == lines[i])
    && (|lines| > 0 ==> lines[|lines| - 1] != "")
  }

  /** The lines a scanner reports for the parts of a text: a last empty part is not a line. */
  function DropLastEmpty(parts: seq<string>): seq<string>
    requires |parts| >= 1
  {
    if parts[|parts| - 1] == "" then parts[..|parts| - 1] else parts
  }

  lemma ScanParts(parts: seq<string>, lines: seq<string>)
    requires |parts| >= 1 && AllFree(parts, '\n')
    requires AllFree(lines, '\n') ==> parts == lines
    ensures DropCRs(DropLastEmpty(parts)) == lines <==> Scannable(lines)
  {
    var kept := DropLastEmpty(parts);
    if DropCRs(kept) == lines {
      forall i | 0 <= i < |lines| ensures '\n' !in lines[i] {
        assert lines[i] == DropCR(kept[i]);
      }
    }
  }

  /** Line-scanning a joined list gives the list back exactly when it is Scannable. */
  lemma ScanJoin(lines: seq<string>)
    ensures ScanLines(Join(lines, '\n')) == lines <==> Scannable(lines)
  {
    var text := Join(lines, '\n');
    SplitPartsFree(text, '\n');
    if |lines| > 0 {
      if AllFree(lines, '\n') {
        SplitJoinFree(lines, '\n');
      }
      ScanParts(Split(text, '\n'), lines);
    }
  }

  /** Reading on: a line ends at a newline, with or without a carriage return before it. */
  lemma ScanFirstLine(line: string, rest: string)
    requires '\n' !in line
    ensures (|line| > 0 ==> line[|line| - 1] != '\r') ==> ScanLines(line + "\n" + rest) == [line] + ScanLines(rest)
    ensures ScanLines(line + "\r\n" + rest) == [line] + ScanLines(rest)
  {
    ScanSplitOff(line, rest);
    ScanSplitOff(line + "\r", rest);
    assert line + "\r\n" + rest == (line + "\r") + "\n" + rest;
    assert (line + "\r")[..|line|] == line;
  }

  lemma ScanSplitOff(line: string, rest: string)
    requires '\n' !in line
    ensures ScanLines(line + "\n" + rest) == [DropCR(line)] + ScanLines(rest)
  {
    SplitHead(line, '\n', rest);
    assert line + "\n" + rest == line + ['\n'] + rest;
    var parts := Split(rest, '\n');
    assert DropLastEmpty([line] + parts) == [line] + DropLastEmpty(parts);
    assert ([line] + DropLastEmpty(parts))[1..] == DropLastEmpty(parts);
  }

  /** At the end of the text a last line needs no newline, and an empty one is none. */
  lemma ScanLastLine(line: string)
    requires '\n' !in line
    ensures ScanLines("") == []
    ensures line != "" && line[|line| - 1] != '\r' ==> ScanLines(line) == [line]
    ensures ScanLines(line + "\r") == [line]
  {
    SplitFree(line, '\n');
    SplitFree(line + "\r", '\n');
    assert DropLastEmpty([""]) == [];
    assert (line + "\r")[..|line|] == line;
  }
}
