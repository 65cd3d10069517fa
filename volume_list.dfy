/**
 The volume list file: its text is split on "\n", each line is trimmed of
 white space, and the non-blank results are the persistent-volume names,
 in file order and with repetitions kept.
 */
module VolumeList {

  /** Go's `unicode.IsSpace`: the Latin-1 spaces and the other characters of
      Unicode's White_Space property. */
  predicate IsSpace(c: char) {
    || c == '\t' || c == '\n' || c == '\U{0B}' || c == '\U{0C}' || c == '\r' || c == ' '
    || c == '\U{85}' || c == '\U{A0}' || c == '\U{1680}'
    || ('\U{2000}' <= c <= '\U{200A}')
    || c == '\U{2028}' || c == '\U{2029}' || c == '\U{202F}' || c == '\U{205F}' || c == '\U{3000}'
  }

  predicate AllSpace(s: string) {
    forall i | 0 <= i < |s| :: IsSpace(s[i])
  }

  /** The number of white-space characters at the start of `s`. */
  function LeadingSpace(s: string): (k: nat)
    ensures k <= |s|
    ensures forall i | 0 <= i < k :: IsSpace(s[i])
    ensures k < |s| ==> !IsSpace(s[k])
  {
    if s == [] || !IsSpace(s[0]) then 0 else 1 + LeadingSpace(s[1..])
  }

  /** Where the white space at the end of `s` begins, looking no further
      left than `lo`. */
  function TrailingSpace(s: string, lo: nat): (k: nat)
    requires lo <= |s|
    ensures lo <= k <= |s|
    ensures forall i | k <= i < |s| :: IsSpace(s[i])
    ensures lo < k ==> !IsSpace(s[k - 1])
    decreases |s|
  {
    if |s| == lo || !IsSpace(s[|s| - 1]) then |s| else TrailingSpace(s[..|s| - 1], lo)
  }

  /** Go's `strings.TrimSpace`: `s` without the white space at either end.
      It is blank exactly when `s` is all white space. */
  function TrimSpace(s: string): (r: string)
    ensures |r| <= |s|
    ensures r == [] || (!IsSpace(r[0]) && !IsSpace(r[|r| - 1]))
    ensures r == [] <==> AllSpace(s)
    ensures exists lo, hi | 0 <= lo <= hi <= |s| ::
              r == s[lo..hi] && AllSpace(s[..lo]) && AllSpace(s[hi..])
  {
    var lo := LeadingSpace(s);
    var hi := TrailingSpace(s, lo);
    assert AllSpace(s[..lo]) && AllSpace(s[hi..]);
    s[lo..hi]
  }

  /** Index of the first "\n" in `s`, or `|s|` when there is none. */
  function NewlineIndex(s: string): (i: nat)
    ensures i <= |s|
    ensures '\n' !in s[..i]
    ensures i < |s| ==> s[i] == '\n'
  {
    if s == [] then 0
    else if s[0] == '\n' then 0
    else
      var j := NewlineIndex(s[1..]);
      assert s[..j + 1] == [s[0]] + s[1..][..j];
      j + 1
  }

  lemma {:induction false} NoNewline(s: string)
    requires '\n' !in s
    ensures NewlineIndex(s) == |s|
  {
    if s != [] { NoNewline(s[1..]); }
  }

  lemma {:induction false} NewlineAfter(p: string, rest: string)
    requires '\n' !in p
    ensures NewlineIndex(p + "\n" + rest) == |p|
  {
    if p != [] {
      assert (p + "\n" + rest)[1..] == p[1..] + "\n" + rest;
      NewlineAfter(p[1..], rest);
    }
  }

  /** Go's `strings.Split(s, "\n")`: the pieces between the newlines, at
      least one. */
  function Split(s: string): (parts: seq<string>)
    ensures |parts| >= 1
    ensures forall i | 0 <= i < |parts| :: '\n' !in parts[i]
    decreases |s|
  {
    var i := NewlineIndex(s);
    if i == |s| then [s] else [s[..i]] + Split(s[i + 1..])
  }

  /** Go's `strings.Join(parts, "\n")`. */
  function Join(parts: seq<string>): string
    requires |parts| >= 1
  {
    if |parts| == 1 then parts[0] else parts[0] + "\n" + Join(parts[1..])
  }

  /** Joining the pieces of a text gives the text back. */
  lemma {:induction false} JoinSplit(s: string)
    ensures Join(Split(s)) == s
    decreases |s|
  {
    var i := NewlineIndex(s);
    if i < |s| {
      var parts := Split(s);
      assert parts == [s[..i]] + Split(s[i + 1..]);
      assert parts[1..] == Split(s[i + 1..]);
      JoinSplit(s[i + 1..]);
      assert s == s[..i] + "\n" + s[i + 1..];
    }
  }

  /** Splitting a join of newline-free pieces gives the pieces back. */
  lemma {:induction false} SplitJoin(parts: seq<string>)
    requires |parts| >= 1
    requires forall i | 0 <= i < |parts| :: '\n' !in parts[i]
    ensures Split(Join(parts)) == parts
  {
    var s := Join(parts);
    if |parts| == 1 {
      NoNewline(s);
    } else {
      var p := parts[0];
      var rest := Join(parts[1..]);
      assert s == p + "\n" + rest;
      NewlineAfter(p, rest);
      assert s[..|p|] == p;
      assert s[|p| + 1..] == rest;
      SplitJoin(parts[1..]);
    }
  }

  /** What one line contributes: its trimmed text, unless that is blank. */
  function LineName(line: string): seq<string> {
    var name := TrimSpace(line);
    if name == "" then [] else [name]
  }

  /** A non-blank text with no white space at either end. */
  predicate IsTrimmedName(name: string) {
    name != "" && !IsSpace(name[0]) && !IsSpace(name[|name| - 1])
  }

  /** The persistent-volume names of a sequence of lines, in line order. */
  function PvNames(lines: seq<string>): seq<string> {
    if lines == [] then [] else PvNames(lines[..|lines| - 1]) + LineName(lines[|lines| - 1])
  }

  /** Every name is non-blank and trimmed, and there are no more names
      than lines. */
  lemma {:induction false} PvNamesAreTrimmed(lines: seq<string>)
    ensures |PvNames(lines)| <= |lines|
    ensures forall i | 0 <= i < |PvNames(lines)| :: IsTrimmedName(PvNames(lines)[i])
  {
    if lines != [] {
      PvNamesAreTrimmed(lines[..|lines| - 1]);
    }
  }

  /** The names of a concatenation of lines are the names of each part, in
      order: no line is reordered, dropped (unless blank) or merged. */
  lemma {:induction false} PvNamesAppend(a: seq<string>, b: seq<string>)
    ensures PvNames(a + b) == PvNames(a) + PvNames(b)
    decreases |b|
  {
    if b == [] {
      assert a + b == a;
    } else {
      var b' := b[..|b| - 1];
      assert (a + b)[..|a + b| - 1] == a + b';
      PvNamesAppend(a, b');
    }
  }

  /** A name is listed exactly when it is the non-blank trim of some line. */
  lemma {:induction false} PvNamesMembership(lines: seq<string>, name: string)
    ensures name in PvNames(lines) <==> exists j | 0 <= j < |lines| :: name in LineName(lines[j])
  {
    if lines != [] {
      var init, last := lines[..|lines| - 1], lines[|lines| - 1];
      PvNamesMembership(init, name);
      assert PvNames(lines) == PvNames(init) + LineName(last);
      if name in PvNames(init) {
        var j :| 0 <= j < |init| && name in LineName(init[j]);
        assert lines[j] == init[j];
      } else if name !in LineName(last) {
        forall j | 0 <= j < |lines| ensures name !in LineName(lines[j]) {
          if j < |init| { assert lines[j] == init[j]; }
        }
      }
    }
  }

  /** The names of the first `i + 1` lines: those of the first `i`, then
      the next line's. */
  lemma PvNamesPrefix(lines: seq<string>, i: nat)
    requires i < |lines|
    ensures PvNames(lines[..i + 1]) == PvNames(lines[..i]) + LineName(lines[i])
  {
    assert lines[..i + 1][..i] == lines[..i];
  }

  /** The persistent-volume names listed in the text of the volume file. */
  function VolumeNames(text: string): seq<string> {
    PvNames(Split(text))
  }

  /** A text of white space alone lists no name. */
  lemma {:induction false} WhitespaceOnlyListsNothing(text: string)
    requires AllSpace(text)
    ensures VolumeNames(text) == []
    decreases |text|
  {
    var i := NewlineIndex(text);
    if i == |text| {
      assert Split(text) == [text];
      assert PvNames([text]) == PvNames([]) + LineName(text);
    } else {
      var head := text[..i];
      assert AllSpace(head) by {
        forall k | 0 <= k < |head| ensures IsSpace(head[k]) { assert head[k] == text[k]; }
      }
      var tail := text[i + 1..];
      assert AllSpace(tail) by {
        forall k | 0 <= k < |tail| ensures IsSpace(tail[k]) { assert tail[k] == text[i + 1 + k]; }
      }
      WhitespaceOnlyListsNothing(tail);
      PvNamesAppend([head], Split(tail));
      assert PvNames([head]) == PvNames([]) + LineName(head);
    }
  }

  /** A line that neither starts nor ends with white space is its own name. */
  lemma PlainName(line: string)
    requires line != [] && !IsSpace(line[0]) && !IsSpace(line[|line| - 1])
    ensures LineName(line) == [line]
  {
    assert LeadingSpace(line) == 0;
    assert TrailingSpace(line, 0) == |line|;
    assert line[0..|line|] == line;
  }

  /** The text of a volume file with a duplicate and a blank line lists
      the duplicate twice, in file order, and nothing for the blank line. */
  lemma DuplicateAndBlankLines()
    ensures VolumeNames("pv-1\npv-2\n  \npv-1") == ["pv-1", "pv-2", "pv-1"]
  {
    var lines := ["pv-1", "pv-2", "  ", "pv-1"];
    assert Join(lines) == "pv-1\npv-2\n  \npv-1";
    SplitJoin(lines);
    NamesOfDuplicateAndBlankLines();
  }

  lemma NamesOfDuplicateAndBlankLines()
    ensures PvNames(["pv-1", "pv-2", "  ", "pv-1"]) == ["pv-1", "pv-2", "pv-1"]
  {
    var p4 := ["pv-1", "pv-2", "  ", "pv-1"];
    var p3 := ["pv-1", "pv-2", "  "];
    var p2 := ["pv-1", "pv-2"];
    var p1 := ["pv-1"];
    PlainName("pv-1");
    PlainName("pv-2");
    assert LineName("  ") == [] by { assert AllSpace("  "); }
    assert p4[..3] == p3 && p3[..2] == p2 && p2[..1] == p1 && p1[..0] == [];
    assert PvNames(p1) == ["pv-1"];
    assert PvNames(p2) == ["pv-1", "pv-2"];
    assert PvNames(p3) == ["pv-1", "pv-2"];
  }
}
