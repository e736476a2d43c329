/**
 * `_extract_criteria_section`: the lines of the detailed criteria document that describe one
 * criterion, found by scanning for a `#` heading that names it.
 */
module CriteriaSection {
  import opened Strings
  import opened Records

  /** `criteria_name.lower() in line.lower() and '#' in line`: the line is a heading naming the criterion. */
  predicate Names(line: string, name: string) {
    Contains(Lower(line), Lower(name)) && '#' in line
  }

  /**
   * `line.strip().startswith('#') and criteria_name.lower() not in line.lower()`: the line is a
   * heading that does not name the criterion.
   */
  predicate Ends(line: string, name: string) {
    var t := Trim(line);
    |t| > 0 && t[0] == '#' && !Contains(Lower(line), Lower(name))
  }

  /** A line cannot both name the criterion and end its section. */
  lemma NamesExcludesEnds(line: string, name: string)
    ensures !(Names(line, name) && Ends(line, name))
  {
  }

  /** How the loop treats a line: the `if` branch, the `elif` branch, or neither. */
  datatype Kind = Naming | Closing | Other

  function Classify(line: string, name: string): (k: Kind)
    ensures k == Naming <==> Names(line, name)
    ensures k == Closing <==> Ends(line, name)
  {
    NamesExcludesEnds(line, name);
    if Names(line, name) then Naming else if Ends(line, name) then Closing else Other
  }

  function Kinds(lines: seq<string>, name: string): (ks: seq<Kind>)
    ensures |ks| == |lines| && forall i :: 0 <= i < |lines| ==> ks[i] == Classify(lines[i], name)
  {
    seq(|lines|, i requires 0 <= i < |lines| => Classify(lines[i], name))
  }

  /**
   * The scan of the loop from line `i` on, with `start` the index of the latest naming line
   * seen so far: the section's first line and the line that ends it, or nothing when no line
   * names the criterion. A closing heading only ends a section once one has started.
   */
  function Scan(ks: seq<Kind>, i: nat, start: Option<nat>): (b: Option<(nat, nat)>)
    requires i <= |ks|
    requires start.Some? ==> start.value < i
    ensures b.Some? ==> b.value.0 < b.value.1 <= |ks|
    decreases |ks| - i
  {
    if i == |ks| then
      match start
      case None => None
      case Some(s) => Some((s, |ks|))
    else if ks[i] == Naming then Scan(ks, i + 1, Some(i))
    else if start.Some? && ks[i] == Closing then Some((start.value, i))
    else Scan(ks, i + 1, start)
  }

  /** The bounds `start_idx` and `end_idx` the loop arrives at. */
  function Bounds(lines: seq<string>, name: string): (b: Option<(nat, nat)>)
    ensures b.Some? ==> b.value.0 < b.value.1 <= |lines|
  {
    Scan(Kinds(lines, name), 0, None)
  }

  /**
   * Lines `s` up to `e` (exclusive) are the section: line `s` names the criterion, nothing in
   * between names it or closes it, line `e` closes it unless it is the end of the document,
   * and no closing heading follows a naming line before `s` (the scan would have stopped
   * there).
   */
  predicate IsSection(ks: seq<Kind>, s: nat, e: nat) {
    && s < e <= |ks|
    && ks[s] == Naming
    && (forall j :: s < j < e ==> ks[j] == Other)
    && (e < |ks| ==> ks[e] == Closing)
    && (forall k, j :: 0 <= k < j < s && ks[k] == Naming ==> ks[j] != Closing)
  }

  /** What the scan from `i` on finds, given what the lines before `i` were. */
  lemma {:induction false} ScanSpec(ks: seq<Kind>, i: nat, start: Option<nat>)
    requires i <= |ks|
    requires start.None? ==> forall j :: 0 <= j < i ==> ks[j] != Naming
    requires start.Some? ==>
               && start.value < i
               && ks[start.value] == Naming
               && (forall j :: start.value < j < i ==> ks[j] == Other)
               && (forall k, j :: 0 <= k < j < start.value && ks[k] == Naming ==> ks[j] != Closing)
    ensures Scan(ks, i, start).None? <==> start.None? && forall j :: i <= j < |ks| ==> ks[j] != Naming
    ensures Scan(ks, i, start).Some? ==> IsSection(ks, Scan(ks, i, start).value.0, Scan(ks, i, start).value.1)
    decreases |ks| - i
  {
    if i < |ks| {
      if ks[i] == Naming {
        ScanSpec(ks, i + 1, Some(i));
      } else if start.Some? && ks[i] == Closing {
      } else {
        ScanSpec(ks, i + 1, start);
      }
    }
  }

  /** Two sections of the same lines coincide: the scan's answer is the only one. */
  lemma SectionUnique(ks: seq<Kind>, s: nat, e: nat, s': nat, e': nat)
    requires IsSection(ks, s, e) && IsSection(ks, s', e')
    ensures s == s' && e == e'
  {
  }

  /**
   * The scan finds nothing exactly when no line names the criterion; otherwise it finds the
   * section, and the section it finds is the only one.
   */
  lemma BoundsSpec(lines: seq<string>, name: string)
    ensures Bounds(lines, name).None? <==> forall j :: 0 <= j < |lines| ==> !Names(lines[j], name)
    ensures Bounds(lines, name).Some? ==>
              IsSection(Kinds(lines, name), Bounds(lines, name).value.0, Bounds(lines, name).value.1)
    ensures forall s: nat, e: nat :: IsSection(Kinds(lines, name), s, e) ==> Bounds(lines, name) == Some((s, e))
  {
    var ks := Kinds(lines, name);
    ScanSpec(ks, 0, None);
    forall s: nat, e: nat | IsSection(ks, s, e)
      ensures Bounds(lines, name) == Some((s, e))
    {
      var b := Bounds(lines, name).value;
      SectionUnique(ks, s, e, b.0, b.1);
    }
  }

  /** What `_extract_criteria_section` returns: the section's lines joined, or the whole document. */
  function Section(doc: string, name: string): string {
    var lines := Split(doc, '\n');
    match Bounds(lines, name)
    case None => doc
    case Some((s, e)) => Join(lines[s..e], '\n')
  }

  /**
   * The loop of `_extract_criteria_section` over the document's lines: it records the latest
   * naming line in `start_idx` and stops at the first heading that ends its section, whose
   * index becomes `end_idx`; without such a heading the section runs to the last line.
   */
  method FindSection(lines: seq<string>, name: string) returns (b: Option<(nat, nat)>)
    ensures b == Bounds(lines, name)
  {
    var start: Option<nat> := None;
    var end: Option<nat> := None;
    var i := 0;
    ghost var ks := Kinds(lines, name);
    while i < |lines|
      invariant i <= |lines|
      invariant start.Some? ==> start.value < i
      invariant end.None? && Scan(ks, i, start) == Bounds(lines, name)
    {
      var line := lines[i];
      assert ks[i] == Classify(line, name);
      if Names(line, name) {
        assert Scan(ks, i, start) == Scan(ks, i + 1, Some(i));
        start := Some(i);
      } else if start.Some? && Ends(line, name) {
        assert Scan(ks, i, start) == Some((start.value, i));
        end := Some(i);
        break;
      } else {
        assert Scan(ks, i, start) == Scan(ks, i + 1, start);
      }
      i := i + 1;
    }
    if start.None? {
      return None;
    }
    if end.None? {
      end := Some(|lines|);
    }
    return Some((start.value, end.value));
  }

  /** `_extract_criteria_section`: the section's lines joined again, or the whole document. */
  method ExtractCriteriaSection(doc: string, name: string) returns (r: string)
    ensures r == Section(doc, name)
  {
    var lines := Split(doc, '\n');
    var b := FindSection(lines, name);
    if b.Some? {
      var (s, e) := b.value;
      return Join(lines[s..e], '\n');
    }
    return doc;
  }

  /** Without a heading that names the criterion, the whole document is the fallback. */
  lemma NoHeadingWholeDocument(doc: string, name: string)
    requires forall line :: line in Split(doc, '\n') ==> !Names(line, name)
    ensures Section(doc, name) == doc
  {
    BoundsSpec(Split(doc, '\n'), name);
  }

  /** Otherwise the result is the section: split on line breaks, it gives back exactly its lines. */
  lemma SectionLines(doc: string, name: string)
    requires Bounds(Split(doc, '\n'), name).Some?
    ensures var lines := Split(doc, '\n');
            var b := Bounds(lines, name).value;
            && IsSection(Kinds(lines, name), b.0, b.1)
            && Split(Section(doc, name), '\n') == lines[b.0..b.1]
  {
    var lines := Split(doc, '\n');
    BoundsSpec(lines, name);
    var b := Bounds(lines, name).value;
    SplitJoin(lines[b.0..b.1], '\n');
  }

  /** A text shorter than the criterion's name cannot mention it. */
  lemma ShortLineDoesNotName(line: string, name: string)
    requires |line| < |name|
    ensures !Contains(Lower(line), Lower(name))
  {
  }

  /** A `#` heading that is the name itself names the criterion. */
  lemma HeadingNames(name: string)
    ensures Names("#" + name, name)
  {
    var h := "#" + name;
    assert Lower(h)[1..] == Lower(name);
    assert OccursAt(Lower(h), Lower(name), 1);
    assert h[0] == '#';
  }

  /** The scan over two plain lines, a naming heading and a closing heading. */
  lemma ScanNamingThenClosing(ks: seq<Kind>)
    requires |ks| >= 4 && ks[0] == Other && ks[1] == Other && ks[2] == Naming && ks[3] == Closing
    ensures Scan(ks, 0, None) == Some((2, 3))
  {
    assert Scan(ks, 3, Some(2)) == Some((2, 3));
    assert Scan(ks, 2, None) == Scan(ks, 3, Some(2));
    assert Scan(ks, 1, None) == Scan(ks, 2, None);
  }

  /** The first four lines of a text with four line breaks before `rest`. */
  lemma FourLines(a: string, b: string, c: string, d: string, rest: string)
    requires '\n' !in a && '\n' !in b && '\n' !in c && '\n' !in d
    ensures var lines := Split(a + "\n" + (b + "\n" + (c + "\n" + (d + "\n" + rest))), '\n');
            |lines| >= 4 && lines[..4] == [a, b, c, d]
  {
    var r3 := d + "\n" + rest;
    var r2 := c + "\n" + r3;
    var r1 := b + "\n" + r2;
    SplitAfterPiece(d, '\n', rest);
    SplitAfterPiece(c, '\n', r3);
    SplitAfterPiece(b, '\n', r2);
    SplitAfterPiece(a, '\n', r1);
    var lines := Split(a + "\n" + r1, '\n');
    assert lines == [a] + ([b] + ([c] + ([d] + Split(rest, '\n'))));
  }

  /** After two empty lines, a heading that is the name followed by a closing heading is the whole section. */
  lemma HeadingThenClosing(name: string, sub: string, rest: string)
    requires '\n' !in name && '\n' !in sub
    requires Ends(sub, name)
    ensures Section("" + "\n" + ("" + "\n" + (("#" + name) + "\n" + (sub + "\n" + rest))), name) == "#" + name
  {
    var heading := "#" + name;
    var doc := "" + "\n" + ("" + "\n" + (heading + "\n" + (sub + "\n" + rest)));
    FourLines("", "", heading, sub, rest);
    var lines := Split(doc, '\n');
    assert lines[0] == "" && lines[1] == "" && lines[2] == heading && lines[3] == sub;
    var ks := Kinds(lines, name);
    assert Trim("") == "";
    HeadingNames(name);
    ScanNamingThenClosing(ks);
    assert lines[2..3] == [heading];
  }

  /**
   * In the detailed hiring criteria, "#Zero-to-One Operator" is followed at once by the
   * subheading "## Excellent:", which closes the section: the section is the heading line alone.
   */
  lemma HeadingFollowedBySubheading(name: string, rest: string)
    requires name == "Zero-to-One Operator"
    ensures Section("\n\n#" + name + "\n## Excellent:\n" + rest, name) == "#" + name
  {
    var sub := "## Excellent:";
    assert |sub| == 13 && |name| == 20;
    assert '\n' !in name;
    assert '\n' !in sub;
    TrimOfTrimmed(sub);
    ShortLineDoesNotName(sub, name);
    HeadingThenClosing(name, sub, rest);
    DocumentShape(name, sub, rest);
  }

  lemma DocumentShape(name: string, sub: string, rest: string)
    requires sub == "## Excellent:"
    ensures "\n\n#" + name + "\n## Excellent:\n" + rest == "" + "\n" + ("" + "\n" + (("#" + name) + "\n" + (sub + "\n" + rest)))
  {
    var lead := "\n\n#";
    assert lead == "" + "\n" + "" + "\n" + "#";
    var mid := "\n## Excellent:\n";
    assert mid == "\n" + sub + "\n";
  }
}
