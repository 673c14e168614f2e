/**
 * How a level logger rewrites the first output line before it reaches the
 * console: a padded label in front, or the bare upper-case name inserted
 * after a timestamp.
 */
module Format {
  import opened Levels
  import opened Labels

  /** `s.substring(0, prefix.length) === prefix`. */
  predicate StartsWith(s: string, prefix: string) {
    |prefix| <= |s| && s[..|prefix|] == prefix
  }

  /** `s.indexOf(c)`: the first position of `c` in `s`, or -1 when there is none. */
  function IndexOf(s: string, c: char): (i: int)
    ensures -1 <= i < |s|
    ensures i == -1 <==> c !in s
    ensures 0 <= i ==> s[i] == c && c !in s[..i]
  {
    if s == [] then -1
    else if s[0] == c then 0
    else
      var j := IndexOf(s[1..], c);
      if j == -1 then -1 else j + 1
  }

  /** `s.substr(0, n)`: a negative length gives the empty string, a length past the end the whole string. */
  function SubstrPrefix(s: string, n: int): (r: string)
    ensures |r| == if n <= 0 then 0 else if n >= |s| then |s| else n
    ensures r == s[..|r|]
  {
    if n <= 0 then "" else if n >= |s| then s else s[..n]
  }

  /** `s.substr(start)`: a negative start counts back from the end, clamped to the beginning. */
  function SubstrFrom(s: string, start: int): (r: string)
    ensures |r| == if start >= |s| then 0 else if start >= 0 then |s| - start else if -start <= |s| then -start else |s|
    ensures r == s[|s| - |r|..]
  {
    var b := if start >= 0 then start else if |s| + start >= 0 then |s| + start else 0;
    if b >= |s| then "" else s[b..]
  }

  /**
   * The rewritten first line, given the level's padded label `tag` and its
   * upper-case name. On a Node-like host a line that starts with the
   * namespace gets two spaces and the label in front; any other line is
   * taken to start with a timestamp, and the name goes in after its first
   * space. Elsewhere the label and a space go in front.
   */
  function Decorate(isNode: bool, namespace: string, tag: string, name: string, line: string): string {
    if isNode then
      if StartsWith(line, namespace) then
        "  " + tag + line
      else
        var idx := IndexOf(line, ' ');
        SubstrPrefix(line, idx) + " " + name + SubstrFrom(line, idx)
    else
      tag + " " + line
  }

  /** The first line as a logger of `severity` in `namespace` rewrites it. */
  function FormatLine(isNode: bool, namespace: string, severity: Level, line: string): string {
    Decorate(isNode, namespace, Padded(severity), Upper(severity.Name()), line)
  }

  /** A level's label split into its leading blanks and its upper-case name. */
  lemma LabelParts(severity: Level) returns (front: string)
    ensures Padded(severity) == front + Upper(severity.Name())
    ensures |front| + |Upper(severity.Name())| == 5
    ensures forall i :: 0 <= i < |front| ==> front[i] == ' '
    ensures Upper(severity.Name()) != [] && Upper(severity.Name())[0] != ' '
  {
    LabelShape(severity);
    front := Spaces(5 - |severity.Name()|);
  }

  /**
   * Blanks, then a tag that does not start with a blank, then a line:
   * trimming leaves tag and line, and the line starts right after the tag.
   */
  lemma {:induction false} TrimLabelled(front: string, tag: string, line: string)
    requires forall i :: 0 <= i < |front| ==> front[i] == ' '
    requires tag != [] && tag[0] != ' '
    ensures TrimStart(front + tag + line) == tag + line
    ensures (front + tag + line)[|front| + |tag|..] == line
  {
    assert front == Spaces(|front|);
    assert front + tag + line == Spaces(|front|) + (tag + line);
    TrimStartSpaces(|front|, tag + line);
  }

  /** `Decorate` with a label made of blanks and the name: after the blanks come the name, the separator and the line. */
  lemma DecorateLabelFirst(isNode: bool, namespace: string, front: string, name: string, line: string)
    requires forall i :: 0 <= i < |front| ==> front[i] == ' '
    requires name != [] && name[0] != ' '
    requires !isNode || StartsWith(line, namespace)
    ensures TrimStart(Decorate(isNode, namespace, front + name, name, line))
         == if isNode then name + line else name + " " + line
    ensures |Decorate(isNode, namespace, front + name, name, line)|
         == (if isNode then 2 else 1) + |front| + |name| + |line|
    ensures Decorate(isNode, namespace, front + name, name, line)[(if isNode then 2 else 1) + |front| + |name|..] == line
    ensures StartsWith(TrimStart(Decorate(isNode, namespace, front + name, name, line)), name)
  {
    var r := Decorate(isNode, namespace, front + name, name, line);
    if isNode {
      assert r == ("  " + front) + name + line;
      TrimLabelled("  " + front, name, line);
      assert (name + line)[..|name|] == name;
    } else {
      assert r == front + (name + " ") + line;
      TrimLabelled(front, name + " ", line);
      assert (name + " " + line)[..|name|] == name;
    }
  }

  /**
   * When the label goes in front, the output is blanks, then the
   * upper-case level name, then (after one more space off a Node-like host)
   * the line itself, unchanged; the label column is seven characters wide
   * on a Node-like host and six elsewhere.
   */
  lemma LabelFirst(isNode: bool, namespace: string, severity: Level, line: string)
    requires !isNode || StartsWith(line, namespace)
    ensures TrimStart(FormatLine(isNode, namespace, severity, line))
         == if isNode then Upper(severity.Name()) + line else Upper(severity.Name()) + " " + line
    ensures |FormatLine(isNode, namespace, severity, line)| == (if isNode then 7 else 6) + |line|
    ensures FormatLine(isNode, namespace, severity, line)[(if isNode then 7 else 6)..] == line
    ensures StartsWith(TrimStart(FormatLine(isNode, namespace, severity, line)), Upper(severity.Name()))
  {
    var front := LabelParts(severity);
    DecorateLabelFirst(isNode, namespace, front, Upper(severity.Name()), line);
  }

  /** `Decorate` on a Node-like host, for a line that does not start with the namespace but holds a space. */
  lemma DecorateAfterTimestamp(namespace: string, tag: string, name: string, line: string) returns (i: int)
    requires !StartsWith(line, namespace) && ' ' in line
    ensures 0 <= i < |line| && line[i] == ' ' && ' ' !in line[..i]
    ensures Decorate(true, namespace, tag, name, line) == line[..i] + " " + name + line[i..]
    ensures var r := Decorate(true, namespace, tag, name, line);
            r[..i] + r[i + 1 + |name|..] == line
  {
    i := IndexOf(line, ' ');
    assert SubstrPrefix(line, i) == line[..i];
    assert SubstrFrom(line, i) == line[i..];
    var r := line[..i] + " " + name + line[i..];
    assert r[..i] == line[..i];
    assert r[i + 1 + |name|..] == line[i..];
    assert line[..i] + line[i..] == line;
  }

  /**
   * A line that does not start with the namespace, on a Node-like host, has
   * a space and the upper-case name inserted at its first space; taking
   * them out again gives back the line.
   */
  lemma InsertAfterTimestamp(namespace: string, severity: Level, line: string)
    requires !StartsWith(line, namespace) && ' ' in line
    ensures var r := FormatLine(true, namespace, severity, line);
            var u := Upper(severity.Name());
            exists i :: 0 <= i < |line| && line[i] == ' ' && ' ' !in line[..i]
              && r == line[..i] + " " + u + line[i..]
              && r[..i] + r[i + 1 + |u|..] == line
  {
    var i := DecorateAfterTimestamp(namespace, Padded(severity), Upper(severity.Name()), line);
  }

  /** `Decorate` on a Node-like host, for a line that neither starts with the namespace nor holds a space. */
  lemma DecorateNoSpace(namespace: string, tag: string, name: string, line: string)
    requires !StartsWith(line, namespace) && ' ' !in line
    ensures Decorate(true, namespace, tag, name, line)
         == " " + name + (if line == [] then "" else [line[|line| - 1]])
  {
    var last: string := if line == [] then "" else [line[|line| - 1]];
    assert IndexOf(line, ' ') == -1;
    assert SubstrPrefix(line, -1) == "";
    assert SubstrFrom(line, -1) == last by {
      if line != [] {
        assert line[|line| - 1..] == [line[|line| - 1]];
      }
    }
    assert "" + " " + name + last == " " + name + last;
  }

  /**
   * A line that neither starts with the namespace nor holds a space is cut
   * down to its last character (`indexOf` gives -1, and `substr(-1)` is the
   * last character), after a space and the upper-case name.
   */
  lemma NoSpaceKeepsLastChar(namespace: string, severity: Level, line: string)
    requires !StartsWith(line, namespace) && ' ' !in line
    ensures FormatLine(true, namespace, severity, line)
         == " " + Upper(severity.Name()) + (if line == [] then "" else [line[|line| - 1]])
  {
    DecorateNoSpace(namespace, Padded(severity), Upper(severity.Name()), line);
  }
}
