/**
 * The padded upper-case labels, and the loop that builds the rank-to-name
 * map and both label maps from the severity table.
 */
module Labels {
  import opened Levels
  import opened Folds

  function Spaces(n: nat): (s: string)
    ensures |s| == n
    ensures forall i :: 0 <= i < n ==> s[i] == ' '
  {
    if n == 0 then "" else Spaces(n - 1) + " "
  }

  function UpperChar(c: char): char {
    if 'a' <= c <= 'z' then (c as int - 32) as char else c
  }

  /** ASCII upper-casing, which is all that `toUpperCase` does to the six names. */
  function Upper(s: string): (r: string)
    ensures |r| == |s|
  {
    if s == [] then "" else [UpperChar(s[0])] + Upper(s[1..])
  }

  /** `name` upper-cased and preceded by spaces up to `width` (none if it is already as wide). */
  function PadTo(width: nat, name: string): string {
    Spaces(if |name| <= width then width - |name| else 0) + Upper(name)
  }

  /** The label of `l`: its name padded to the width of the longest name. */
  function Padded(l: Level): string {
    PadTo(PadLength(), l.Name())
  }

  /** `s` without its leading spaces. */
  function TrimStart(s: string): (r: string)
    ensures r == [] || r[0] != ' '
  {
    if s != [] && s[0] == ' ' then TrimStart(s[1..]) else s
  }

  lemma {:induction false} TrimStartSpaces(k: nat, t: string)
    ensures TrimStart(Spaces(k) + t) == TrimStart(t)
  {
    if k > 0 {
      var u := [' '] + t;
      calc {
        Spaces(k) + t;
        (Spaces(k - 1) + " ") + t;
        Spaces(k - 1) + u;
      }
      TrimStartSpaces(k - 1, u);
      assert u[1..] == t;
    } else {
      assert Spaces(k) + t == t;
    }
  }

  /** What `toUpperCase` makes of the six names. */
  lemma UpperNames(l: Level)
    ensures Upper(l.Name()) == match l
      case Fatal => "FATAL"
      case Error => "ERROR"
      case Warn => "WARN"
      case Info => "INFO"
      case Debug => "DEBUG"
      case Trace => "TRACE"
  {
    match l
    case Fatal => assert Upper("fatal") == "FATAL";
    case Error => assert Upper("error") == "ERROR";
    case Warn => assert Upper("warn") == "WARN";
    case Info => assert Upper("info") == "INFO";
    case Debug => assert Upper("debug") == "DEBUG";
    case Trace => assert Upper("trace") == "TRACE";
  }

  /** A padded lower-case name is as wide as the pad, and stripping its spaces gives the upper-case name. */
  lemma PadToShape(width: nat, name: string)
    requires |name| <= width && name != [] && 'a' <= name[0] <= 'z'
    ensures |PadTo(width, name)| == width
    ensures Upper(name)[0] != ' '
    ensures TrimStart(PadTo(width, name)) == Upper(name)
  {
    assert Upper(name)[0] == UpperChar(name[0]);
    TrimStartSpaces(width - |name|, Upper(name));
  }

  /**
   * Every label is exactly as wide as the longest name, and is spaces
   * followed by the upper-case name: stripping the spaces gives the name back.
   */
  lemma LabelShape(l: Level)
    ensures |Padded(l)| == PadLength() == 5
    ensures Padded(l) == Spaces(5 - |l.Name()|) + Upper(l.Name())
    ensures Upper(l.Name()) != [] && Upper(l.Name())[0] != ' '
    ensures TrimStart(Padded(l)) == Upper(l.Name())
  {
    PadLengthIsFive();
    var name := l.Name();
    assert 'a' <= name[0] <= 'z';
    PadToShape(5, name);
  }

  /** The inner loop of the table builder: spaces up to `padLength`, then the upper-cased name. */
  method PadName(name: string, padLength: nat) returns (padded: string)
    ensures padded == PadTo(padLength, name)
  {
    padded := "";
    var i := 0;
    while i < padLength - |name|
      invariant 0 <= i <= if |name| <= padLength then padLength - |name| else 0
      invariant padded == Spaces(i)
    {
      padded := padded + " ";
      i := i + 1;
    }
    padded := padded + Upper(name);
  }

  /** The rank/name pairs the table-building loop stores for `ls`, in its order. */
  function RankNamePairs(ls: seq<Level>): (ps: seq<(int, string)>)
    ensures |ps| == |ls| && forall j :: 0 <= j < |ls| ==> ps[j] == (ls[j].Rank(), ls[j].Name())
  {
    seq(|ls|, j requires 0 <= j < |ls| => (ls[j].Rank(), ls[j].Name()))
  }

  /** The name/label pairs the loop stores for `ls`, labels padded to `width`. */
  function NameLabelPairs(ls: seq<Level>, width: nat): (ps: seq<(string, string)>)
    ensures |ps| == |ls| && forall j :: 0 <= j < |ls| ==> ps[j] == (ls[j].Name(), PadTo(width, ls[j].Name()))
  {
    seq(|ls|, j requires 0 <= j < |ls| => (ls[j].Name(), PadTo(width, ls[j].Name())))
  }

  /** The rank/label pairs the loop stores for `ls`. */
  function RankLabelPairs(ls: seq<Level>, width: nat): (ps: seq<(int, string)>)
    ensures |ps| == |ls| && forall j :: 0 <= j < |ls| ==> ps[j] == (ls[j].Rank(), PadTo(width, ls[j].Name()))
  {
    seq(|ls|, j requires 0 <= j < |ls| => (ls[j].Rank(), PadTo(width, ls[j].Name())))
  }

  /** No two levels share a rank or a name, so no pair the loop stores overwrites an earlier one. */
  lemma PairKeysDistinct(width: nat)
    ensures KeysDistinct(RankNamePairs(All)) && KeysDistinct(NameLabelPairs(All, width))
    ensures KeysDistinct(RankLabelPairs(All, width))
  {
    forall i, j | 0 <= i < j < |All| ensures All[i].Rank() != All[j].Rank() && All[i].Name() != All[j].Name() {
      AllLevels();
      TableIsBijective(All[i], All[j]);
    }
  }

  /** After the loop, the rank-to-name map holds each level's name under its rank, and nothing else. */
  lemma RankNameTable(m: map<int, string>)
    requires m == Fold(RankNamePairs(All))
    ensures forall r :: r in m ==> IsRank(r)
    ensures forall l: Level :: l.Rank() in m && m[l.Rank()] == l.Name()
  {
    var ps := RankNamePairs(All);
    PairKeysDistinct(0);
    FoldKeys(ps);
    forall l: Level ensures l.Rank() in m && m[l.Rank()] == l.Name() {
      FoldAt(ps, PositionInAll(l));
    }
    forall r | r in m ensures IsRank(r) {
      var i :| 0 <= i < |ps| && ps[i].0 == r;
      assert All[i].Rank() == r;
    }
  }

  /** After the loop, the name-to-label map holds each level's label under its name, and nothing else. */
  lemma NameLabelTable(m: map<string, string>)
    requires m == Fold(NameLabelPairs(All, PadLength()))
    ensures forall s :: s in m ==> IsLevelName(s)
    ensures forall l: Level :: l.Name() in m && m[l.Name()] == Padded(l)
  {
    var ps := NameLabelPairs(All, PadLength());
    PairKeysDistinct(PadLength());
    FoldKeys(ps);
    forall l: Level ensures l.Name() in m && m[l.Name()] == Padded(l) {
      FoldAt(ps, PositionInAll(l));
    }
    forall s | s in m ensures IsLevelName(s) {
      var i :| 0 <= i < |ps| && ps[i].0 == s;
      assert All[i].Name() == s;
    }
  }

  /** After the loop, the rank-to-label map holds each level's label under its rank, and nothing else. */
  lemma RankLabelTable(m: map<int, string>)
    requires m == Fold(RankLabelPairs(All, PadLength()))
    ensures forall r :: r in m ==> IsRank(r)
    ensures forall l: Level :: l.Rank() in m && m[l.Rank()] == Padded(l)
  {
    var ps := RankLabelPairs(All, PadLength());
    PairKeysDistinct(PadLength());
    FoldKeys(ps);
    forall l: Level ensures l.Rank() in m && m[l.Rank()] == Padded(l) {
      FoldAt(ps, PositionInAll(l));
    }
    forall r | r in m ensures IsRank(r) {
      var i :| 0 <= i < |ps| && ps[i].0 == r;
      assert All[i].Rank() == r;
    }
  }

  /**
   * The table-building loop over the levels `levels` and their names
   * `names`: the rank-to-name map and the labels, padded to `padLength`,
   * keyed by name and by rank.
   */
  method FillTables(levels: seq<Level>, names: seq<string>, padLength: nat)
    returns (byNum: map<int, string>, paddedByName: map<string, string>, paddedByNum: map<int, string>)
    requires |names| == |levels| && forall j :: 0 <= j < |levels| ==> names[j] == levels[j].Name()
    ensures byNum == Fold(RankNamePairs(levels))
    ensures paddedByName == Fold(NameLabelPairs(levels, padLength))
    ensures paddedByNum == Fold(RankLabelPairs(levels, padLength))
  {
    ghost var rankNames := RankNamePairs(levels);
    ghost var nameLabels := NameLabelPairs(levels, padLength);
    ghost var rankLabels := RankLabelPairs(levels, padLength);
    byNum, paddedByName, paddedByNum := map[], map[], map[];
    var k := 0;
    while k < |names|
      invariant 0 <= k <= |names|
      invariant byNum == Fold(rankNames[..k])
      invariant paddedByName == Fold(nameLabels[..k])
      invariant paddedByNum == Fold(rankLabels[..k])
    {
      var rank := levels[k].Rank();
      var name := names[k];
      byNum := byNum[rank := name];
      var padded := PadName(name, padLength);
      paddedByName := paddedByName[name := padded];
      paddedByNum := paddedByNum[rank := padded];
      FoldStep(rankNames, k);
      FoldStep(nameLabels, k);
      FoldStep(rankLabels, k);
      k := k + 1;
    }
    assert rankNames[..k] == rankNames && nameLabels[..k] == nameLabels && rankLabels[..k] == rankLabels;
  }

  /**
   * What module loading computes: the pad width from the names, then one
   * pass over the table's names filling the rank-to-name map and the padded
   * labels keyed by name and by rank.
   */
  method BuildTables() returns (byNum: map<int, string>, paddedByName: map<string, string>, paddedByNum: map<int, string>)
    ensures forall r :: r in byNum ==> IsRank(r)
    ensures forall l: Level :: l.Rank() in byNum && byNum[l.Rank()] == l.Name()
    ensures forall s :: s in paddedByName ==> IsLevelName(s)
    ensures forall l: Level :: l.Name() in paddedByName && paddedByName[l.Name()] == Padded(l)
    ensures forall r :: r in paddedByNum ==> IsRank(r)
    ensures forall l: Level :: l.Rank() in paddedByNum && paddedByNum[l.Rank()] == Padded(l)
  {
    var padLength := PadLength();
    byNum, paddedByName, paddedByNum := FillTables(All, Names(), padLength);
    RankNameTable(byNum);
    NameLabelTable(paddedByName);
    RankLabelTable(paddedByNum);
  }
}
