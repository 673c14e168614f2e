/**
 * The severity table: Bunyan level names with their ranks, the lookups by
 * name and by rank, and the upper-case labels padded to the width of the
 * longest name.
 */
module Levels {
  import opened Wrappers

  /** The six Bunyan levels; a higher rank is more severe. */
  datatype Level = Fatal | Error | Warn | Info | Debug | Trace {

    function Name(): string {
      match this
      case Fatal => "fatal"
      case Error => "error"
      case Warn => "warn"
      case Info => "info"
      case Debug => "debug"
      case Trace => "trace"
    }

    function Rank(): int {
      match this
      case Fatal => 60
      case Error => 50
      case Warn => 40
      case Info => 30
      case Debug => 20
      case Trace => 10
    }
  }

  /** The levels in the order the table declares them, which is the order its keys are enumerated in. */
  const All: seq<Level> := [Fatal, Error, Warn, Info, Debug, Trace]

  /** The names as the table's keys, in declaration order. */
  function Names(): (ns: seq<string>)
    ensures |ns| == |All| && forall i :: 0 <= i < |All| ==> ns[i] == All[i].Name()
    ensures ns == ["fatal", "error", "warn", "info", "debug", "trace"]
  {
    seq(|All|, i requires 0 <= i < |All| => All[i].Name())
  }

  /** `All` lists every level once. */
  lemma AllLevels()
    ensures forall l: Level :: l in All
    ensures forall i, j :: 0 <= i < j < |All| ==> All[i] != All[j]
  {
    forall l: Level ensures l in All {
      var i := PositionInAll(l);
    }
  }

  /** Where `l` stands in `All`. */
  function PositionInAll(l: Level): (i: nat)
    ensures i < |All| && All[i] == l
  {
    match l
    case Fatal => 0
    case Error => 1
    case Warn => 2
    case Info => 3
    case Debug => 4
    case Trace => 5
  }

  /**
   * Each rank belongs to one level and each name to one level, and the ranks
   * are ordered trace < debug < info < warn < error < fatal.
   */
  lemma TableIsBijective(a: Level, b: Level)
    ensures a.Rank() == b.Rank() ==> a == b
    ensures a.Name() == b.Name() ==> a == b
    ensures Trace.Rank() < Debug.Rank() < Info.Rank() < Warn.Rank() < Error.Rank() < Fatal.Rank()
  {
  }

  /** A level of `ls` whose name is `s`, if there is one. */
  function FindName(ls: seq<Level>, s: string): (r: Option<Level>)
    ensures r.Some? ==> r.value in ls && r.value.Name() == s
    ensures r.None? ==> forall i :: 0 <= i < |ls| ==> ls[i].Name() != s
  {
    if ls == [] then None
    else if ls[0].Name() == s then Some(ls[0])
    else FindName(ls[1..], s)
  }

  /** A level of `ls` whose rank is `rank`, if there is one. */
  function FindRank(ls: seq<Level>, rank: int): (r: Option<Level>)
    ensures r.Some? ==> r.value in ls && r.value.Rank() == rank
    ensures r.None? ==> forall i :: 0 <= i < |ls| ==> ls[i].Rank() != rank
  {
    if ls == [] then None
    else if ls[0].Rank() == rank then Some(ls[0])
    else FindRank(ls[1..], rank)
  }

  /** Lookup by name: the source's `name in logLevelsByName` and `logLevelsByName[name]`. */
  function FromName(s: string): (r: Option<Level>)
    ensures r.Some? ==> r.value.Name() == s
    ensures r.None? ==> forall l: Level :: l.Name() != s
  {
    var r := FindName(All, s);
    assert r.None? ==> forall l: Level :: l.Name() != s by {
      forall l: Level | r.None? ensures l.Name() != s {
        var i := PositionInAll(l);
      }
    }
    r
  }

  /** Lookup by rank: the source's `rank in logLevelsByNum` and `logLevelsByNum[rank]`. */
  function FromRank(rank: int): (r: Option<Level>)
    ensures r.Some? ==> r.value.Rank() == rank
    ensures r.None? ==> forall l: Level :: l.Rank() != rank
  {
    var r := FindRank(All, rank);
    assert r.None? ==> forall l: Level :: l.Rank() != rank by {
      forall l: Level | r.None? ensures l.Rank() != rank {
        var i := PositionInAll(l);
      }
    }
    r
  }

  predicate IsLevelName(s: string) {
    FromName(s).Some?
  }

  predicate IsRank(r: int) {
    FromRank(r).Some?
  }

  /** Name to level and rank to level each undo the table's lookup. */
  lemma LookupRoundTrip(l: Level)
    ensures FromName(l.Name()) == Some(l)
    ensures FromRank(l.Rank()) == Some(l)
  {
    TableIsBijective(FromName(l.Name()).value, l);
    TableIsBijective(FromRank(l.Rank()).value, l);
  }

  /** The largest name length among `ls` (0 for none). */
  function MaxNameLength(ls: seq<Level>): (m: nat)
    ensures forall i :: 0 <= i < |ls| ==> |ls[i].Name()| <= m
    ensures ls != [] ==> exists i :: 0 <= i < |ls| && |ls[i].Name()| == m
  {
    if ls == [] then 0
    else
      var rest := MaxNameLength(ls[1..]);
      if |ls[0].Name()| >= rest then |ls[0].Name()| else rest
  }

  /** The width every padded label is brought to: the longest name's length. */
  function PadLength(): nat {
    MaxNameLength(All)
  }

  /** The longest names, "error" and "fatal", have five letters. */
  lemma PadLengthIsFive()
    ensures PadLength() == 5
    ensures forall l: Level :: |l.Name()| <= PadLength()
  {
    var i :| 0 <= i < |All| && |All[i].Name()| == PadLength();
    assert |All[0].Name()| == 5;
    forall l: Level ensures |l.Name()| <= PadLength() {
      var j := PositionInAll(l);
    }
  }
}
