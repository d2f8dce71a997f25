/** The five SonarQube issue severities, their display names, their ranking and the
    fixed order in which the summary lists them. */
module Severities {
  import opened Wrappers
  import Text

  /** Declared in ascending order of importance, as SonarQube's `Severity` enum is. */
  datatype Severity = Info | Minor | Major | Critical | Blocker

  function Rank(s: Severity): (r: nat)
    ensures r <= 4
  {
    match s
    case Info => 0
    case Minor => 1
    case Major => 2
    case Critical => 3
    case Blocker => 4
  }

  /** The enum constant's name. */
  function Name(s: Severity): string {
    match s
    case Info => "INFO"
    case Minor => "MINOR"
    case Major => "MAJOR"
    case Critical => "CRITICAL"
    case Blocker => "BLOCKER"
  }

  /** The lower-cased name used in bullets ("17 major") and icon file names. */
  function LowerName(s: Severity): string {
    match s
    case Info => "info"
    case Minor => "minor"
    case Major => "major"
    case Critical => "critical"
    case Blocker => "blocker"
  }

  /** The lower-cased name is the name lower-cased character by character, as Java's
      `toLowerCase` does for these ASCII names. */
  lemma LowerNameIsLower(s: Severity)
    ensures LowerName(s) == Text.Lower(Name(s))
  {
    match s
    case Info => Text.LowerEach("INFO", "info");
    case Minor => Text.LowerEach("MINOR", "minor");
    case Major => Text.LowerEach("MAJOR", "major");
    case Critical => Text.LowerEach("CRITICAL", "critical");
    case Blocker => Text.LowerEach("BLOCKER", "blocker");
  }

  /** The order in which the summary lists severities: most important first, each once. */
  function DisplayOrder(): (r: seq<Severity>)
    ensures forall s: Severity :: s in r
    ensures forall i, j :: 0 <= i < j < |r| ==> Rank(r[i]) > Rank(r[j])
  {
    var r := [Blocker, Critical, Major, Minor, Info];
    assert forall s: Severity :: s in r by {
      forall s: Severity
        ensures s in r
      {
        if s.Info? { assert r[4] == s; }
        else if s.Minor? { assert r[3] == s; }
        else if s.Major? { assert r[2] == s; }
        else if s.Critical? { assert r[1] == s; }
        else { assert r[0] == s; }
      }
    }
    r
  }

  /** One running count per severity. */
  datatype SeverityCounts = SeverityCounts(info: nat, minor: nat, major: nat, critical: nat, blocker: nat) {

    function Get(s: Severity): nat {
      match s
      case Info => info
      case Minor => minor
      case Major => major
      case Critical => critical
      case Blocker => blocker
    }

    function Total(): nat {
      info + minor + major + critical + blocker
    }

    /** Counts one more issue of severity `s`; no other count moves. */
    function Increment(s: Severity): (r: SeverityCounts)
      ensures r.Get(s) == Get(s) + 1
      ensures forall t :: t != s ==> r.Get(t) == Get(t)
      ensures r.Total() == Total() + 1
    {
      match s
      case Info => this.(info := info + 1)
      case Minor => this.(minor := minor + 1)
      case Major => this.(major := major + 1)
      case Critical => this.(critical := critical + 1)
      case Blocker => this.(blocker := blocker + 1)
    }
  }

  const NoCounts := SeverityCounts(0, 0, 0, 0, 0)

  /** The severities of `order` whose count is positive, in the order of `order`;
      a strictly descending `order` gives a strictly descending result. */
  function Positive(order: seq<Severity>, counts: SeverityCounts): (r: seq<Severity>)
    ensures forall s :: s in r <==> s in order && counts.Get(s) > 0
    ensures (forall i, j :: 0 <= i < j < |order| ==> Rank(order[i]) > Rank(order[j])) ==>
              (forall i, j :: 0 <= i < j < |r| ==> Rank(r[i]) > Rank(r[j]))
    ensures |r| <= |order|
  {
    if |order| == 0 then []
    else
      var rest := Positive(order[1..], counts);
      if counts.Get(order[0]) > 0 then
        assert forall k :: 0 <= k < |rest| ==> rest[k] in order[1..];
        [order[0]] + rest
      else rest
  }

  /** When every severity of `order` was counted, none is dropped. */
  lemma {:induction false} PositiveKeepsAll(order: seq<Severity>, counts: SeverityCounts)
    requires forall i :: 0 <= i < |order| ==> counts.Get(order[i]) > 0
    ensures Positive(order, counts) == order
  {
    if |order| > 0 {
      PositiveKeepsAll(order[1..], counts);
      assert [order[0]] + order[1..] == order;
    }
  }

  /** The severities that get a bullet: exactly those counted at least once, most
      important first. */
  function BulletSeverities(counts: SeverityCounts): (r: seq<Severity>)
    ensures forall s :: s in r <==> counts.Get(s) > 0
    ensures forall i, j :: 0 <= i < j < |r| ==> Rank(r[i]) > Rank(r[j])
  {
    Positive(DisplayOrder(), counts)
  }
}
