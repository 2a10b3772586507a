/**
 * Choosing the coordinate columns of a point table
 * (`DataMap._create_data_points_geojson`): the latitude column is the one
 * header column listed among the latitude candidates and the longitude
 * column the one listed among the longitude candidates; the unpacking
 * `[col] = [...]` raises unless exactly one column matches.
 */
module Columns {
  import opened Outcomes

  datatype Axis = Latitude | Longitude

  datatype ColumnError =
    | NoCandidate(axis: Axis)
    | SeveralCandidates(axis: Axis, found: seq<string>)

  /** `[col for col in columns if col in candidates]`. */
  function Matches(columns: seq<string>, candidates: seq<string>): (m: seq<string>)
    ensures |m| <= |columns|
    ensures forall c :: c in m <==> c in columns && c in candidates
  {
    if columns == [] then []
    else (if columns[0] in candidates then [columns[0]] else []) + Matches(columns[1..], candidates)
  }

  /** Exactly one position of the header holds a candidate name. */
  ghost predicate ExactlyOne(columns: seq<string>, candidates: seq<string>) {
    exists j :: 0 <= j < |columns| && columns[j] in candidates &&
      forall j' :: 0 <= j' < |columns| && columns[j'] in candidates ==> j' == j
  }

  lemma ExactlyOneHead(columns: seq<string>, candidates: seq<string>)
    requires columns != [] && columns[0] in candidates
    ensures ExactlyOne(columns, candidates) <==> forall c :: c in columns[1..] ==> c !in candidates
  {
    var rest := columns[1..];
    if forall c :: c in rest ==> c !in candidates {
      forall j' | 0 <= j' < |columns| && columns[j'] in candidates ensures j' == 0 {
      }
    }
    if ExactlyOne(columns, candidates) {
      forall c | c in rest ensures c !in candidates {
        var k :| 0 <= k < |rest| && rest[k] == c;
        assert columns[k + 1] == c;
      }
    }
  }

  lemma ExactlyOneTail(columns: seq<string>, candidates: seq<string>)
    requires columns != [] && columns[0] !in candidates
    ensures ExactlyOne(columns, candidates) <==> ExactlyOne(columns[1..], candidates)
  {
    var rest := columns[1..];
    if ExactlyOne(columns, candidates) {
      var j :| 0 <= j < |columns| && columns[j] in candidates &&
        forall j' :: 0 <= j' < |columns| && columns[j'] in candidates ==> j' == j;
      assert rest[j - 1] in candidates;
      forall j' | 0 <= j' < |rest| && rest[j'] in candidates ensures j' == j - 1 {
        assert columns[j' + 1] in candidates;
      }
    }
    if ExactlyOne(rest, candidates) {
      var j :| 0 <= j < |rest| && rest[j] in candidates &&
        forall j' :: 0 <= j' < |rest| && rest[j'] in candidates ==> j' == j;
      assert columns[j + 1] in candidates;
      forall j' | 0 <= j' < |columns| && columns[j'] in candidates ensures j' == j + 1 {
        assert rest[j' - 1] in candidates;
      }
    }
  }

  lemma {:induction false} MatchesSingle(columns: seq<string>, candidates: seq<string>)
    ensures |Matches(columns, candidates)| == 1 <==> ExactlyOne(columns, candidates)
    decreases |columns|
  {
    if columns != [] {
      var rest := columns[1..];
      if columns[0] in candidates {
        ExactlyOneHead(columns, candidates);
        assert |Matches(columns, candidates)| == 1 + |Matches(rest, candidates)|;
        if Matches(rest, candidates) != [] {
          assert Matches(rest, candidates)[0] in Matches(rest, candidates);
        }
      } else {
        ExactlyOneTail(columns, candidates);
        MatchesSingle(rest, candidates);
      }
    }
  }

  /** `[col] = [col for col in columns if col in candidates]`. */
  function PickColumn(columns: seq<string>, candidates: seq<string>, axis: Axis): (r: Result<string, ColumnError>)
    ensures r.Ok? <==> ExactlyOne(columns, candidates)
    ensures r.Ok? ==> r.value in columns && r.value in candidates
    ensures r.Err? ==> r.error.axis == axis
    ensures r.Err? && r.error.NoCandidate? <==> r.Err? && forall c :: c in columns ==> c !in candidates
  {
    MatchesSingle(columns, candidates);
    var m := Matches(columns, candidates);
    if |m| == 0 then Err(NoCandidate(axis))
    else if |m| > 1 then
      assert m[0] in m;
      Err(SeveralCandidates(axis, m))
    else
      assert m[0] in m;
      Ok(m[0])
  }

  /**
   * Lines 194-195: the latitude column, then the longitude column; the first
   * failing pick is the one raised.
   */
  function PointColumns(columns: seq<string>, latitudes: seq<string>, longitudes: seq<string>): (r: Result<(string, string), ColumnError>)
    ensures r.Ok? <==> ExactlyOne(columns, latitudes) && ExactlyOne(columns, longitudes)
    ensures r.Ok? ==> r.value.0 in columns && r.value.0 in latitudes && r.value.1 in columns && r.value.1 in longitudes
    ensures r.Err? ==> (r.error.axis == Latitude <==> !ExactlyOne(columns, latitudes))
  {
    match PickColumn(columns, latitudes, Latitude)
    case Err(e) => Err(e)
    case Ok(lat) =>
      match PickColumn(columns, longitudes, Longitude)
      case Err(e) => Err(e)
      case Ok(long) => Ok((lat, long))
  }
}
