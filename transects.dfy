/**
 * The transect file parser of `DataMap._create_transects_geojson`: every
 * line is a comma-separated record `point_id,x,y,<ignored>`; a record read
 * while no feature is open opens one (its transect id and start point), the
 * next record closes it (end point) and the finished two-point line feature
 * is emitted. A trailing record that opens a feature nobody closes is
 * dropped without an error.
 */
module Transects {
  import opened Outcomes
  import opened Text

  /** A vertex, kept as the raw text of the x and y fields (float parsing is not modelled). */
  datatype Point = Point(x: string, y: string)

  /** One comma-separated line split into its four fields. */
  datatype Record = Record(pointId: string, x: string, y: string, ignored: string)

  /**
   * A LineString feature: its "Transect ID" and "Start Point (meters)" /
   * "End Point (meters)" properties and its coordinates.
   */
  datatype Feature = Feature(transectId: nat, coordinates: seq<Point>, startPoint: string, endPoint: string)

  /** The one-slot parser state `transect_feature` while a feature is open. */
  datatype Opening = Opening(transectId: nat, start: Point, startPoint: string)

  /** The `ValueError`s raised while reading a line (0-based line numbers). */
  datatype ParseError =
    | WrongFieldCount(line: nat, fields: nat)  // `[point_id, x, y, _] = line.split(",")` unpacks exactly 4 fields
    | NoDigitsInId(line: nat)                  // `int("")` when the point id of an opening record has no digit

  /** `int("".join(c for c in pointId if c.isdigit()))`, or nothing when there is no digit. */
  function TransectId(pointId: string): (r: Option<nat>)
    ensures r.Some? <==> Digits(pointId) != []
  {
    var d := Digits(pointId);
    if d == [] then None else Some(DecimalValue(d))
  }

  function RecordAt(lines: seq<string>, i: nat): (r: Result<Record, ParseError>)
    requires i < |lines|
    ensures r.Ok? <==> |Split(lines[i], ',')| == 4
    ensures r.Err? ==> r.error == WrongFieldCount(i, |Split(lines[i], ',')|)
  {
    var f := Split(lines[i], ',');
    if |f| != 4 then Err(WrongFieldCount(i, |f|)) else Ok(Record(f[0], f[1], f[2], f[3]))
  }

  /** Reading line `i` as the record that opens a feature. */
  function OpenAt(lines: seq<string>, i: nat): (r: Result<Opening, ParseError>)
    requires i < |lines|
  {
    match RecordAt(lines, i)
    case Err(e) => Err(e)
    case Ok(rec) =>
      match TransectId(rec.pointId)
      case None => Err(NoDigitsInId(i))
      case Some(id) => Ok(Opening(id, Point(rec.x, rec.y), FormatPoint(rec.x, rec.y)))
  }

  /** Closing an open feature with the end record. */
  function Close(o: Opening, rec: Record): Feature {
    Feature(o.transectId, [o.start, Point(rec.x, rec.y)], o.startPoint, FormatPoint(rec.x, rec.y))
  }

  /** Prefixing the features found so far to the outcome of the rest of the file. */
  function Prepend(done: seq<Feature>, rest: Result<seq<Feature>, ParseError>): Result<seq<Feature>, ParseError> {
    match rest
    case Ok(fs) => Ok(done + fs)
    case Err(e) => Err(e)
  }

  /** The features of `lines[i..]` when no feature is open before line `i`. */
  function ParseFrom(lines: seq<string>, i: nat): Result<seq<Feature>, ParseError>
    requires i <= |lines|
    decreases |lines| - i, 1
  {
    if i == |lines| then Ok([])
    else
      match OpenAt(lines, i)
      case Err(e) => Err(e)
      case Ok(o) => CloseFrom(lines, i + 1, o)
  }

  /** The features of `lines[i..]` when `o` was opened by line `i - 1`. */
  function CloseFrom(lines: seq<string>, i: nat, o: Opening): Result<seq<Feature>, ParseError>
    requires i <= |lines|
    decreases |lines| - i, 0
  {
    if i == |lines| then Ok([])  // the unterminated feature is dropped
    else
      match RecordAt(lines, i)
      case Err(e) => Err(e)
      case Ok(rec) => Prepend([Close(o, rec)], ParseFrom(lines, i + 1))
  }

  /** The outcome of reading a whole transect file. */
  function Parse(lines: seq<string>): Result<seq<Feature>, ParseError> {
    ParseFrom(lines, 0)
  }

  /**
   * The line loop of `_create_transects_geojson` (components.py:327-354):
   * `pending` is `transect_feature`, `features` is `features_list`.
   */
  method CreateTransectFeatures(lines: seq<string>) returns (r: Result<seq<Feature>, ParseError>)
    ensures r == Parse(lines)
  {
    var features: seq<Feature> := [];
    var pending: Option<Opening> := None;
    var i := 0;
    if ParseFrom(lines, 0).Ok? {
      assert [] + ParseFrom(lines, 0).value == ParseFrom(lines, 0).value;
    }
    while i < |lines|
      invariant 0 <= i <= |lines|
      invariant pending.None? ==> Parse(lines) == Prepend(features, ParseFrom(lines, i))
      invariant pending.Some? ==> Parse(lines) == Prepend(features, CloseFrom(lines, i, pending.value))
    {
      var fields := Split(lines[i], ',');
      if |fields| != 4 {
        return Err(WrongFieldCount(i, |fields|));
      }
      var pointId, x, y := fields[0], fields[1], fields[2];
      if pending.None? {
        var id := TransectId(pointId);
        assert RecordAt(lines, i) == Ok(Record(pointId, x, y, fields[3]));
        if id.None? {
          return Err(NoDigitsInId(i));
        }
        pending := Some(Opening(id.value, Point(x, y), FormatPoint(x, y)));
        assert OpenAt(lines, i) == Ok(pending.value);
      } else {
        var o := pending.value;
        var feature := Feature(o.transectId, [o.start, Point(x, y)], o.startPoint, FormatPoint(x, y));
        assert feature == Close(o, Record(pointId, x, y, fields[3]));
        if ParseFrom(lines, i + 1).Ok? {
          var fs := ParseFrom(lines, i + 1).value;
          assert features + ([feature] + fs) == (features + [feature]) + fs;
        }
        features := features + [feature];
        pending := None;
      }
      i := i + 1;
    }
    assert features + [] == features;
    r := Ok(features);
  }

  // ---------------------------------------------------------------------------
  // What a parse yields, stated without the parser's state.

  /** Line `j` is acceptable in its position: an opening record at even `j`, a closing one at odd `j`. */
  predicate GoodAt(lines: seq<string>, j: nat)
    requires j < |lines|
  {
    if j % 2 == 0 then OpenAt(lines, j).Ok? else RecordAt(lines, j).Ok?
  }

  /** The error reported for line `j` when it is not acceptable. */
  function ErrorAt(lines: seq<string>, j: nat): ParseError
    requires j < |lines| && !GoodAt(lines, j)
  {
    if j % 2 == 0 then OpenAt(lines, j).error else RecordAt(lines, j).error
  }

  predicate WellFormed(lines: seq<string>) {
    forall j :: 0 <= j < |lines| ==> GoodAt(lines, j)
  }

  /** The `k`-th feature of a well-formed file: records `2k` and `2k + 1`. */
  function FeatureAt(lines: seq<string>, k: nat): Feature
    requires WellFormed(lines) && 2 * k + 1 < |lines|
  {
    assert GoodAt(lines, 2 * k) && GoodAt(lines, 2 * k + 1);
    Close(OpenAt(lines, 2 * k).value, RecordAt(lines, 2 * k + 1).value)
  }

  lemma {:induction false} ParseFromOk(lines: seq<string>, m: nat)
    requires WellFormed(lines) && 2 * m <= |lines|
    ensures ParseFrom(lines, 2 * m).Ok?
    ensures |ParseFrom(lines, 2 * m).value| == |lines| / 2 - m
    ensures forall k :: 0 <= k < |lines| / 2 - m ==> ParseFrom(lines, 2 * m).value[k] == FeatureAt(lines, m + k)
    decreases |lines| - 2 * m
  {
    var i := 2 * m;
    if i < |lines| {
      assert GoodAt(lines, i);
      var o := OpenAt(lines, i).value;
      if i + 1 < |lines| {
        assert GoodAt(lines, i + 1);
        var rec := RecordAt(lines, i + 1).value;
        ParseFromOk(lines, m + 1);
        var rest := ParseFrom(lines, i + 2).value;
        var all := [Close(o, rec)] + rest;
        assert ParseFrom(lines, i) == Ok(all);
        assert FeatureAt(lines, m) == Close(o, rec);
        forall k | 0 <= k < |lines| / 2 - m
          ensures all[k] == FeatureAt(lines, m + k)
        {
          if k > 0 {
            assert all[k] == rest[k - 1];
            assert m + k == (m + 1) + (k - 1);
          }
        }
      }
    }
  }

  /**
   * A well-formed file of N records yields exactly floor(N / 2) features,
   * feature k being built from records 2k and 2k + 1 in that order.
   */
  lemma ParseWellFormed(lines: seq<string>)
    requires WellFormed(lines)
    ensures Parse(lines).Ok?
    ensures |Parse(lines).value| == |lines| / 2
    ensures forall k :: 0 <= k < |lines| / 2 ==> Parse(lines).value[k] == FeatureAt(lines, k)
  {
    ParseFromOk(lines, 0);
  }

  lemma {:induction false} ParseFromError(lines: seq<string>, i: nat)
    requires i <= |lines| && i % 2 == 0
    requires ParseFrom(lines, i).Err?
    ensures var e := ParseFrom(lines, i).error;
            i <= e.line < |lines| && !GoodAt(lines, e.line) && e == ErrorAt(lines, e.line) &&
            forall j :: i <= j < e.line ==> GoodAt(lines, j)
    decreases |lines| - i
  {
    var e := ParseFrom(lines, i).error;
    if OpenAt(lines, i).Ok? {
      var o := OpenAt(lines, i).value;
      if RecordAt(lines, i + 1).Ok? {
        ParseFromError(lines, i + 2);
      }
    }
  }

  /**
   * A failed parse reports the first line that is not acceptable in its
   * position (wrong field count, or an opening point id without a digit).
   */
  lemma ParseError_IsFirstBadLine(lines: seq<string>)
    requires Parse(lines).Err?
    ensures var e := Parse(lines).error;
            e.line < |lines| && !GoodAt(lines, e.line) && e == ErrorAt(lines, e.line) &&
            forall j :: 0 <= j < e.line ==> GoodAt(lines, j)
  {
    ParseFromError(lines, 0);
  }

  /** A parse succeeds exactly when every line is acceptable in its position. */
  lemma ParseOkIff(lines: seq<string>)
    ensures Parse(lines).Ok? <==> WellFormed(lines)
  {
    if WellFormed(lines) {
      ParseWellFormed(lines);
    } else if Parse(lines).Ok? {
      var j :| 0 <= j < |lines| && !GoodAt(lines, j);
      ParseOkBadLine(lines, 0, j);
    }
  }

  lemma {:induction false} ParseOkBadLine(lines: seq<string>, i: nat, j: nat)
    requires i <= j < |lines| && i % 2 == 0 && !GoodAt(lines, j)
    ensures ParseFrom(lines, i).Err?
    decreases |lines| - i
  {
    if i < j {
      if OpenAt(lines, i).Ok? && i + 1 < j && RecordAt(lines, i + 1).Ok? {
        ParseOkBadLine(lines, i + 2, j);
      }
    }
  }

  /**
   * What each feature holds, in the terms of the file's text: the id is the
   * value of the digits of the START record's point id, the coordinates are
   * the two records' x/y fields in order, and the start/end properties are
   * "(x, y)" of those fields.
   */
  lemma FeatureFields(lines: seq<string>, k: nat)
    requires WellFormed(lines) && 2 * k + 1 < |lines|
    ensures Parse(lines).Ok?
    ensures var s, e := Split(lines[2 * k], ','), Split(lines[2 * k + 1], ',');
            var f := Parse(lines).value;
            |s| == 4 && |e| == 4 && k < |f| &&
            Digits(s[0]) != [] && f[k].transectId == DecimalValue(Digits(s[0])) &&
            f[k].coordinates == [Point(s[1], s[2]), Point(e[1], e[2])] &&
            f[k].startPoint == "(" + s[1] + ", " + s[2] + ")" &&
            f[k].endPoint == "(" + e[1] + ", " + e[2] + ")"
  {
    ParseWellFormed(lines);
    assert GoodAt(lines, 2 * k) && GoodAt(lines, 2 * k + 1);
    assert (2 * k) % 2 == 0 && (2 * k + 1) % 2 == 1;
  }

  /** A trailing record after an even number of lines adds no feature and no error. */
  lemma TrailingRecordDropped(lines: seq<string>, last: string)
    requires |lines| % 2 == 0 && WellFormed(lines + [last])
    ensures Parse(lines + [last]) == Parse(lines)
  {
    var all := lines + [last];
    assert WellFormed(lines) by {
      forall j | 0 <= j < |lines| ensures GoodAt(lines, j) {
        assert GoodAt(all, j);
        assert all[j] == lines[j];
      }
    }
    ParseWellFormed(all);
    ParseWellFormed(lines);
    assert |all| / 2 == |lines| / 2;
    forall k | 0 <= k < |lines| / 2 ensures FeatureAt(all, k) == FeatureAt(lines, k) {
      assert all[2 * k] == lines[2 * k] && all[2 * k + 1] == lines[2 * k + 1];
    }
    assert Parse(all).value == Parse(lines).value;
  }

  lemma TwoRecords(l0: string, l1: string, id: string, x0: string, y0: string, endId: string, x1: string, y1: string, n: nat)
    requires Split(l0, ',') == [id, x0, y0, "0"] && Split(l1, ',') == [endId, x1, y1, "0"]
    requires TransectId(id) == Some(n)
    ensures Parse([l0, l1]) == Ok([Feature(n, [Point(x0, y0), Point(x1, y1)], FormatPoint(x0, y0), FormatPoint(x1, y1))])
  {
    var lines := [l0, l1];
    var o := Opening(n, Point(x0, y0), FormatPoint(x0, y0));
    assert OpenAt(lines, 0) == Ok(o);
    assert RecordAt(lines, 1) == Ok(Record(endId, x1, y1, "0"));
    assert ParseFrom(lines, 2) == Ok([]);
    var f := Close(o, Record(endId, x1, y1, "0"));
    assert CloseFrom(lines, 1, o) == Prepend([f], ParseFrom(lines, 2));
    assert [f] + [] == [f];
    assert ParseFrom(lines, 0) == CloseFrom(lines, 1, o);
  }

  /** The end record's point id plays no part: it may even lack digits. */
  lemma EndIdIgnored(x0: string, y0: string, x1: string, y1: string, n: nat, endId: string)
    requires ',' !in x0 && ',' !in y0 && ',' !in x1 && ',' !in y1 && ',' !in endId
    ensures Parse([Join(["P" + Show(n), x0, y0, "0"], ','), Join([endId, x1, y1, "0"], ',')])
         == Ok([Feature(n, [Point(x0, y0), Point(x1, y1)], FormatPoint(x0, y0), FormatPoint(x1, y1))])
  {
    var id := "P" + Show(n);
    assert ',' !in id by {
      forall k | 0 <= k < |id| ensures id[k] != ',' {
        if k > 0 { assert id[k] == Show(n)[k - 1]; }
      }
    }
    SplitJoin([id, x0, y0, "0"], ',');
    SplitJoin([endId, x1, y1, "0"], ',');
    DigitsAppend("P", Show(n));
    DigitsOfDigits(Show(n));
    assert Digits("P") == [];
    DecimalValueShow(n);
    TwoRecords(Join([id, x0, y0, "0"], ','), Join([endId, x1, y1, "0"], ','), id, x0, y0, endId, x1, y1, n);
  }
}
