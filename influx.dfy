/** The time-series sink (logger/influx.go): it decodes each serialized
    event and turns it into one database point, classifying each key of the
    event as dropped, tag or field. */
module Influx {
  import opened Results
  import opened Values

  /** zerolog's default field names. */
  const TimestampFieldName: string := "time"
  const LevelFieldName: string := "level"
  const CallerFieldName: string := "caller"
  const MessageFieldName: string := "message"

  /** The measurement every point is written to. */
  const Measurement: string := "log"

  /** Keys that become (string-valued) tags. */
  predicate IsTagKey(k: string)
  {
    k == LevelFieldName || k == CallerFieldName || k == MessageFieldName
  }

  /** A database point: measurement name, tags and fields. */
  datatype Point = Point(measurement: string, tags: map<string, string>, fields: map<string, Value>)

  /** The tag-classified keys whose value is not a string: each one fails
      the string assertion when the classification reaches it. */
  function BadTagKeys(evt: map<string, Value>): set<string>
  {
    set k | k in evt && IsTagKey(k) && !evt[k].VString?
  }

  /** The tags the keys in `keys` contribute. */
  function TagsOf(evt: map<string, Value>, keys: set<string>): map<string, string>
  {
    map k | k in keys && k in evt && IsTagKey(k) && evt[k].VString? :: evt[k].s
  }

  /** The fields the keys in `keys` contribute. */
  function FieldsOf(evt: map<string, Value>, keys: set<string>): map<string, Value>
  {
    map k | k in keys && k in evt && k != TimestampFieldName && !IsTagKey(k) :: evt[k]
  }

  /** The point an event whose tag values are all strings becomes. */
  function ClassifiedPoint(evt: map<string, Value>): Point
  {
    Point(Measurement, TagsOf(evt, evt.Keys), FieldsOf(evt, evt.Keys))
  }

  /** The classification is total over the event's keys: the timestamp is
      dropped, level, caller and message become tags with their string
      value, every other key becomes a field with its value unchanged, and
      no key is both. */
  lemma ClassificationPartitionsKeys(evt: map<string, Value>)
    requires BadTagKeys(evt) == {}
    ensures ClassifiedPoint(evt).measurement == "log"
    ensures TimestampFieldName !in ClassifiedPoint(evt).tags && TimestampFieldName !in ClassifiedPoint(evt).fields
    ensures ClassifiedPoint(evt).tags.Keys !! ClassifiedPoint(evt).fields.Keys
    ensures ClassifiedPoint(evt).tags.Keys + ClassifiedPoint(evt).fields.Keys == evt.Keys - {TimestampFieldName}
    ensures forall k :: k in ClassifiedPoint(evt).tags ==> IsTagKey(k) && evt[k] == VString(ClassifiedPoint(evt).tags[k])
    ensures forall k :: k in ClassifiedPoint(evt).fields ==> !IsTagKey(k) && ClassifiedPoint(evt).fields[k] == evt[k]
  {
    var p := ClassifiedPoint(evt);
    forall k | k in evt.Keys - {TimestampFieldName}
      ensures k in p.tags.Keys + p.fields.Keys
    {
      if IsTagKey(k) {
        assert k !in BadTagKeys(evt);
      }
    }
  }

  /** The decoded event {"time": T, "level": "debug", "message": "m",
      "custom": 42} becomes tags {level: debug, message: m} and the single
      field {custom: 42}. */
  lemma ExampleClassification(t: Value)
    ensures
      var evt := map["time" := t, "level" := VString("debug"), "message" := VString("m"), "custom" := VNumber(42.0)];
      BadTagKeys(evt) == {} &&
      ClassifiedPoint(evt) == Point("log", map["level" := "debug", "message" := "m"], map["custom" := VNumber(42.0)])
  {
    var evt := map["time" := t, "level" := VString("debug"), "message" := VString("m"), "custom" := VNumber(42.0)];
    assert evt.Keys == {"time", "level", "message", "custom"};
    assert TagsOf(evt, evt.Keys) == map["level" := "debug", "message" := "m"];
    assert FieldsOf(evt, evt.Keys) == map["custom" := VNumber(42.0)];
  }

  /** What Write reports: the Go (n, err) pair, or the abort it runs into. */
  datatype WriteResult = Returned(n: int, err: Option<string>) | Aborted(reason: Abort)

  /** The sink: `points` stands for what has been handed to the database's
      asynchronous write API, in order. */
  class InfluxWriter {
    var points: seq<Point>

    constructor ()
      ensures points == []
    {
      points := [];
    }

    /** Decode: the JSON decoding itself is the parameter `json`; a failure
        is reported with the sink's own prefix and no event. */
    function Decode(p: seq<byte>, json: seq<byte> -> Result<map<string, Value>, string>): (r: Result<map<string, Value>, string>)
      ensures json(p).Success? ==> r == json(p)
      ensures json(p).Failure? ==> r == Failure("cannot decode event: " + json(p).error)
    {
      match json(p)
      case Success(evt) => Success(evt)
      case Failure(e) => Failure("cannot decode event: " + e)
    }

    /** getWritePoint: visit the event's keys in an arbitrary order (Go map
        iteration) and add each to the point as its name dictates. */
    method GetWritePoint(evt: map<string, Value>) returns (r: Result<Point, Abort>)
      ensures r.Success? <==> BadTagKeys(evt) == {}
      ensures r.Success? ==> r.value == ClassifiedPoint(evt)
      ensures r.Failure? ==> r.error.TagNotAString? && r.error.key in BadTagKeys(evt)
    {
      var point := Point(Measurement, map[], map[]);
      var remaining := evt.Keys;
      while remaining != {}
        invariant remaining <= evt.Keys
        invariant point.measurement == Measurement
        invariant BadTagKeys(evt) <= remaining
        invariant point.tags == TagsOf(evt, evt.Keys - remaining)
        invariant point.fields == FieldsOf(evt, evt.Keys - remaining)
        decreases remaining
      {
        var k :| k in remaining;
        var v := evt[k];
        ghost var done := evt.Keys - remaining;
        if k == TimestampFieldName {
          // dropped: the database stamps the point itself
        } else if IsTagKey(k) {
          if !v.VString? {
            assert k in BadTagKeys(evt);
            return Failure(TagNotAString(k));
          }
          point := point.(tags := point.tags[k := v.s]);
        } else {
          point := point.(fields := point.fields[k := v]);
        }
        remaining := remaining - {k};
        assert evt.Keys - remaining == done + {k};
      }
      assert evt.Keys - remaining == evt.Keys;
      return Success(point);
    }

    /** Write: decode, build the point, hand it to the write API and report
        the whole input as written. */
    method Write(p: seq<byte>, json: seq<byte> -> Result<map<string, Value>, string>) returns (r: WriteResult)
      modifies this
      ensures Decode(p, json).Failure? ==>
        r == Returned(-1, Some(Decode(p, json).error)) && points == old(points)
      ensures Decode(p, json).Success? && BadTagKeys(Decode(p, json).value) != {} ==>
        r.Aborted? && r.reason.TagNotAString? && r.reason.key in BadTagKeys(Decode(p, json).value) && points == old(points)
      ensures Decode(p, json).Success? && BadTagKeys(Decode(p, json).value) == {} ==>
        r == Returned(|p|, None) && points == old(points) + [ClassifiedPoint(Decode(p, json).value)]
    {
      var decoded := Decode(p, json);
      if decoded.Failure? {
        return Returned(-1, Some(decoded.error));
      }
      var point := GetWritePoint(decoded.value);
      if point.Failure? {
        return Aborted(point.error);
      }
      points := points + [point.value];
      return Returned(|p|, None);
    }
  }
}
