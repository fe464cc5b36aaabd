/** The zerolog-backed logger (zerolog.go): a value holding the service and
    scope plus a pointer to the shared engine, and the assembly of the event
    each of its 22 logging methods hands to that engine. */
module ZeroLog {
  import opened Results
  import opened ResultSeqs
  import opened Levels
  import opened Values
  import opened Writers

  /** The zerolog.Logger a factory and every logger built from it point to.
      Only the settings the facade changes are kept. */
  class Engine {
    var writers: seq<Sink>        // the sinks of the multi-level writer
    var level: Option<Level>      // None: the engine's own default threshold
    var timestampHooks: nat       // how many times With().Timestamp() was applied
    var stack: bool               // With().Stack() was applied

    /** new(zerolog.Logger): the zero value, writing nowhere. */
    constructor Zero()
      ensures writers == [] && level == None && timestampHooks == 0 && !stack
    {
      writers, level, timestampHooks, stack := [], None, 0, false;
    }

    /** zerolog.New(MultiLevelWriter(ws...)).With().Timestamp().Logger() */
    constructor Over(ws: seq<Sink>)
      ensures writers == ws && level == None && timestampHooks == 1 && !stack
    {
      writers, level, timestampHooks, stack := ws, None, 1, false;
    }
  }

  const ServiceKey: string := "service"
  const ScopeKey: string := "scope"
  /** zerolog's key for the error passed to Err. */
  const ErrorKey: string := "error"

  datatype Field = Field(key: string, value: Value)

  /** What Msg, Msgf or Send finishes an event with; formatting is the engine's. */
  datatype Message = NoMessage | Text(text: string) | Formatted(format: string, args: seq<Value>)

  /** One event handed to the engine: its level, the fields in the order
      they were added, and its message. */
  datatype Event = Event(level: Level, fields: seq<Field>, message: Message)

  /** A fresh event at a level, before any field is added. */
  function NewEvent(level: Level): Event
  {
    Event(level, [], NoMessage)
  }

  /** The value a decoder keeping the last of duplicate keys would see for `key`. */
  function LastValue(fields: seq<Field>, key: string): Option<Value>
  {
    if fields == [] then None
    else if fields[|fields| - 1].key == key then Some(fields[|fields| - 1].value)
    else LastValue(fields[..|fields| - 1], key)
  }

  /** Looking up a key in two concatenated field lists: the later list wins. */
  lemma {:induction false} LastValueAppend(xs: seq<Field>, ys: seq<Field>, key: string)
    ensures LastValue(xs + ys, key) == if LastValue(ys, key).Some? then LastValue(ys, key) else LastValue(xs, key)
    decreases |ys|
  {
    if ys != [] {
      assert (xs + ys)[..|xs + ys| - 1] == xs + ys[..|ys| - 1];
      LastValueAppend(xs, ys[..|ys| - 1], key);
    } else {
      assert xs + ys == xs;
    }
  }

  /** The 22 logging methods of ZeroLogger, with their arguments. */
  datatype Call =
    | Trace(message: string) | Tracef(format: string, args: seq<Value>) | Tracev(message: string, keyValue: seq<Value>)
    | Debug(message: string) | Debugf(format: string, args: seq<Value>) | Debugv(message: string, keyValue: seq<Value>)
    | Info(message: string) | Infof(format: string, args: seq<Value>) | Infov(message: string, keyValue: seq<Value>)
    | Warn(message: string) | Warnf(format: string, args: seq<Value>) | Warnv(message: string, keyValue: seq<Value>)
    | Err(err: string)
    | Error(message: string) | Errorf(format: string, args: seq<Value>) | Errorv(message: string, keyValue: seq<Value>)
    | Fatal(message: string) | Fatalf(format: string, args: seq<Value>) | Fatalv(message: string, keyValue: seq<Value>)
    | Panic(message: string) | Panicf(format: string, args: seq<Value>) | Panicv(message: string, keyValue: seq<Value>)
  {
    /** Methods that log a plain message. */
    predicate IsPlain() {
      Trace? || Debug? || Info? || Warn? || Error? || Fatal? || Panic?
    }

    /** Methods that log a formatted message. */
    predicate IsFormatted() {
      Tracef? || Debugf? || Infof? || Warnf? || Errorf? || Fatalf? || Panicf?
    }

    /** Methods that log a message with key/value pairs. */
    predicate IsKeyValue() {
      Tracev? || Debugv? || Infov? || Warnv? || Errorv? || Fatalv? || Panicv?
    }

    /** The level the method's name announces. */
    function NamedLevel(): Level {
      if Trace? || Tracef? || Tracev? then TraceLevel
      else if Debug? || Debugf? || Debugv? then DebugLevel
      else if Info? || Infof? || Infov? then InfoLevel
      else if Warn? || Warnf? || Warnv? then WarnLevel
      else if Err? || Error? || Errorf? || Errorv? then ErrorLevel
      else if Fatal? || Fatalf? || Fatalv? then FatalLevel
      else PanicLevel
    }

    /** The level of the engine event the method starts, as each method
        body chooses it. */
    function EventLevel(): (l: Level)
      ensures l in KnownLevels
      ensures IsKeyValue() && l != NamedLevel() ==> l == DebugLevel
    {
      match this
      case Trace(_) => TraceLevel
      case Tracef(_, _) => TraceLevel
      case Tracev(_, _) => TraceLevel
      case Debug(_) => DebugLevel
      case Debugf(_, _) => DebugLevel
      case Debugv(_, _) => DebugLevel
      case Info(_) => InfoLevel
      case Infof(_, _) => InfoLevel
      case Infov(_, _) => DebugLevel
      case Warn(_) => WarnLevel
      case Warnf(_, _) => WarnLevel
      case Warnv(_, _) => DebugLevel
      case Err(_) => ErrorLevel
      case Error(_) => ErrorLevel
      case Errorf(_, _) => ErrorLevel
      case Errorv(_, _) => ErrorLevel
      case Fatal(_) => FatalLevel
      case Fatalf(_, _) => FatalLevel
      case Fatalv(_, _) => FatalLevel
      case Panic(_) => PanicLevel
      case Panicf(_, _) => PanicLevel
      case Panicv(_, _) => PanicLevel
    }
  }

  /** Every method logs at the level its name announces, except Infov and
      Warnv, which log at Debug. */
  lemma EventLevelMatchesName(c: Call)
    ensures c.EventLevel() == c.NamedLevel() <==> !(c.Infov? || c.Warnv?)
    ensures c.Infov? || c.Warnv? ==> c.EventLevel() == DebugLevel
  {
  }

  /** The fields of a key/value list, paired left to right; `offset` is the
      position of kv[0] in the caller's list. A key that is not a string
      aborts at its type assertion. */
  function KeyValueFields(kv: seq<Value>, offset: nat): (r: Result<seq<Field>, Abort>)
    requires |kv| % 2 == 0
    ensures r.Success? ==> |r.value| == |kv| / 2
    ensures r.Failure? ==>
      && r.error.KeyNotAString? && offset <= r.error.index < offset + |kv|
      && (r.error.index - offset) % 2 == 0 && !kv[r.error.index - offset].VString?
  {
    if kv == [] then Success([])
    else if !kv[0].VString? then Failure(KeyNotAString(offset))
    else PrependAll([Field(kv[0].s, kv[1])], KeyValueFields(kv[2..], offset + 2))
  }

  /** Unfolding the pairs from an even position whose key is a string. */
  lemma KeyValueFieldsStep(kv: seq<Value>, i: nat)
    requires |kv| % 2 == 0 && i % 2 == 0 && i < |kv| && kv[i].VString?
    ensures KeyValueFields(kv[i..], i) == PrependAll([Field(kv[i].s, kv[i + 1])], KeyValueFields(kv[i + 2..], i + 2))
  {
    assert kv[i..][0] == kv[i] && kv[i..][1] == kv[i + 1] && kv[i..][2..] == kv[i + 2..];
  }

  /** The pairs before position i are done: a string key at i adds one more. */
  lemma KeyValueFieldsAdvance(kv: seq<Value>, i: nat, done: seq<Field>)
    requires |kv| % 2 == 0 && i % 2 == 0 && i < |kv| && kv[i].VString?
    requires KeyValueFields(kv, 0) == PrependAll(done, KeyValueFields(kv[i..], i))
    ensures KeyValueFields(kv, 0) == PrependAll(done + [Field(kv[i].s, kv[i + 1])], KeyValueFields(kv[i + 2..], i + 2))
  {
    KeyValueFieldsStep(kv, i);
    PrependAllTwice(done, [Field(kv[i].s, kv[i + 1])], KeyValueFields(kv[i + 2..], i + 2));
  }

  /** The pairs before position i are done: a non-string key at i fails the whole list. */
  lemma KeyValueFieldsStop(kv: seq<Value>, i: nat, done: seq<Field>)
    requires |kv| % 2 == 0 && i % 2 == 0 && i < |kv| && !kv[i].VString?
    requires KeyValueFields(kv, 0) == PrependAll(done, KeyValueFields(kv[i..], i))
    ensures KeyValueFields(kv, 0) == Failure(KeyNotAString(i))
  {
    assert kv[i..][0] == kv[i];
  }

  /** An even list yields exactly its n/2 pairs (kv[2i], kv[2i+1]) in order,
      and fails exactly when some key is not a string. */
  lemma {:induction false} KeyValueFieldsPairs(kv: seq<Value>, offset: nat)
    requires |kv| % 2 == 0
    ensures KeyValueFields(kv, offset).Success? <==> KeysAreStrings(kv)
    ensures KeyValueFields(kv, offset).Success? ==>
      |KeyValueFields(kv, offset).value| == |kv| / 2 &&
      forall i :: 0 <= i < |kv| / 2 ==> KeyValueFields(kv, offset).value[i] == PairAt(kv, i)
  {
    if kv != [] {
      var tail := kv[2..];
      KeyValueFieldsPairs(tail, offset + 2);
      TailPairs(kv);
      if kv[0].VString? && KeyValueFields(tail, offset + 2).Success? {
        var r := KeyValueFields(kv, offset).value;
        var rt := KeyValueFields(tail, offset + 2).value;
        assert r == [Field(kv[0].s, kv[1])] + rt;
        forall i | 0 <= i < |kv| / 2
          ensures r[i] == PairAt(kv, i)
        {
          if i > 0 {
            assert r[i] == rt[i - 1] == PairAt(tail, i - 1);
          }
        }
      }
    }
  }

  /** Every key position of a key/value list holds a string. */
  predicate KeysAreStrings(kv: seq<Value>)
  {
    forall i :: 0 <= i < |kv| / 2 ==> kv[2 * i].VString?
  }

  /** The i-th pair of a list whose keys are strings. */
  function PairAt(kv: seq<Value>, i: nat): Field
    requires i < |kv| / 2 && kv[2 * i].VString?
  {
    Field(kv[2 * i].s, kv[2 * i + 1])
  }

  /** Dropping the first pair shifts the remaining pairs down by one. */
  lemma TailPairs(kv: seq<Value>)
    requires |kv| % 2 == 0 && kv != []
    ensures KeysAreStrings(kv) <==> kv[0].VString? && KeysAreStrings(kv[2..])
    ensures forall i :: 1 <= i < |kv| / 2 && kv[2 * i].VString? ==> PairAt(kv[2..], i - 1) == PairAt(kv, i)
  {
    var tail := kv[2..];
    assert |tail| / 2 == |kv| / 2 - 1;
    forall i | 1 <= i < |kv| / 2
      ensures tail[2 * (i - 1)] == kv[2 * i] && tail[2 * (i - 1) + 1] == kv[2 * i + 1]
    {
    }
    if kv[0].VString? && KeysAreStrings(tail) {
      forall i | 0 <= i < |kv| / 2
        ensures kv[2 * i].VString?
      {
        if i > 0 { assert tail[2 * (i - 1)] == kv[2 * i]; }
      }
    }
    if KeysAreStrings(kv) {
      assert kv[2 * 0].VString?;
      forall j | 0 <= j < |tail| / 2
        ensures tail[2 * j].VString?
      {
        assert tail[2 * j] == kv[2 * (j + 1)];
      }
    }
  }

  /** The logger a factory builds (Go: ZeroLogger): the shared engine pointer
      plus the service and scope it stamps on every event. */
  datatype ZeroLogger = ZeroLogger(engine: Engine, service: string, scope: string)
  {
    /** A copy of this logger with another scope; this value is untouched. */
    function WithScope(scope': string): (r: ZeroLogger)
      ensures r.scope == scope'
      ensures r.service == service && r.engine == engine
    {
      this.(scope := scope')
    }

    /** The event with this logger's service and then its scope appended. */
    function AppendServiceDetails(e: Event): (r: Event)
      ensures r.level == e.level && r.message == e.message
      ensures |r.fields| == |e.fields| + 2 && r.fields[..|e.fields|] == e.fields
      ensures r.fields[|e.fields|] == Field(ServiceKey, VString(service))
      ensures r.fields[|e.fields| + 1] == Field(ScopeKey, VString(scope))
    {
      e.(fields := e.fields + [Field(ServiceKey, VString(service)), Field(ScopeKey, VString(scope))])
    }

    /** What logv produces from an event, a message and a key/value list. */
    function KeyValueEvent(e: Event, message: string, kv: seq<Value>): (r: Result<Event, Abort>)
      ensures |kv| % 2 != 0 ==> r == Failure(Results.Panic("keyValue len must be even"))
      ensures r.Failure? && |kv| % 2 == 0 ==>
        && r.error.KeyNotAString? && r.error.index < |kv|
        && r.error.index % 2 == 0 && !kv[r.error.index].VString?
      ensures r.Success? ==>
        && r.value.level == e.level && r.value.message == Text(message)
        && |r.value.fields| == |e.fields| + 2 + |kv| / 2 && r.value.fields[..|e.fields|] == e.fields
    {
      if |kv| % 2 != 0 then Failure(Results.Panic("keyValue len must be even"))
      else
        match KeyValueFields(kv, 0)
        case Failure(a) => Failure(a)
        case Success(fs) =>
          var withDetails := AppendServiceDetails(e);
          Success(withDetails.(fields := withDetails.fields + fs, message := Text(message)))
    }

    /** logv: check the list's length, append service and scope, append
        each pair in turn, then finish the event with the message. */
    method Logv(e: Event, message: string, kv: seq<Value>) returns (r: Result<Event, Abort>)
      ensures r == KeyValueEvent(e, message, kv)
    {
      if |kv| % 2 != 0 {
        return Failure(Results.Panic("keyValue len must be even"));
      }
      var event := AppendServiceDetails(e);
      ghost var base := event.fields;
      ghost var done: seq<Field> := [];
      assert kv[0..] == kv;
      var i := 0;
      while i < |kv|
        invariant 0 <= i <= |kv| && i % 2 == 0
        invariant event.level == e.level && event.message == e.message
        invariant event.fields == base + done
        invariant KeyValueFields(kv, 0) == PrependAll(done, KeyValueFields(kv[i..], i))
        decreases |kv| - i
      {
        if !kv[i].VString? {
          KeyValueFieldsStop(kv, i, done);
          return Failure(KeyNotAString(i));
        }
        var field := Field(kv[i].s, kv[i + 1]);
        KeyValueFieldsAdvance(kv, i, done);
        event := event.(fields := event.fields + [field]);
        done := done + [field];
        i := i + 2;
      }
      assert kv[i..] == [] && KeyValueFields(kv[i..], i) == Success([]);
      assert done + [] == done;
      return Success(event.(message := Text(message)));
    }

    /** The event a logging method hands to the engine, or why it aborts. */
    function Emitted(c: Call): (r: Result<Event, Abort>)
      ensures !c.IsKeyValue() ==> r.Success?
      ensures r.Success? ==> r.value.level == c.EventLevel() && r.value.message.Text? == (!c.Err? && !c.IsFormatted())
      ensures c.IsKeyValue() && |c.keyValue| % 2 != 0 ==> r == Failure(Results.Panic("keyValue len must be even"))
    {
      if c.Err? then
        Success(AppendServiceDetails(Event(ErrorLevel, [Field(ErrorKey, VString(c.err))], NoMessage)))
      else if c.IsKeyValue() then
        KeyValueEvent(NewEvent(c.EventLevel()), c.message, c.keyValue)
      else if c.IsFormatted() then
        Success(AppendServiceDetails(NewEvent(c.EventLevel())).(message := Formatted(c.format, c.args)))
      else
        Success(AppendServiceDetails(NewEvent(c.EventLevel())).(message := Text(c.message)))
    }
  }

  /** Deriving twice keeps only the last scope; deriving the current scope
      gives the same logger. */
  lemma WithScopeLastWins(z: ZeroLogger, a: string, b: string)
    ensures z.WithScope(a).WithScope(b) == z.WithScope(b)
    ensures z.WithScope(z.scope) == z
  {
  }

  /** Every event is stamped with the logger's service and then its scope,
      right after the fields the method itself starts with (the error for
      Err, none otherwise), at the level the method chooses. */
  lemma EmittedCarriesServiceDetails(z: ZeroLogger, c: Call)
    requires z.Emitted(c).Success?
    ensures
      var e := z.Emitted(c).value;
      var k := if c.Err? then 1 else 0;
      && e.level == c.EventLevel()
      && |e.fields| >= k + 2
      && e.fields[k] == Field(ServiceKey, VString(z.service))
      && e.fields[k + 1] == Field(ScopeKey, VString(z.scope))
  {
    if c.IsKeyValue() {
      KeyValueCall(z, c);
    }
  }

  /** Err logs at Error level with the error and then service and scope,
      and no message. */
  lemma ErrShape(z: ZeroLogger, err: string)
    ensures z.Emitted(Err(err)) == Success(Event(ErrorLevel,
      [Field(ErrorKey, VString(err)), Field(ServiceKey, VString(z.service)), Field(ScopeKey, VString(z.scope))],
      NoMessage))
  {
    var errField := Field(ErrorKey, VString(err));
    assert [errField] + [Field(ServiceKey, VString(z.service)), Field(ScopeKey, VString(z.scope))]
      == [errField, Field(ServiceKey, VString(z.service)), Field(ScopeKey, VString(z.scope))];
  }

  /** The plain methods never abort; their event holds exactly service and
      scope, finished with the message. */
  lemma PlainShape(z: ZeroLogger, c: Call)
    requires c.IsPlain()
    ensures z.Emitted(c) == Success(Event(c.EventLevel(),
      [Field(ServiceKey, VString(z.service)), Field(ScopeKey, VString(z.scope))], Text(c.message)))
  {
    assert !c.Err? && !c.IsKeyValue() && !c.IsFormatted();
  }

  /** The formatted methods never abort; their event holds exactly service
      and scope, finished with the format and its arguments. */
  lemma FormattedShape(z: ZeroLogger, c: Call)
    requires c.IsFormatted()
    ensures z.Emitted(c) == Success(Event(c.EventLevel(),
      [Field(ServiceKey, VString(z.service)), Field(ScopeKey, VString(z.scope))], Formatted(c.format, c.args)))
  {
    assert !c.Err? && !c.IsKeyValue();
  }

  /** A key/value method with an odd list aborts before any field is added
      or any message is emitted; with an even list it appends service,
      scope and then the n/2 pairs in order, or aborts at the first key that
      is not a string. */
  lemma KeyValueCall(z: ZeroLogger, c: Call)
    requires c.IsKeyValue()
    ensures |c.keyValue| % 2 != 0 ==> z.Emitted(c) == Failure(Results.Panic("keyValue len must be even"))
    ensures |c.keyValue| % 2 == 0 ==>
      (z.Emitted(c).Success? <==> KeysAreStrings(c.keyValue))
    ensures z.Emitted(c).Success? ==>
      var e := z.Emitted(c).value;
      && e.level == c.EventLevel()
      && e.message == Text(c.message)
      && |e.fields| == 2 + |c.keyValue| / 2
      && e.fields[0] == Field(ServiceKey, VString(z.service))
      && e.fields[1] == Field(ScopeKey, VString(z.scope))
      && forall i :: 0 <= i < |c.keyValue| / 2 ==> e.fields[2 + i] == PairAt(c.keyValue, i)
  {
    if |c.keyValue| % 2 == 0 {
      KeyValueFieldsPairs(c.keyValue, 0);
    }
  }

  /** Since service and scope are appended before the caller's pairs, a
      caller key "service" or "scope" takes precedence for a reader that
      keeps the last duplicate; without one, the logger's own values show. */
  lemma CallerKeysFollowServiceDetails(z: ZeroLogger, c: Call, key: string)
    requires c.IsKeyValue() && z.Emitted(c).Success?
    requires key == ServiceKey || key == ScopeKey
    ensures
      var fs := KeyValueFields(c.keyValue, 0).value;
      var own := if key == ServiceKey then z.service else z.scope;
      LastValue(z.Emitted(c).value.fields, key) ==
        if LastValue(fs, key).Some? then LastValue(fs, key) else Some(VString(own))
  {
    var fs := KeyValueFields(c.keyValue, 0).value;
    var details := [Field(ServiceKey, VString(z.service)), Field(ScopeKey, VString(z.scope))];
    assert z.Emitted(c).value.fields == details + fs;
    LastValueAppend(details, fs, key);
    assert details[..1] == [Field(ServiceKey, VString(z.service))];
  }
}
