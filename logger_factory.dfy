/** The builder of the logger package (logger/factory.go): the root
    package's builder without database settings of its own. Its database
    writer reads the connection settings from the process environment and
    creates the client without any health check. */
module LoggerFactory {
  import opened Results
  import opened ResultSeqs
  import opened Levels
  import opened Writers
  import ZeroLog
  import Values

  /** What the sinks of this factory depend on; `environment` is what the
      INFLUX_* environment variables hold when the writer is built. */
  function SinkEnvOf(service: string, environment: InfluxConfig, opens: string -> bool): (env: SinkEnv)
    ensures SinkFor(DatabaseWriterType, env) == Success(InfluxSink(environment))
    ensures SinkFor(FileWriterType, env).Success? <==> opens("logs/" + service + ".log")
  {
    SinkEnv(service, Success(InfluxSink(environment)), opens)
  }

  /** Here every kind but an unknown one and an unopenable file yields a
      sink: the database kind always does, with the environment's settings. */
  lemma {:induction false} DatabaseKindConnects(kinds: seq<WriterType>, service: string, environment: InfluxConfig,
                                                opens: string -> bool)
    requires forall i :: 0 <= i < |kinds| ==> kinds[i] <= DatabaseWriterType
    requires FileWriterType in kinds ==> opens(FilePath(service))
    ensures var r := CollectSinks(kinds, SinkEnvOf(service, environment, opens));
      && r.Success? && |r.value| == |kinds|
      && forall i :: 0 <= i < |kinds| && kinds[i] == DatabaseWriterType ==> r.value[i] == InfluxSink(environment)
  {
    var env := SinkEnvOf(service, environment, opens);
    forall i | 0 <= i < |kinds|
      ensures SinkFor(kinds[i], env).Success?
    {
      if kinds[i] == FileWriterType {
        assert kinds[i] in kinds;
      }
    }
    CollectSinksOnePerKind(kinds, env);
  }

  class Factory {
    var typ: LoggerType
    var service: string
    var zerologger: ZeroLog.Engine

    /** New: the given type, an empty service and a zero engine. */
    constructor New(typ: LoggerType)
      ensures this.typ == typ && service == ""
      ensures fresh(zerologger)
      ensures zerologger.writers == [] && zerologger.level == None
      ensures zerologger.timestampHooks == 0 && !zerologger.stack
    {
      this.typ := typ;
      service := "";
      zerologger := new ZeroLog.Engine.Zero();
    }

    /** WithWriters: for the zerolog type, replace the engine by a fresh one
        over the requested sinks (an earlier WithLevel or WithStackError is
        dropped); any other type, or a sink that cannot be built, aborts and
        leaves the builder as it was. */
    method WithWriters(kinds: seq<WriterType>, opens: string -> bool, environment: InfluxConfig)
      returns (r: Result<Factory, Abort>)
      modifies this
      ensures typ == old(typ) && service == old(service)
      ensures old(typ) != ZeroLoggerType ==>
        r == Failure(Panic("typ not acceptable")) && zerologger == old(zerologger)
      ensures old(typ) == ZeroLoggerType && CollectSinks(kinds, SinkEnvOf(old(service), environment, opens)).Failure? ==>
        r == Failure(CollectSinks(kinds, SinkEnvOf(old(service), environment, opens)).error) && zerologger == old(zerologger)
      ensures old(typ) == ZeroLoggerType && CollectSinks(kinds, SinkEnvOf(old(service), environment, opens)).Success? ==>
        && r == Success(this)
        && fresh(zerologger)
        && zerologger.writers == CollectSinks(kinds, SinkEnvOf(old(service), environment, opens)).value
        && zerologger.level == None && zerologger.timestampHooks == 1 && !zerologger.stack
    {
      if typ != ZeroLoggerType {
        return Failure(Panic("typ not acceptable"));
      }
      var writers := ZerologWriters(kinds, opens, environment);
      if writers.Failure? {
        return Failure(writers.error);
      }
      zerologger := new ZeroLog.Engine.Over(writers.value);
      return Success(this);
    }

    /** WithServiceName: overwrite the service only. */
    method WithServiceName(name: string) returns (f: Factory)
      modifies this
      ensures f == this && service == name
      ensures typ == old(typ) && zerologger == old(zerologger)
    {
      service := name;
      return this;
    }

    /** WithLevel: set the engine's threshold in place, whatever the
        level's value; a type other than zerolog aborts. */
    method WithLevel(level: Level) returns (r: Result<Factory, Abort>)
      modifies zerologger
      ensures typ != ZeroLoggerType ==> r == Failure(Panic("level not acceptable")) && unchanged(zerologger)
      ensures typ == ZeroLoggerType ==>
        && r == Success(this)
        && zerologger.level == Some(level)
        && zerologger.writers == old(zerologger.writers)
        && zerologger.timestampHooks == old(zerologger.timestampHooks)
        && zerologger.stack == old(zerologger.stack)
    {
      if typ != ZeroLoggerType {
        return Failure(Panic("level not acceptable"));
      }
      zerologger.level := Some(level);
      return Success(this);
    }

    /** WithStackError: enable stack traces on the engine for the zerolog
        type; any other type is returned untouched. */
    method WithStackError() returns (f: Factory)
      modifies zerologger
      ensures f == this
      ensures typ != ZeroLoggerType ==> unchanged(zerologger)
      ensures typ == ZeroLoggerType ==>
        && zerologger.stack
        && zerologger.writers == old(zerologger.writers)
        && zerologger.level == old(zerologger.level)
        && zerologger.timestampHooks == old(zerologger.timestampHooks)
    {
      if typ == ZeroLoggerType {
        zerologger.stack := true;
      }
      return this;
    }

    /** Build: for the zerolog type, add a timestamp to the engine and return
        a logger over that same engine with the factory's service and an
        empty scope; for any other type, no logger (nil). */
    method Build() returns (l: Option<ZeroLog.ZeroLogger>)
      modifies zerologger
      ensures typ != ZeroLoggerType ==> l == None && unchanged(zerologger)
      ensures typ == ZeroLoggerType ==>
        && l == Some(ZeroLog.ZeroLogger(zerologger, service, ""))
        && zerologger.timestampHooks == old(zerologger.timestampHooks) + 1
        && zerologger.writers == old(zerologger.writers)
        && zerologger.level == old(zerologger.level)
        && zerologger.stack == old(zerologger.stack)
    {
      if typ != ZeroLoggerType {
        return None;
      }
      zerologger.timestampHooks := zerologger.timestampHooks + 1;
      return Some(ZeroLog.ZeroLogger(zerologger, service, ""));
    }

    /** zerologWriters: one sink per kind, in order; the file sink opens
        logs/<service>.log, the database sink uses the environment's
        settings, an unknown kind panics. */
    method ZerologWriters(kinds: seq<WriterType>, opens: string -> bool, environment: InfluxConfig)
      returns (r: Result<seq<Sink>, Abort>)
      ensures r == CollectSinks(kinds, SinkEnvOf(service, environment, opens))
    {
      var env := SinkEnvOf(service, environment, opens);
      var writers: seq<Sink> := [];
      for i := 0 to |kinds|
        invariant CollectSinks(kinds, env) == PrependAll(writers, CollectSinks(kinds[i..], env))
      {
        var kind := kinds[i];
        assert kinds[i..][0] == kind && kinds[i..][1..] == kinds[i + 1..];
        var sink: Sink;
        if kind == ConsoleWriterType {
          sink := ConsoleSink;
        } else if kind == FileWriterType {
          var path := FilePath(service);
          if !opens(path) {
            return Failure(OpenFailed(path));
          }
          sink := FileSink(path);
        } else if kind == DatabaseWriterType {
          sink := InfluxSink(environment);
        } else {
          return Failure(Panic("writer type not acceptable"));
        }
        PrependAllTwice(writers, [sink], CollectSinks(kinds[i + 1..], env));
        writers := writers + [sink];
      }
      assert kinds[|kinds|..] == [] && writers + [] == writers;
      return Success(writers);
    }
  }

  /** The package's sample program: a debug-level "test" service writing to
      console, file and database, scoped "main". When its log file can be
      opened it gets the three sinks in that order, and its Debug call hands
      the engine a Debug event stamped with service "test" and scope "main". */
  method SampleProgram(opens: string -> bool, environment: InfluxConfig) returns (r: Result<ZeroLog.Event, Abort>)
    ensures !opens("logs/test.log") ==> r == Failure(OpenFailed("logs/test.log"))
    ensures opens("logs/test.log") ==>
      r == Success(ZeroLog.Event(DebugLevel,
        [ZeroLog.Field("service", Values.VString("test")), ZeroLog.Field("scope", Values.VString("main"))],
        ZeroLog.Text("this is a test")))
  {
    var f := new Factory.New(ZeroLoggerType);
    var leveled := f.WithLevel(DebugLevel);
    var named := f.WithServiceName("test");
    var kinds := [ConsoleWriterType, FileWriterType, DatabaseWriterType];
    var env := SinkEnvOf("test", environment, opens);
    assert FilePath("test") == "logs/test.log";
    if opens("logs/test.log") {
      DatabaseKindConnects(kinds, "test", environment, opens);
      CollectSinksOnePerKind(kinds, env);
    } else {
      CollectSinksFirstAbort(kinds, env, 1);
    }
    var withWriters := f.WithWriters(kinds, opens, environment);
    if withWriters.Failure? {
      return Failure(withWriters.error);
    }
    assert f.zerologger.writers == [ConsoleSink, FileSink("logs/test.log"), InfluxSink(environment)];
    var built := f.Build();
    var logger := built.value.WithScope("main");
    ZeroLog.PlainShape(logger, ZeroLog.Debug("this is a test"));
    return logger.Emitted(ZeroLog.Debug("this is a test"));
  }
}
