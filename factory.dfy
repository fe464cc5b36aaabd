/** The builder of the root package (factory.go). It accumulates the
    service name and the database connection settings, and points to an
    engine that WithLevel, WithStackError and Build change in place and
    WithWriters replaces. */
module HermesFactory {
  import opened Results
  import opened ResultSeqs
  import opened Levels
  import opened Writers
  import ZeroLog

  /** The database writer of this package calls log.Fatal with the address,
      token and organization (printed back to back) before anything else,
      so it never yields a sink. */
  function DatabaseSink(address: string, authToken: string, organization: string): (r: Result<Sink, Abort>)
    ensures r.Failure? && r.error.Exit?
    ensures r.error.message == address + authToken + organization
  {
    Failure(Exit(address + authToken + organization))
  }

  /** What the sinks of this factory depend on. */
  function SinkEnvOf(service: string, address: string, authToken: string, organization: string,
                     opens: string -> bool): (env: SinkEnv)
    ensures SinkFor(DatabaseWriterType, env) == Failure(Exit(address + authToken + organization))
    ensures SinkFor(FileWriterType, env).Success? <==> opens("logs/" + service + ".log")
  {
    SinkEnv(service, DatabaseSink(address, authToken, organization), opens)
  }

  /** Asking this factory for a database writer aborts the whole writer
      list: with log.Fatal's exit if every kind before it succeeded, or
      earlier; so no list containing the kind ever yields sinks. */
  lemma {:induction false} DatabaseKindExits(kinds: seq<WriterType>, service: string, address: string,
                                             authToken: string, organization: string, opens: string -> bool, i: nat)
    requires i < |kinds| && kinds[i] == DatabaseWriterType
    ensures var env := SinkEnvOf(service, address, authToken, organization, opens);
      && CollectSinks(kinds, env).Failure?
      && ((forall j :: 0 <= j < i ==> SinkFor(kinds[j], env).Success?) ==>
            CollectSinks(kinds, env) == Failure(Exit(address + authToken + organization)))
  {
    var env := SinkEnvOf(service, address, authToken, organization, opens);
    CollectSinksOnePerKind(kinds, env);
    if forall j :: 0 <= j < i ==> SinkFor(kinds[j], env).Success? {
      CollectSinksFirstAbort(kinds, env, i);
    }
  }

  class Factory {
    var typ: LoggerType
    var address: string
    var authToken: string
    var organization: string
    var bucket: string
    var service: string
    var zerologger: ZeroLog.Engine

    /** New: the given type, empty strings, and a zero engine. */
    constructor New(typ: LoggerType)
      ensures this.typ == typ
      ensures address == "" && authToken == "" && organization == "" && bucket == "" && service == ""
      ensures fresh(zerologger)
      ensures zerologger.writers == [] && zerologger.level == None
      ensures zerologger.timestampHooks == 0 && !zerologger.stack
    {
      this.typ := typ;
      address, authToken, organization, bucket, service := "", "", "", "", "";
      zerologger := new ZeroLog.Engine.Zero();
    }

    function Env(opens: string -> bool): SinkEnv
      reads this
    {
      SinkEnvOf(service, address, authToken, organization, opens)
    }

    /** WithWriters: for the zerolog type, replace the engine by a fresh one
        over the requested sinks (so an earlier WithLevel or WithStackError
        is dropped); any other type, or any sink that cannot be built,
        aborts and leaves the builder as it was. */
    method WithWriters(kinds: seq<WriterType>, opens: string -> bool) returns (r: Result<Factory, Abort>)
      modifies this
      ensures typ == old(typ) && service == old(service) && address == old(address)
      ensures authToken == old(authToken) && organization == old(organization) && bucket == old(bucket)
      ensures old(typ) != ZeroLoggerType ==>
        r == Failure(Panic("typ not acceptable")) && zerologger == old(zerologger)
      ensures old(typ) == ZeroLoggerType && CollectSinks(kinds, old(Env(opens))).Failure? ==>
        r == Failure(CollectSinks(kinds, old(Env(opens))).error) && zerologger == old(zerologger)
      ensures old(typ) == ZeroLoggerType && CollectSinks(kinds, old(Env(opens))).Success? ==>
        && r == Success(this)
        && fresh(zerologger)
        && zerologger.writers == CollectSinks(kinds, old(Env(opens))).value
        && zerologger.level == None && zerologger.timestampHooks == 1 && !zerologger.stack
    {
      if typ != ZeroLoggerType {
        return Failure(Panic("typ not acceptable"));
      }
      var writers := ZerologWriters(kinds, opens);
      if writers.Failure? {
        return Failure(writers.error);
      }
      zerologger := new ZeroLog.Engine.Over(writers.value);
      return Success(this);
    }

    /** WithServiceName: overwrite the service only. */
    method WithServiceName(name: string) returns (f: Factory)
      modifies this
      ensures f == this && service == name
      ensures typ == old(typ) && zerologger == old(zerologger) && address == old(address)
      ensures authToken == old(authToken) && organization == old(organization) && bucket == old(bucket)
    {
      service := name;
      return this;
    }

    /** WithLevel: set the engine's threshold, whatever the level's value;
        a type other than zerolog aborts. The engine is changed in place, so
        loggers already built from it see the new level too. */
    method WithLevel(level: Level) returns (r: Result<Factory, Abort>)
      modifies zerologger
      ensures typ != ZeroLoggerType ==> r == Failure(Panic("level not acceptable")) && unchanged(zerologger)
      ensures typ == ZeroLoggerType ==>
        && r == Success(this)
        && zerologger.level == Some(level)
        && zerologger.writers == old(zerologger.writers)
        && zerologger.timestampHooks == old(zerologger.timestampHooks)
        && zerologger.stack == old(zerologger.stack)
    {
      if typ != ZeroLoggerType {
        return Failure(Panic("level not acceptable"));
      }
      zerologger.level := Some(level);
      return Success(this);
    }

    /** WithStackError: enable stack traces on the engine for the zerolog
        type; any other type is returned untouched. */
    method WithStackError() returns (f: Factory)
      modifies zerologger
      ensures f == this
      ensures typ != ZeroLoggerType ==> unchanged(zerologger)
      ensures typ == ZeroLoggerType ==>
        && zerologger.stack
        && zerologger.writers == old(zerologger.writers)
        && zerologger.level == old(zerologger.level)
        && zerologger.timestampHooks == old(zerologger.timestampHooks)
    {
      if typ == ZeroLoggerType {
        zerologger.stack := true;
      }
      return this;
    }

    /** WithInfluxConfig: overwrite the four connection settings only. */
    method WithInfluxConfig(address': string, authToken': string, organization': string, bucket': string)
      returns (f: Factory)
      modifies this
      ensures f == this
      ensures address == address' && authToken == authToken' && organization == organization' && bucket == bucket'
      ensures typ == old(typ) && service == old(service) && zerologger == old(zerologger)
    {
      address, authToken, organization, bucket := address', authToken', organization', bucket';
      return this;
    }

    /** Build: for the zerolog type, add a timestamp to the engine and return
        a logger over that same engine with the factory's service and an
        empty scope; for any other type, no logger (nil). */
    method Build() returns (l: Option<ZeroLog.ZeroLogger>)
      modifies zerologger
      ensures typ != ZeroLoggerType ==> l == None && unchanged(zerologger)
      ensures typ == ZeroLoggerType ==>
        && l == Some(ZeroLog.ZeroLogger(zerologger, service, ""))
        && zerologger.timestampHooks == old(zerologger.timestampHooks) + 1
        && zerologger.writers == old(zerologger.writers)
        && zerologger.level == old(zerologger.level)
        && zerologger.stack == old(zerologger.stack)
    {
      if typ != ZeroLoggerType {
        return None;
      }
      zerologger.timestampHooks := zerologger.timestampHooks + 1;
      return Some(ZeroLog.ZeroLogger(zerologger, service, ""));
    }

    /** zerologWriters: one sink per kind, in order; the file sink opens
        logs/<service>.log, the database sink exits, an unknown kind panics. */
    method ZerologWriters(kinds: seq<WriterType>, opens: string -> bool) returns (r: Result<seq<Sink>, Abort>)
      ensures r == CollectSinks(kinds, Env(opens))
    {
      var env := Env(opens);
      var writers: seq<Sink> := [];
      for i := 0 to |kinds|
        invariant CollectSinks(kinds, env) == PrependAll(writers, CollectSinks(kinds[i..], env))
      {
        var kind := kinds[i];
        assert kinds[i..][0] == kind && kinds[i..][1..] == kinds[i + 1..];
        var sink: Sink;
        if kind == ConsoleWriterType {
          sink := ConsoleSink;
        } else if kind == FileWriterType {
          var path := FilePath(service);
          if !opens(path) {
            return Failure(OpenFailed(path));
          }
          sink := FileSink(path);
        } else if kind == DatabaseWriterType {
          return Failure(Exit(address + authToken + organization));
        } else {
          return Failure(Panic("writer type not acceptable"));
        }
        PrependAllTwice(writers, [sink], CollectSinks(kinds[i + 1..], env));
        writers := writers + [sink];
      }
      assert kinds[|kinds|..] == [] && writers + [] == writers;
      return Success(writers);
    }
  }

  /** The file sink of a successful writer list opens "logs/<service>.log";
      a requested kind that is neither console, file nor database makes the
      list abort. */
  lemma FileSinkPath(kinds: seq<WriterType>, service: string, address: string, authToken: string,
                     organization: string, opens: string -> bool, i: nat)
    requires i < |kinds|
    ensures var r := CollectSinks(kinds, SinkEnvOf(service, address, authToken, organization, opens));
      && (r.Success? ==>
            |r.value| == |kinds| && (kinds[i] == FileWriterType ==> r.value[i] == FileSink("logs/" + service + ".log")))
      && (kinds[i] > DatabaseWriterType ==> r.Failure?)
  {
    CollectSinksOnePerKind(kinds, SinkEnvOf(service, address, authToken, organization, opens));
  }

  /** A level set before WithWriters is gone afterwards: the engine it was
      set on is no longer the factory's. */
  method LevelDroppedByWithWriters(kinds: seq<WriterType>, opens: string -> bool) returns (f: Factory)
    requires CollectSinks(kinds, SinkEnvOf("", "", "", "", opens)).Success?
    ensures f.zerologger.level == None
    ensures f.zerologger.writers == CollectSinks(kinds, SinkEnvOf("", "", "", "", opens)).value
  {
    f := new Factory.New(ZeroLoggerType);
    var withLevel := f.WithLevel(DebugLevel);
    var withWriters := f.WithWriters(kinds, opens);
  }

  /** A logger built from the factory shares its engine: a WithLevel called
      on the factory after Build changes the level of the built logger. */
  method LevelSharedAfterBuild(service: string, level: Level) returns (l: ZeroLog.ZeroLogger)
    ensures l.service == service && l.scope == ""
    ensures l.engine.level == Some(level)
  {
    var f := new Factory.New(ZeroLoggerType);
    var named := f.WithServiceName(service);
    var built := f.Build();
    l := built.value;
    var withLevel := f.WithLevel(level);
  }

  /** The repository's sample program: a debug-level "test" service with
      database settings, writing to console, file and database. If its log
      file opens, the database writer ends the process through log.Fatal
      before any logger is built; otherwise opening the file panics. The
      Build, WithScope and Debug calls that follow are never reached. */
  method SampleProgram(opens: string -> bool, environment: InfluxConfig) returns (r: Result<Factory, Abort>)
    ensures !opens("logs/test.log") ==> r == Failure(OpenFailed("logs/test.log"))
    ensures opens("logs/test.log") ==>
      r == Failure(Exit(environment.address + environment.authToken + environment.organization))
  {
    var f := new Factory.New(ZeroLoggerType);
    var configured := f.WithInfluxConfig(environment.address, environment.authToken,
                                         environment.organization, environment.bucket);
    var leveled := f.WithLevel(DebugLevel);
    var named := f.WithServiceName("test");
    var kinds := [ConsoleWriterType, FileWriterType, DatabaseWriterType];
    var env := f.Env(opens);
    assert FilePath("test") == "logs/test.log";
    if opens("logs/test.log") {
      CollectSinksFirstAbort(kinds, env, 2);
    } else {
      CollectSinksFirstAbort(kinds, env, 1);
    }
    r := f.WithWriters(kinds, opens);
  }
}
