/** Writer kinds and the sinks a factory builds from them (factory.go and
    logger/factory.go share this part of their code). */
module Writers {
  import opened Results
  import opened ResultSeqs

  /** Go: WriterType uint8; any byte value can be requested. */
  newtype WriterType = x: int | 0 <= x < 256

  const ConsoleWriterType: WriterType := 0
  const FileWriterType: WriterType := 1
  const DatabaseWriterType: WriterType := 2

  /** Connection parameters of the time-series database. */
  datatype InfluxConfig = InfluxConfig(address: string, authToken: string, organization: string, bucket: string)

  /** A destination the engine fans events out to. Only what the model can
      observe is kept: the file's path and the database configuration. */
  datatype Sink =
    | ConsoleSink                     // stdout, RFC 3339 time format
    | FileSink(path: string)          // opened append/create/write-only, mode 0644
    | InfluxSink(config: InfluxConfig)

  const LogDirectory: string := "logs"
  const LogSuffix: string := ".log"

  /** The path of a service's log file: "<dir>/<service>.log". */
  function FilePath(service: string): (path: string)
    ensures |path| == |service| + 9
    ensures path[..5] == "logs/" && path[5..|path| - 4] == service && path[|path| - 4..] == ".log"
  {
    LogDirectory + "/" + service + LogSuffix
  }

  /** The service a log file path belongs to, if it has the shape FilePath gives. */
  function ServiceOfPath(path: string): (s: Option<string>)
    ensures s.Some? ==> |path| >= 9 && path == FilePath(s.value)
  {
    if |path| >= 9 && path[..5] == "logs/" && path[|path| - 4..] == ".log" then
      var s := path[5..|path| - 4];
      assert path == path[..5] + s + path[|path| - 4..];
      Some(s)
    else None
  }

  /** Each service has its own file: the path determines the service. */
  lemma FilePathRoundTrip(service: string)
    ensures ServiceOfPath(FilePath(service)) == Some(service)
  {
  }

  /** What one sink construction depends on: the factory's service name, the
      outcome of creating a database sink (which differs between the two
      factories) and which paths the file system lets the process open. */
  datatype SinkEnv = SinkEnv(service: string, database: Result<Sink, Abort>, opens: string -> bool)

  /** The sink one writer kind yields, or why it aborts. */
  function SinkFor(kind: WriterType, env: SinkEnv): (r: Result<Sink, Abort>)
    ensures kind == ConsoleWriterType ==> r == Success(ConsoleSink)
    ensures kind == FileWriterType && r.Success? ==> r.value == FileSink("logs/" + env.service + ".log")
    ensures kind == FileWriterType && r.Failure? ==> r.error == OpenFailed("logs/" + env.service + ".log")
    ensures kind > DatabaseWriterType ==> r == Failure(Panic("writer type not acceptable"))
  {
    match kind
    case 0 => Success(ConsoleSink)
    case 1 =>
      var path := FilePath(env.service);
      assert path == "logs/" + env.service + ".log";
      if env.opens(path) then Success(FileSink(path)) else Failure(OpenFailed(path))
    case 2 => env.database
    case _ => Failure(Panic("writer type not acceptable"))
  }

  /** The sinks for a list of kinds, built left to right; the first kind that
      aborts decides the outcome. */
  function CollectSinks(kinds: seq<WriterType>, env: SinkEnv): (r: Result<seq<Sink>, Abort>)
    ensures r.Success? ==> |r.value| == |kinds|
    ensures r.Failure? ==> exists i :: 0 <= i < |kinds| && SinkFor(kinds[i], env) == Failure(r.error)
  {
    if kinds == [] then Success([])
    else match SinkFor(kinds[0], env)
      case Failure(e) => Failure(e)
      case Success(s) => PrependAll([s], CollectSinks(kinds[1..], env))
  }

  /** One sink per requested kind, in the requested order, duplicates kept;
      the collection succeeds exactly when every kind does. */
  lemma {:induction false} CollectSinksOnePerKind(kinds: seq<WriterType>, env: SinkEnv)
    ensures CollectSinks(kinds, env).Success? <==>
      forall i :: 0 <= i < |kinds| ==> SinkFor(kinds[i], env).Success?
    ensures CollectSinks(kinds, env).Success? ==>
      |CollectSinks(kinds, env).value| == |kinds| &&
      forall i :: 0 <= i < |kinds| ==> CollectSinks(kinds, env).value[i] == SinkFor(kinds[i], env).value
  {
    if kinds != [] {
      CollectSinksOnePerKind(kinds[1..], env);
      assert forall i :: 1 <= i < |kinds| ==> kinds[1..][i - 1] == kinds[i];
      if SinkFor(kinds[0], env).Success? && CollectSinks(kinds[1..], env).Success? {
        var r := CollectSinks(kinds, env).value;
        forall i | 0 <= i < |kinds|
          ensures r[i] == SinkFor(kinds[i], env).value
        {
          if i > 0 {
            assert r[i] == CollectSinks(kinds[1..], env).value[i - 1];
          }
        }
      }
    }
  }

  /** When kinds before position i all yield a sink and kind i aborts, the
      whole collection aborts with kind i's reason. */
  lemma {:induction false} CollectSinksFirstAbort(kinds: seq<WriterType>, env: SinkEnv, i: nat)
    requires i < |kinds|
    requires forall j :: 0 <= j < i ==> SinkFor(kinds[j], env).Success?
    requires SinkFor(kinds[i], env).Failure?
    ensures CollectSinks(kinds, env) == Failure(SinkFor(kinds[i], env).error)
  {
    if i > 0 {
      assert SinkFor(kinds[0], env).Success?;
      assert forall j :: 0 <= j < i - 1 ==> kinds[1..][j] == kinds[j + 1];
      CollectSinksFirstAbort(kinds[1..], env, i - 1);
    }
  }

  /** A kind outside Console, File and Database always makes the collection abort. */
  lemma UnknownKindAborts(kinds: seq<WriterType>, env: SinkEnv, i: nat)
    requires i < |kinds| && kinds[i] > DatabaseWriterType
    ensures CollectSinks(kinds, env).Failure?
  {
    CollectSinksOnePerKind(kinds, env);
  }
}
