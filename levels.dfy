/** The logger kinds and severities of the facade (logger.go). Both are
    8-bit signed integers in the source, so any value of that range can be
    handed to the factory; only the named constants have a meaning. */
module Levels {

  /** Which logging engine a factory builds (Go: Type int8). */
  newtype LoggerType = x: int | -128 <= x < 128

  /** The zerolog-backed implementation; the only named type. */
  const ZeroLoggerType: LoggerType := 0

  /** Every named logger type, in declaration order. */
  const KnownTypes: seq<LoggerType> := [ZeroLoggerType]

  /** A severity (Go: Level int8). */
  newtype Level = x: int | -128 <= x < 128

  const DebugLevel: Level := 0
  const InfoLevel: Level := 1
  const WarnLevel: Level := 2
  const ErrorLevel: Level := 3
  const FatalLevel: Level := 4
  const PanicLevel: Level := 5
  const TraceLevel: Level := -1

  /** Every named level, from the least to the most severe. */
  const KnownLevels: seq<Level> :=
    [TraceLevel, DebugLevel, InfoLevel, WarnLevel, ErrorLevel, FatalLevel, PanicLevel]

  /** Debug through Panic are numbered consecutively from 0 (iota), and
      Trace sits just below them at -1. */
  lemma LevelNumbering()
    ensures |KnownLevels| == 7
    ensures TraceLevel == -1
    ensures forall i :: 1 <= i < |KnownLevels| ==> KnownLevels[i] as int == i - 1
  {
  }

  /** The named levels are strictly ordered by severity, hence all distinct. */
  lemma LevelsStrictlyOrdered()
    ensures forall i, j :: 0 <= i < j < |KnownLevels| ==> KnownLevels[i] < KnownLevels[j]
  {
    LevelNumbering();
  }

  /** ZeroLoggerType is 0 and is the only named logger type. */
  lemma OnlyZeroLoggerType()
    ensures ZeroLoggerType as int == 0
    ensures forall t :: t in KnownTypes <==> t == ZeroLoggerType
  {
  }
}
