/** Values shared by the whole logging core: severity levels, the dynamically
    typed field values callers attach to an entry, timestamps, caller frames,
    and the Go runtime and library functions the core calls without defining. */
module Base {

  datatype Option<T> = None | Some(value: T)

  /** Go's `int64`, the type of file sizes and of the rotation threshold. */
  type Int64 = x: int | -0x8000_0000_0000_0000 <= x < 0x8000_0000_0000_0000

  /** A severity level: an unsigned 32-bit integer, smaller is more severe.
      A logger configured at level L emits every record whose level is <= L. */
  type Level = x: int | 0 <= x < 0x1_0000_0000

  const PanicLevel: Level := 0
  const FatalLevel: Level := 1
  const ErrorLevel: Level := 2
  const WarnLevel: Level := 3
  const InfoLevel: Level := 4
  const DebugLevel: Level := 5
  const TraceLevel: Level := 6

  /** An instant, counted in nanoseconds from Go's zero time. */
  datatype Time = Time(nanos: int) {
    predicate IsZero() { nanos == 0 }
  }

  const ZeroTime := Time(0)

  /** The part of a `runtime.Frame` that the formatter renders. */
  datatype Frame = Frame(funcName: string, file: string, line: int)

  /** An opaque `context.Context`. */
  datatype Context = Context(id: nat)

  /** A field value. The source stores `interface{}`; the model keeps the
      distinctions the core looks at: whether the value is a Go string (the
      formatter prints it without `fmt.Sprint`), and whether its dynamic type is
      a function or a pointer to a function (such values are refused). */
  datatype Value =
    | Nil
    | Str(s: string)
    | Func(name: string)
    | FuncPointer(name: string)
    | Other(typeName: string, id: nat)
  {
    predicate IsFunc() { Func? || FuncPointer? }
  }

  type Fields = map<string, Value>

  /** What the Go runtime and standard library supply to one call: functions
      whose definitions are outside the core, and the values of `time.Now()` and
      of the stack walk in `getCaller` at the moment of the call. */
  datatype Host = Host(
    quote: string -> string,                // fmt's %q verb
    sprint: seq<Value> -> string,           // fmt.Sprint
    levelText: Level -> string,             // Level.String
    allLevels: seq<Level>,                  // AllLevels
    timeText: (Time, string) -> string,     // time.Time.Format
    defaultTimestampFormat: string,         // defaultTimestampFormat
    join: (string, string) -> string,       // path.Join
    now: Time,                              // time.Now()
    caller: Option<Frame>)                  // getCaller()
}
