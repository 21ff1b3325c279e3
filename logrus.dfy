/** The log levels of the logrus library and its `ParseLevel`. */
module Logrus {
  import opened Wrappers
  import opened GoStrings

  datatype Level = PanicLevel | FatalLevel | ErrorLevel | WarnLevel | InfoLevel | DebugLevel | TraceLevel

  /** `Level.String()`: the name logrus prints for a level. */
  function LevelText(l: Level): string
  {
    match l
    case PanicLevel => "panic"
    case FatalLevel => "fatal"
    case ErrorLevel => "error"
    case WarnLevel => "warning"
    case InfoLevel => "info"
    case DebugLevel => "debug"
    case TraceLevel => "trace"
  }

  /**
    `logrus.ParseLevel`: the level names compared after lower-casing, with
    "warn" accepted beside "warning"; anything else is an error. Only ASCII
    letters are lowered here. Go's `strings.ToLower` also maps U+0130 (the
    dotted capital I) to 'i', so Go accepts a spelling such as "\u0130NFO"
    that this function rejects. (It maps U+212A, the Kelvin sign, to 'k',
    which no level name contains.)
  */
  function ParseLevel(s: string): (r: Option<Level>)
  {
    match ToLowerAscii(s)
    case "panic" => Some(PanicLevel)
    case "fatal" => Some(FatalLevel)
    case "error" => Some(ErrorLevel)
    case "warn" => Some(WarnLevel)
    case "warning" => Some(WarnLevel)
    case "info" => Some(InfoLevel)
    case "debug" => Some(DebugLevel)
    case "trace" => Some(TraceLevel)
    case _ => None
  }

  /** Every level's printed name parses back to it, in any letter case. */
  lemma ParseLevelText(l: Level)
    ensures ParseLevel(LevelText(l)) == Some(l)
    ensures ParseLevel(ToUpperAscii(LevelText(l))) == Some(l)
  {
    LowerIdempotent(LevelText(l));
    var t := LevelText(l);
    assert ToLowerAscii(t) == t;
  }

  /** Parsing ignores the letter case of its input; the empty string is no level. */
  lemma ParseLevelIgnoresCase(s: string)
    ensures ParseLevel(ToUpperAscii(s)) == ParseLevel(s)
    ensures ParseLevel(ToLowerAscii(s)) == ParseLevel(s)
    ensures ParseLevel("") == None
  {
    LowerIdempotent(s);
  }
}
