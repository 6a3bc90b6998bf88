/** Values shared by every part of the load tester: the wrapper types, the
    abstract URI and network outcome, the failures a run can end with. */
module Types {

  datatype Option<+T> = None | Some(value: T)

  datatype Result<+R, +E> = Ok(value: R) | Err(error: E)

  /** A parsed URI. The parser itself is a foreign library and is taken as a
      parameter; `text` is the URI as its `Display` renders it. */
  datatype Uri = Uri(text: string)

  /** One GET request with an empty body; the method is fixed. */
  datatype Request = Get(uri: Uri)

  /** A response status: the numeric code and the text its `Display`
      renders (code and reason phrase, supplied by the HTTP library). */
  datatype Status = Status(code: int, display: string)

  /** What the network did with one request: a response with its status
      and the elapsed time in whole nanoseconds, or a transport error. */
  datatype NetOutcome = Response(status: Status, elapsedNanos: nat) | Error(reason: string)

  /** The `--file` option: the path, and what reading it produced
      (`None` when the file could not be read). */
  datatype FileArg = FileArg(path: string, contents: Option<string>)

  /** Why a run stops before completing. */
  datatype Failure =
    | ZeroRepetitions            // `-n 0`
    | ReadConfigFile(path: string)
    | ParseUrlLine(line: string)
    | MissingUrl
    | ParseUrl(url: string)
    | RequestFailed(reason: string)
    | EmptyChannel               // a completion channel of capacity 0
    | ChannelClosed              // `recv` returned `None` before the target

  /** The failures the model covers that are panics rather than errors
      returned from `main`. */
  predicate IsPanic(f: Failure) {
    f.ZeroRepetitions? || f.EmptyChannel? || f.ChannelClosed?
  }

  /** The message the process reports for a failure. Quoting of `{:?}`
      arguments is rendered as plain double quotes, without escaping. */
  function Message(f: Failure): string {
    match f
    case ZeroRepetitions => "Cannot repeat 0 times"
    case ReadConfigFile(path) => "Error reading config file \"" + path + "\""
    case ParseUrlLine(line) => "Error parsing url line \"" + line + "\""
    case MissingUrl => "Missing url to test"
    case ParseUrl(url) => "Error parsing url \"" + url + "\""
    case RequestFailed(reason) => reason
    case EmptyChannel => "mpsc bounded channel requires buffer > 0"
    case ChannelClosed => "Failed to complete request"
  }

  /** Splits a quoting message back into its fixed prefix and argument. */
  lemma QuotedParts(prefix: string, arg: string)
    ensures var m := prefix + arg + "\"";
            |prefix| < |m| && m[..|prefix|] == prefix && m[|prefix|..|m| - 1] == arg
  {
  }

  /** Three characters that tell the fixed-text messages apart: the first,
      the seventh and the nineteenth. */
  function Signature(f: Failure): (char, char, char)
    requires !f.RequestFailed?
  {
    match f
    case ZeroRepetitions => ('C', ' ', 'm')
    case ReadConfigFile(_) => ('E', 'r', 'i')
    case ParseUrlLine(_) => ('E', 'p', 'l')
    case MissingUrl => ('M', 'g', 't')
    case ParseUrl(_) => ('E', 'p', '"')
    case RequestFailed(_) => ('?', '?', '?')
    case EmptyChannel => ('m', 'o', 'e')
    case ChannelClosed => ('F', ' ', ' ')
  }

  lemma MessageSignature(f: Failure)
    requires !f.RequestFailed?
    ensures var m := Message(f);
            |m| >= 19 && (m[0], m[6], m[18]) == Signature(f)
  {
  }

  /** Every failure but a transport error, whose message is the error's own
      text, prints a message of its own: equal messages mean equal
      failures, so a quoted path, line or URL is recovered exactly. */
  lemma MessageIdentifies(f: Failure, g: Failure)
    requires !f.RequestFailed? && !g.RequestFailed?
    requires Message(f) == Message(g)
    ensures f == g
  {
    MessageSignature(f);
    MessageSignature(g);
    if f.ReadConfigFile? {
      QuotedParts("Error reading config file \"", f.path);
      QuotedParts("Error reading config file \"", g.path);
    } else if f.ParseUrlLine? {
      QuotedParts("Error parsing url line \"", f.line);
      QuotedParts("Error parsing url line \"", g.line);
    } else if f.ParseUrl? {
      QuotedParts("Error parsing url \"", f.url);
      QuotedParts("Error parsing url \"", g.url);
    }
  }

  /** How a run ends: `main` returns `Ok`, or aborts with a failure (an
      error returned from `main` or a panic), or never returns. */
  datatype Exit = Completed | Aborted(failure: Failure) | Hung
}
