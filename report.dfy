/** The report printed for one completed request:
    `<secs>.<millis, three digits>s, <status>, <uri>`, and the status once
    more on a second line when it is a server error. */
module Report {
  import opened Types
  import opened Arith

  const NanosPerSecond: nat := 1_000_000_000
  const NanosPerMilli: nat := 1_000_000

  predicate IsDigit(c: char) {
    '0' <= c <= '9'
  }

  predicate AllDigits(s: string) {
    forall i :: 0 <= i < |s| ==> IsDigit(s[i])
  }

  function DigitChar(d: nat): (c: char)
    requires d < 10
    ensures IsDigit(c)
  {
    (('0' as int) + d) as char
  }

  function DigitValue(c: char): nat
    requires IsDigit(c)
  {
    (c as int) - ('0' as int)
  }

  /** The number a string of decimal digits denotes. */
  function DecimalValue(s: string): nat
    requires AllDigits(s)
  {
    if s == [] then 0
    else DecimalValue(s[..|s| - 1]) * 10 + DigitValue(s[|s| - 1])
  }

  /** An unsigned integer as `Display` writes it: decimal digits, no sign,
      no leading zero. */
  function Decimal(n: nat): (r: string)
    ensures |r| > 0 && AllDigits(r)
    ensures |r| > 1 ==> r[0] != '0'
  {
    if n < 10 then [DigitChar(n)]
    else Decimal(n / 10) + [DigitChar(n % 10)]
  }

  /** Reading the digits back gives the number that was written. */
  lemma {:induction false} DecimalRoundTrip(n: nat)
    ensures DecimalValue(Decimal(n)) == n
  {
    var r := Decimal(n);
    if n >= 10 {
      DecimalRoundTrip(n / 10);
      assert r[..|r| - 1] == Decimal(n / 10);
    }
  }

  /** `{:03}` of a value below 1000: exactly three digits, zero-padded. */
  function Pad3(m: nat): (r: string)
    requires m < 1000
    ensures |r| == 3 && AllDigits(r)
    ensures DecimalValue(r) == m
  {
    var r := [DigitChar(m / 100), DigitChar(m / 10 % 10), DigitChar(m % 10)];
    assert r[..2][..1] == [r[0]] && r[..2][..1][..0] == [];
    assert DecimalValue(r[..2][..1]) == m / 100;
    assert DecimalValue(r[..2]) == m / 100 * 10 + m / 10 % 10;
    assert DecimalValue(r) == (m / 100 * 10 + m / 10 % 10) * 10 + m % 10;
    r
  }

  /** A status in the server-error class, 500 to 599 inclusive. */
  predicate IsServerError(status: Status) {
    500 <= status.code <= 599
  }

  /** The number of leading decimal digits of a string. */
  function DigitRun(s: string): (k: nat)
    ensures k <= |s| && AllDigits(s[..k])
    ensures k < |s| ==> !IsDigit(s[k])
  {
    if s == [] || !IsDigit(s[0]) then 0
    else
      var k := 1 + DigitRun(s[1..]);
      assert s[..k] == [s[0]] + s[1..][..k - 1];
      k
  }

  /** Reads the elapsed-time field back from a report line: whole seconds,
      a dot, three digits of milliseconds and an `s`. */
  function ParseElapsed(line: string): Option<(nat, nat)> {
    var k := DigitRun(line);
    if 0 < k && k + 5 <= |line| && line[k] == '.' && AllDigits(line[k + 1..k + 4]) && line[k + 4] == 's'
    then Some((DecimalValue(line[..k]), DecimalValue(line[k + 1..k + 4])))
    else None
  }

  lemma DigitRunOfDigits(d: string, rest: string)
    requires AllDigits(d)
    requires rest != [] && !IsDigit(rest[0])
    ensures DigitRun(d + rest) == |d|
  {
    var s := d + rest;
    assert forall i :: 0 <= i < |d| ==> s[i] == d[i];
    assert !IsDigit(s[|d|]);
  }

  /** `s` ends with `suffix`, character by character. */
  predicate EndsWith(s: string, suffix: string) {
    |suffix| <= |s| && forall j :: 0 <= j < |suffix| ==> s[|s| - |suffix| + j] == suffix[j]
  }

  /** The first report line for a response that took `nanos` nanoseconds:
      the time field, then `s`, the status and the URI, separated by ", ".
      What the time field reads back as is `ReportLineElapsed`. */
  function ReportLine(nanos: nat, status: Status, uri: Uri): (r: string)
    ensures |r| >= 5 + |"s, " + status.display + ", " + uri.text|
    ensures EndsWith(r, "s, " + status.display + ", " + uri.text)
  {
    var tail := "s, " + status.display + ", " + uri.text;
    Decimal(nanos / NanosPerSecond) + "." + Pad3(nanos % NanosPerSecond / NanosPerMilli) + tail
  }

  /** Everything printed for one response. */
  function ReportLines(nanos: nat, status: Status, uri: Uri): (r: seq<string>)
    ensures |r| == 1 || |r| == 2
    ensures |r| == 2 <==> IsServerError(status)
    ensures r[0] == ReportLine(nanos, status, uri)
    ensures |r| == 2 ==> r[1] == status.display
  {
    if IsServerError(status) then [ReportLine(nanos, status, uri), status.display]
    else [ReportLine(nanos, status, uri)]
  }

  /** Whole seconds and the milliseconds within the second together make
      the elapsed time truncated to whole milliseconds. */
  lemma MillisSplit(nanos: nat)
    ensures var millis := nanos % NanosPerSecond / NanosPerMilli;
            millis < 1000 && nanos / NanosPerSecond * 1000 + millis == nanos / NanosPerMilli
  {
    var secs := nanos / NanosPerSecond;
    var sub := nanos % NanosPerSecond;
    var millis := sub / NanosPerMilli;
    // nanos == (secs * 1000 + millis) * 10^6 + sub % 10^6
    assert sub == millis * NanosPerMilli + sub % NanosPerMilli;
    assert nanos == secs * NanosPerSecond + sub;
    assert nanos == (secs * 1000 + millis) * NanosPerMilli + sub % NanosPerMilli;
    DivModUnique(nanos, NanosPerMilli, secs * 1000 + millis, sub % NanosPerMilli);
  }

  /** The decoder reads a written time field back, whatever follows the
      `s`. */
  lemma ParseOfField(d: string, p: string, tail: string)
    requires |d| > 0 && AllDigits(d) && |p| == 3 && AllDigits(p)
    requires tail != [] && tail[0] == 's'
    ensures ParseElapsed(d + "." + p + tail) == Some((DecimalValue(d), DecimalValue(p)))
  {
    var line := d + ("." + p + tail);
    assert d + "." + p + tail == line;
    DigitRunOfDigits(d, "." + p + tail);
    var k := |d|;
    assert line[k] == '.' && line[k + 4] == 's';
    assert line[..k] == d;
    assert line[k + 1..k + 4] == p;
  }

  /** Reading the time field of a report line back gives `nanos / 10^9`
      seconds and `(nanos % 10^9) / 10^6` milliseconds: the elapsed time
      truncated to whole milliseconds, and nothing finer. Milliseconds stay
      below 1000. */
  lemma ReportLineElapsed(nanos: nat, status: Status, uri: Uri)
    ensures var secs := nanos / NanosPerSecond;
            var millis := nanos % NanosPerSecond / NanosPerMilli;
            ParseElapsed(ReportLine(nanos, status, uri)) == Some((secs, millis)) &&
            millis < 1000 && secs * 1000 + millis == nanos / NanosPerMilli
  {
    var secs := nanos / NanosPerSecond;
    var millis := nanos % NanosPerSecond / NanosPerMilli;
    ParseOfField(Decimal(secs), Pad3(millis), "s, " + status.display + ", " + uri.text);
    DecimalRoundTrip(secs);
    MillisSplit(nanos);
  }

  /** Where the digit run of a written time field ends, and what follows
      it. */
  lemma FieldThenTail(d: string, p: string, tail: string)
    requires |d| > 0 && AllDigits(d) && (|d| > 1 ==> d[0] != '0')
    requires |p| == 3 && AllDigits(p) && tail != []
    ensures var r := d + "." + p + tail;
            var k := DigitRun(r);
            k == |d| && k + 4 < |r| && (k > 1 ==> r[0] != '0') &&
            r[k] == '.' && AllDigits(r[k + 1..k + 4]) && r[k + 4..] == tail
  {
    var r := d + ("." + p + tail);
    assert d + "." + p + tail == r;
    DigitRunOfDigits(d, "." + p + tail);
    assert r[0] == d[0];
    assert r[|d|] == '.';
    assert r[|d| + 1..|d| + 4] == p;
    assert r[|d| + 4..] == tail;
  }

  /** The form of a report line: the seconds as a digit run without a
      leading zero, a dot and three digits of milliseconds, and then
      immediately `s, <status>, <uri>`. */
  lemma ReportLineForm(nanos: nat, status: Status, uri: Uri)
    ensures var r := ReportLine(nanos, status, uri);
            var k := DigitRun(r);
            0 < k && k + 4 < |r| && (k > 1 ==> r[0] != '0') &&
            r[k] == '.' && AllDigits(r[k + 1..k + 4]) &&
            r[k + 4..] == "s, " + status.display + ", " + uri.text
  {
    FieldThenTail(Decimal(nanos / NanosPerSecond), Pad3(nanos % NanosPerSecond / NanosPerMilli),
                  "s, " + status.display + ", " + uri.text);
  }
}
