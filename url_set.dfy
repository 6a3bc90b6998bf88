/** Building the set of target URIs from either a file of URLs, one per
    line, or the single `--url` option. */
module UrlSet {
  import opened Types

  /** The index of the first newline in `s`, or `|s|` when there is none. */
  function NewlineIndex(s: string): (k: nat)
    ensures k <= |s|
    ensures forall j :: 0 <= j < k ==> s[j] != '\n'
    ensures k < |s| ==> s[k] == '\n'
  {
    if s == [] then 0
    else if s[0] == '\n' then 0
    else 1 + NewlineIndex(s[1..])
  }

  /** Drops one carriage return that ends a line terminated by a newline. */
  function StripCr(line: string): string {
    if |line| > 0 && line[|line| - 1] == '\r' then line[..|line| - 1] else line
  }

  /** The lines of a text as the standard library's `str::lines` gives them:
      split at "\n" or "\r\n", terminators dropped, no empty line after a
      final terminator. */
  function Lines(s: string): (r: seq<string>)
    ensures forall i :: 0 <= i < |r| ==> '\n' !in r[i]
    ensures s == [] <==> r == []
    decreases |s|
  {
    if s == [] then []
    else
      var k := NewlineIndex(s);
      if k == |s| then [s]
      else [StripCr(s[..k])] + Lines(s[k + 1..])
  }

  /** Writing lines to a file, each followed by a newline. */
  function Unlines(ls: seq<string>): string {
    if ls == [] then [] else ls[0] + "\n" + Unlines(ls[1..])
  }

  /** A line that survives being written and read back unchanged. */
  predicate PlainLine(l: string) {
    '\n' !in l && (|l| == 0 || l[|l| - 1] != '\r')
  }

  lemma NewlineIndexOfLine(l: string, rest: string)
    requires '\n' !in l
    ensures NewlineIndex(l + "\n" + rest) == |l|
  {
    var s := l + "\n" + rest;
    assert s[|l|] == '\n';
    assert forall j :: 0 <= j < |l| ==> s[j] == l[j];
  }

  /** Reading the first line of a text that has a newline after it. */
  lemma LinesOfFirst(l: string, rest: string)
    requires '\n' !in l
    ensures Lines(l + "\n" + rest) == [StripCr(l)] + Lines(rest)
  {
    var s := l + "\n" + rest;
    NewlineIndexOfLine(l, rest);
    assert s[..|l|] == l;
    assert s[|l| + 1..] == rest;
  }

  lemma LinesOfPlainFirst(l: string, rest: string, tail: seq<string>)
    requires PlainLine(l) && Lines(rest) == tail
    ensures Lines(l + "\n" + rest) == [l] + tail
  {
    LinesOfFirst(l, rest);
  }

  /** A file written one plain line per entry reads back as those lines. */
  lemma {:induction false} LinesOfUnlines(ls: seq<string>)
    requires forall i :: 0 <= i < |ls| ==> PlainLine(ls[i])
    ensures Lines(Unlines(ls)) == ls
  {
    if ls != [] {
      var rest := Unlines(ls[1..]);
      assert Unlines(ls) == ls[0] + "\n" + rest;
      LinesOfFirst(ls[0], rest);
      LinesOfUnlines(ls[1..]);
    }
  }

  /** Writing lines to a file, each followed by "\r\n". */
  function UnlinesCrlf(ls: seq<string>): string {
    if ls == [] then [] else ls[0] + "\r\n" + UnlinesCrlf(ls[1..])
  }

  /** A file written with "\r\n" terminators reads back as its lines: the
      carriage return before each newline belongs to the terminator, even
      after a line that itself ends in '\r'. */
  lemma {:induction false} LinesOfCrlf(ls: seq<string>)
    requires forall i :: 0 <= i < |ls| ==> '\n' !in ls[i]
    ensures Lines(UnlinesCrlf(ls)) == ls
  {
    if ls != [] {
      var l := ls[0] + "\r";
      var rest := UnlinesCrlf(ls[1..]);
      assert UnlinesCrlf(ls) == l + "\n" + rest;
      LinesOfFirst(l, rest);
      assert StripCr(l) == ls[0] by {
        assert l[..|l| - 1] == ls[0];
      }
      LinesOfCrlf(ls[1..]);
    }
  }

  /** A text with no newline is one line, kept whole. */
  lemma LinesOfUnterminated(last: string)
    requires last != [] && '\n' !in last
    ensures Lines(last) == [last]
  {
    assert NewlineIndex(last) == |last|;
  }

  lemma HeadThenRest<T>(xs: seq<T>, y: T)
    requires xs != []
    ensures [xs[0]] + (xs[1..] + [y]) == xs + [y]
  {
  }

  /** A last line without a terminator is kept whole, including a final
      '\r' that no newline follows. */
  lemma {:induction false} LastLineKept(ls: seq<string>, last: string)
    requires forall i :: 0 <= i < |ls| ==> PlainLine(ls[i])
    requires last != [] && '\n' !in last
    ensures Lines(Unlines(ls) + last) == ls + [last]
  {
    if ls == [] {
      assert Unlines(ls) + last == last;
      LinesOfUnterminated(last);
    } else {
      var rest := Unlines(ls[1..]) + last;
      assert Unlines(ls) + last == ls[0] + "\n" + rest;
      LastLineKept(ls[1..], last);
      LinesOfPlainFirst(ls[0], rest, ls[1..] + [last]);
      HeadThenRest(ls, last);
    }
  }

  /** Lines terminated by "\r\n" followed by an unterminated last line read
      back as those lines and the last one whole, a final bare '\r'
      included. */
  lemma {:induction false} LinesOfCrlfThenLast(ls: seq<string>, last: string)
    requires forall i :: 0 <= i < |ls| ==> '\n' !in ls[i]
    requires last != [] && '\n' !in last
    ensures Lines(UnlinesCrlf(ls) + last) == ls + [last]
  {
    if ls == [] {
      assert UnlinesCrlf(ls) + last == last;
      LinesOfUnterminated(last);
    } else {
      var l := ls[0] + "\r";
      var rest := UnlinesCrlf(ls[1..]) + last;
      assert UnlinesCrlf(ls) + last == l + "\n" + rest;
      LinesOfFirst(l, rest);
      assert StripCr(l) == ls[0] by {
        assert l[..|l| - 1] == ls[0];
      }
      LinesOfCrlfThenLast(ls[1..], last);
      HeadThenRest(ls, last);
    }
  }

  /** The two rules side by side: "\r\n" ends a line, a final bare '\r'
      stays in the last line. */
  lemma CrlfThenBareCr()
    ensures Lines("a\r\nb\r") == ["a", "b\r"]
  {
    assert "a\r\nb\r" == "a\r" + "\n" + "b\r";
    LinesOfFirst("a\r", "b\r");
    LinesOfUnterminated("b\r");
    assert StripCr("a\r") == "a";
  }

  /** Parses every line into a URI; the first line that does not parse
      stops the collection and is named in the error. */
  function ParseLines(lines: seq<string>, parse: string -> Option<Uri>): (r: Result<seq<Uri>, Failure>)
    ensures r.Ok? <==> forall i :: 0 <= i < |lines| ==> parse(lines[i]).Some?
    ensures r.Ok? ==> |r.value| == |lines| &&
                      forall i :: 0 <= i < |lines| ==> parse(lines[i]) == Some(r.value[i])
    ensures r.Err? ==> exists k :: 0 <= k < |lines| && r.error == ParseUrlLine(lines[k]) &&
                                   parse(lines[k]).None? &&
                                   forall j :: 0 <= j < k ==> parse(lines[j]).Some?
  {
    if lines == [] then Ok([])
    else match parse(lines[0])
      case None => Err(ParseUrlLine(lines[0]))
      case Some(u) =>
        var rest := ParseLines(lines[1..], parse);
        if rest.Err? then
          assert forall j :: 1 <= j < |lines| ==> lines[j] == lines[1..][j - 1];
          Err(rest.error)
        else
          assert forall j :: 1 <= j < |lines| ==> lines[j] == lines[1..][j - 1];
          Ok([u] + rest.value)
  }

  /** The target set of a run. A given file wins over `--url`; otherwise the
      URL is required and becomes a one-element set. */
  function BuildUrlSet(file: Option<FileArg>, url: Option<string>, parse: string -> Option<Uri>)
    : (r: Result<seq<Uri>, Failure>)
    ensures file.Some? && file.value.contents.None? ==> r == Err(ReadConfigFile(file.value.path))
    ensures file.Some? && file.value.contents.Some? ==>
              r == ParseLines(Lines(file.value.contents.value), parse)
    ensures file.None? && url.None? ==> r == Err(MissingUrl)
    ensures file.None? && url.Some? ==>
              (r.Ok? <==> parse(url.value).Some?) &&
              (r.Ok? ==> r.value == [parse(url.value).value]) &&
              (r.Err? ==> r.error == ParseUrl(url.value))
  {
    match file
    case Some(f) =>
      (match f.contents
       case None => Err(ReadConfigFile(f.path))
       case Some(buf) => ParseLines(Lines(buf), parse))
    case None =>
      match url
      case None => Err(MissingUrl)
      case Some(u) =>
        match parse(u)
        case None => Err(ParseUrl(u))
        case Some(uri) => Ok([uri])
  }

  /** A file written with one plain URL per line yields exactly those URLs,
      parsed in file order, whatever `--url` says. */
  lemma FileOfUrls(urls: seq<string>, path: string, url: Option<string>, parse: string -> Option<Uri>)
    requires forall i :: 0 <= i < |urls| ==> PlainLine(urls[i])
    ensures BuildUrlSet(Some(FileArg(path, Some(Unlines(urls)))), url, parse) == ParseLines(urls, parse)
  {
    LinesOfUnlines(urls);
  }
}
