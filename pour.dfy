/** The run of the `pour` command: check the repetition count, build the
    target set, expand it into the work list and dispatch it in the chosen
    mode. */
module Pour {
  import opened Types
  import opened UrlSet
  import opened WorkList
  import opened Dispatch

  /** The command-line options that take part in a run. `file` carries the
      path and what reading it produced. */
  datatype Options = Options(n: nat, url: Option<string>, file: Option<FileArg>, asynchronous: bool)

  /** What a run prints: in order in sequential mode; in concurrent mode
      lines of different requests interleave, so only the multiset is
      determined. */
  datatype Output = InOrder(lines: seq<string>) | Unordered(bag: multiset<string>)

  /** The work list of a run, or the failure that stops it before any
      request is issued. A zero repetition count is refused before the
      file is read or the URL parsed. */
  function Plan(opts: Options, parse: string -> Option<Uri>): (r: Result<seq<Request>, Failure>)
    ensures opts.n == 0 ==> r == Err(ZeroRepetitions)
    ensures opts.n > 0 ==>
              var urls := BuildUrlSet(opts.file, opts.url, parse);
              (urls.Err? ==> r == Err(urls.error)) &&
              (urls.Ok? ==> r.Ok? && |r.value| == |urls.value| * opts.n &&
                            forall i :: 0 <= i < |r.value| ==> r.value[i] == Get(urls.value[i % |urls.value|]))
  {
    if opts.n == 0 then Err(ZeroRepetitions)
    else match BuildUrlSet(opts.file, opts.url, parse)
      case Err(e) => Err(e)
      case Ok(urls) => ExpandShape(urls, opts.n); Ok(Expand(urls, opts.n))
  }

  /** With no file, a parsable `--url` is requested `n` times in a row. */
  lemma SingleUrlPlan(url: string, n: nat, asynchronous: bool, parse: string -> Option<Uri>)
    requires n > 0 && parse(url).Some?
    ensures var r := Plan(Options(n, Some(url), None, asynchronous), parse);
            r.Ok? && |r.value| == n && forall i :: 0 <= i < n ==> r.value[i] == Get(parse(url).value)
  {
  }

  /** `main`: the repetition guard, the target set, the work list, then the
      sequential loop or the concurrent fan-out. `issued` is the number of
      requests sent: the first `issued` entries of the work list. Standard
      output is taken to be writable. Of the panics the model covers, a run
      ends in one only on a zero count or an empty work list in concurrent
      mode, before sending any request; a failed task's panic never reaches
      `main`. */
  method Run(opts: Options, parse: string -> Option<Uri>, net: nat -> NetOutcome)
    returns (exit: Exit, output: Output, issued: nat)
    ensures opts.n == 0 ==> exit == Aborted(ZeroRepetitions) && issued == 0
    ensures Plan(opts, parse).Err? ==>
              exit == Aborted(Plan(opts, parse).error) && issued == 0 && output == InOrder([])
    ensures Plan(opts, parse).Ok? && !opts.asynchronous ==>
              var work := Plan(opts, parse).value;
              var k := FirstFailure(work, net);
              issued == (if k == |work| then k else k + 1) &&
              (exit == Completed <==> AllSucceed(|work|, net)) &&
              (exit != Completed ==> exit == Aborted(RequestFailed(net(k).reason))) &&
              output == InOrder(Printed(work, net, issued))
    ensures Plan(opts, parse).Ok? && opts.asynchronous ==>
              var work := Plan(opts, parse).value;
              (|work| == 0 ==> exit == Aborted(EmptyChannel) && issued == 0 && output == Unordered(multiset{})) &&
              (|work| > 0 ==> issued == |work| &&
                              (exit == Completed <==> AllSucceed(|work|, net)) &&
                              (exit != Completed ==> exit == Hung) &&
                              output == Unordered(multiset(Printed(work, net, |work|))))
    ensures exit.Aborted? && IsPanic(exit.failure) ==>
              issued == 0 && (exit.failure == ZeroRepetitions || exit.failure == EmptyChannel)
  {
    if opts.n == 0 {
      return Aborted(ZeroRepetitions), InOrder([]), 0;
    }
    var urlSet := BuildUrlSet(opts.file, opts.url, parse);
    if urlSet.Err? {
      return Aborted(urlSet.error), InOrder([]), 0;
    }
    var urls := urlSet.value;
    var work := Expand(urls, opts.n);
    assert Plan(opts, parse) == Ok(work);
    if opts.asynchronous {
      var tasks := |urls| * opts.n;
      var bag;
      exit, bag := RunConcurrent(work, tasks, net);
      output := Unordered(bag);
      issued := tasks;
    } else {
      var result, executed, lines := RunSequential(work, net);
      exit := if result.Ok? then Completed else Aborted(result.error);
      output := InOrder(lines);
      issued := executed;
    }
  }
}
