/** Executing the work list: one request at a time with stop-on-first-error,
    or every request at once with a completion counter fed by a channel. */
module Dispatch {
  import opened Types
  import opened Report

  /** One request: a response is reported and the call succeeds; a
      transport error is returned and nothing is printed. */
  function Execute(req: Request, outcome: NetOutcome): (r: Result<seq<string>, Failure>)
    ensures r.Ok? <==> outcome.Response?
    ensures r.Ok? ==> r.value == ReportLines(outcome.elapsedNanos, outcome.status, req.uri)
    ensures r.Err? ==> r.error == RequestFailed(outcome.reason)
  {
    match outcome
    case Response(status, nanos) => Ok(ReportLines(nanos, status, req.uri))
    case Error(reason) => Err(RequestFailed(reason))
  }

  /** What executing one request prints. */
  function OutputOf(req: Request, outcome: NetOutcome): seq<string> {
    match Execute(req, outcome)
    case Ok(lines) => lines
    case Err(_) => []
  }

  /** The lines printed by executing the first `k` requests of the work
      list, the network answering request `i` with `net(i)`. */
  function Printed(work: seq<Request>, net: nat -> NetOutcome, k: nat): seq<string>
    requires k <= |work|
  {
    if k == 0 then [] else Printed(work, net, k - 1) + OutputOf(work[k - 1], net(k - 1))
  }

  /** The index of the first failing request at or after `i`, or `count`
      when all of them succeed. */
  function FirstFailureFrom(count: nat, net: nat -> NetOutcome, i: nat): (k: nat)
    requires i <= count
    ensures i <= k <= count
    ensures forall j :: i <= j < k ==> net(j).Response?
    ensures k < count ==> net(k).Error?
    decreases count - i
  {
    if i == count || net(i).Error? then i else FirstFailureFrom(count, net, i + 1)
  }

  function FirstFailure(work: seq<Request>, net: nat -> NetOutcome): nat {
    FirstFailureFrom(|work|, net, 0)
  }

  predicate AllSucceed(count: nat, net: nat -> NetOutcome) {
    forall j :: 0 <= j < count ==> net(j).Response?
  }

  /** Sequential mode: the requests run in work-list order; the first
      failing one stops the run and becomes its error, and no request after
      it is issued. `executed` is how many requests were issued, the first
      `executed` of the work list. */
  method RunSequential(work: seq<Request>, net: nat -> NetOutcome)
    returns (result: Result<(), Failure>, executed: nat, lines: seq<string>)
    ensures var k := FirstFailure(work, net);
            (result.Ok? <==> k == |work|) &&
            executed == (if k == |work| then k else k + 1) &&
            (result.Err? ==> result.error == RequestFailed(net(k).reason))
    ensures result.Ok? <==> AllSucceed(|work|, net)
    ensures executed <= |work|
    ensures forall j :: 0 <= j < executed - 1 ==> net(j).Response?
    ensures lines == Printed(work, net, executed)
  {
    var i := 0;
    lines := [];
    while i < |work|
      invariant i <= |work|
      invariant i <= FirstFailure(work, net)
      invariant lines == Printed(work, net, i)
    {
      var r := Execute(work[i], net(i));
      if r.Err? {
        assert FirstFailure(work, net) == i;
        assert Printed(work, net, i + 1) == Printed(work, net, i);
        result, executed := Err(r.error), i + 1;
        return;
      }
      assert Printed(work, net, i + 1) == Printed(work, net, i) + r.value;
      lines := lines + r.value;
      i := i + 1;
    }
    assert FirstFailure(work, net) == |work|;
    result, executed := Ok(()), |work|;
  }

  /** The state the completion counter stops in: the target reached, the
      channel closed, or no further message ever arriving. `received` is
      the number of `recv` calls that returned. */
  datatype Wait =
    | AllCompleted(completed: nat, received: nat)
    | Closed(completed: nat, received: nat)
    | Blocked(completed: nat, received: nat)

  /** The counter loop over the messages `recvs` that `recv` would return,
      from the `i`-th on with `completed` counted so far; after the last of
      them `recv` blocks for ever. The loop ends only with the target
      reached, on a closed channel, or with every message consumed; the
      counter never decreases. */
  function Await(tasks: nat, recvs: seq<Option<nat>>, i: nat, completed: nat): (w: Wait)
    requires i <= |recvs|
    ensures i <= w.received <= |recvs| && w.completed >= completed
    ensures w.AllCompleted? <==> w.completed >= tasks
    ensures w.Closed? ==> 0 < w.received && recvs[w.received - 1] == None
    ensures w.Blocked? ==> w.received == |recvs|
    decreases |recvs| - i
  {
    if completed >= tasks then AllCompleted(completed, i)
    else if i == |recvs| then Blocked(completed, i)
    else match recvs[i]
      case None => Closed(completed, i + 1)
      case Some(v) => Await(tasks, recvs, i + 1, completed + v)
  }

  predicate UnitSignals(recvs: seq<Option<nat>>) {
    forall j :: 0 <= j < |recvs| ==> recvs[j] == Some(1)
  }

  /** With every message a unit, the counter stops after exactly `tasks`
      receipts with `completed == tasks` when enough messages arrive, and
      otherwise waits for ever having counted all of them; it never goes
      past `tasks`. */
  lemma {:induction false} AwaitUnits(tasks: nat, recvs: seq<Option<nat>>, i: nat)
    requires i <= |recvs| && i <= tasks
    requires UnitSignals(recvs)
    ensures Await(tasks, recvs, i, i) ==
              if |recvs| >= tasks then AllCompleted(tasks, tasks) else Blocked(|recvs|, |recvs|)
    decreases |recvs| - i
  {
    if i < tasks && i < |recvs| {
      AwaitUnits(tasks, recvs, i + 1);
    }
  }

  /** A closed channel before the target is reached ends the wait with the
      count of units received before it. */
  lemma {:induction false} AwaitClosed(tasks: nat, recvs: seq<Option<nat>>, i: nat, k: nat)
    requires i <= k < |recvs| && k < tasks
    requires recvs[k] == None
    requires forall j :: 0 <= j < k ==> recvs[j] == Some(1)
    ensures Await(tasks, recvs, i, i) == Closed(k, k + 1)
    decreases k - i
  {
    if i < k {
      AwaitClosed(tasks, recvs, i + 1, k);
    }
  }

  /** The `while completed < tasks` loop: each received value is added to
      the counter; a closed channel stops it. */
  method CountCompletions(tasks: nat, recvs: seq<Option<nat>>) returns (w: Wait)
    ensures w == Await(tasks, recvs, 0, 0)
    ensures w.AllCompleted? ==> w.completed >= tasks
    ensures UnitSignals(recvs) ==>
              if |recvs| >= tasks then w == AllCompleted(tasks, tasks) else w == Blocked(|recvs|, |recvs|)
  {
    var completed := 0;
    var i := 0;
    while completed < tasks
      invariant i <= |recvs|
      invariant Await(tasks, recvs, 0, 0) == Await(tasks, recvs, i, completed)
      decreases |recvs| - i
    {
      if i == |recvs| {
        w := Blocked(completed, i);
        AwaitFacts(tasks, recvs);
        return;
      }
      match recvs[i] {
        case None =>
          w := Closed(completed, i + 1);
          AwaitFacts(tasks, recvs);
          return;
        case Some(v) =>
          completed := completed + v;
      }
      i := i + 1;
    }
    w := AllCompleted(completed, i);
    AwaitFacts(tasks, recvs);
  }

  lemma AwaitFacts(tasks: nat, recvs: seq<Option<nat>>)
    ensures UnitSignals(recvs) ==>
              Await(tasks, recvs, 0, 0) ==
                if |recvs| >= tasks then AllCompleted(tasks, tasks) else Blocked(|recvs|, |recvs|)
  {
    if UnitSignals(recvs) {
      AwaitUnits(tasks, recvs, 0);
    }
  }

  /** The number of requests among the first `k` that succeed. */
  function Successes(net: nat -> NetOutcome, k: nat): (s: nat)
    ensures s <= k
    ensures s == k <==> AllSucceed(k, net)
  {
    if k == 0 then 0
    else Successes(net, k - 1) + (if net(k - 1).Response? then 1 else 0)
  }

  /** The spawn loop: one task per request, in work-list order. A task
      whose request succeeds prints its report and queues one unit; a task
      whose request fails panics, printing nothing and sending nothing. */
  method SpawnTasks(work: seq<Request>, net: nat -> NetOutcome)
    returns (lines: seq<string>, queue: seq<Option<nat>>)
    ensures lines == Printed(work, net, |work|)
    ensures |queue| == Successes(net, |work|) && UnitSignals(queue)
  {
    queue := [];
    lines := [];
    var i := 0;
    while i < |work|
      invariant i <= |work|
      invariant lines == Printed(work, net, i)
      invariant |queue| == Successes(net, i)
      invariant UnitSignals(queue)
    {
      var result := Execute(work[i], net(i));
      assert Printed(work, net, i + 1) == Printed(work, net, i) + OutputOf(work[i], net(i));
      assert Successes(net, i + 1) == Successes(net, i) + (if net(i).Response? then 1 else 0);
      if result.Ok? {
        lines := lines + result.value;
        queue := queue + [Some(1)];
      }
      i := i + 1;
    }
  }

  /** Concurrent mode. A channel of capacity `tasks` is made (capacity 0
      panics); one task is spawned per request; a task whose request
      succeeds prints its report and sends one unit, a task whose request
      fails panics without sending; `main` keeps a sender of its own, so
      the channel never closes and the counter waits for ever once the
      units run out. Output lines from different tasks interleave, so only
      the multiset of printed lines is determined. */
  method RunConcurrent(work: seq<Request>, tasks: nat, net: nat -> NetOutcome)
    returns (exit: Exit, printed: multiset<string>)
    requires tasks == |work|
    ensures tasks == 0 ==> exit == Aborted(EmptyChannel) && printed == multiset{}
    ensures tasks > 0 ==> printed == multiset(Printed(work, net, tasks))
    ensures tasks > 0 ==> (exit == Completed <==> AllSucceed(tasks, net))
    ensures tasks > 0 && !AllSucceed(tasks, net) ==> exit == Hung
  {
    if tasks == 0 {
      return Aborted(EmptyChannel), multiset{};
    }
    var lines, queue := SpawnTasks(work, net);
    printed := multiset(lines);
    assert |queue| <= tasks && (|queue| == tasks <==> AllSucceed(tasks, net));
    var w := CountCompletions(tasks, queue);
    assert w == if |queue| >= tasks then AllCompleted(tasks, tasks) else Blocked(|queue|, |queue|);
    match w
    case AllCompleted(_, _) => exit := Completed;
    case Closed(_, _) => exit := Aborted(ChannelClosed);
    case Blocked(_, _) => exit := Hung;
  }
}
