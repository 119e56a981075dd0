/** The event polling loop of `MatrixClient.StartEventPolling`
    (Smith.MatrixSdk/MatrixClient.cs:50-75).

    The loop holds one request cursor and makes one sync call at a time. A
    successful call moves the cursor to the response's `next_batch` and emits
    the response; a cancelled call, or cancellation seen at the loop head,
    completes the stream; any other failure ends it with that error. Either
    way it stops for good.

    The world outside the loop is an oracle: a sequence of ticks, one per loop
    iteration, each either the cancellation seen at the loop head or the
    outcome of the call made in that iteration. `Run` is the specification of
    the loop over such a sequence; `Poller.Poll` is the loop itself, proved
    to end in the state `Run` describes. */
module EventPolling {
  import opened Wrappers
  import opened Json
  import opened ApiTypes
  import opened MatrixClient

  /** One iteration as the outside world decides it. */
  datatype Tick = CancelObserved | Call(outcome: CallOutcome)

  /** Where the output stream stands: still open, completed, or ended with
      its single error. */
  datatype Status = Polling | Completed | Failed(error: CallError)

  /** The loop's state: the cursor, every request issued so far, every
      response emitted so far, and the stream's status. */
  datatype Progress = Progress(
    request: SyncRequest,
    issued: seq<SyncRequest>,
    emitted: seq<SyncResponse>,
    status: Status)

  /** The request the loop starts with: only the timeout, in milliseconds. */
  function FirstRequest(timeout: Int32): SyncRequest {
    DefaultSyncRequest.(timeout := Some(timeout))
  }

  function Start(timeout: Int32): Progress {
    Progress(FirstRequest(timeout), [], [], Polling)
  }

  /** One iteration of the loop body. */
  function Step(p: Progress, t: Tick): (q: Progress)
    requires p.status == Polling
    ensures q.issued == p.issued + (if t.Call? then [p.request] else [])
    ensures p.emitted <= q.emitted
    ensures q.status == Polling <==> |q.emitted| == |p.emitted| + 1
    ensures q.status != Polling ==> q.emitted == p.emitted && q.request == p.request
    ensures q.status == Polling ==> q.request == p.request.(since := Some(q.emitted[|p.emitted|].nextBatch))
  {
    match t
    case CancelObserved => p.(status := Completed)
    case Call(outcome) =>
      var called := p.(issued := p.issued + [p.request]);
      match SyncResult(outcome)
      case Success(response) =>
        called.(request := p.request.(since := Some(response.nextBatch)), emitted := p.emitted + [response])
      case Failure(CallCancelled) => called.(status := Completed)
      case Failure(e) => called.(status := Failed(e))
  }

  /** The loop over a sequence of ticks: it runs until the ticks run out or
      the stream has ended. */
  function Run(p: Progress, ticks: seq<Tick>): (q: Progress)
    ensures p.issued <= q.issued && p.emitted <= q.emitted
    ensures |q.issued| <= |p.issued| + |ticks|
    ensures p.status != Polling ==> q == p
    decreases |ticks|
  {
    if ticks == [] || p.status != Polling then p else Run(Step(p, ticks[0]), ticks[1..])
  }

  // ---------------------------------------------------------------------------
  // The invariant: what every reachable state looks like

  /** The cursor after `n` successful calls: none before the first, then the
      last response's `next_batch`. */
  function SinceAfter(emitted: seq<SyncResponse>, n: nat): Option<string>
    requires n <= |emitted|
  {
    if n == 0 then None else Some(emitted[n - 1].nextBatch)
  }

  /** At most one call is outstanding: while polling every issued call has
      been answered by one emission; a failed stream has exactly one call
      more than it emitted. Request `i` is the first request with the cursor
      left by response `i - 1`; nothing but `since` ever changes. */
  ghost predicate Consistent(timeout: Int32, p: Progress) {
    && |p.emitted| <= |p.issued| <= |p.emitted| + 1
    && (p.status == Polling ==>
          |p.issued| == |p.emitted| && p.request == FirstRequest(timeout).(since := SinceAfter(p.emitted, |p.emitted|)))
    && (p.status.Failed? ==> |p.issued| == |p.emitted| + 1 && p.status.error != CallCancelled)
    && (forall i :: 0 <= i < |p.issued| ==> p.issued[i] == FirstRequest(timeout).(since := SinceAfter(p.emitted, i)))
  }

  lemma StepConsistent(timeout: Int32, p: Progress, t: Tick)
    requires p.status == Polling && Consistent(timeout, p)
    ensures Consistent(timeout, Step(p, t))
  {
    var q := Step(p, t);
    if t.Call? && SyncResult(t.outcome).Success? {
      forall i | 0 <= i < |q.issued|
        ensures q.issued[i] == FirstRequest(timeout).(since := SinceAfter(q.emitted, i))
      {
        if i < |p.issued| {
          assert SinceAfter(q.emitted, i) == SinceAfter(p.emitted, i);
        }
      }
    }
  }

  lemma {:induction false} RunConsistent(timeout: Int32, p: Progress, ticks: seq<Tick>)
    requires Consistent(timeout, p)
    ensures Consistent(timeout, Run(p, ticks))
    decreases |ticks|
  {
    if ticks != [] && p.status == Polling {
      StepConsistent(timeout, p, ticks[0]);
      RunConsistent(timeout, Step(p, ticks[0]), ticks[1..]);
    }
  }

  // ---------------------------------------------------------------------------
  // Properties of a polling session

  /** The first request carries only the timeout; each later request is the
      one before it with `since` moved to the previous response's
      `next_batch`, and the cursor the loop holds is the last request moved
      on by the last response. */
  lemma CursorChain(timeout: Int32, ticks: seq<Tick>)
    ensures var p := Run(Start(timeout), ticks);
      && (|p.issued| > 0 ==> p.issued[0] == DefaultSyncRequest.(timeout := Some(timeout)))
      && (forall i :: 0 <= i < |p.emitted| && i + 1 < |p.issued| ==>
            p.issued[i + 1] == p.issued[i].(since := Some(p.emitted[i].nextBatch)))
      && (p.status == Polling && |p.emitted| > 0 ==>
            p.request == DefaultSyncRequest.(timeout := Some(timeout), since := Some(p.emitted[|p.emitted| - 1].nextBatch)))
  {
    var p := Run(Start(timeout), ticks);
    RunConsistent(timeout, Start(timeout), ticks);
    forall i | 0 <= i < |p.emitted| && i + 1 < |p.issued|
      ensures p.issued[i + 1] == p.issued[i].(since := Some(p.emitted[i].nextBatch))
    {
      assert p.issued[i + 1] == FirstRequest(timeout).(since := SinceAfter(p.emitted, i + 1));
      assert p.issued[i] == FirstRequest(timeout).(since := SinceAfter(p.emitted, i));
    }
  }

  /** One call at a time: while polling there is one emission per call; a
      failure on call `n` leaves exactly `n - 1` emissions; a completed stream
      has at most one call unanswered (the one that was cancelled). */
  lemma OneCallAtATime(timeout: Int32, ticks: seq<Tick>)
    ensures var p := Run(Start(timeout), ticks);
      && |p.emitted| <= |p.issued| <= |p.emitted| + 1
      && (p.status == Polling ==> |p.emitted| == |p.issued|)
      && (p.status.Failed? ==> |p.emitted| == |p.issued| - 1)
  {
    RunConsistent(timeout, Start(timeout), ticks);
  }

  /** How a finished or running session is explained by the ticks: call `i`
      happened in iteration `i`; emission `i` is exactly the snapshot call `i`
      succeeded with; a session still polling has used every tick; a failed
      one ended on its last call with that call's error; a completed one saw
      cancellation at the head of the next iteration or had its last call
      cancelled. */
  ghost predicate Explains(ticks: seq<Tick>, p: Progress) {
    var n := |p.issued|;
    && n <= |ticks|
    && |p.emitted| <= n
    && (forall i :: 0 <= i < n ==> ticks[i].Call?)
    && (forall i :: 0 <= i < |p.emitted| ==> ticks[i].Call? && SyncResult(ticks[i].outcome) == Success(p.emitted[i]))
    && (p.status == Polling ==> n == |ticks|)
    && (p.status.Failed? ==> 0 < n && ticks[n - 1].Call? && SyncResult(ticks[n - 1].outcome) == Failure(p.status.error))
    && (p.status == Completed ==>
          (n < |ticks| && ticks[n].CancelObserved?) || (0 < n && ticks[n - 1].Call? && ticks[n - 1].outcome.Aborted?))
  }

  /** A polling state reached by answering every call of `history`. */
  ghost predicate Answered(history: seq<Tick>, p: Progress) {
    && p.status == Polling
    && |p.issued| == |history| == |p.emitted|
    && (forall i :: 0 <= i < |history| ==> history[i].Call? && SyncResult(history[i].outcome) == Success(p.emitted[i]))
  }

  lemma {:induction false} RunExplained(history: seq<Tick>, p: Progress, rest: seq<Tick>)
    requires Answered(history, p)
    ensures Explains(history + rest, Run(p, rest))
    decreases |rest|
  {
    if rest == [] {
      assert history + rest == history;
    } else {
      var t := rest[0];
      var q := Step(p, t);
      if t.Call? && SyncResult(t.outcome).Success? {
        assert Answered(history + [t], q);
        assert (history + [t]) + rest[1..] == history + rest;
        RunExplained(history + [t], q, rest[1..]);
      } else {
        assert Run(p, rest) == q;
        assert (history + rest)[|history|] == t;
      }
    }
  }

  /** Every emission is the snapshot of a successful call, in the order the
      calls returned, and the session ends exactly as its ticks say. */
  lemma EmissionsFollowCalls(timeout: Int32, ticks: seq<Tick>)
    ensures Explains(ticks, Run(Start(timeout), ticks))
  {
    assert [] + ticks == ticks;
    RunExplained([], Start(timeout), ticks);
  }

  /** Running on two batches of ticks is running on both together. */
  lemma {:induction false} RunAppend(p: Progress, a: seq<Tick>, b: seq<Tick>)
    ensures Run(p, a + b) == Run(Run(p, a), b)
    decreases |a|
  {
    if a != [] && p.status == Polling {
      assert (a + b)[1..] == a[1..] + b;
      RunAppend(Step(p, a[0]), a[1..], b);
    } else if a == [] {
      assert a + b == b;
    }
  }

  /** Once the stream has completed or failed, nothing more happens: no
      further call is issued, nothing more is emitted, the status stays. */
  lemma StopsForGood(p: Progress, a: seq<Tick>, b: seq<Tick>)
    requires Run(p, a).status != Polling
    ensures Run(p, a + b) == Run(p, a)
  {
    RunAppend(p, a, b);
  }

  /** On the wire: every call carries the access token under the `Bearer`
      scheme; the first call's query is the timeout alone; each later call's
      query is the one before with `since` set to the previous response's
      `next_batch`. */
  lemma WireRequests(uri: string, accessToken: string, timeout: Int32, ticks: seq<Tick>)
    ensures var p := Run(Start(timeout), ticks);
      && (forall i :: 0 <= i < |p.issued| ==>
            SyncCall(uri, accessToken, p.issued[i]).authorization == AuthHeader("Bearer", accessToken))
      && (|p.issued| > 0 ==>
            SyncCall(uri, accessToken, p.issued[0]).query == map["timeout" := Decimal.IntToDecimal(timeout)])
      && (forall i :: 0 <= i < |p.emitted| && i + 1 < |p.issued| ==>
            SyncCall(uri, accessToken, p.issued[i + 1]).query
              == SyncCall(uri, accessToken, p.issued[i]).query["since" := p.emitted[i].nextBatch])
  {
    var p := Run(Start(timeout), ticks);
    CursorChain(timeout, ticks);
    if |p.issued| > 0 {
      FirstQuery(timeout);
    }
    forall i | 0 <= i < |p.emitted| && i + 1 < |p.issued|
      ensures SyncCall(uri, accessToken, p.issued[i + 1]).query
                == SyncCall(uri, accessToken, p.issued[i]).query["since" := p.emitted[i].nextBatch]
    {
      SyncQueryWithSince(p.issued[i], p.emitted[i].nextBatch);
    }
  }

  // ---------------------------------------------------------------------------
  // The loop itself

  /** `sent` is the HTTP request of each issued sync request, in order. */
  ghost predicate SentFor(uri: string, accessToken: string, issued: seq<SyncRequest>, sent: seq<HttpRequest>) {
    && |sent| == |issued|
    && (forall i :: 0 <= i < |sent| ==> sent[i] == SyncCall(uri, accessToken, issued[i]))
  }

  lemma SentForAppend(uri: string, accessToken: string, issued: seq<SyncRequest>, sent: seq<HttpRequest>, r: SyncRequest)
    requires SentFor(uri, accessToken, issued, sent)
    ensures SentFor(uri, accessToken, issued + [r], sent + [SyncCall(uri, accessToken, r)])
  {
  }

  /** One subscription to the event stream. `syncUri` is the sync endpoint's
      path (`MatrixApiUris.Sync`); `sent` records the HTTP requests made, in
      order. */
  class Poller {
    const accessToken: string
    const syncUri: string
    ghost const timeout: Int32
    var request: SyncRequest
    ghost var issued: seq<SyncRequest>
    ghost var sent: seq<HttpRequest>
    var emitted: seq<SyncResponse>
    var status: Status

    ghost function State(): Progress
      reads this
    {
      Progress(request, issued, emitted, status)
    }

    /** The loop's state is reachable, and each request sent is the sync call
        for the request issued at that point. */
    ghost predicate Valid()
      reads this
    {
      && Consistent(timeout, State())
      && SentFor(syncUri, accessToken, issued, sent)
    }

    /** The state before the first iteration (MatrixClient.cs:53). */
    constructor(syncUri: string, accessToken: string, timeout: Int32)
      ensures this.syncUri == syncUri && this.accessToken == accessToken && this.timeout == timeout
      ensures State() == Start(timeout) && sent == []
      ensures Valid()
    {
      this.syncUri := syncUri;
      this.accessToken := accessToken;
      this.timeout := timeout;
      request := FirstRequest(timeout);
      issued := [];
      sent := [];
      emitted := [];
      status := Polling;
    }

    /** The `while` loop, over the ticks it is handed: it ends where `Run`
        says, keeps the invariant, and every request it sent carries the
        token. */
    method Poll(ticks: seq<Tick>)
      requires Valid()
      modifies this
      ensures State() == Run(old(State()), ticks)
      ensures Valid()
      ensures forall i :: 0 <= i < |sent| ==> sent[i].authorization == AuthHeader("Bearer", accessToken)
    {
      var i := 0;
      while i < |ticks| && status == Polling
        invariant 0 <= i <= |ticks|
        invariant Valid()
        invariant Run(State(), ticks[i..]) == Run(old(State()), ticks)
        decreases |ticks| - i
      {
        assert ticks[i..][1..] == ticks[i + 1..];
        Iterate(ticks[i]);
        i := i + 1;
      }
    }

    /** One pass of the loop body: the cancellation check at the head, then
        the call, the cursor move and the emission, or the stream's end. */
    method Iterate(t: Tick)
      requires Valid() && status == Polling
      modifies this
      ensures State() == Step(old(State()), t)
      ensures Valid()
    {
      ghost var before := State();
      StepConsistent(timeout, before, t);
      match t {
        case CancelObserved =>
          status := Completed;
        case Call(outcome) =>
          SentForAppend(syncUri, accessToken, issued, sent, request);
          issued, sent := issued + [request], sent + [SyncCall(syncUri, accessToken, request)];
          var result := SyncResult(outcome);
          if result.Success? {
            request := request.(since := Some(result.value.nextBatch));
            emitted := emitted + [result.value];
          } else if result.error == CallCancelled {
            status := Completed;
          } else {
            status := Failed(result.error);
          }
      }
      assert State() == Step(before, t);
    }
  }
}
