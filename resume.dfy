/** The change stream loop around `process_changes`: every event is processed,
    then its resume token is recorded; when the store raises, the stream is
    reopened once after the recorded token, or not at all when there is none. */
module Resume {
  import opened Values
  import opened Provenance
  import opened Audit
  import opened Reconcile

  /** What ends a run that does not end normally. */
  datatype Crash =
    | ProcessRaised(error: ProcessError)   // an error of `process_changes` that no handler catches
    | ResumedStreamFailed                  // a store error in the reopened stream, outside the handler

  datatype RunOutcome =
    | StreamEnded            // the (finite) stream ran dry
    | InitialisationFailed   // a store error before any event was processed: nothing to resume from
    | Crashed(crash: Crash)

  /** How a stream behaves: it delivers every event, or raises a store error
      once `k` events have been delivered (after the last one when fewer remain). */
  datatype StreamEnd = Exhausted | FailsAfter(k: nat)

  /** The events a stream over `events` delivers before it ends. */
  function Delivered(events: seq<ChangeEvent>, end: StreamEnd): (delivered: seq<ChangeEvent>)
    ensures delivered <= events
    ensures end.Exhausted? ==> delivered == events
  {
    match end
    case Exhausted => events
    case FailsAfter(k) => if k <= |events| then events[..k] else events
  }

  /** The result of feeding events to `process_changes` one after another. */
  datatype Drained = Drained(store: Store, processed: nat, raised: Option<ProcessError>)

  /** Process `events` in order, stopping at the first event whose processing raises;
      `processed` counts the events for which `process_changes` returned. */
  function Drain(st: Store, events: seq<ChangeEvent>): (d: Drained)
    ensures d.processed <= |events|
    ensures d.raised.None? <==> d.processed == |events|
    decreases |events|
  {
    if events == [] then Drained(st, 0, None)
    else
      match Step(st, events[0])
      case Err(e) => Drained(st, 0, Some(e))
      case Ok(next) =>
        var d := Drain(next, events[1..]);
        Drained(d.store, d.processed + 1, d.raised)
  }

  function LastToken(events: seq<ChangeEvent>): Option<Token> {
    if events == [] then None else Some(events[|events| - 1].token)
  }

  /** The events a stream reopened with `resume_after=token` delivers: those after
      the event that carries `token` (none if no event carries it). */
  function ResumeAfter(history: seq<ChangeEvent>, token: Token): (rest: seq<ChangeEvent>)
    // a suffix of the history that leaves out at least the event carrying the token
    ensures |rest| <= |history| && rest == history[|history| - |rest|..]
    ensures history != [] ==> |rest| < |history|
    // it starts right after the first event that carries the token
    ensures forall i | 0 <= i < |history| && history[i].token == token
        && (forall j | 0 <= j < i :: history[j].token != token) :: rest == history[i + 1..]
  {
    if history == [] then []
    else if history[0].token == token then history[1..]
    else ResumeAfter(history[1..], token)
  }

  /** Resume tokens identify events. */
  ghost predicate DistinctTokens(history: seq<ChangeEvent>) {
    forall i, j :: 0 <= i < j < |history| ==> history[i].token != history[j].token
  }

  /** The token held once the first stream stops: that of the last event processed, if any. */
  function RecordedToken(st: Store, history: seq<ChangeEvent>, first: StreamEnd): Option<Token> {
    var stream := Delivered(history, first);
    LastToken(stream[..Drain(st, stream).processed])
  }

  /** Everything a run produces: the store, how it ended, the last recorded
      token and the token the stream was reopened after, if it was. */
  datatype RunResult = RunResult(store: Store, outcome: RunOutcome, token: Option<Token>, reopenedAfter: Option<Token>)

  /** A run over the collection's change history: a first stream, and at most one
      reopened stream after the recorded token when the first raises a store error. */
  function Run(st: Store, history: seq<ChangeEvent>, first: StreamEnd, second: StreamEnd): RunResult {
    var d1 := Drain(st, Delivered(history, first));
    var token := RecordedToken(st, history, first);
    if d1.raised.Some? then RunResult(d1.store, Crashed(ProcessRaised(d1.raised.value)), token, None)
    else if first.Exhausted? then RunResult(d1.store, StreamEnded, token, None)
    else if token.None? then RunResult(d1.store, InitialisationFailed, token, None)
    else
      var d2 := Drain(d1.store, Delivered(ResumeAfter(history, token.value), second));
      var outcome :=
        if d2.raised.Some? then Crashed(ProcessRaised(d2.raised.value))
        else if second.FailsAfter? then Crashed(ResumedStreamFailed)
        else StreamEnded;
      RunResult(d2.store, outcome, token, token)
  }

  /** Reopening after the token of the k-th event delivers exactly the events after it:
      nothing already processed is delivered again and nothing is skipped. */
  lemma {:induction false} ResumeAfterSkipsProcessed(history: seq<ChangeEvent>, k: nat)
    requires DistinctTokens(history) && 0 < k <= |history|
    ensures ResumeAfter(history, history[k - 1].token) == history[k..]
  {
    if k > 1 {
      assert history[0].token != history[k - 1].token;
      var tail := history[1..];
      assert tail[k - 2] == history[k - 1];
      assert DistinctTokens(tail) by {
        forall i, j | 0 <= i < j < |tail| ensures tail[i].token != tail[j].token {
          assert tail[i] == history[i + 1] && tail[j] == history[j + 1];
        }
      }
      ResumeAfterSkipsProcessed(tail, k - 1);
      assert tail[k - 1..] == history[k..];
    }
  }

  /** Processing a sequence of events never drops an audit record, never rewrites a
      seed and only appends to logs and to the replace requests. */
  lemma {:induction false} DrainExtends(st: Store, events: seq<ChangeEvent>)
    ensures Extends(st.records, Drain(st, events).store.records)
    ensures st.requests <= Drain(st, events).store.requests
    decreases |events|
  {
    if events != [] && Step(st, events[0]).Ok? {
      var next := Step(st, events[0]).value;
      ApplyExtends(st, events[0].documentId, InsertRecord(events[0]), Plan(events[0]).value);
      DrainExtends(next, events[1..]);
      ExtendsTransitive(st.records, next.records, Drain(next, events[1..]).store.records);
    }
  }

  /** The recorded token is that of the last event `process_changes` returned for in the first
      stream, and none when it returned for none; it never runs ahead of processing. */
  lemma TokenFollowsProcessing(st: Store, history: seq<ChangeEvent>, first: StreamEnd)
    ensures var n := Drain(st, Delivered(history, first)).processed;
      && n <= |history|
      && RecordedToken(st, history, first) == if n == 0 then None else Some(history[n - 1].token)
  {
    var stream := Delivered(history, first);
    var n := Drain(st, stream).processed;
    if n > 0 {
      assert stream[n - 1] == history[n - 1];
      assert stream[..n][n - 1] == stream[n - 1];
    }
  }

  /** The stream is reopened only after a store error in the first stream, only when a
      token was recorded, and then exactly once, after that token. */
  lemma ReopenOnlyFromRecordedToken(st: Store, history: seq<ChangeEvent>, first: StreamEnd, second: StreamEnd)
    ensures var r, d1 := Run(st, history, first, second), Drain(st, Delivered(history, first));
      && r.token == RecordedToken(st, history, first)
      && (r.reopenedAfter.Some? <==> first.FailsAfter? && d1.raised.None? && r.token.Some?)
      && (r.reopenedAfter.Some? ==> r.reopenedAfter == r.token)
      && (r.outcome == InitialisationFailed <==> first.FailsAfter? && d1.raised.None? && r.token.None?)
  {
  }

  /** The delivered prefix of a failing stream followed by what reopening after its
      last token delivers is the whole history. */
  lemma FailedPrefixThenResumeIsHistory(history: seq<ChangeEvent>, k: nat)
    requires DistinctTokens(history)
    requires Delivered(history, FailsAfter(k)) != []
    ensures var stream := Delivered(history, FailsAfter(k));
      stream + ResumeAfter(history, stream[|stream| - 1].token) == history
  {
    var stream := Delivered(history, FailsAfter(k));
    var n := |stream|;
    assert stream == history[..n];
    ResumeAfterSkipsProcessed(history, n);
    assert history[..n] + history[n..] == history;
  }

  /** The reopened stream starts right after the last processed event: the first
      stream's events followed by those after the recorded token are the whole
      history, each once, in order. */
  lemma ResumeDeliversHistoryOnce(st: Store, history: seq<ChangeEvent>, k: nat, second: StreamEnd)
    requires DistinctTokens(history)
    ensures var stream, r := Delivered(history, FailsAfter(k)), Run(st, history, FailsAfter(k), second);
      r.reopenedAfter.Some? ==> stream + ResumeAfter(history, r.reopenedAfter.value) == history
  {
    var r := Run(st, history, FailsAfter(k), second);
    if r.reopenedAfter.Some? {
      var stream := Delivered(history, FailsAfter(k));
      ReopenOnlyFromRecordedToken(st, history, FailsAfter(k), second);
      // no event raised, so every delivered event was processed and the token is the last one's
      assert Drain(st, stream).processed == |stream|;
      assert stream[..|stream|] == stream;
      FailedPrefixThenResumeIsHistory(history, k);
    }
  }

  lemma AppendHeadTail(a: seq<ChangeEvent>, b: seq<ChangeEvent>)
    requires a != []
    ensures (a + b)[0] == a[0] && (a + b)[1..] == a[1..] + b
  {
  }

  /** Processing `a + b` is processing `a`, then `b` from where `a` left the store,
      provided nothing in `a` raised. */
  lemma {:induction false} DrainAppend(st: Store, a: seq<ChangeEvent>, b: seq<ChangeEvent>)
    requires Drain(st, a).raised.None?
    ensures var d := Drain(Drain(st, a).store, b);
      Drain(st, a + b) == Drained(d.store, |a| + d.processed, d.raised)
    decreases |a|
  {
    if a == [] {
      assert a + b == b;
    } else {
      assert Step(st, a[0]).Ok?;
      var next := Step(st, a[0]).value;
      assert Drain(st, a).store == Drain(next, a[1..]).store;
      DrainAppend(next, a[1..], b);
      AppendHeadTail(a, b);
      var d := Drain(next, a[1..] + b);
      assert Drain(st, a + b) == Drained(d.store, d.processed + 1, d.raised);
    }
  }

  /** A store error followed by a reopen that runs to the end loses nothing and
      repeats nothing: the collections end as if the whole history had been
      processed by one uninterrupted stream, and the run ends normally exactly
      when that stream would have processed every event. */
  lemma ReopenedRunIsUninterrupted(st: Store, history: seq<ChangeEvent>, k: nat)
    requires DistinctTokens(history)
    ensures var r := Run(st, history, FailsAfter(k), Exhausted);
      r.reopenedAfter.Some? ==>
        && r.store == Drain(st, history).store
        && (r.outcome == StreamEnded <==> Drain(st, history).raised.None?)
  {
    var r := Run(st, history, FailsAfter(k), Exhausted);
    if r.reopenedAfter.Some? {
      var stream := Delivered(history, FailsAfter(k));
      var rest := ResumeAfter(history, r.reopenedAfter.value);
      ResumeDeliversHistoryOnce(st, history, k, Exhausted);
      ReopenOnlyFromRecordedToken(st, history, FailsAfter(k), Exhausted);
      DrainAppend(st, stream, rest);
    }
  }

  /** Over a whole run, audit records are only created or appended to. */
  lemma RunExtends(st: Store, history: seq<ChangeEvent>, first: StreamEnd, second: StreamEnd)
    ensures Extends(st.records, Run(st, history, first, second).store.records)
    ensures st.requests <= Run(st, history, first, second).store.requests
  {
    var stream := Delivered(history, first);
    var d1 := Drain(st, stream);
    DrainExtends(st, stream);
    var r := Run(st, history, first, second);
    if r.reopenedAfter.Some? {
      var resumed := Delivered(ResumeAfter(history, r.reopenedAfter.value), second);
      DrainExtends(d1.store, resumed);
      ExtendsTransitive(st.records, d1.store.records, Drain(d1.store, resumed).store.records);
    }
  }

  /** The loop of the reopened stream: no token is recorded, and no handler catches its errors. */
  method ResumedStream(events: seq<ChangeEvent>, audit: AuditCollection, samples: SampleCollection)
    returns (raised: Option<ProcessError>)
    modifies audit, samples
    ensures var d := Drain(Store(old(audit.records), old(samples.requests)), events);
      raised == d.raised && audit.records == d.store.records && samples.requests == d.store.requests
  {
    ghost var d := Drain(Store(audit.records, samples.requests), events);
    var i := 0;
    while i < |events|
      invariant 0 <= i <= |events|
      invariant Drain(Store(audit.records, samples.requests), events[i..]).store == d.store
      invariant Drain(Store(audit.records, samples.requests), events[i..]).raised == d.raised
    {
      assert events[i..][0] == events[i] && events[i..][1..] == events[i + 1..];
      raised := ProcessChanges(events[i], audit, samples);
      if raised.Some? {
        return;
      }
      i := i + 1;
    }
    raised := None;
  }

  /** The watch on the sample collection: process each event, then record the
      stream's resume token; on a store error reopen after the token once. */
  method Watch(history: seq<ChangeEvent>, first: StreamEnd, second: StreamEnd,
               audit: AuditCollection, samples: SampleCollection)
    returns (outcome: RunOutcome, token: Option<Token>, reopenedAfter: Option<Token>)
    modifies audit, samples
    ensures Run(Store(old(audit.records), old(samples.requests)), history, first, second)
         == RunResult(Store(audit.records, samples.requests), outcome, token, reopenedAfter)
  {
    ghost var s0 := Store(audit.records, samples.requests);
    var stream := Delivered(history, first);
    ghost var d1 := Drain(s0, stream);
    token := None;
    reopenedAfter := None;
    var i := 0;
    while i < |stream|
      invariant 0 <= i <= |stream|
      invariant token == LastToken(stream[..i])
      invariant var rest := Drain(Store(audit.records, samples.requests), stream[i..]);
        rest.store == d1.store && rest.raised == d1.raised && i + rest.processed == d1.processed
    {
      assert stream[i..][0] == stream[i] && stream[i..][1..] == stream[i + 1..];
      var raised := ProcessChanges(stream[i], audit, samples);
      if raised.Some? {
        outcome := Crashed(ProcessRaised(raised.value));
        return;
      }
      token := Some(stream[i].token);
      assert stream[..i + 1][i] == stream[i];
      i := i + 1;
    }
    assert stream[..i] == stream[..d1.processed];
    if first.Exhausted? {
      outcome := StreamEnded;
    } else if token.None? {
      outcome := InitialisationFailed;
    } else {
      reopenedAfter := token;
      var resumed := Delivered(ResumeAfter(history, token.value), second);
      var raised := ResumedStream(resumed, audit, samples);
      if raised.Some? {
        outcome := Crashed(ProcessRaised(raised.value));
      } else if second.FailsAfter? {
        outcome := Crashed(ResumedStreamFailed);
      } else {
        outcome := StreamEnded;
      }
    }
  }
}
