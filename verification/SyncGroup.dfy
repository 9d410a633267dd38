/**
 * The batcher that groups `fdatasync` calls.
 *
 * The channel and the clock are the input: a script of arrivals and elapsed linger
 * deadlines, at whose end every sender is gone and the channel closes.
 */
module SyncGroup {
  import opened Types
  import opened Sequences

  type SyncResult = Result<(), StorageError>

  datatype Request<F, C> = Request(file: F, caller: C)

  datatype Event<F, C> = Arrive(request: Request<F, C>) | Elapse

  datatype Reply<C> = Reply(caller: C, result: SyncResult)

  function Arrivals<F, C>(events: seq<Event<F, C>>): seq<Request<F, C>> {
    if events == [] then []
    else
      var before, last := Arrivals(events[..|events| - 1]), events[|events| - 1];
      if last.Arrive? then before + [last.request] else before
  }

  /** Every request is answered in its place, to its own caller, with its own file's result. */
  ghost predicate Answers<F, C>(replies: seq<Reply<C>>, requests: seq<Request<F, C>>, sync: F -> SyncResult) {
    && |replies| == |requests|
    && forall i :: 0 <= i < |requests| ==> replies[i] == Reply(requests[i].caller, sync(requests[i].file))
  }

  method Flush<F, C>(batch: seq<Request<F, C>>, sync: F -> SyncResult) returns (replies: seq<Reply<C>>)
    ensures Answers(replies, batch, sync)
  {
    var files: seq<F> := [];
    var callers: seq<C> := [];
    for i := 0 to |batch|
      invariant |files| == |callers| == i
      invariant forall j :: 0 <= j < i ==> files[j] == batch[j].file && callers[j] == batch[j].caller
    {
      files := files + [batch[i].file];
      callers := callers + [batch[i].caller];
    }
    var results := seq(|files|, i requires 0 <= i < |files| => sync(files[i]));
    replies := [];
    for i := 0 to |callers|
      invariant |replies| == i
      invariant forall j :: 0 <= j < i ==> replies[j] == Reply(batch[j].caller, sync(batch[j].file))
    {
      replies := replies + [Reply(callers[i], results[i])];
    }
  }

  /** The arrivals cut at the deadlines that elapse, empty windows dropped. */
  function Windows<F, C>(events: seq<Event<F, C>>): (w: seq<seq<Request<F, C>>>)
    ensures events != [] && events[|events| - 1].Arrive? ==> w != []
  {
    if events == [] then []
    else
      var n := |events| - 1;
      var before := Windows(events[..n]);
      if events[n].Elapse? then before
      else if n > 0 && events[n - 1].Arrive? then
        before[..|before| - 1] + [before[|before| - 1] + [events[n].request]]
      else before + [[events[n].request]]
  }

  /** The windows hold every arrival once, in order. */
  lemma {:induction false} WindowsFlatten<F, C>(events: seq<Event<F, C>>)
    ensures Flatten(Windows(events)) == Arrivals(events)
  {
    if events == [] {
    } else {
      var n := |events| - 1;
      WindowsFlatten(events[..n]);
      var before := Windows(events[..n]);
      if events[n].Arrive? {
        if n > 0 && events[n - 1].Arrive? {
          assert events[..n][n - 1].Arrive?;
          FlattenSnoc(before[..|before| - 1], before[|before| - 1] + [events[n].request]);
        } else {
          FlattenSnoc(before, [events[n].request]);
        }
      }
    }
  }

  /** One more request in the last window. */
  function Extend<R>(windows: seq<seq<R>>, request: R): seq<seq<R>>
    requires windows != []
  {
    windows[..|windows| - 1] + [windows[|windows| - 1] + [request]]
  }

  lemma WindowsOn<F, C>(events: seq<Event<F, C>>, e: Event<F, C>)
    ensures Windows(events + [e]) ==
            if e.Elapse? then Windows(events)
            else if events != [] && events[|events| - 1].Arrive? then Extend(Windows(events), e.request)
            else Windows(events) + [[e.request]]
  {
    assert (events + [e])[..|events|] == events;
  }

  lemma ExtendBack<R>(a: seq<seq<R>>, b: seq<seq<R>>, request: R)
    requires b != []
    ensures Extend(a + b, request) == a + Extend(b, request)
  {
  }

  /** A deadline that elapses closes the window before it. */
  lemma {:induction false} DeadlineCloses<F, C>(a: seq<Event<F, C>>, b: seq<Event<F, C>>)
    ensures Windows((a + [Elapse]) + b) == Windows(a) + Windows(b)
  {
    WindowsOn(a, Elapse);
    if b == [] {
      assert (a + [Elapse]) + b == a + [Elapse];
    } else {
      DeadlineCloses(a, b[..|b| - 1]);
      AfterDeadline(a + [Elapse], b[..|b| - 1], Windows(a), b[|b| - 1]);
      assert b == b[..|b| - 1] + [b[|b| - 1]];
    }
  }

  lemma AfterDeadline<F, C>(closed: seq<Event<F, C>>, events: seq<Event<F, C>>, before: seq<seq<Request<F, C>>>,
      last: Event<F, C>)
    requires closed != [] && closed[|closed| - 1].Elapse? && Windows(closed + events) == before + Windows(events)
    ensures Windows(closed + (events + [last])) == before + Windows(events + [last])
  {
    Regroup(closed, events, [last]);
    LastOf(closed, events);
    MoreEvents(closed + events, events, before, last);
  }

  lemma LastOf<T>(a: seq<T>, b: seq<T>)
    requires a != []
    ensures (a + b)[|a + b| - 1] == if b == [] then a[|a| - 1] else b[|b| - 1]
  {
  }

  /** One more event has the same effect after more of the past, if the last event is the same. */
  lemma MoreEvents<F, C>(longer: seq<Event<F, C>>, events: seq<Event<F, C>>, before: seq<seq<Request<F, C>>>,
      last: Event<F, C>)
    requires Windows(longer) == before + Windows(events) && longer != []
    requires if events == [] then longer[|longer| - 1].Elapse? else longer[|longer| - 1] == events[|events| - 1]
    ensures Windows(longer + [last]) == before + Windows(events + [last])
  {
    WindowsOn(longer, last);
    WindowsOn(events, last);
    if events != [] && events[|events| - 1].Arrive? && last.Arrive? {
      ExtendBack(before, Windows(events), last.request);
    }
  }

  /** Requests with no deadline between them share a window. */
  lemma {:induction false} NoDeadlineNoCut<F, C>(events: seq<Event<F, C>>)
    requires events != [] && forall i :: 0 <= i < |events| ==> events[i].Arrive?
    ensures Windows(events) == [Arrivals(events)]
  {
    var init, last := events[..|events| - 1], events[|events| - 1];
    assert events == init + [last];
    WindowsOn(init, last);
    if init != [] {
      assert forall i :: 0 <= i < |init| ==> init[i] == events[i];
      NoDeadlineNoCut(init);
      assert Extend([Arrivals(init)], last.request) == [Arrivals(init) + [last.request]];
    } else {
      assert Windows(init) == [] && Arrivals(init) == [];
      assert Arrivals(events) == [last.request];
      assert Windows(events) == [[last.request]];
    }
  }

  lemma AnswersConcat<F, C>(r1: seq<Reply<C>>, q1: seq<Request<F, C>>, r2: seq<Reply<C>>, q2: seq<Request<F, C>>,
      sync: F -> SyncResult)
    requires Answers(r1, q1, sync) && Answers(r2, q2, sync)
    ensures Answers(r1 + r2, q1 + q2, sync)
  {
  }

  /** How one event changes the windows: not at all, a new window, or one more request in the last. */
  lemma NextEvent<F, C>(events: seq<Event<F, C>>, i: nat)
    requires i < |events|
    ensures events[i].Elapse? ==> Windows(events[..i + 1]) == Windows(events[..i])
    ensures events[i].Arrive? && (i == 0 || events[i - 1].Elapse?) ==>
              Windows(events[..i + 1]) == Windows(events[..i]) + [[events[i].request]]
  {
    assert events[..i + 1][..i] == events[..i] && events[..i + 1][i] == events[i];
    assert i > 0 ==> events[..i + 1][i - 1] == events[i - 1];
  }

  lemma NextArrival<F, C>(events: seq<Event<F, C>>, i: nat, batches: seq<seq<Request<F, C>>>, batch: seq<Request<F, C>>)
    requires 0 < i < |events| && events[i].Arrive? && events[i - 1].Arrive?
    requires Windows(events[..i]) == batches + [batch]
    ensures Windows(events[..i + 1]) == batches + [batch + [events[i].request]]
  {
    assert events[..i + 1][..i] == events[..i] && events[..i + 1][i] == events[i];
    assert events[..i + 1][i - 1] == events[i - 1];
  }

  lemma FlushedToo<F, C>(replies: seq<Reply<C>>, batches: seq<seq<Request<F, C>>>, answered: seq<Reply<C>>,
      batch: seq<Request<F, C>>, sync: F -> SyncResult)
    requires Answers(replies, Flatten(batches), sync) && Answers(answered, batch, sync)
    ensures Answers(replies + answered, Flatten(batches + [batch]), sync)
  {
    AnswersConcat(replies, Flatten(batches), answered, batch, sync);
    FlattenSnoc(batches, batch);
  }

  lemma AllWindows<F, C>(events: seq<Event<F, C>>)
    ensures Windows(events[..|events|]) == Windows(events) && Flatten(Windows(events)) == Arrivals(events)
  {
    assert events[..|events|] == events;
    WindowsFlatten(events);
  }

  /** Everything that arrives before the deadline of a window joins its batch. */
  method Linger<F, C>(events: seq<Event<F, C>>, first: nat, ghost before: seq<seq<Request<F, C>>>)
    returns (batch: seq<Request<F, C>>, next: nat)
    requires first < |events| && events[first].Arrive?
    requires Windows(events[..first + 1]) == before + [[events[first].request]]
    ensures first < next <= |events| && events[next - 1].Arrive?
    ensures next < |events| ==> events[next].Elapse?
    ensures Windows(events[..next]) == before + [batch]
  {
    batch, next := [events[first].request], first + 1;
    while next < |events| && events[next].Arrive?
      invariant first < next <= |events| && events[next - 1].Arrive?
      invariant Windows(events[..next]) == before + [batch]
    {
      NextArrival(events, next, before, batch);
      batch := batch + [events[next].request];
      next := next + 1;
    }
  }

  /** The first `i` events are dealt with: their windows are flushed and answered. */
  ghost predicate DealtWith<F, C>(events: seq<Event<F, C>>, i: nat, batches: seq<seq<Request<F, C>>>,
      replies: seq<Reply<C>>, sync: F -> SyncResult)
    requires i <= |events|
  {
    batches == Windows(events[..i]) && Answers(replies, Flatten(batches), sync)
  }

  /**
   * In every run, whatever the arrivals and deadlines, the requests are flushed in arrival order,
   * none lost and none repeated, window by window, and each caller gets its own file's result.
   */
  method Run<F, C>(events: seq<Event<F, C>>, sync: F -> SyncResult)
    returns (replies: seq<Reply<C>>, ghost batches: seq<seq<Request<F, C>>>)
    ensures batches == Windows(events) && Flatten(batches) == Arrivals(events)
    ensures Answers(replies, Arrivals(events), sync)
  {
    replies, batches := [], [];
    var i := 0;
    while i < |events|
      invariant i <= |events| && DealtWith(events, i, batches, replies, sync)
      invariant 0 < i < |events| ==> events[i].Elapse? || events[i - 1].Elapse?
    {
      NextEvent(events, i);
      if events[i].Elapse? {
        i := i + 1;
      } else {
        var batch, next := Linger(events, i, batches);
        i := next;
        var answered := Flush(batch, sync);
        FlushedToo(replies, batches, answered, batch, sync);
        replies, batches := replies + answered, batches + [batch];
      }
    }
    AllWindows(events);
  }
}
