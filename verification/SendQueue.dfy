/**
The asynchronous send queue of a data channel handler, as a value.

`SendAsync`, `ProcessQueue` and the completion lambda run under one mutex, so every interleaving of senders and
completions is a sequence of the events below. `handed` is the log of buffers passed to `SendAsync` of a channel.
*/
module SendQueue {
  import opened Options

  type byte = x: int | 0 <= x < 256

  datatype Buffer = Buffer(data: seq<byte>, binary: bool)

  datatype Handed = Handed(channel: nat, buffer: Buffer)

  /** `open` is the state of the bound channel, which only the library changes. */
  datatype Queue = Queue(
    channel: Option<nat>,
    open: bool,
    waiting: seq<Buffer>,
    sending: bool,
    inFlight: nat,
    handed: seq<Handed>,
    direct: seq<Handed>,
    crashed: bool)

  datatype Event =
    | Send(buffer: Buffer, isAsync: bool)
    | Completed(ok: bool)
    | Bind(channel: nat, open: bool)
    | CloseChannel
    | StateChange(open: bool)

  function Empty(): Queue {
    Queue(None, false, [], false, 0, [], [], false)
  }

  /** `ProcessQueue`. Without a channel the call through the null pointer ends the process. */
  function Process(q: Queue): Queue {
    if q.sending || q.waiting == [] then q
    else
      var popped := q.(sending := true, waiting := q.waiting[1..]);
      if q.channel.None? then popped.(crashed := true)
      else popped.(handed := q.handed + [Handed(q.channel.value, q.waiting[0])], inFlight := q.inFlight + 1)
  }

  function Enqueue(q: Queue, b: Buffer): Queue {
    Process(q.(waiting := q.waiting + [b]))
  }

  /** The completion lambda: an error is only logged. */
  function Complete(q: Queue, ok: bool): Queue
    requires q.inFlight > 0
  {
    Process(q.(sending := false, inFlight := q.inFlight - 1))
  }

  /** `DataChannelSendable::Send`: nothing happens unless the channel is open. */
  function SendIfOpen(q: Queue, b: Buffer, isAsync: bool): Queue {
    if q.channel.None? || !q.open then q
    else if isAsync then Enqueue(q, b)
    else q.(direct := q.direct + [Handed(q.channel.value, b)])
  }

  /** Every buffer handed over is completed once, with success or an error; a channel changes state while bound. */
  predicate Enabled(q: Queue, e: Event) {
    && !q.crashed
    && match e
       case Completed(_) => q.inFlight > 0
       case StateChange(_) => q.channel.Some?
       case _ => true
  }

  function Step(q: Queue, e: Event): Queue
    requires Enabled(q, e)
  {
    match e
    case Send(b, isAsync) => SendIfOpen(q, b, isAsync)
    case Completed(ok) => Complete(q, ok)
    case Bind(c, open) => q.(channel := Some(c), open := open)
    case CloseChannel => q.(channel := None, open := false)
    case StateChange(open) => q.(open := open)
  }

  predicate Legal(q: Queue, es: seq<Event>)
    decreases |es|
  {
    es == [] || (Enabled(q, es[0]) && Legal(Step(q, es[0]), es[1..]))
  }

  function Run(q: Queue, es: seq<Event>): Queue
    requires Legal(q, es)
    decreases |es|
  {
    if es == [] then q else Run(Step(q, es[0]), es[1..])
  }

  function Buffers(log: seq<Handed>): (bs: seq<Buffer>)
    ensures |bs| == |log| && forall i :: 0 <= i < |log| ==> bs[i] == log[i].buffer
  {
    seq(|log|, i requires 0 <= i < |log| => log[i].buffer)
  }

  function Backlog(q: Queue): nat {
    |q.waiting| + q.inFlight
  }

  /** At most one buffer is in flight, and nothing waits unless one is. */
  predicate Valid(q: Queue) {
    && q.inFlight == (if q.sending then 1 else 0)
    && (!q.sending ==> q.waiting == [])
    && (q.open ==> q.channel.Some?)
  }

  /** Whether a channel that was open or not is open after an event. */
  function OpenAfter(e: Event, open: bool): bool {
    match e
    case Bind(_, now) => now
    case CloseChannel => false
    case StateChange(now) => now
    case _ => open
  }

  function Sent(e: Event, open: bool, isAsync: bool): seq<Buffer> {
    if e.Send? && open && e.isAsync == isAsync then [e.buffer] else []
  }

  /**
  The buffers a run accepts, asynchronous or synchronous: those sent while the channel was open. Completions, errors
  and the interleaving play no part in it.
  */
  function Accepted(es: seq<Event>, open: bool, isAsync: bool): seq<Buffer>
    decreases |es|
  {
    if es == [] then [] else Sent(es[0], open, isAsync) + Accepted(es[1..], OpenAfter(es[0], open), isAsync)
  }

  /** The channel bound after an event. */
  function ChannelAfter(e: Event, channel: Option<nat>): Option<nat> {
    match e
    case Bind(c, _) => Some(c)
    case CloseChannel => None
    case _ => channel
  }

  /** The buffers sent synchronously while the channel was open, each with the channel bound at that moment. */
  function SentDirectly(es: seq<Event>, open: bool, channel: Option<nat>): seq<Handed>
    decreases |es|
  {
    if es == [] then []
    else
      var sent := es[0].Send? && !es[0].isAsync && open && channel.Some?;
      (if sent then [Handed(channel.value, es[0].buffer)] else [])
      + SentDirectly(es[1..], OpenAfter(es[0], open), ChannelAfter(es[0], channel))
  }

  lemma BuffersAppend(log: seq<Handed>, h: Handed)
    ensures Buffers(log + [h]) == Buffers(log) + [h.buffer]
  {
  }

  /** One event hands one buffer over at most, and sends one directly at most, always on the channel bound now. */
  predicate StepsOnChannel(q: Queue, e: Event, q': Queue) {
    && q'.channel == ChannelAfter(e, q.channel)
    && q'.direct == q.direct + SentDirectly([e], q.open, q.channel)
    && q.handed <= q'.handed && |q'.handed| <= |q.handed| + 1
    && (|q'.handed| > |q.handed| ==> Some(q'.handed[|q.handed|].channel) == q.channel)
  }

  /** What one event does to the log followed by the queue, when the process survives it. */
  lemma StepInOrder(q: Queue, e: Event)
    requires Valid(q) && Enabled(q, e)
    ensures var q' := Step(q, e);
      && (q'.crashed <==> e.Completed? && q.channel.None? && q.waiting != [])
      && (!q'.crashed ==>
            && Valid(q') && q'.open == OpenAfter(e, q.open)
            && Buffers(q'.handed) + q'.waiting == Buffers(q.handed) + q.waiting + Sent(e, q.open, true)
            && Buffers(q'.direct) == Buffers(q.direct) + Sent(e, q.open, false))
  {
    if e.Completed? && q.channel.Some? && q.waiting != [] {
      BuffersAppend(q.handed, Handed(q.channel.value, q.waiting[0]));
      assert q.waiting == [q.waiting[0]] + q.waiting[1..];
    } else if e.Send? && q.channel.Some? && q.open {
      BuffersAppend(q.handed, Handed(q.channel.value, e.buffer));
      BuffersAppend(q.direct, Handed(q.channel.value, e.buffer));
      assert (q.waiting + [e.buffer])[1..] == if q.waiting == [] then [] else q.waiting[1..] + [e.buffer];
    }
  }

  /**
  The queue refines a FIFO: over every interleaving of sends and completions, what was handed to channels followed by
  what still waits is what the queue held at the start followed by the accepted buffers; synchronous sends go past it.
  */
  lemma {:induction false} FifoFrom(q: Queue, es: seq<Event>)
    requires Valid(q) && Legal(q, es) && !Run(q, es).crashed
    ensures var q' := Run(q, es);
      && Valid(q')
      && Buffers(q'.handed) + q'.waiting == Buffers(q.handed) + q.waiting + Accepted(es, q.open, true)
      && Buffers(q'.direct) == Buffers(q.direct) + Accepted(es, q.open, false)
    decreases |es|
  {
    if es != [] {
      var e := es[0];
      var next := Step(q, e);
      StepInOrder(q, e);
      assert !next.crashed;
      FifoFrom(next, es[1..]);
    }
  }

  lemma StepOnChannel(q: Queue, e: Event)
    requires Valid(q) && Enabled(q, e)
    ensures StepsOnChannel(q, e, Step(q, e))
  {
    assert [e][1..] == [];
  }

  /** Synchronous sends go out on the channel bound when they are made, in order. */
  lemma {:induction false} DirectSends(q: Queue, es: seq<Event>)
    requires Valid(q) && Legal(q, es) && !Run(q, es).crashed
    ensures Run(q, es).direct == q.direct + SentDirectly(es, q.open, q.channel)
    decreases |es|
  {
    if es != [] {
      var e := es[0];
      var next := Step(q, e);
      StepInOrder(q, e);
      StepOnChannel(q, e);
      assert !next.crashed;
      DirectSends(next, es[1..]);
      assert SentDirectly(es, q.open, q.channel)
          == SentDirectly([e], q.open, q.channel) + SentDirectly(es[1..], next.open, next.channel) by {
        assert [e][1..] == [];
      }
    }
  }

  lemma Fifo(es: seq<Event>)
    requires Legal(Empty(), es) && !Run(Empty(), es).crashed
    ensures var q := Run(Empty(), es);
      && Buffers(q.handed) + q.waiting == Accepted(es, false, true)
      && Buffers(q.direct) == Accepted(es, false, false)
      && q.direct == SentDirectly(es, false, None)
      && q.inFlight <= 1 && (!q.sending ==> q.waiting == [])
  {
    FifoFrom(Empty(), es);
    DirectSends(Empty(), es);
    assert Buffers([]) == [];
  }

  /** The completions of a run, with any mix of errors. */
  function Completions(oks: seq<bool>): (es: seq<Event>)
    ensures |es| == |oks|
  {
    if oks == [] then [] else [Completed(oks[0])] + Completions(oks[1..])
  }

  /**
  The queue drains: with a channel bound and no new send, k completions bring the backlog down by exactly k whatever
  their results, keeping the order; after as many as there were outstanding the queue is idle.
  */
  lemma {:induction false} Drains(q: Queue, oks: seq<bool>)
    requires Valid(q) && !q.crashed && q.channel.Some? && |oks| <= Backlog(q)
    ensures Legal(q, Completions(oks))
    ensures var q' := Run(q, Completions(oks));
      && !q'.crashed && Valid(q') && q'.channel == q.channel
      && Backlog(q') == Backlog(q) - |oks|
      && Buffers(q'.handed) + q'.waiting == Buffers(q.handed) + q.waiting
      && (|oks| == Backlog(q) <==> !q'.sending && q'.waiting == [])
    decreases |oks|
  {
    if oks != [] {
      var e := Completed(oks[0]);
      assert Completions(oks)[1..] == Completions(oks[1..]);
      StepInOrder(q, e);
      Drains(Step(q, e), oks[1..]);
    }
  }

  /** When every close finds nothing waiting, nothing ever goes through a null channel. */
  predicate CleanCloses(q: Queue, es: seq<Event>)
    requires Legal(q, es)
    decreases |es|
  {
    es == [] || ((es[0].CloseChannel? ==> q.waiting == []) && CleanCloses(Step(q, es[0]), es[1..]))
  }

  lemma {:induction false} CleanClosesNeverCrash(q: Queue, es: seq<Event>)
    requires Valid(q) && !q.crashed && (q.channel.None? ==> q.waiting == [])
    requires Legal(q, es) && CleanCloses(q, es)
    ensures !Run(q, es).crashed
    decreases |es|
  {
    if es != [] {
      StepInOrder(q, es[0]);
      CleanClosesNeverCrash(Step(q, es[0]), es[1..]);
    }
  }

  /** And that is needed: a close followed by the completion of what was in flight crashes exactly on a backlog. */
  lemma CloseThenCompletion(q: Queue, ok: bool)
    requires Valid(q) && !q.crashed && q.inFlight > 0
    ensures Legal(q, [CloseChannel, Completed(ok)])
    ensures Run(q, [CloseChannel, Completed(ok)]).crashed <==> q.waiting != []
  {
    var es := [CloseChannel, Completed(ok)];
    var closed := Step(q, CloseChannel);
    assert es[1..] == [Completed(ok)] && es[1..][1..] == [];
    assert Legal(closed, es[1..]);
    assert Run(q, es) == Run(closed, es[1..]);
    StepInOrder(closed, Completed(ok));
  }

  function OnChannel(channel: nat, bs: seq<Buffer>): (log: seq<Handed>)
    ensures |log| == |bs| && forall i :: 0 <= i < |bs| ==> log[i] == Handed(channel, bs[i])
  {
    seq(|bs|, i requires 0 <= i < |bs| => Handed(channel, bs[i]))
  }

  /** From `q` to `q'` the first `n` waiting buffers went out on the channel, in order. */
  predicate HandedOver(q: Queue, channel: nat, n: nat, q': Queue) {
    && n <= |q.waiting|
    && q'.handed == q.handed + OnChannel(channel, q.waiting[..n])
    && q'.waiting == q.waiting[n..]
  }

  /** One completion hands the next waiting buffer to the channel bound now. */
  lemma CompletionHandsOver(q: Queue, ok: bool)
    requires Valid(q) && !q.crashed && q.channel.Some? && q.waiting != []
    ensures Enabled(q, Completed(ok))
    ensures Step(q, Completed(ok))
         == q.(waiting := q.waiting[1..], handed := q.handed + [Handed(q.channel.value, q.waiting[0])])
  {
  }

  lemma HandedOverOneMore(q: Queue, ok: bool, n: nat, q': Queue)
    requires Valid(q) && !q.crashed && q.channel.Some? && q.waiting != [] && Enabled(q, Completed(ok))
    requires HandedOver(Step(q, Completed(ok)), q.channel.value, n, q')
    ensures HandedOver(q, q.channel.value, n + 1, q')
  {
    CompletionHandsOver(q, ok);
    var channel, rest := q.channel.value, q.waiting[1..];
    assert OnChannel(channel, q.waiting[..n + 1]) == [Handed(channel, q.waiting[0])] + OnChannel(channel, rest[..n]);
    assert rest[n..] == q.waiting[n + 1..];
  }

  /** So do any number of them, whatever their results. */
  lemma {:induction false} CompletionsHandOver(q: Queue, oks: seq<bool>)
    requires Valid(q) && !q.crashed && q.channel.Some? && q.sending && |oks| <= |q.waiting|
    ensures Legal(q, Completions(oks))
    ensures HandedOver(q, q.channel.value, |oks|, Run(q, Completions(oks)))
    decreases |oks|
  {
    if oks != [] {
      assert Completions(oks)[1..] == Completions(oks[1..]);
      CompletionHandsOver(q, oks[0]);
      CompletionsHandOver(Step(q, Completed(oks[0])), oks[1..]);
      HandedOverOneMore(q, oks[0], |oks| - 1, Run(q, Completions(oks)));
    }
  }

  lemma RunTwo(q: Queue, first: Event, second: Event, more: seq<Event>)
    requires Enabled(q, first) && Enabled(Step(q, first), second)
    requires Legal(Step(Step(q, first), second), more)
    ensures Legal(q, [first, second] + more)
    ensures Run(q, [first, second] + more) == Run(Step(Step(q, first), second), more)
  {
    var es := [first, second] + more;
    assert es[1..] == [second] + more && es[1..][1..] == more;
    assert Legal(Step(q, first), es[1..]);
  }

  /**
  A backlog left by a closed channel goes out on the next channel that is bound: k completions hand it the first k
  waiting buffers, in order, whatever became of the one in flight, and the rest still waits.
  */
  lemma BacklogMovesToNextChannel(q: Queue, next: nat, open: bool, oks: seq<bool>)
    requires Valid(q) && !q.crashed && q.waiting != [] && |oks| <= |q.waiting|
    ensures var es := [CloseChannel, Bind(next, open)] + Completions(oks);
      Legal(q, es) && HandedOver(q, next, |oks|, Run(q, es))
  {
    CompletionsHandOver(Step(Step(q, CloseChannel), Bind(next, open)), oks);
    RunTwo(q, CloseChannel, Bind(next, open), Completions(oks));
  }
}
