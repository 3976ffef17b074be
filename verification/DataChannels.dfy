/**
Data channel handlers. A handler holds a channel of the WebRTC library by its number there, the observer it registered
on it, and the queue of buffers that wait to be sent.
*/
module DataChannels {
  import opened Options
  import opened Lifecycle
  import Q = SendQueue

  type byte = Q.byte
  type Buffer = Q.Buffer

  /** What the WebRTC library keeps: the connections and channels it made, and how many observers it was shown. */
  class Library {
    var pcs: seq<Pc>
    var chans: seq<Channel>
    var observersMade: nat
    ghost var failed: nat
    ghost var abandoned: nat
    ghost var fault: bool

    constructor ()
      ensures pcs == [] && chans == [] && observersMade == 0 && failed == 0 && abandoned == 0 && !fault
    {
      pcs, chans, observersMade := [], [], 0;
      failed, abandoned, fault := 0, 0, false;
    }

    /** The library is asked for the next step of an offer/answer exchange, or one has ended. */
    method Advance(p: nat, stage: Stage)
      requires p < |pcs|
      modifies this`pcs
      ensures pcs == old(pcs)[p := old(pcs)[p].(stage := stage)]
    {
      pcs := pcs[p := pcs[p].(stage := stage)];
    }

    /** A connection is made, which calls back on the given observer. */
    method Make(offer: nat, observer: nat) returns (p: nat)
      modifies this`pcs
      ensures p == |old(pcs)| && pcs == old(pcs) + [Pc(offer, observer, Live, SettingRemote, 0)]
    {
      p := |pcs|;
      pcs := pcs + [Pc(offer, observer, Live, SettingRemote, 0)];
    }

    /** A connection is closed, or goes away with the last reference to it. */
    method Leave(p: nat, status: PcStatus)
      requires p < |pcs|
      modifies this`pcs, this`abandoned
      ensures pcs == old(pcs)[p := Retired(old(pcs)[p], status)]
      ensures abandoned == old(abandoned) + Cut(old(pcs)[p])
    {
      abandoned := abandoned + Cut(pcs[p]);
      pcs := pcs[p := Retired(pcs[p], status)];
    }
  }

  /**
  A buffer is taken only when a channel is bound and is open: then it goes out on that channel, or, asynchronously, to
  the end of the queue, whose first buffer goes out when none is in flight.
  */
  predicate SentIfOpen(bound: Option<(nat, ChannelState)>, q: Q.Queue, b: Buffer, isAsync: bool, q': Q.Queue) {
    if bound.None? || bound.value.1 != Open then q' == q
    else if !isAsync then q' == q.(direct := q.direct + [Q.Handed(bound.value.0, b)])
    else if q.sending then q' == q.(waiting := q.waiting + [b])
    else
      var all := q.waiting + [b];
      q' == q.(sending := true, inFlight := q.inFlight + 1, waiting := all[1..],
               handed := q.handed + [Q.Handed(bound.value.0, all[0])])
  }

  class DataChannelHandler {
    const name: string
    const id: nat
    const library: Library
    var dcInterface: Option<nat>
    var observer: Option<nat>
    var sendQueue: seq<Buffer>
    var isSending: bool
    ghost var closes: nat
    ghost var inFlight: nat
    ghost var handed: seq<Q.Handed>
    ghost var direct: seq<Q.Handed>
    ghost var crashed: bool

    constructor (name: string, id: nat, library: Library)
      ensures this.name == name && this.id == id && this.library == library
      ensures Bound() == Binding(id, None, None, 0)
      ensures Queue() == Q.Empty()
    {
      this.name, this.id, this.library := name, id, library;
      dcInterface, observer, sendQueue, isSending := None, None, [], false;
      closes, inFlight, handed, direct, crashed := 0, 0, [], [], false;
    }

    /** The handler as the lifecycle sees it. */
    ghost function Bound(): Binding
      reads this
    {
      Binding(id, dcInterface, observer, closes)
    }

    /** The handler as its senders see it. */
    ghost function Queue(): Q.Queue
      reads this, library
    {
      Q.Queue(dcInterface, StateNow().Open?, sendQueue, isSending, inFlight, handed, direct, crashed)
    }

    function StateNow(): ChannelState
      reads this, library
    {
      if dcInterface.Some? && dcInterface.value < |library.chans| then library.chans[dcInterface.value].state
      else Unknown
    }

    /** The channel bound now, if the library knows it, and its state. */
    ghost function BoundState(): Option<(nat, ChannelState)>
      reads this, library
    {
      if dcInterface.None? || dcInterface.value >= |library.chans| then None
      else Some((dcInterface.value, library.chans[dcInterface.value].state))
    }

    method GetState() returns (s: ChannelState)
      ensures s == StateNow()
    {
      if dcInterface.None? {
        return Unknown;
      }
      s := StateNow();
    }

    method SetDataChannelInterface(channel: Option<nat>) returns (thrown: bool)
      modifies this`dcInterface
      ensures thrown == channel.None?
      ensures dcInterface == if thrown then old(dcInterface) else channel
      ensures !thrown && !crashed ==> Queue() == Q.Step(old(Queue()), Q.Bind(channel.value, StateNow().Open?))
    {
      if channel.None? {
        return true;
      }
      dcInterface := channel;
      thrown := false;
    }

    method RegisterDataChannelObserver() returns (thrown: bool)
      requires dcInterface.Some? ==> dcInterface.value < |library.chans|
      modifies this`observer, library`chans, library`observersMade
      ensures thrown == dcInterface.None?
      ensures thrown ==> observer == old(observer) && library.chans == old(library.chans)
                         && library.observersMade == old(library.observersMade)
      ensures !thrown ==>
        && observer == Some(old(library.observersMade))
        && library.observersMade == old(library.observersMade) + 1
        && library.chans == old(library.chans)[
             dcInterface.value := old(library.chans[dcInterface.value]).(observer := observer)]
    {
      if dcInterface.None? {
        return true;
      }
      observer := Some(library.observersMade);
      library.observersMade := library.observersMade + 1;
      library.chans := library.chans[dcInterface.value := library.chans[dcInterface.value].(observer := observer)];
      thrown := false;
    }

    /** Gives the channel up; neither the queue nor the flag is touched. */
    method CloseDataChannel()
      modifies this`dcInterface, this`closes
      ensures Bound() == CloseBinding(old(Bound()))
      ensures old(Queue().crashed) || Queue() == Q.Step(old(Queue()), Q.CloseChannel)
    {
      if dcInterface.Some? {
        dcInterface := None;
      }
      closes := closes + 1;
    }

    method ProcessQueue()
      modifies this`isSending, this`sendQueue, this`handed, this`inFlight, this`crashed
      ensures Queue() == Q.Process(old(Queue()))
    {
      if isSending || |sendQueue| == 0 {
        return;
      }
      isSending := true;
      var buffer := sendQueue[0];
      sendQueue := sendQueue[1..];
      if dcInterface.None? {
        crashed := true;
        return;
      }
      handed := handed + [Q.Handed(dcInterface.value, buffer)];
      inFlight := inFlight + 1;
    }

    method SendAsync(buffer: Buffer)
      modifies this`isSending, this`sendQueue, this`handed, this`inFlight, this`crashed
      ensures Queue() == Q.Enqueue(old(Queue()), buffer)
    {
      sendQueue := sendQueue + [buffer];
      ProcessQueue();
    }

    /** The lambda passed to the channel's `SendAsync`. */
    method OnSendComplete(ok: bool)
      requires inFlight > 0
      modifies this`isSending, this`sendQueue, this`handed, this`inFlight, this`crashed
      ensures Queue() == Q.Complete(old(Queue()), ok)
    {
      inFlight := inFlight - 1;
      isSending := false;
      ProcessQueue();
    }

    method Sendable() returns (open: bool)
      ensures open == StateNow().Open?
    {
      var s := GetState();
      open := s == Open;
    }

    method Send(buffer: Buffer, isAsync: bool)
      modifies this`isSending, this`sendQueue, this`handed, this`inFlight, this`crashed, this`direct
      ensures Queue() == Q.SendIfOpen(old(Queue()), buffer, isAsync)
      ensures SentIfOpen(old(BoundState()), old(Queue()), buffer, isAsync, Queue())
    {
      var open := Sendable();
      if !open {
        return;
      }
      if isAsync {
        SendAsync(buffer);
      } else {
        direct := direct + [Q.Handed(dcInterface.value, buffer)];
      }
    }

    method SendString(text: seq<byte>, isAsync: bool)
      modifies this`isSending, this`sendQueue, this`handed, this`inFlight, this`crashed, this`direct
      ensures Queue() == Q.SendIfOpen(old(Queue()), Q.Buffer(text, false), isAsync)
      ensures SentIfOpen(old(BoundState()), old(Queue()), Q.Buffer(text, false), isAsync, Queue())
    {
      var open := Sendable();
      if !open {
        return;
      }
      Send(Q.Buffer(text, false), isAsync);
    }

    method SendStringAsByte(text: seq<byte>, isAsync: bool)
      modifies this`isSending, this`sendQueue, this`handed, this`inFlight, this`crashed, this`direct
      ensures Queue() == Q.SendIfOpen(old(Queue()), Q.Buffer(text, true), isAsync)
      ensures SentIfOpen(old(BoundState()), old(Queue()), Q.Buffer(text, true), isAsync, Queue())
    {
      var open := Sendable();
      if !open {
        return;
      }
      Send(Q.Buffer(text, true), isAsync);
    }
  }
}
