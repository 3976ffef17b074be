/**
The connection check: a receiver that sends every text it gets back through the sender's asynchronous queue.
*/
module Echo {
  import opened SendQueue
  import DataChannels

  /** `DataChannelStringReceivable::ConvertBufferToData`: the bytes of the message, text or binary. */
  function ConvertBufferToData(buffer: Buffer): seq<byte> {
    buffer.data
  }

  /** What `SendString` puts on the channel. */
  function TextBuffer(text: seq<byte>): Buffer {
    Buffer(text, false)
  }

  /** The two ends of the check: messages reach the receiver, everything else happens to the sender's handler. */
  datatype EchoEvent = Message(buffer: Buffer) | AtSender(event: Event)

  function SenderEvent(e: EchoEvent): Event {
    match e
    case Message(b) => Send(TextBuffer(ConvertBufferToData(b)), true)
    case AtSender(event) => event
  }

  function SenderEvents(es: seq<EchoEvent>): (qs: seq<Event>)
    ensures |qs| == |es|
  {
    if es == [] then [] else [SenderEvent(es[0])] + SenderEvents(es[1..])
  }

  /** Nothing but the receiver sends through the sender. */
  predicate OnlyEcho(es: seq<EchoEvent>) {
    forall i :: 0 <= i < |es| && es[i].AtSender? ==> !es[i].event.Send?
  }

  /** The texts received while the sender's channel was open. */
  function HeardWhileOpen(es: seq<EchoEvent>, open: bool): seq<seq<byte>>
    decreases |es|
  {
    if es == [] then []
    else
      var heard := if es[0].Message? && open then [es[0].buffer.data] else [];
      heard + HeardWhileOpen(es[1..], OpenAfter(SenderEvent(es[0]), open))
  }

  function Texts(bs: seq<Buffer>): (ts: seq<seq<byte>>)
    ensures |ts| == |bs| && forall i :: 0 <= i < |bs| ==> ts[i] == bs[i].data
  {
    seq(|bs|, i requires 0 <= i < |bs| => bs[i].data)
  }

  lemma {:induction false} AcceptedIsHeard(es: seq<EchoEvent>, open: bool)
    requires OnlyEcho(es)
    ensures Texts(Accepted(SenderEvents(es), open, true)) == HeardWhileOpen(es, open)
    ensures forall b :: b in Accepted(SenderEvents(es), open, true) ==> !b.binary
    ensures Accepted(SenderEvents(es), open, false) == []
    decreases |es|
  {
    if es != [] {
      var qs := SenderEvents(es);
      assert qs[0] == SenderEvent(es[0]) && qs[1..] == SenderEvents(es[1..]);
      AcceptedIsHeard(es[1..], OpenAfter(qs[0], open));
    }
  }

  /**
  Echo end to end: over every run, the texts handed to channels followed by the waiting ones are the texts received
  while the sender's channel was open, in order; so what was transmitted is a prefix of what was heard, all as text.
  */
  lemma EchoEndToEnd(es: seq<EchoEvent>)
    requires OnlyEcho(es)
    requires Legal(Empty(), SenderEvents(es)) && !Run(Empty(), SenderEvents(es)).crashed
    ensures var q := Run(Empty(), SenderEvents(es));
      && Texts(Buffers(q.handed)) + Texts(q.waiting) == HeardWhileOpen(es, false)
      && Texts(Buffers(q.handed)) <= HeardWhileOpen(es, false)
      && (forall b :: b in Buffers(q.handed) ==> !b.binary)
      && q.direct == []
  {
    var qs := SenderEvents(es);
    var q := Run(Empty(), qs);
    Fifo(qs);
    AcceptedIsHeard(es, false);
    assert Texts(Buffers(q.handed) + q.waiting) == Texts(Buffers(q.handed)) + Texts(q.waiting);
    forall b | b in Buffers(q.handed)
      ensures !b.binary
    {
      assert b in Buffers(q.handed) + q.waiting;
    }
  }

  /** `handler` is the data channel handler a receiver is; `sender` is null until the pair is linked. */
  class ConnectionCheckReceiver {
    const handler: DataChannels.DataChannelHandler
    var sender: DataChannels.DataChannelHandler?

    constructor (handler: DataChannels.DataChannelHandler)
      ensures this.handler == handler && sender == null
    {
      this.handler, sender := handler, null;
    }

    method SetSender(sender: DataChannels.DataChannelHandler)
      modifies this
      ensures this.sender == sender
    {
      this.sender := sender;
    }

    /** `DataChannelReceivable::OnMessage`: convert, then handle. */
    method OnMessage(buffer: Buffer)
      requires sender != null
      modifies sender`isSending, sender`sendQueue, sender`handed, sender`inFlight, sender`crashed, sender`direct
      ensures old(sender.crashed) || sender.Queue() == Step(old(sender.Queue()), SenderEvent(Message(buffer)))
    {
      var data := ConvertBufferToData(buffer);
      HandleData(data);
    }

    method HandleData(data: seq<byte>)
      requires sender != null
      modifies sender`isSending, sender`sendQueue, sender`handed, sender`inFlight, sender`crashed, sender`direct
      ensures sender.Queue() == SendIfOpen(old(sender.Queue()), TextBuffer(data), true)
    {
      sender.SendString(data, true);
    }
  }
}
