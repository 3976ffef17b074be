/** What the signaling client keeps over every run of connections, losses, errors, messages and status changes. */
module SignalingTheorems {
  import opened Options
  import opened ConnectorStates
  import opened Signaling

  /** The code in the last status frame sent on one connection. */
  function LastStatus(wire: seq<Sent>, connection: nat): Option<int>
    decreases |wire|
  {
    if wire == [] then None
    else
      var last := wire[|wire| - 1];
      if last.connection == connection && last.frame.Status? then Some(last.frame.code)
      else LastStatus(wire[..|wire| - 1], connection)
  }

  lemma LastStatusAfter(wire: seq<Sent>, s: Sent, connection: nat)
    ensures LastStatus(wire + [s], connection)
         == if s.connection == connection && s.frame.Status? then Some(s.frame.code) else LastStatus(wire, connection)
  {
    assert (wire + [s])[..|wire|] == wire;
  }

  /** One event's effect on the last status of the connection it leaves current. */
  lemma LastStatusSteps(w: World, e: Event)
    requires WireGood(w.link.wire, |w.link.sockets|)
    ensures var after := Step(w, e).link;
      LastStatus(after.wire, |after.sockets|)
        == if Emitted(w, e).Some? && Emitted(w, e).value.Status? then Some(Emitted(w, e).value.code)
           else if Connects(e) then None
           else LastStatus(w.link.wire, |w.link.sockets|)
  {
    StepEmits(w, e);
    StepConnects(w, e);
    NothingSentYet(w.link.wire, |w.link.sockets| + 1);
    if Emitted(w, e).Some? {
      var n := |Step(w, e).link.sockets|;
      LastStatusAfter(w.link.wire, Sent(n, Emitted(w, e).value), n);
    } else {
      assert Step(w, e).link.wire == w.link.wire;
    }
  }

  lemma {:induction false} NothingSentYet(wire: seq<Sent>, connection: nat)
    requires forall i :: 0 <= i < |wire| ==> wire[i].connection < connection
    ensures LastStatus(wire, connection) == None
    decreases |wire|
  {
    if wire != [] {
      NothingSentYet(wire[..|wire| - 1], connection);
    }
  }

  predicate SocketsGood(sockets: seq<Socket>, reconnects: nat) {
    && (forall s :: 0 <= s < |sockets| - 1 ==> sockets[s].reported)
    && (reconnects == if sockets != [] && sockets[|sockets| - 1].reported then 1 else 0)
  }

  predicate FlagsGood(l: Link) {
    && (l.connected <==> Listening(l) && l.sockets[|l.sockets| - 1].state.Up?)
    && (l.isConnected ==> l.connected)
  }

  predicate WireGood(wire: seq<Sent>, sockets: nat) {
    forall i :: 0 <= i < |wire| ==> wire[i].connection <= sockets
  }

  predicate StatusGood(l: Link, state: State) {
    && (l.latestState == NO_STATE || l.latestState == StateToInt(state))
    && (l.latestState == NO_STATE ==> LastStatus(l.wire, |l.sockets|) == None)
    && (l.isConnected ==> LastStatus(l.wire, |l.sockets|) in {None, Some(StateToInt(state))})
  }

  predicate Good(w: World) {
    && SocketsGood(w.link.sockets, w.link.reconnects)
    && WireGood(w.link.wire, |w.link.sockets|)
    && (!w.escaped ==> FlagsGood(w.link) && StatusGood(w.link, w.state))
  }

  /** Sockets, flags and wire are consistent; an exception that escapes ends what is said about the flags. */
  predicate LinkGood(l: Link, escaped: bool) {
    && SocketsGood(l.sockets, l.reconnects) && WireGood(l.wire, |l.sockets|)
    && (!escaped ==> FlagsGood(l))
  }

  lemma ReceiveKeepsFlags(l: Link, reaction: Reaction, fine: bool)
    requires LinkGood(l, false)
    ensures LinkGood(Receive(l, reaction, fine), false)
  {
  }

  lemma StepKeepsFlags(w: World, e: Event)
    requires Good(w) && Enabled(w, e)
    ensures LinkGood(Step(w, e).link, Step(w, e).escaped)
  {
    if e.Receives? {
      ReceiveKeepsFlags(w.link, ReactTo(e.incoming), e.fine);
    } else {
      StepEmits(w, e);
      StepConnects(w, e);
    }
  }

  lemma StepKeepsStatus(w: World, e: Event)
    requires Good(w) && Enabled(w, e) && !Step(w, e).escaped
    ensures StatusGood(Step(w, e).link, Step(w, e).state)
  {
    LastStatusSteps(w, e);
    StepConnects(w, e);
  }

  lemma StepKeepsGood(w: World, e: Event)
    requires Good(w) && Enabled(w, e)
    ensures Good(Step(w, e))
  {
    StepKeepsFlags(w, e);
    if !Step(w, e).escaped {
      StepKeepsStatus(w, e);
    }
  }

  lemma {:induction false} RunKeepsGood(es: seq<Event>)
    requires Legal(es)
    ensures Good(Run(es))
    decreases |es|
  {
    if es != [] {
      RunKeepsGood(es[..|es| - 1]);
      StepKeepsGood(Run(es[..|es| - 1]), es[|es| - 1]);
    }
  }

  /** The last event that could send a status on the current connection is a replay that failed. */
  predicate ReplayLost(es: seq<Event>)
    decreases |es|
  {
    es != []
    && match es[|es| - 1]
       case Starts(_, replayed) => !replayed
       case Reconnects(_, replayed) => !replayed
       case StateSet(_, _, _) => false
       case Broadcast(_) => false
       case _ => ReplayLost(es[..|es| - 1])
  }

  lemma {:induction false} StatusMissing(es: seq<Event>)
    requires Legal(es) && !Run(es).escaped && Run(es).link.isConnected && Run(es).link.latestState != NO_STATE
    ensures LastStatus(Run(es).link.wire, |Run(es).link.sockets|) == None <==> ReplayLost(es)
    decreases |es|
  {
    var before, e := Run(es[..|es| - 1]), es[|es| - 1];
    RunKeepsGood(es[..|es| - 1]);
    LastStatusSteps(before, e);
    if !Connects(e) && !e.StateSet? && !e.Broadcast? {
      StatusMissing(es[..|es| - 1]);
    }
  }

  /**
  Status agreement. What is recorded is always the manager's state. While the client takes itself for connected, its
  socket is up, and the last status frame of this connection encodes the manager's state: always, unless the replay made
  when the connection came up was lost and nothing was sent since, and then there is no status frame on it at all.
  */
  lemma StatusAgreement(es: seq<Event>)
    requires Legal(es) && !Run(es).escaped
    ensures var l, state := Run(es).link, Run(es).state;
      && l.latestState in {NO_STATE, StateToInt(state)}
      && (l.isConnected ==> l.connected)
      && (l.connected <==> Listening(l) && l.sockets[|l.sockets| - 1].state.Up?)
      && (l.isConnected && l.latestState != NO_STATE ==>
            LastStatus(l.wire, |l.sockets|) == if ReplayLost(es) then None else Some(StateToInt(state)))
  {
    RunKeepsGood(es);
    if Run(es).link.isConnected && Run(es).link.latestState != NO_STATE {
      StatusMissing(es);
    }
  }

  /**
  At most one connection is ever in use and at most one reconnection waits: a socket replaced has reported its end.
  */
  lemma OneConnection(es: seq<Event>)
    requires Legal(es)
    ensures Run(es).link.reconnects <= 1
    ensures forall s :: 0 <= s < |Run(es).link.sockets| && !Run(es).link.sockets[s].reported ==>
      s == |Run(es).link.sockets| - 1 && Run(es).link.reconnects == 0
  {
    RunKeepsGood(es);
  }

  lemma RunThen(es: seq<Event>, e: Event)
    ensures Run(es + [e]) == Step(Run(es), e)
    ensures Legal(es + [e]) <==> Legal(es) && Enabled(Run(es), e)
  {
    assert (es + [e])[..|es|] == es;
  }

  /** A client that was stopped connects again once the library reports its last socket closed. */
  lemma StopDoesNotLast(es: seq<Event>, last: nat)
    requires Legal(es) && !Run(es).escaped && Run(es).link.isConnected
    requires last + 1 == |Run(es).link.sockets|
    ensures var stopped := es + [Stops(Completes)];
      var again := stopped + [SocketCloses(last)] + [Reconnects(true, true)];
      Legal(again) && !Run(stopped).link.connected && Run(again).link.isConnected
  {
    RunKeepsGood(es);
    var stopped := es + [Stops(Completes)];
    RunThen(es, Stops(Completes));
    RunThen(stopped, SocketCloses(last));
    RunThen(stopped + [SocketCloses(last)], Reconnects(true, true));
  }

  // What a reader of the messages expects.

  /** A message of that type. */
  predicate OfType(i: Incoming, kind: string) {
    i.TextMessage? && i.message.Message? && i.message.kind == Reads(kind)
  }

  /** The id that a prepare_connection message sets; a missing one counts as empty. */
  function PreparedId(i: Incoming): Option<string> {
    if !OfType(i, "signaling.prepare_connection") then None
    else
      match i.message.data
      case NoData => Some("")
      case OtherData(_) => None
      case Members(Missing, _, _) => Some("")
      case Members(Unreadable, _, _) => None
      case Members(Reads(id), _, _) => Some(id)
  }

  /** The call that a message asks for. */
  function Wanted(i: Incoming): Option<Command> {
    if OfType(i, "signaling.send_sdp_offer") then
      if i.message.data.Members? && i.message.data.offer.Parsed? then Some(OfferArrived(i.message.data.offer.text))
      else None
    else if OfType(i, "signaling.exchange_ice_candidate") then
      if i.message.data.Members? && i.message.data.candidate.Parsed?
      then Some(CandidateArrived(i.message.data.candidate.text)) else None
    else if OfType(i, "signaling.close_peer_connection") then Some(CloseArrived)
    else if OfType(i, "authorize.req") then Some(AuthRequested)
    else if OfType(i, "authorize.res") then
      if i.message.data == OtherData(Some(100)) then Some(AuthCompleted) else None
    else if i.TextMessage? && i.message.Message? && i.message.kind.Reads? && "authorize" <= i.message.kind.text
    then Some(AuthArrived)
    else None
  }

  /** What cannot be handled: not an object, a type that is no text, or a member that is needed and cannot be read. */
  predicate Unhandled(i: Incoming) {
    && i.TextMessage?
    && (|| i.message.NotAnObject?
        || (i.message.Message? && i.message.kind.Unreadable?)
        || (OfType(i, "signaling.send_sdp_offer") && !i.message.data.NoData?
            && (i.message.data.OtherData? || i.message.data.offer.UnreadablePart?))
        || (OfType(i, "signaling.exchange_ice_candidate") && !i.message.data.NoData?
            && (i.message.data.OtherData? || i.message.data.candidate.UnreadablePart?))
        || (OfType(i, "signaling.prepare_connection") && !i.message.data.NoData?
            && (i.message.data.OtherData? || i.message.data.connectionId.Unreadable?))
        || (OfType(i, "authorize.res") && !i.message.data.NoData?
            && (i.message.data.Members? || i.message.data.number.None?)))
  }

  /** What comes in calls for something that may fail: a call, or an answer. */
  predicate CallsFor(i: Incoming) {
    i.TransportPing? || i.TransportClose? || OfType(i, "ping.ping") || Wanted(i).Some?
  }

  /** No type is another one or begins an authorization. */
  lemma TypesDiffer()
    ensures "authorize" <= "authorize.req" && "authorize" <= "authorize.res" && !("authorize" <= "ping.ping")
    ensures !("authorize" <= "signaling.send_sdp_offer") && !("authorize" <= "signaling.prepare_connection")
    ensures !("authorize" <= "signaling.exchange_ice_candidate") && !("authorize" <= "signaling.close_peer_connection")
    ensures "signaling.send_sdp_offer" != "signaling.prepare_connection"
    ensures "signaling.send_sdp_offer" != "signaling.exchange_ice_candidate"
    ensures "signaling.send_sdp_offer" != "signaling.close_peer_connection"
    ensures "signaling.prepare_connection" != "signaling.exchange_ice_candidate"
    ensures "signaling.prepare_connection" != "signaling.close_peer_connection"
    ensures "signaling.exchange_ice_candidate" != "signaling.close_peer_connection"
    ensures "authorize.req" != "authorize.res"
    ensures "ping.ping" !in {"signaling.send_sdp_offer", "signaling.prepare_connection"}
    ensures "ping.ping" !in {"signaling.exchange_ice_candidate", "signaling.close_peer_connection"}
  {
    assert "authorize"[0] == 'a' && "ping.ping"[0] == 'p';
    assert "signaling.send_sdp_offer"[10] == 's' && "signaling.send_sdp_offer"[11] == 'e';
    assert "signaling.prepare_connection"[10] == 'p' && "signaling.exchange_ice_candidate"[10] == 'e';
    assert "signaling.close_peer_connection"[10] == 'c';
    assert "signaling.send_sdp_offer"[0] == "signaling.prepare_connection"[0] == 's';
    assert "signaling.exchange_ice_candidate"[0] == "signaling.close_peer_connection"[0] == 's';
    assert "authorize.req"[10] == 'r' && "authorize.req"[12] == 'q' && "authorize.res"[12] == 's';
  }

  lemma HandsExactly(i: Incoming)
    ensures ReactTo(i).Hand? <==> Wanted(i).Some?
    ensures ReactTo(i).Hand? ==> Wanted(i) == Some(ReactTo(i).command)
  {
    TypesDiffer();
    if i.TextMessage? && i.message.Message? && i.message.kind.Reads? {
      var kind, d := i.message.kind.text, i.message.data;
      if kind == "signaling.send_sdp_offer" {
        assert ReactTo(i) == OnOffer(d);
      } else if kind == "signaling.exchange_ice_candidate" {
        assert ReactTo(i) == OnCandidate(d);
      } else if "authorize" <= kind {
        assert ReactTo(i) == OnAuthorization(kind, d);
      }
    }
  }

  lemma PreparesExactly(i: Incoming)
    ensures ReactTo(i).Prepare? <==> PreparedId(i).Some?
    ensures ReactTo(i).Prepare? ==> PreparedId(i) == Some(ReactTo(i).id)
    ensures ReactTo(i).Reply? <==> OfType(i, "ping.ping")
  {
    TypesDiffer();
  }

  lemma ThrowsExactly(i: Incoming)
    ensures ReactTo(i).Throw? <==> Unhandled(i)
  {
    TypesDiffer();
    if i.TextMessage? && i.message.Message? && i.message.kind.Reads? {
      var kind, d := i.message.kind.text, i.message.data;
      if kind == "signaling.send_sdp_offer" {
        assert ReactTo(i) == OnOffer(d);
      } else if kind == "signaling.exchange_ice_candidate" {
        assert ReactTo(i) == OnCandidate(d);
      } else if kind == "signaling.prepare_connection" {
        assert ReactTo(i) == OnPrepare(d);
      } else if "authorize" <= kind {
        assert ReactTo(i) == OnAuthorization(kind, d);
      }
    }
  }

  /**
  The reaction to what comes in is the one its type and its members ask for: nothing else is handed over, prepared,
  answered, or thrown, and everything else is ignored.
  */
  lemma ReactionsExactly(i: Incoming)
    ensures if Wanted(i).Some? then ReactTo(i) == Hand(Wanted(i).value) else !ReactTo(i).Hand?
    ensures if PreparedId(i).Some? then ReactTo(i) == Prepare(PreparedId(i).value) else !ReactTo(i).Prepare?
    ensures ReactTo(i) == Reply <==> OfType(i, "ping.ping")
    ensures ReactTo(i) == Throw <==> Unhandled(i)
    ensures ReactTo(i) == Control <==> i.TransportPing? || i.TransportClose?
  {
    HandsExactly(i);
    PreparesExactly(i);
    ThrowsExactly(i);
  }

  /** The event ends in `onError`. */
  predicate Raises(e: Event) {
    match e
    case ErrorReported => true
    case Receives(incoming, fine) => Unhandled(incoming) || (CallsFor(incoming) && !fine)
    case StateSet(_, inMessage, sends) => inMessage && !sends
    case _ => false
  }

  /** `onError` was called since the last attempt to connect. */
  predicate ErrorSince(es: seq<Event>)
    decreases |es|
  {
    es != [] && !Connects(es[|es| - 1]) && (Raises(es[|es| - 1]) || ErrorSince(es[..|es| - 1]))
  }

  lemma ReceiveFlags(l: Link, r: Reaction, fine: bool)
    ensures Receive(l, r, fine).isConnected <==>
      && l.isConnected && !r.Throw? && (fine || !(r.Hand? || r.Control? || (r.Reply? && l.connected)))
  {
  }

  lemma StepFlags(w: World, e: Event)
    requires Good(w) && Enabled(w, e) && !Step(w, e).escaped && Step(w, e).link.connected
    ensures Connects(e) ==> Step(w, e).link.isConnected
    ensures !Connects(e) ==> w.link.connected && (Step(w, e).link.isConnected <==> w.link.isConnected && !Raises(e))
  {
    if e.Receives? {
      ReactionsExactly(e.incoming);
      ReceiveFlags(w.link, ReactTo(e.incoming), e.fine);
    }
  }

  /** The two connection flags differ exactly after an error on a connection that is still up. */
  lemma {:induction false} FlagsDiffer(es: seq<Event>)
    requires Legal(es) && !Run(es).escaped && Run(es).link.connected
    ensures Run(es).link.isConnected <==> !ErrorSince(es)
    decreases |es|
  {
    RunKeepsGood(es[..|es| - 1]);
    StepFlags(Run(es[..|es| - 1]), es[|es| - 1]);
    if !Connects(es[|es| - 1]) {
      FlagsDiffer(es[..|es| - 1]);
    }
  }

  /**
  `Stop` takes the socket down exactly when no error had cleared the client's flag. It throws exactly when there is
  something to close and that fails, and otherwise the client takes itself for disconnected.
  */
  lemma StopCloses(es: seq<Event>, closing: Closing)
    requires Legal(es) && !Run(es).escaped
    ensures Stop(Run(es).link, closing).link.connected <==> Run(es).link.connected && ErrorSince(es)
    ensures Stop(Run(es).link, closing).threw <==> Run(es).link.isConnected && closing.Throws?
    ensures !Stop(Run(es).link, closing).threw ==> !Stop(Run(es).link, closing).link.isConnected
  {
    RunKeepsGood(es);
    if Run(es).link.connected {
      FlagsDiffer(es);
    }
  }

  /** The id in the latest prepare_connection message whose id could be read. */
  function Prepared(es: seq<Event>): string
    decreases |es|
  {
    if es == [] then ""
    else
      var e := es[|es| - 1];
      if e.Receives? && PreparedId(e.incoming).Some? then PreparedId(e.incoming).value else Prepared(es[..|es| - 1])
  }

  lemma {:induction false} IdIsPrepared(es: seq<Event>)
    ensures Run(es).link.connectionId == Prepared(es)
    decreases |es|
  {
    if es != [] {
      var e := es[|es| - 1];
      IdIsPrepared(es[..|es| - 1]);
      StepPrepares(Run(es[..|es| - 1]), e);
      if e.Receives? {
        ReactionsExactly(e.incoming);
      }
    }
  }

  /** The calls that the messages received so far ask for. */
  function Commands(es: seq<Event>): seq<Command>
    decreases |es|
  {
    if es == [] then []
    else
      var e := es[|es| - 1];
      Commands(es[..|es| - 1]) +
      if e.Receives? && Wanted(e.incoming).Some? then [Wanted(e.incoming).value] else []
  }

  /** Every call that a message asks for is made once, in the order of the messages, and no other. */
  lemma {:induction false} CommandsInOrder(es: seq<Event>)
    ensures Run(es).link.handed == Commands(es)
    decreases |es|
  {
    if es != [] {
      var e := es[|es| - 1];
      CommandsInOrder(es[..|es| - 1]);
      StepHands(Run(es[..|es| - 1]), e);
      if e.Receives? {
        ReactionsExactly(e.incoming);
      }
    }
  }

  /**
  An announcement ends in an exception exactly when the client takes itself for connected and the send fails. While a
  message is handled that is caught: the state is set, the client is mute from then on, and its socket stays up.
  */
  lemma FailedAnnouncement(es: seq<Event>, s: State, sends: bool)
    requires Legal(es) && !Run(es).escaped
    ensures Record(Run(es).link, StateToInt(s), sends).threw <==> Run(es).link.isConnected && !sends
    ensures var after := Run(es + [StateSet(s, true, false)]);
      Run(es).link.isConnected ==>
        && Legal(es + [StateSet(s, true, false)]) && !after.escaped && after.state == s
        && !after.link.isConnected && after.link.connected
  {
    RunKeepsGood(es);
    RunThen(es, StateSet(s, true, false));
  }

  predicate HasId(f: Frame) {
    f.Answer? || f.Candidate?
  }

  /**
  A frame that carries an id leaves by an answer or a candidate, under the id prepared last, and never without one.
  */
  lemma SentUnderPrepared(es: seq<Event>)
    requires es != []
    ensures var before, after := Run(es[..|es| - 1]).link, Run(es).link;
      && before.wire <= after.wire && |after.wire| <= |before.wire| + 1
      && (|after.wire| > |before.wire| && HasId(after.wire[|before.wire|].frame) ==>
            && (es[|es| - 1].AnswerReady? || es[|es| - 1].CandidateFound?)
            && before.isConnected
            && after.wire[|before.wire|].frame.id == Prepared(es[..|es| - 1]) != "")
  {
    IdIsPrepared(es[..|es| - 1]);
    StepEmits(Run(es[..|es| - 1]), es[|es| - 1]);
  }

  /** Frame `i` left at event `k`, which was an answer or a candidate, under the id prepared before it. */
  predicate SentAt(es: seq<Event>, i: nat, k: nat) {
    && k < |es| && (es[k].AnswerReady? || es[k].CandidateFound?)
    && |Run(es[..k]).link.wire| == i && |Run(es[..k + 1]).link.wire| == i + 1
    && i < |Run(es).link.wire| && HasId(Run(es).link.wire[i].frame)
    && Run(es).link.wire[i].frame.id == Prepared(es[..k]) != ""
  }

  lemma SentEarlier(es: seq<Event>, i: nat, k: nat)
    requires es != [] && SentAt(es[..|es| - 1], i, k)
    ensures SentAt(es, i, k)
  {
    assert es[..|es| - 1][..k] == es[..k] && es[..|es| - 1][..k + 1] == es[..k + 1];
    SentUnderPrepared(es);
  }

  /**
  Correlation: every answer and candidate ever sent left at an event of its own, and carries the id of the latest
  prepare_connection handled before that event.
  */
  lemma {:induction false} Correlation(es: seq<Event>)
    ensures forall i: nat :: i < |Run(es).link.wire| && HasId(Run(es).link.wire[i].frame) ==>
      exists k: nat :: SentAt(es, i, k)
    decreases |es|
  {
    if es != [] {
      var init := es[..|es| - 1];
      Correlation(init);
      SentUnderPrepared(es);
      forall i: nat | i < |Run(es).link.wire| && HasId(Run(es).link.wire[i].frame)
        ensures exists k: nat :: SentAt(es, i, k)
      {
        if i < |Run(init).link.wire| {
          var k: nat :| SentAt(init, i, k);
          SentEarlier(es, i, k);
        } else {
          assert es[..|es| - 1 + 1] == es;
          assert SentAt(es, i, |es| - 1);
        }
      }
    }
  }

  /** A candidate goes out under the same condition. */
  lemma CandidateGoesOut(es: seq<Event>, candidate: string, sends: bool)
    requires Legal(es) && !Run(es).escaped
    ensures var before, after := Run(es).link, Run(es + [CandidateFound(candidate, sends)]).link;
      after.wire == before.wire +
        if before.isConnected && Prepared(es) != "" && sends
        then [Sent(|before.sockets|, Candidate(Prepared(es), candidate))] else []
  {
    RunThen(es, CandidateFound(candidate, sends));
    RunKeepsGood(es);
    IdIsPrepared(es);
  }

  /** A ping is answered as long as the socket is up, even when the client takes itself for disconnected. */
  lemma PingIsAnswered(es: seq<Event>, i: Incoming, sends: bool)
    requires Legal(es) && OfType(i, "ping.ping")
    ensures var before, after := Run(es).link, Run(es + [Receives(i, sends)]).link;
      && after.wire == before.wire + (if before.connected && sends then [Sent(|before.sockets|, Pong)] else [])
      && after.connected == before.connected && after.connectionId == before.connectionId
      && after.handed == before.handed && after.latestState == before.latestState
      && (after.isConnected <==> before.isConnected && (sends || !before.connected))
  {
    RunThen(es, Receives(i, sends));
    ReactionsExactly(i);
  }

  /** A state was set or broadcast. */
  predicate StateSent(es: seq<Event>)
    decreases |es|
  {
    es != [] && (es[|es| - 1].StateSet? || es[|es| - 1].Broadcast? || StateSent(es[..|es| - 1]))
  }

  /** The recorded code is that of the manager's state as soon as a state was set or broadcast, and -1 before. */
  lemma {:induction false} StateIsRecorded(es: seq<Event>)
    requires Legal(es) && !Run(es).escaped
    ensures Run(es).link.latestState == if StateSent(es) then StateToInt(Run(es).state) else NO_STATE
    ensures !StateSent(es) ==> Run(es).state == Initializing
    decreases |es|
  {
    if es != [] {
      StateIsRecorded(es[..|es| - 1]);
      StepRecords(Run(es[..|es| - 1]), es[|es| - 1]);
    }
  }

  lemma StepRecords(w: World, e: Event)
    ensures var w' := Step(w, e);
      if e.StateSet? then w'.state == e.state && w'.link.latestState == StateToInt(e.state)
      else w'.state == w.state
           && w'.link.latestState == if e.Broadcast? then StateToInt(w.state) else w.link.latestState
  {
  }

  /** Event `h` handed command number `i` over. */
  predicate HandedAt(es: seq<Event>, i: nat, h: nat) {
    && h < |es| && es[h].Receives? && Wanted(es[h].incoming).Some?
    && |Commands(es[..h])| == i && |Commands(es[..h + 1])| == i + 1
  }

  lemma {:induction false} HandedSomewhere(es: seq<Event>, i: nat) returns (h: nat)
    requires i < |Commands(es)|
    ensures HandedAt(es, i, h)
    decreases |es|
  {
    var init := es[..|es| - 1];
    if i < |Commands(init)| {
      h := HandedSomewhere(init, i);
      assert init[..h] == es[..h] && init[..h + 1] == es[..h + 1];
    } else {
      h := |es| - 1;
      assert es[..h + 1] == es;
    }
  }

  /** The id prepared last by the events from number `k` on, if any. */
  function PreparedSince(es: seq<Event>, k: nat): Option<string>
    decreases |es|
  {
    if |es| <= k then None
    else
      var e := es[|es| - 1];
      if e.Receives? && PreparedId(e.incoming).Some? then PreparedId(e.incoming) else PreparedSince(es[..|es| - 1], k)
  }

  lemma {:induction false} PreparedInTwo(es: seq<Event>, k: nat)
    requires k <= |es|
    ensures Prepared(es) == if PreparedSince(es, k).Some? then PreparedSince(es, k).value else Prepared(es[..k])
    decreases |es|
  {
    if k == |es| {
      assert es[..k] == es;
    } else {
      var init := es[..|es| - 1];
      assert init[..k] == es[..k];
      PreparedInTwo(init, k);
    }
  }

  lemma {:induction false} HandedIsThere(es: seq<Event>, i: nat, h: nat)
    requires HandedAt(es, i, h)
    ensures i < |Commands(es)| && Commands(es)[i] == Wanted(es[h].incoming).value
    decreases |es|
  {
    if h == |es| - 1 {
      assert es[..h + 1] == es;
    } else {
      var init := es[..|es| - 1];
      assert init[..h] == es[..h] && init[..h + 1] == es[..h + 1];
      HandedIsThere(init, i, h);
    }
  }

  /** The id prepared last is the one of before the offer, or one prepared since. */
  lemma SameSession(es: seq<Event>, i: nat, h: nat)
    requires HandedAt(es, i, h)
    ensures Prepared(es) == Prepared(es[..h]) <==> PreparedSince(es, h + 1) in {None, Some(Prepared(es[..h]))}
  {
    PreparedInTwo(es, h + 1);
    ReactionsExactly(es[h].incoming);
    assert es[..h + 1][..h] == es[..h];
  }

  lemma OffersAreOffers(i: Incoming)
    requires Wanted(i).Some? && Wanted(i).value.OfferArrived?
    ensures OfType(i, "signaling.send_sdp_offer")
  {
  }

  /**
  An answer and its offer. The offer an answer was made for was handled at an earlier event, and the answer leaves under
  the id of that offer's session if and only if no prepare_connection was handled in between, or the last one in between
  named the same id again.
  */
  lemma AnswerInSessionOfItsOffer(es: seq<Event>, sdp: string, offer: nat) returns (h: nat)
    requires Legal(es) && !Run(es).escaped && Run(es).link.isConnected && Prepared(es) != ""
    requires Enabled(Run(es), AnswerReady(offer, sdp, true))
    ensures HandedAt(es, offer, h) && OfType(es[h].incoming, "signaling.send_sdp_offer")
    ensures var before, after := Run(es).link, Run(es + [AnswerReady(offer, sdp, true)]).link;
      && |after.wire| == |before.wire| + 1 && after.wire[|before.wire|].frame.Answer?
      && (after.wire[|before.wire|].frame.id == Prepared(es[..h])
          <==> PreparedSince(es, h + 1) in {None, Some(Prepared(es[..h]))})
  {
    CommandsInOrder(es);
    h := HandedSomewhere(es, offer);
    HandedIsThere(es, offer, h);
    OffersAreOffers(es[h].incoming);
    AnswerGoesOut(es, offer, sdp, true);
    SameSession(es, offer, h);
  }

  /** A prepare_connection message for `id`, and an offer. */
  function PrepareMessage(id: string): Incoming {
    TextMessage(Message(Reads("signaling.prepare_connection"), Members(Reads(id), NoPart, NoPart)))
  }

  function OfferMessage(sdp: string): Incoming {
    TextMessage(Message(Reads("signaling.send_sdp_offer"), Members(Missing, Parsed(sdp), NoPart)))
  }

  /** An answer that takes longer than the next prepare_connection goes out under the next session's id. */
  lemma LateAnswerUnderNextSession(a: string, b: string, offer: string, answer: string)
    requires a != b && b != ""
    ensures var es := [Starts(true, true), Receives(PrepareMessage(a), true), Receives(OfferMessage(offer), true),
                       Receives(PrepareMessage(b), true), AnswerReady(0, answer, true)];
      Legal(es) && Run(es).link.wire == [Sent(1, Answer(b, answer))]
  {
    TypesDiffer();
    var start := [Starts(true, true)];
    var prepared := start + [Receives(PrepareMessage(a), true)];
    var offered := prepared + [Receives(OfferMessage(offer), true)];
    var again := offered + [Receives(PrepareMessage(b), true)];
    RunThen([], Starts(true, true));
    assert [] + [Starts(true, true)] == start;
    RunThen(start, Receives(PrepareMessage(a), true));
    RunThen(prepared, Receives(OfferMessage(offer), true));
    RunThen(offered, Receives(PrepareMessage(b), true));
    RunThen(again, AnswerReady(0, answer, true));
    assert again + [AnswerReady(0, answer, true)]
        == [Starts(true, true), Receives(PrepareMessage(a), true), Receives(OfferMessage(offer), true),
            Receives(PrepareMessage(b), true), AnswerReady(0, answer, true)];
  }

  /** An answer goes out exactly when the client takes itself for connected, an id is prepared and the send succeeds. */
  lemma AnswerGoesOut(es: seq<Event>, offer: nat, sdp: string, sends: bool)
    requires Legal(es) && !Run(es).escaped
    ensures var before, after := Run(es).link, Run(es + [AnswerReady(offer, sdp, sends)]).link;
      after.wire == before.wire +
        if before.isConnected && Prepared(es) != "" && sends
        then [Sent(|before.sockets|, Answer(Prepared(es), sdp))] else []
  {
    RunThen(es, AnswerReady(offer, sdp, sends));
    RunKeepsGood(es);
    IdIsPrepared(es);
  }

  /**
  After an error the client is mute until the socket itself reports its end and is replaced: no status, answer or
  candidate goes out, although pings are still answered.
  */
  lemma {:induction false} MuteAfterError(es: seq<Event>, more: seq<Event>)
    requires !Run(es).link.isConnected
    requires forall e :: e in more ==> !Connects(e)
    ensures Run(es).link.wire <= Run(es + more).link.wire
    ensures !Run(es + more).link.isConnected
    ensures forall i :: |Run(es).link.wire| <= i < |Run(es + more).link.wire| ==>
      Run(es + more).link.wire[i].frame == Pong
    decreases |more|
  {
    if more == [] {
      assert es + more == es;
    } else {
      var init, e := more[..|more| - 1], more[|more| - 1];
      assert es + more == es + init + [e] && e in more;
      RunThen(es + init, e);
      MuteAfterError(es, init);
      StepEmits(Run(es + init), e);
      StepConnects(Run(es + init), e);
    }
  }

  /** The codes of the status frames on one connection, in order. */
  function Statuses(wire: seq<Sent>, connection: nat): seq<int>
    decreases |wire|
  {
    if wire == [] then []
    else
      var last := wire[|wire| - 1];
      Statuses(wire[..|wire| - 1], connection) +
      if last.connection == connection && last.frame.Status? then [last.frame.code] else []
  }

  /** The code an event announces. */
  function AnnouncedBy(w: World, e: Event): seq<int> {
    match e
    case StateSet(s, _, _) => [StateToInt(s)]
    case Broadcast(_) => [StateToInt(w.state)]
    case _ => []
  }

  /** The codes of the states set or broadcast by the events from number `k` on. */
  function Announced(es: seq<Event>, k: nat): seq<int>
    decreases |es|
  {
    if |es| <= k then []
    else Announced(es[..|es| - 1], k) + AnnouncedBy(Run(es[..|es| - 1]), es[|es| - 1])
  }

  lemma StatusesAfter(wire: seq<Sent>, s: Sent, connection: nat)
    ensures Statuses(wire + [s], connection)
         == Statuses(wire, connection) +
            if s.connection == connection && s.frame.Status? then [s.frame.code] else []
  {
    assert (wire + [s])[..|wire|] == wire;
  }

  lemma StatusesStep(w: World, e: Event)
    requires FlagsGood(w.link) && !Connects(e)
    requires !Step(w, e).escaped && Step(w, e).link.isConnected
    ensures w.link.isConnected && |Step(w, e).link.sockets| == |w.link.sockets|
    ensures Statuses(Step(w, e).link.wire, |w.link.sockets|)
         == Statuses(w.link.wire, |w.link.sockets|) + AnnouncedBy(w, e)
  {
    StepConnects(w, e);
    StepEmits(w, e);
    if Emitted(w, e).Some? {
      StatusesAfter(w.link.wire, Sent(|w.link.sockets|, Emitted(w, e).value), |w.link.sockets|);
    } else {
      assert Step(w, e).link.wire == w.link.wire;
    }
  }

  /** From one world to the other, on one connection, exactly the status codes `codes` went out. */
  predicate Announces(before: World, codes: seq<int>, after: World) {
    && before.link.isConnected && after.link.isConnected
    && |after.link.sockets| == |before.link.sockets|
    && Statuses(after.link.wire, |after.link.sockets|) == Statuses(before.link.wire, |before.link.sockets|) + codes
  }

  lemma AnnouncesThen(a: World, codes: seq<int>, b: World, more: seq<int>, c: World)
    requires Announces(a, codes, b) && Announces(b, more, c)
    ensures Announces(a, codes + more, c)
  {
  }

  lemma EventAnnounces(es: seq<Event>)
    requires es != [] && Legal(es) && !Run(es).escaped && Run(es).link.isConnected && !Connects(es[|es| - 1])
    ensures var before := Run(es[..|es| - 1]);
      && Legal(es[..|es| - 1]) && !before.escaped
      && Announces(before, AnnouncedBy(before, es[|es| - 1]), Run(es))
  {
    RunKeepsGood(es[..|es| - 1]);
    StatusesStep(Run(es[..|es| - 1]), es[|es| - 1]);
  }

  /** No status is lost, repeated or reordered on a connection the client still takes for connected. */
  lemma {:induction false} EveryStatusGoesOut(es: seq<Event>, k: nat)
    requires k <= |es| && Legal(es) && !Run(es).escaped && Run(es).link.isConnected
    requires forall j :: k <= j < |es| ==> !Connects(es[j])
    ensures Announces(Run(es[..k]), Announced(es, k), Run(es))
    decreases |es|
  {
    if k == |es| {
      assert es[..k] == es;
    } else {
      var init := es[..|es| - 1];
      assert init[..k] == es[..k];
      EventAnnounces(es);
      EveryStatusGoesOut(init, k);
      AnnouncesThen(Run(es[..k]), Announced(init, k), Run(init), AnnouncedBy(Run(init), es[|es| - 1]), Run(es));
    }
  }
}
