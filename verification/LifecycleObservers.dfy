/**
The observers of data channels. A channel of the library keeps a plain pointer to the observer registered on it, while
the object belongs to the handler, which destroys it when it makes the next one. This module says exactly which
channels still report to an observer that exists.
*/
module LifecycleObservers {
  import opened Options
  import opened Lifecycle
  import opened LifecycleRuns

  /** The observer of the last channel of that name that was given one. */
  function LastObserver(chans: seq<Channel>, name: string): Option<nat>
    decreases |chans|
  {
    if chans == [] then None
    else
      var last := chans[|chans| - 1];
      if last.name == name && last.observer.Some? then last.observer else LastObserver(chans[..|chans| - 1], name)
  }

  lemma LastObserverAfter(chans: seq<Channel>, chan: Channel, name: string)
    ensures LastObserver(chans + [chan], name)
         == if chan.name == name && chan.observer.Some? then chan.observer else LastObserver(chans, name)
  {
    assert (chans + [chan])[..|chans|] == chans;
  }

  lemma {:induction false} LastObserverKeepsThrough(chans: seq<Channel>, i: nat, s: ChannelState, name: string)
    requires i < |chans|
    ensures LastObserver(chans[i := chans[i].(state := s)], name) == LastObserver(chans, name)
    decreases |chans|
  {
    var changed, init := chans[i := chans[i].(state := s)], chans[..|chans| - 1];
    if i < |init| {
      assert changed[..|chans| - 1] == init[i := init[i].(state := s)];
      LastObserverKeepsThrough(init, i, s, name);
    } else {
      assert changed[..|chans| - 1] == init;
    }
  }

  /** Later channels have later observers, so no two channels were ever given the same one. */
  predicate Increasing(chans: seq<Channel>) {
    forall i, j :: 0 <= i < j < |chans| && chans[i].observer.Some? && chans[j].observer.Some? ==>
      chans[i].observer.value < chans[j].observer.value
  }

  /** No channel after number `i` with its name was given an observer. */
  predicate Newest(chans: seq<Channel>, i: nat) {
    i < |chans| && forall j :: i < j < |chans| && chans[j].name == chans[i].name ==> chans[j].observer.None?
  }

  lemma {:induction false} NewestHasLastObserver(chans: seq<Channel>, i: nat)
    requires i < |chans| && chans[i].observer.Some? && Increasing(chans)
    ensures LastObserver(chans, chans[i].name) == chans[i].observer <==> Newest(chans, i)
    decreases |chans|
  {
    var init, last := chans[..|chans| - 1], chans[|chans| - 1];
    if i < |init| {
      assert init[i] == chans[i];
      NewestHasLastObserver(init, i);
      if Newest(init, i) && !(last.name == chans[i].name && last.observer.Some?) {
        forall j | i < j < |chans| && chans[j].name == chans[i].name
          ensures chans[j].observer.None?
        {
          assert j < |init| ==> init[j] == chans[j];
        }
      }
      if Newest(chans, i) {
        assert forall j :: 0 <= j < |init| ==> init[j] == chans[j];
      }
    }
  }

  lemma {:induction false} LastObserverBelongs(chans: seq<Channel>, name: string) returns (i: nat)
    requires LastObserver(chans, name).Some?
    ensures i < |chans| && chans[i].name == name && chans[i].observer == LastObserver(chans, name)
    decreases |chans|
  {
    var last := chans[|chans| - 1];
    if last.name == name && last.observer.Some? {
      i := |chans| - 1;
    } else {
      i := LastObserverBelongs(chans[..|chans| - 1], name);
    }
  }

  /** Each handler holds the observer it made last; a channel with an observer carries the label of a handler. */
  predicate Watched(channels: map<string, Binding>, chans: seq<Channel>, made: nat) {
    && Increasing(chans)
    && (forall i :: 0 <= i < |chans| && chans[i].observer.Some? ==>
          chans[i].name in channels && chans[i].observer.value < made)
    && (forall l :: l in channels ==> channels[l].observer == LastObserver(chans, l))
  }

  predicate ClientWatched(c: Client) {
    Watched(c.channels, c.chans, c.observersMade)
  }

  lemma WatchedAppend(channels: map<string, Binding>, chans: seq<Channel>, made: nat, chan: Channel,
                      channels': map<string, Binding>, made': nat)
    requires Watched(channels, chans, made)
    requires chan.observer.Some? ==> chan.name in channels && chan.observer.value == made
    requires made' == made + if chan.observer.Some? then 1 else 0
    requires channels'.Keys == channels.Keys
    requires forall l :: l in channels ==>
      channels'[l].observer == if l == chan.name && chan.observer.Some? then chan.observer else channels[l].observer
    ensures Watched(channels', chans + [chan], made')
  {
    forall l | l in channels'
      ensures channels'[l].observer == LastObserver(chans + [chan], l)
    {
      LastObserverAfter(chans, chan, l);
    }
  }

  lemma WatchedArrive(c: Client, name: string, state: ChannelState)
    requires ClientWatched(c)
    ensures ClientWatched(Arrive(c, name, state))
  {
    var c' := Arrive(c, name, state);
    if name !in c.channels || HoldsOpen(c, name) {
      WatchedAppend(c.channels, c.chans, c.observersMade, Channel(name, state, None), c'.channels, c'.observersMade);
    } else {
      var chan := Channel(name, state, Some(c.observersMade));
      WatchedAppend(c.channels, c.chans, c.observersMade, chan, c'.channels, c'.observersMade);
    }
  }

  lemma WatchedChange(c: Client, i: nat, s: ChannelState)
    requires ClientWatched(c) && i < |c.chans|
    ensures Watched(c.channels, c.chans[i := c.chans[i].(state := s)], c.observersMade)
  {
    var changed := c.chans[i := c.chans[i].(state := s)];
    forall l | l in c.channels
      ensures c.channels[l].observer == LastObserver(changed, l)
    {
      LastObserverKeepsThrough(c.chans, i, s, l);
    }
  }

  lemma {:induction false} NoObserverOfName(chans: seq<Channel>, name: string)
    requires forall i :: 0 <= i < |chans| && chans[i].observer.Some? ==> chans[i].name != name
    ensures LastObserver(chans, name) == None
    decreases |chans|
  {
    if chans != [] {
      NoObserverOfName(chans[..|chans| - 1], name);
    }
  }

  lemma WatchedAdd(c: Client, l: string, handler: nat)
    requires ClientWatched(c)
    ensures ClientWatched(AddChannel(c, l, handler))
  {
    if l !in c.channels {
      NoObserverOfName(c.chans, l);
    }
  }

  /** The registries' observers are those of before, and no observer was unmade. */
  predicate SameObservers(c: Client, c': Client) {
    && c'.chans == c.chans && c'.channels.Keys == c.channels.Keys && c'.observersMade >= c.observersMade
    && forall l :: l in c.channels ==> c'.channels[l].observer == c.channels[l].observer
  }

  lemma StatementKeepsObservers(f: Frame, key: string, c: Client)
    ensures SameObservers(c, RunFrame(f, key, c).client)
  {
    if OfferFrame(f) {
      OfferKeepsObservers(f, c);
    } else if TearFrame(f) {
      TeardownKeepsObservers(f, key, c);
    }
  }

  lemma OfferKeepsObservers(f: Frame, c: Client)
    requires OfferFrame(f)
    ensures SameObservers(c, RunOffer(f, c).client)
  {
  }

  lemma TeardownKeepsObservers(f: Frame, key: string, c: Client)
    requires TearFrame(f)
    ensures SameObservers(c, RunTear(f, key, c).client)
  {
    if f.CloseChannels? && f.pending != {} && key in c.channels {
      var closed := c.(channels := c.channels[key := CloseBinding(c.channels[key])]);
      assert RunTear(f, key, c).client == closed && SameObservers(c, closed);
    } else {
      assert RunTear(f, key, c).client.channels == c.channels;
    }
  }

  lemma NegotiationKeepsObservers(w: World, a: Action)
    requires a.RemoteSet? || a.AnswerCreated? || a.LocalSet? || a.StageFails?
    ensures SameObservers(w.client, Step(w, a).client)
  {
  }

  lemma CallKeepsObservers(w: World, a: Action)
    requires a.Initialize? || a.Offer? || a.CloseMessage? || a.ConnectionChange? || a.Shutdown?
    ensures SameObservers(w.client, Step(w, a).client)
  {
  }

  lemma OtherActionKeepsObservers(w: World, a: Action)
    requires !a.Continue? && !a.DataChannelArrives? && !a.ChannelChanges? && !a.AddChannelHandler?
    ensures SameObservers(w.client, Step(w, a).client)
  {
    if a.RemoteSet? || a.AnswerCreated? || a.LocalSet? || a.StageFails? {
      NegotiationKeepsObservers(w, a);
    } else if a.Initialize? || a.Offer? || a.CloseMessage? || a.ConnectionChange? || a.Shutdown? {
      CallKeepsObservers(w, a);
    }
  }

  lemma SameObserversWatched(c: Client, c': Client)
    requires ClientWatched(c) && SameObservers(c, c')
    ensures ClientWatched(c')
  {
  }

  lemma WatchedStep(w: World, a: Action)
    requires ClientWatched(w.client) && Enabled(w, a)
    ensures ClientWatched(Step(w, a).client)
  {
    match a
    case Continue(key) =>
      StatementKeepsObservers(w.stack.top, key, w.client);
      assert SameObservers(w.client, RunTop(w, key).client);
      SameObserversWatched(w.client, RunTop(w, key).client);
    case DataChannelArrives(_, name, state) => WatchedArrive(w.client, name, state);
    case ChannelChanges(i, s) => WatchedChange(w.client, i, s);
    case AddChannelHandler(l, h) => WatchedAdd(w.client, l, h);
    case _ =>
      OtherActionKeepsObservers(w, a);
      SameObserversWatched(w.client, Step(w, a).client);
  }

  lemma {:induction false} WatchedRun(w: World, acts: seq<Action>)
    requires ClientWatched(w.client) && Legal(w, acts)
    ensures ClientWatched(Exec(w, acts).client)
    decreases |acts|
  {
    if acts != [] {
      WatchedStep(w, acts[0]);
      WatchedRun(Step(w, acts[0]), acts[1..]);
    }
  }

  /** Some handler still holds the observer of channel `i`. */
  predicate ReportsToLive(c: Client, i: nat) {
    i < |c.chans| && exists l :: l in c.channels && c.channels[l].observer == c.chans[i].observer
  }

  /**
  Over every run, exceptions and failed announcements included, a channel that was given an observer still reports to
  one that exists exactly when no later channel with its label was given one, whether it is bound, displaced or
  closed.
  */
  lemma ChannelReportsToLiveObserver(acts: seq<Action>, i: nat)
    requires Legal(Initial(), acts)
    requires i < |Exec(Initial(), acts).client.chans| && Exec(Initial(), acts).client.chans[i].observer.Some?
    ensures ReportsToLive(Exec(Initial(), acts).client, i) <==> Newest(Exec(Initial(), acts).client.chans, i)
  {
    WatchedRun(Initial(), acts);
    var c := Exec(Initial(), acts).client;
    NewestHasLastObserver(c.chans, i);
    if ReportsToLive(c, i) {
      var l :| l in c.channels && c.channels[l].observer == c.chans[i].observer;
      var k := LastObserverBelongs(c.chans, l);
      assert k == i;
    } else {
      assert c.chans[i].name in c.channels;
    }
  }

  /** A channel that is not open yet is displaced by the next one of its label and left with a destroyed observer. */
  lemma DisplacedChannelDangles() returns (acts: seq<Action>, w: World)
    ensures Leads(Initial(), acts, w) && NoThrow(acts) && AllAnnounced(acts)
    ensures |w.client.chans| == 2 && w.client.chans[0].state.Connecting? && w.client.chans[0].observer.Some?
    ensures !ReportsToLive(w.client, 0)
  {
    acts, w := FirstOffer(true);
    acts, w := Then(acts, w, AddChannelHandler("data", 2));
    acts, w := Then(acts, w, DataChannelArrives(0, "data", Connecting));
    acts, w := Then(acts, w, DataChannelArrives(0, "data", Open));
    assert !Newest(w.client.chans, 0) by {
      assert w.client.chans[1].name == "data" == w.client.chans[0].name && w.client.chans[1].observer.Some?;
    }
    ChannelReportsToLiveObserver(acts, 0);
  }
}
