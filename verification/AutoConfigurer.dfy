/**
The auto-configurer: it turns the entries of a configuration into connectors and files the handlers they make in two
places, the connector's registry and an index of its own.
*/
module AutoConfigurer {
  import opened Options
  import opened Connector
  import opened DataChannels
  import opened Echo

  datatype ConnectorConfig = ConnectorConfig(kind: string, name: string, params: map<string, string>)

  class ConfigurableConnector {
    var config: Option<ConnectorConfig>

    constructor ()
      ensures config == None
    {
      config := None;
    }

    method SetConfig(config: ConnectorConfig)
      modifies this
      ensures this.config == Some(config)
    {
      this.config := Some(config);
    }
  }

  /**
  What came of one entry: its type is supported or not, its factory's connector, and whether it passes validation.
  */
  datatype Entry = Entry(config: ConnectorConfig, supported: bool, made: ConfigurableConnector?, valid: bool)

  predicate Accepted(e: Entry) {
    e.supported && e.made != null && e.valid
  }

  /** The accepted entries, by position. */
  function Kept(es: seq<Entry>): seq<nat>
    decreases |es|
  {
    if es == [] then []
    else Kept(es[..|es| - 1]) + if Accepted(es[|es| - 1]) then [|es| - 1] else []
  }

  /** They are all the accepted entries, each once, in the order of the configuration. */
  lemma {:induction false} KeptExactly(es: seq<Entry>)
    ensures forall k :: 0 <= k < |Kept(es)| ==>
      Kept(es)[k] < |es| && var e := es[Kept(es)[k]]; e.supported && e.made != null && e.valid
    ensures forall i :: 0 <= i < |es| && es[i].supported && es[i].made != null && es[i].valid ==> i in Kept(es)
    ensures forall j, k :: 0 <= j < k < |Kept(es)| ==> Kept(es)[j] < Kept(es)[k]
    decreases |es|
  {
    if es != [] {
      KeptExactly(es[..|es| - 1]);
    }
  }

  /** The connector of entry `i` is not handed out again by a later entry. */
  predicate LastUse(es: seq<Entry>, i: nat) {
    && i < |es| && es[i].supported && es[i].made != null
    && forall j :: i < j < |es| && es[j].supported && es[j].made != null ==> es[j].made != es[i].made
  }

  /**
  What a connector is after `Configure`: null, one that threw, or one of the kinds that hold handlers, or another.
  */
  datatype Configured =
    | NoConnector
    | Throwing
    | OneChannel(channel: Option<DataChannelHandler>)
    | ManyChannels(channels: seq<Option<DataChannelHandler>>)
    | OneTrack(track: Option<MediaTrackHandler>)
    | OtherKind

  /** A handler under its label or track name. */
  datatype Named<H> = Named(name: string, handler: H)

  /** The registry's policy: a name that is taken stays with its handler. */
  function FirstWins<H>(m: map<string, H>, hs: seq<Named<H>>): map<string, H>
    decreases |hs|
  {
    if hs == [] then m
    else
      var before, h := FirstWins(m, hs[..|hs| - 1]), hs[|hs| - 1];
      if h.name in before then before else before[h.name := h.handler]
  }

  /** The index's policy: a handler replaces the one of the same name. */
  function LastWins<H>(m: map<string, H>, hs: seq<Named<H>>): map<string, H>
    decreases |hs|
  {
    if hs == [] then m else LastWins(m, hs[..|hs| - 1])[hs[|hs| - 1].name := hs[|hs| - 1].handler]
  }

  /** Position `i` is the first with its name. */
  predicate IsFirst<H>(hs: seq<Named<H>>, i: nat) {
    i < |hs| && forall j :: 0 <= j < i ==> hs[j].name != hs[i].name
  }

  /** Position `i` is the last with its name. */
  predicate IsLast<H>(hs: seq<Named<H>>, i: nat) {
    i < |hs| && forall j :: i < j < |hs| ==> hs[j].name != hs[i].name
  }

  predicate Uses<H>(hs: seq<Named<H>>, n: string) {
    exists i :: 0 <= i < |hs| && hs[i].name == n
  }

  lemma UsesOneMore<H>(hs: seq<Named<H>>, n: string)
    requires hs != []
    ensures Uses(hs, n) <==> Uses(hs[..|hs| - 1], n) || hs[|hs| - 1].name == n
  {
    if Uses(hs, n) && hs[|hs| - 1].name != n {
      var i :| 0 <= i < |hs| && hs[i].name == n;
      assert hs[..|hs| - 1][i].name == n;
    } else if Uses(hs[..|hs| - 1], n) {
      var i :| 0 <= i < |hs| - 1 && hs[..|hs| - 1][i].name == n;
      assert hs[i].name == n;
    }
  }

  /** The registry knows the names it knew, with the same handlers, and every name used. */
  lemma {:induction false} RegistryNames<H>(m: map<string, H>, hs: seq<Named<H>>, n: string)
    ensures n in FirstWins(m, hs) <==> n in m || Uses(hs, n)
    ensures n in m ==> FirstWins(m, hs)[n] == m[n]
    decreases |hs|
  {
    if hs != [] {
      RegistryNames(m, hs[..|hs| - 1], n);
      UsesOneMore(hs, n);
    }
  }

  /** Under a name it did not know, the registry holds the first handler of that name. */
  lemma {:induction false} RegistryHoldsFirst<H>(m: map<string, H>, hs: seq<Named<H>>, i: nat)
    requires IsFirst(hs, i) && hs[i].name !in m
    ensures hs[i].name in FirstWins(m, hs) && FirstWins(m, hs)[hs[i].name] == hs[i].handler
    decreases |hs|
  {
    var init := hs[..|hs| - 1];
    if i < |init| {
      assert init[i] == hs[i] && IsFirst(init, i);
      RegistryHoldsFirst(m, init, i);
    } else {
      RegistryNames(m, init, hs[i].name);
    }
  }

  /** The index knows the names it knew and every name used. */
  lemma {:induction false} IndexNames<H>(m: map<string, H>, hs: seq<Named<H>>, n: string)
    ensures n in LastWins(m, hs) <==> n in m || Uses(hs, n)
    ensures n in m && !Uses(hs, n) ==> LastWins(m, hs)[n] == m[n]
    decreases |hs|
  {
    if hs != [] {
      IndexNames(m, hs[..|hs| - 1], n);
      UsesOneMore(hs, n);
    }
  }

  /** Under every name used, the index holds the last handler of that name. */
  lemma {:induction false} IndexHoldsLast<H>(m: map<string, H>, hs: seq<Named<H>>, i: nat)
    requires IsLast(hs, i)
    ensures hs[i].name in LastWins(m, hs) && LastWins(m, hs)[hs[i].name] == hs[i].handler
    decreases |hs|
  {
    var init := hs[..|hs| - 1];
    if i < |init| {
      assert init[i] == hs[i] && IsLast(init, i);
      IndexHoldsLast(m, init, i);
    }
  }

  lemma FirstOf<H>(hs: seq<Named<H>>, i: nat) returns (first: nat)
    requires i < |hs|
    ensures first <= i && IsFirst(hs, first) && hs[first].name == hs[i].name
    decreases i
  {
    first := i;
    if !IsFirst(hs, i) {
      var j :| 0 <= j < i && hs[j].name == hs[i].name;
      first := FirstOf(hs, j);
    }
  }

  lemma LastOf<H>(hs: seq<Named<H>>, i: nat) returns (last: nat)
    requires i < |hs|
    ensures i <= last && IsLast(hs, last) && hs[last].name == hs[i].name
    decreases |hs| - i
  {
    last := i;
    if !IsLast(hs, i) {
      var j :| i < j < |hs| && hs[j].name == hs[i].name;
      last := LastOf(hs, j);
    }
  }

  /** Under every name, the first handler is the last one as well. */
  predicate FirstIsLast<H(==)>(hs: seq<Named<H>>) {
    forall i: nat, j: nat | i < |hs| && j < |hs| :: IsFirst(hs, i) && IsLast(hs, j) && hs[i].name == hs[j].name ==>
      hs[i].handler == hs[j].handler
  }

  /**
  Two indexes of one build: started empty, the registry and the index have the same names, and they are equal exactly
  when under every name the first handler is the last one as well.
  */
  lemma IndexesAgree<H>(hs: seq<Named<H>>)
    ensures FirstWins(map[], hs).Keys == LastWins(map[], hs).Keys
    ensures FirstWins(map[], hs) == LastWins(map[], hs) <==> FirstIsLast(hs)
  {
    var r, x := FirstWins(map[], hs), LastWins(map[], hs);
    forall n
      ensures n in r <==> n in x
    {
      RegistryNames(map[], hs, n);
      IndexNames(map[], hs, n);
    }
    if FirstIsLast(hs) {
      forall n | n in r
        ensures r[n] == x[n]
      {
        RegistryNames(map[], hs, n);
        var k :| 0 <= k < |hs| && hs[k].name == n;
        var first := FirstOf(hs, k);
        var last := LastOf(hs, k);
        RegistryHoldsFirst(map[], hs, first);
        IndexHoldsLast(map[], hs, last);
      }
      assert r == x;
    } else {
      var i: nat, j: nat :| i < |hs| && j < |hs| && IsFirst(hs, i) && IsLast(hs, j) && hs[i].name == hs[j].name
        && hs[i].handler != hs[j].handler;
      RegistryHoldsFirst(map[], hs, i);
      IndexHoldsLast(map[], hs, j);
    }
  }

  /** No name is used by two distinct handlers. */
  predicate NoNameShared<H(==)>(hs: seq<Named<H>>) {
    forall i, j :: 0 <= i < j < |hs| && hs[i].name == hs[j].name ==> hs[i].handler == hs[j].handler
  }

  /** When no handler is filed twice, they are equal exactly when no name is used by two handlers. */
  lemma IndexesAgreeOnDistinct<H>(hs: seq<Named<H>>)
    requires forall i, j :: 0 <= i < j < |hs| ==> hs[i].handler != hs[j].handler
    ensures FirstWins(map[], hs) == LastWins(map[], hs) <==> NoNameShared(hs)
  {
    IndexesAgree(hs);
    if !NoNameShared(hs) {
      var i, j :| 0 <= i < j < |hs| && hs[i].name == hs[j].name;
      var first := FirstOf(hs, i);
      var last := LastOf(hs, j);
      assert first < last;
    }
  }

  /**
  Without that, two handlers may share a name and the indexes still be equal: a handler filed again hides the other.
  */
  lemma SharedNameUnnoticed<H>(a: H, b: H)
    requires a != b
    ensures var hs := [Named("x", a), Named("x", b), Named("x", a)];
      !NoNameShared(hs) && FirstWins(map[], hs) == LastWins(map[], hs)
  {
    var hs := [Named("x", a), Named("x", b), Named("x", a)];
    assert hs[0].name == hs[1].name && hs[0].handler != hs[1].handler;
    forall i: nat, j: nat | i < |hs| && j < |hs| && IsFirst(hs, i) && IsLast(hs, j) && hs[i].name == hs[j].name
      ensures hs[i].handler == hs[j].handler
    {
      assert i == 0 by {
        assert hs[0].name == hs[i].name;
      }
      assert j == 2 by {
        assert hs[2].name == hs[j].name;
      }
    }
    IndexesAgree(hs);
  }

  // Handlers that come in lists, one list after the other.

  /** The first `n` lists, one after the other. */
  function Flat<T>(lists: seq<seq<T>>, n: nat): seq<T>
    requires n <= |lists|
  {
    if n == 0 then [] else Flat(lists, n - 1) + lists[n - 1]
  }

  /** Where member `k` of list `i` comes to lie. */
  lemma {:induction false} FlatAt<T>(lists: seq<seq<T>>, n: nat, i: nat, k: nat)
    requires i < n <= |lists| && k < |lists[i]|
    ensures |Flat(lists, i)| + |lists[i]| <= |Flat(lists, n)|
    ensures Flat(lists, n)[|Flat(lists, i)| + k] == lists[i][k]
    decreases n
  {
    if i < n - 1 {
      FlatAt(lists, n - 1, i, k);
    }
  }

  /** And where everything comes from. */
  lemma {:induction false} FlatFrom<T>(lists: seq<seq<T>>, n: nat, p: nat) returns (i: nat, k: nat)
    requires n <= |lists| && p < |Flat(lists, n)|
    ensures i < n && k < |lists[i]| && p == |Flat(lists, i)| + k
    ensures Flat(lists, n)[p] == lists[i][k]
    decreases n
  {
    if p < |Flat(lists, n - 1)| {
      i, k := FlatFrom(lists, n - 1, p);
    } else {
      i, k := n - 1, p - |Flat(lists, n - 1)|;
    }
  }

  /** One place comes before another. */
  predicate Earlier(i: nat, k: nat, j: nat, m: nat) {
    i < j || (i == j && k < m)
  }

  lemma FlatOrder<T>(lists: seq<seq<T>>, i: nat, k: nat, j: nat, m: nat)
    requires i < |lists| && k < |lists[i]| && j < |lists| && m < |lists[j]|
    ensures Earlier(i, k, j, m) <==> |Flat(lists, i)| + k < |Flat(lists, j)| + m
  {
    if i < j {
      FlatAt(lists, j, i, k);
    } else if j < i {
      FlatAt(lists, i, j, m);
    }
  }

  predicate InLists<H>(lists: seq<seq<Named<H>>>, n: nat, i: nat, k: nat) {
    i < n <= |lists| && k < |lists[i]|
  }

  /** In the first `n` lists no handler before this one has its name. */
  ghost predicate FirstInLists<H>(lists: seq<seq<Named<H>>>, n: nat, i: nat, k: nat)
    requires InLists(lists, n, i, k)
  {
    forall j: nat, m: nat {:trigger InLists(lists, n, j, m)} :: InLists(lists, n, j, m) && Earlier(j, m, i, k) ==>
      lists[j][m].name != lists[i][k].name
  }

  /** And none after it. */
  ghost predicate LastInLists<H>(lists: seq<seq<Named<H>>>, n: nat, i: nat, k: nat)
    requires InLists(lists, n, i, k)
  {
    forall j: nat, m: nat {:trigger InLists(lists, n, j, m)} :: InLists(lists, n, j, m) && Earlier(i, k, j, m) ==>
      lists[j][m].name != lists[i][k].name
  }

  lemma FirstFlat<H>(lists: seq<seq<Named<H>>>, n: nat, i: nat, k: nat)
    requires InLists(lists, n, i, k) && FirstInLists(lists, n, i, k)
    ensures IsFirst(Flat(lists, n), |Flat(lists, i)| + k)
  {
    FlatAt(lists, n, i, k);
    forall q: nat | q < |Flat(lists, i)| + k
      ensures Flat(lists, n)[q].name != lists[i][k].name
    {
      var j, m := FlatFrom(lists, n, q);
      FlatOrder(lists, j, m, i, k);
      assert InLists(lists, n, j, m);
    }
  }

  lemma LastFlat<H>(lists: seq<seq<Named<H>>>, n: nat, i: nat, k: nat)
    requires InLists(lists, n, i, k) && LastInLists(lists, n, i, k)
    ensures IsLast(Flat(lists, n), |Flat(lists, i)| + k)
  {
    FlatAt(lists, n, i, k);
    forall q: nat | |Flat(lists, i)| + k < q < |Flat(lists, n)|
      ensures Flat(lists, n)[q].name != lists[i][k].name
    {
      var j, m := FlatFrom(lists, n, q);
      FlatOrder(lists, i, k, j, m);
      assert InLists(lists, n, j, m);
    }
  }

  ghost predicate NamedInLists<H>(lists: seq<seq<Named<H>>>, n: nat, name: string) {
    exists i: nat, k: nat {:trigger InLists(lists, n, i, k)} :: InLists(lists, n, i, k) && lists[i][k].name == name
  }

  lemma NamesFlat<H>(lists: seq<seq<Named<H>>>, n: nat, name: string)
    requires n <= |lists|
    ensures Uses(Flat(lists, n), name) <==> NamedInLists(lists, n, name)
  {
    if Uses(Flat(lists, n), name) {
      var p: nat :| p < |Flat(lists, n)| && Flat(lists, n)[p].name == name;
      var i, k := FlatFrom(lists, n, p);
      assert InLists(lists, n, i, k);
    } else if NamedInLists(lists, n, name) {
      var i: nat, k: nat :| InLists(lists, n, i, k) && lists[i][k].name == name;
      FlatAt(lists, n, i, k);
    }
  }

  /** Where the handlers of the lists are found when they are filed one after the other. */
  lemma FiledFromLists<H>(lists: seq<seq<Named<H>>>, n: nat, i: nat, k: nat, registry: map<string, H>,
                          index: map<string, H>)
    requires InLists(lists, n, i, k)
    ensures var name, hs := lists[i][k].name, Flat(lists, n);
      && name in FirstWins(registry, hs) && name in LastWins(index, hs)
      && (name !in registry && FirstInLists(lists, n, i, k) ==> FirstWins(registry, hs)[name] == lists[i][k].handler)
      && (LastInLists(lists, n, i, k) ==> LastWins(index, hs)[name] == lists[i][k].handler)
  {
    var name, hs := lists[i][k].name, Flat(lists, n);
    var p := |Flat(lists, i)| + k;
    FlatAt(lists, n, i, k);
    assert hs[p].name == name;
    RegistryNames(registry, hs, name);
    IndexNames(index, hs, name);
    if name !in registry && FirstInLists(lists, n, i, k) {
      FirstFlat(lists, n, i, k);
      RegistryHoldsFirst(registry, hs, p);
    }
    if LastInLists(lists, n, i, k) {
      LastFlat(lists, n, i, k);
      IndexHoldsLast(index, hs, p);
    }
  }

  /** The number of handlers before the first null one. */
  function NonNull(hs: seq<Option<DataChannelHandler>>): (n: nat)
    ensures n <= |hs| && (n < |hs| ==> hs[n].None?) && forall i :: 0 <= i < n ==> hs[i].Some?
  {
    NonNullFrom(hs, 0)
  }

  function NonNullFrom(hs: seq<Option<DataChannelHandler>>, k: nat): (n: nat)
    requires k <= |hs| && forall i :: 0 <= i < k ==> hs[i].Some?
    ensures k <= n <= |hs| && (n < |hs| ==> hs[n].None?) && forall i :: 0 <= i < n ==> hs[i].Some?
    decreases |hs| - k
  {
    if k == |hs| || hs[k].None? then k else NonNullFrom(hs, k + 1)
  }

  function NamedAll(hs: seq<Option<DataChannelHandler>>, n: nat): seq<Named<DataChannelHandler>>
    requires n <= NonNull(hs)
  {
    seq(n, i requires 0 <= i < n => Named(hs[i].value.name, hs[i].value))
  }

  lemma OneMoreNamed(filed: seq<Named<DataChannelHandler>>, hs: seq<Option<DataChannelHandler>>, k: nat)
    requires k < NonNull(hs)
    ensures filed + NamedAll(hs, k + 1) == filed + NamedAll(hs, k) + [Named(hs[k].value.name, hs[k].value)]
  {
    assert NamedAll(hs, k + 1) == NamedAll(hs, k) + [Named(hs[k].value.name, hs[k].value)];
  }

  /** The data channel handlers of one connector, in the order they are filed. */
  function ChannelsOf(c: Configured): seq<Named<DataChannelHandler>> {
    match c
    case OneChannel(h) => if h.None? then [] else [Named(h.value.name, h.value)]
    case ManyChannels(hs) => NamedAll(hs, NonNull(hs))
    case _ => []
  }

  /** The handlers of the connector belong to the library its channels come from. */
  predicate InLibrary(c: Configured, library: Library) {
    forall h :: h in ChannelsOf(c) ==> h.handler.library == library
  }

  function TracksOf(c: Configured): seq<Named<MediaTrackHandler>> {
    if c.OneTrack? && c.track.Some? then [Named(c.track.value.name, c.track.value)] else []
  }

  /** The data channel handlers of the first `n` connectors. */
  function Channels(cs: seq<Configured>, n: nat): seq<Named<DataChannelHandler>>
    requires n <= |cs|
  {
    if n == 0 then [] else Channels(cs, n - 1) + ChannelsOf(cs[n - 1])
  }

  function ChannelLists(cs: seq<Configured>): (lists: seq<seq<Named<DataChannelHandler>>>)
    ensures |lists| == |cs| && forall i :: 0 <= i < |cs| ==> lists[i] == ChannelsOf(cs[i])
  {
    seq(|cs|, i requires 0 <= i < |cs| => ChannelsOf(cs[i]))
  }

  function Tracks(cs: seq<Configured>, n: nat): seq<Named<MediaTrackHandler>>
    requires n <= |cs|
  {
    if n == 0 then [] else Tracks(cs, n - 1) + TracksOf(cs[n - 1])
  }

  lemma {:induction false} ListsAreFlat(cs: seq<Configured>, n: nat)
    requires n <= |cs|
    ensures Channels(cs, n) == Flat(ChannelLists(cs), n) && Tracks(cs, n) == Flat(TrackLists(cs), n)
    decreases n
  {
    if n > 0 {
      ListsAreFlat(cs, n - 1);
    }
  }

  function TrackLists(cs: seq<Configured>): (lists: seq<seq<Named<MediaTrackHandler>>>)
    ensures |lists| == |cs| && forall i :: 0 <= i < |cs| ==> lists[i] == TracksOf(cs[i])
  {
    seq(|cs|, i requires 0 <= i < |cs| => TracksOf(cs[i]))
  }

  /** A null handler is called: only a connector with a single channel handler is checked for it. */
  predicate CallsNull(c: Configured) {
    (c.OneTrack? && c.track.None?) || (c.ManyChannels? && NonNull(c.channels) < |c.channels|)
  }

  /** The number of connectors before the first one that ends the loop. */
  function Reached(cs: seq<Configured>): (n: nat)
    ensures n <= |cs| && (n < |cs| ==> cs[n].Throwing? || CallsNull(cs[n]))
    ensures forall i :: 0 <= i < n ==> !cs[i].Throwing? && !CallsNull(cs[i])
  {
    ReachedFrom(cs, 0)
  }

  function ReachedFrom(cs: seq<Configured>, i: nat): (n: nat)
    requires i <= |cs| && forall j :: 0 <= j < i ==> !cs[j].Throwing? && !CallsNull(cs[j])
    ensures i <= n <= |cs| && (n < |cs| ==> cs[n].Throwing? || CallsNull(cs[n]))
    ensures forall j :: 0 <= j < n ==> !cs[j].Throwing? && !CallsNull(cs[j])
    decreases |cs| - i
  {
    if i == |cs| || cs[i].Throwing? || CallsNull(cs[i]) then i else ReachedFrom(cs, i + 1)
  }

  /** How the loop ends: after the last connector, by an exception of `Configure`, or at a null handler. */
  datatype Ending = Finished | Threw | NullHandler

  function EndingOf(cs: seq<Configured>): Ending {
    if Reached(cs) == |cs| then Finished else if cs[Reached(cs)].Throwing? then Threw else NullHandler
  }

  /** The connectors of which at least some handlers were filed. */
  function Seen(cs: seq<Configured>): (n: nat)
    ensures n <= |cs|
  {
    if EndingOf(cs).NullHandler? then Reached(cs) + 1 else Reached(cs)
  }

  lemma OneMoreConnector(cs: seq<Configured>, i: nat)
    requires i < |cs|
    ensures Channels(cs, i + 1) == Channels(cs, i) + ChannelsOf(cs[i])
    ensures Tracks(cs, i + 1) == Tracks(cs, i) + TracksOf(cs[i])
  {
  }

  lemma OneMoreHandler<H>(m: map<string, H>, hs: seq<Named<H>>, h: Named<H>)
    ensures FirstWins(m, hs + [h])
         == if h.name in FirstWins(m, hs) then FirstWins(m, hs) else FirstWins(m, hs)[h.name := h.handler]
    ensures LastWins(m, hs + [h]) == LastWins(m, hs)[h.name := h.handler]
  {
    assert (hs + [h])[..|hs|] == hs;
  }

  /** Where handlers are filed: the connector's registries and the configurer's own indexes. */
  datatype Filing = Filing(
    registry: map<string, DataChannelHandler>,
    index: map<string, DataChannelHandler>,
    tracks: map<string, MediaTrackHandler>,
    trackIndex: map<string, MediaTrackHandler>)

  /** Every handler filed in both places, each place under its own policy. */
  function FileAll(f: Filing, channels: seq<Named<DataChannelHandler>>, tracks: seq<Named<MediaTrackHandler>>): Filing {
    Filing(FirstWins(f.registry, channels), LastWins(f.index, channels), FirstWins(f.tracks, tracks),
           LastWins(f.trackIndex, tracks))
  }

  // What a reader of the connectors expects to find filed.

  /** The loop ends at this connector: its `Configure` throws, or it holds a null handler that is called. */
  predicate EndsLoop(c: Configured) {
    c.Throwing? || (c.OneTrack? && c.track == None) || (c.ManyChannels? && None in c.channels)
  }

  /** The loop comes to connector `i`. */
  predicate ComesTo(cs: seq<Configured>, i: nat) {
    i < |cs| && forall j :: 0 <= j < i ==> !EndsLoop(cs[j])
  }

  /** Member `k` of a connector with channel handlers; in a list with a null member those before it. */
  function Member(c: Configured, k: nat): Option<DataChannelHandler> {
    if c.OneChannel? && k == 0 then c.channel
    else if c.ManyChannels? && k < |c.channels| && None !in c.channels[..k] then c.channels[k]
    else None
  }

  /** A data channel handler is to be filed: member `k` of connector `i`. */
  predicate ChannelAt(cs: seq<Configured>, i: nat, k: nat) {
    ComesTo(cs, i) && Member(cs[i], k).Some?
  }

  function ChannelHandler(cs: seq<Configured>, i: nat, k: nat): DataChannelHandler
    requires ChannelAt(cs, i, k)
  {
    Member(cs[i], k).value
  }

  /** No handler of that name before it. */
  ghost predicate FirstChannel(cs: seq<Configured>, i: nat, k: nat)
    requires ChannelAt(cs, i, k)
  {
    forall j: nat, m: nat {:trigger ChannelAt(cs, j, m)} :: ChannelAt(cs, j, m) && Earlier(j, m, i, k) ==>
      ChannelHandler(cs, j, m).name != ChannelHandler(cs, i, k).name
  }

  /** No handler of that name after it. */
  ghost predicate LastChannel(cs: seq<Configured>, i: nat, k: nat)
    requires ChannelAt(cs, i, k)
  {
    forall j: nat, m: nat {:trigger ChannelAt(cs, j, m)} :: ChannelAt(cs, j, m) && Earlier(i, k, j, m) ==>
      ChannelHandler(cs, j, m).name != ChannelHandler(cs, i, k).name
  }

  ghost predicate ChannelNamed(cs: seq<Configured>, n: string) {
    exists i: nat, k: nat {:trigger ChannelAt(cs, i, k)} ::
      ChannelAt(cs, i, k) && ChannelHandler(cs, i, k).name == n
  }

  /**
  Every data channel handler of a connector that the loop comes to has its name in both places, and no name is there
  for another reason; the registry has kept what it had and holds the first handler of a name it did not have, the index
  the last handler of every name.
  */
  ghost predicate ChannelsFiled(cs: seq<Configured>, before: Filing, after: Filing) {
    && (forall n :: n in after.registry <==> n in before.registry || ChannelNamed(cs, n))
    && (forall n :: n in after.index <==> n in before.index || ChannelNamed(cs, n))
    && (forall n :: n in before.registry ==> after.registry[n] == before.registry[n])
    && (forall n :: n in before.index && !ChannelNamed(cs, n) ==> after.index[n] == before.index[n])
    && (forall i: nat, k: nat {:trigger ChannelAt(cs, i, k)} :: ChannelAt(cs, i, k) ==>
          var h := ChannelHandler(cs, i, k);
          && h.name in after.registry && h.name in after.index
          && (h.name !in before.registry && FirstChannel(cs, i, k) ==> after.registry[h.name] == h)
          && (LastChannel(cs, i, k) ==> after.index[h.name] == h))
  }

  /** A track handler is to be filed: that of connector `i`. */
  predicate TrackAt(cs: seq<Configured>, i: nat) {
    ComesTo(cs, i) && cs[i].OneTrack? && cs[i].track.Some?
  }

  function TrackHandler(cs: seq<Configured>, i: nat): MediaTrackHandler
    requires TrackAt(cs, i)
  {
    cs[i].track.value
  }

  ghost predicate TrackNamed(cs: seq<Configured>, n: string) {
    exists i: nat {:trigger TrackAt(cs, i)} :: TrackAt(cs, i) && TrackHandler(cs, i).name == n
  }

  ghost predicate FirstTrack(cs: seq<Configured>, i: nat)
    requires TrackAt(cs, i)
  {
    forall j: nat {:trigger TrackAt(cs, j)} :: TrackAt(cs, j) && j < i ==>
      TrackHandler(cs, j).name != TrackHandler(cs, i).name
  }

  ghost predicate LastTrack(cs: seq<Configured>, i: nat)
    requires TrackAt(cs, i)
  {
    forall j: nat {:trigger TrackAt(cs, j)} :: TrackAt(cs, j) && i < j ==>
      TrackHandler(cs, j).name != TrackHandler(cs, i).name
  }

  /** The same of the track handlers. */
  ghost predicate TracksFiled(cs: seq<Configured>, before: Filing, after: Filing) {
    && (forall n :: n in after.tracks <==> n in before.tracks || TrackNamed(cs, n))
    && (forall n :: n in after.trackIndex <==> n in before.trackIndex || TrackNamed(cs, n))
    && (forall n :: n in before.tracks ==> after.tracks[n] == before.tracks[n])
    && (forall n :: n in before.trackIndex && !TrackNamed(cs, n) ==> after.trackIndex[n] == before.trackIndex[n])
    && (forall i: nat {:trigger TrackAt(cs, i)} :: TrackAt(cs, i) ==>
          var h := TrackHandler(cs, i);
          && h.name in after.tracks && h.name in after.trackIndex
          && (h.name !in before.tracks && FirstTrack(cs, i) ==> after.tracks[h.name] == h)
          && (LastTrack(cs, i) ==> after.trackIndex[h.name] == h))
  }

  /** How the loop ends, told from the first connector that ends it. */
  ghost predicate EndsAs(cs: seq<Configured>, ending: Ending) {
    && (ending.Finished? <==> forall i :: 0 <= i < |cs| ==> !EndsLoop(cs[i]))
    && (ending.Threw? <==> exists i: nat :: ComesTo(cs, i) && cs[i].Throwing?)
    && (ending.NullHandler? <==> exists i: nat :: ComesTo(cs, i) && !cs[i].Throwing? && EndsLoop(cs[i]))
  }

  lemma NullIsNone(c: Configured)
    ensures CallsNull(c) <==> EndsLoop(c) && !c.Throwing?
  {
    if c.ManyChannels? && None in c.channels {
      assert NonNull(c.channels) < |c.channels|;
    }
  }

  /** The loop comes to exactly the connectors up to the first that ends it. */
  lemma ComesToReached(cs: seq<Configured>, i: nat)
    ensures ComesTo(cs, i) <==> i < |cs| && i <= Reached(cs)
  {
    forall j | 0 <= j < |cs|
      ensures CallsNull(cs[j]) <==> EndsLoop(cs[j]) && !cs[j].Throwing?
    {
      NullIsNone(cs[j]);
    }
  }

  lemma EndingToldApart(cs: seq<Configured>)
    ensures EndsAs(cs, EndingOf(cs))
  {
    forall i: nat
      ensures ComesTo(cs, i) <==> i < |cs| && i <= Reached(cs)
    {
      ComesToReached(cs, i);
    }
    forall j | 0 <= j < |cs|
      ensures CallsNull(cs[j]) <==> EndsLoop(cs[j]) && !cs[j].Throwing?
    {
      NullIsNone(cs[j]);
    }
    if Reached(cs) < |cs| {
      assert ComesTo(cs, Reached(cs)) && EndsLoop(cs[Reached(cs)]);
    }
  }

  /** What is to be filed is what is listed, member by member. */
  lemma ListedMember(c: Configured, k: nat)
    ensures Member(c, k).Some? <==> k < |ChannelsOf(c)|
    ensures k < |ChannelsOf(c)| ==> ChannelsOf(c)[k] == Named(Member(c, k).value.name, Member(c, k).value)
  {
    if c.ManyChannels? {
      var n := NonNull(c.channels);
      if k < |c.channels| && n <= k {
        assert n < k ==> c.channels[..k][n] == None;
      }
    }
  }

  /** A connector of which something is to be filed is among those listed. */
  lemma ListedConnector(cs: seq<Configured>, i: nat)
    ensures ComesTo(cs, i) && !cs[i].Throwing? ==> i < Seen(cs)
    ensures i < Seen(cs) ==> ComesTo(cs, i)
  {
    ComesToReached(cs, i);
  }

  lemma ChannelListed(cs: seq<Configured>, i: nat, k: nat)
    ensures ChannelAt(cs, i, k) <==> InLists(ChannelLists(cs), Seen(cs), i, k)
    ensures ChannelAt(cs, i, k) ==>
      var h := ChannelHandler(cs, i, k); ChannelLists(cs)[i][k] == Named(h.name, h)
  {
    ListedConnector(cs, i);
    if i < |cs| {
      ListedMember(cs[i], k);
    }
  }

  lemma ChannelsListed(cs: seq<Configured>)
    ensures forall i: nat, k: nat {:trigger ChannelAt(cs, i, k)} {:trigger InLists(ChannelLists(cs), Seen(cs), i, k)} ::
      && (ChannelAt(cs, i, k) <==> InLists(ChannelLists(cs), Seen(cs), i, k))
      && (ChannelAt(cs, i, k) ==>
            ChannelLists(cs)[i][k] == Named(ChannelHandler(cs, i, k).name, ChannelHandler(cs, i, k)))
  {
    forall i: nat, k: nat
      ensures ChannelAt(cs, i, k) <==> InLists(ChannelLists(cs), Seen(cs), i, k)
      ensures ChannelAt(cs, i, k) ==>
        ChannelLists(cs)[i][k] == Named(ChannelHandler(cs, i, k).name, ChannelHandler(cs, i, k))
    {
      ChannelListed(cs, i, k);
    }
  }

  lemma ChannelIsFiled(cs: seq<Configured>, i: nat, k: nat, registry: map<string, DataChannelHandler>,
                       index: map<string, DataChannelHandler>)
    requires ChannelAt(cs, i, k)
    ensures var h, hs := ChannelHandler(cs, i, k), Channels(cs, Seen(cs));
      && h.name in FirstWins(registry, hs) && h.name in LastWins(index, hs)
      && (h.name !in registry && FirstChannel(cs, i, k) ==> FirstWins(registry, hs)[h.name] == h)
      && (LastChannel(cs, i, k) ==> LastWins(index, hs)[h.name] == h)
  {
    ChannelsListed(cs);
    ListsAreFlat(cs, Seen(cs));
    FiledFromLists(ChannelLists(cs), Seen(cs), i, k, registry, index);
  }

  lemma ChannelNameListed(cs: seq<Configured>, n: string)
    ensures Uses(Channels(cs, Seen(cs)), n) <==> ChannelNamed(cs, n)
  {
    ChannelsListed(cs);
    ListsAreFlat(cs, Seen(cs));
    NamesFlat(ChannelLists(cs), Seen(cs), n);
  }

  lemma ChannelsAreFiled(cs: seq<Configured>, before: Filing)
    ensures ChannelsFiled(cs, before, FileAll(before, Channels(cs, Seen(cs)), Tracks(cs, Seen(cs))))
  {
    var hs := Channels(cs, Seen(cs));
    forall n
      ensures n in FirstWins(before.registry, hs) <==> n in before.registry || ChannelNamed(cs, n)
      ensures n in LastWins(before.index, hs) <==> n in before.index || ChannelNamed(cs, n)
      ensures n in before.registry ==> FirstWins(before.registry, hs)[n] == before.registry[n]
      ensures n in before.index && !ChannelNamed(cs, n) ==> LastWins(before.index, hs)[n] == before.index[n]
    {
      RegistryNames(before.registry, hs, n);
      IndexNames(before.index, hs, n);
      ChannelNameListed(cs, n);
    }
    forall i: nat, k: nat | ChannelAt(cs, i, k)
      ensures var h := ChannelHandler(cs, i, k);
        && h.name in FirstWins(before.registry, hs) && h.name in LastWins(before.index, hs)
        && (h.name !in before.registry && FirstChannel(cs, i, k) ==> FirstWins(before.registry, hs)[h.name] == h)
        && (LastChannel(cs, i, k) ==> LastWins(before.index, hs)[h.name] == h)
    {
      ChannelIsFiled(cs, i, k, before.registry, before.index);
    }
  }

  lemma TrackListed(cs: seq<Configured>, i: nat, k: nat)
    ensures InLists(TrackLists(cs), Seen(cs), i, k) <==> k == 0 && TrackAt(cs, i)
    ensures TrackAt(cs, i) ==> var h := TrackHandler(cs, i); TrackLists(cs)[i] == [Named(h.name, h)]
  {
    ListedConnector(cs, i);
  }

  lemma TracksListed(cs: seq<Configured>)
    ensures forall i: nat, k: nat {:trigger InLists(TrackLists(cs), Seen(cs), i, k)} ::
      InLists(TrackLists(cs), Seen(cs), i, k) <==> k == 0 && TrackAt(cs, i)
    ensures forall i: nat {:trigger TrackAt(cs, i)} :: TrackAt(cs, i) ==>
      && InLists(TrackLists(cs), Seen(cs), i, 0)
      && TrackLists(cs)[i][0] == Named(TrackHandler(cs, i).name, TrackHandler(cs, i))
  {
    forall i: nat, k: nat
      ensures InLists(TrackLists(cs), Seen(cs), i, k) <==> k == 0 && TrackAt(cs, i)
    {
      TrackListed(cs, i, k);
    }
    forall i: nat | TrackAt(cs, i)
      ensures InLists(TrackLists(cs), Seen(cs), i, 0)
      ensures TrackLists(cs)[i][0] == Named(TrackHandler(cs, i).name, TrackHandler(cs, i))
    {
      TrackListed(cs, i, 0);
    }
  }

  lemma TrackIsFiled(cs: seq<Configured>, i: nat, registry: map<string, MediaTrackHandler>,
                     index: map<string, MediaTrackHandler>)
    requires TrackAt(cs, i)
    ensures var h, hs := TrackHandler(cs, i), Tracks(cs, Seen(cs));
      && h.name in FirstWins(registry, hs) && h.name in LastWins(index, hs)
      && (h.name !in registry && FirstTrack(cs, i) ==> FirstWins(registry, hs)[h.name] == h)
      && (LastTrack(cs, i) ==> LastWins(index, hs)[h.name] == h)
  {
    TracksListed(cs);
    ListsAreFlat(cs, Seen(cs));
    FiledFromLists(TrackLists(cs), Seen(cs), i, 0, registry, index);
  }

  lemma TrackNameListed(cs: seq<Configured>, n: string)
    ensures Uses(Tracks(cs, Seen(cs)), n) <==> TrackNamed(cs, n)
  {
    TracksListed(cs);
    ListsAreFlat(cs, Seen(cs));
    NamesFlat(TrackLists(cs), Seen(cs), n);
  }

  lemma TracksAreFiled(cs: seq<Configured>, before: Filing)
    ensures TracksFiled(cs, before, FileAll(before, Channels(cs, Seen(cs)), Tracks(cs, Seen(cs))))
  {
    var hs := Tracks(cs, Seen(cs));
    forall n
      ensures n in FirstWins(before.tracks, hs) <==> n in before.tracks || TrackNamed(cs, n)
      ensures n in LastWins(before.trackIndex, hs) <==> n in before.trackIndex || TrackNamed(cs, n)
      ensures n in before.tracks ==> FirstWins(before.tracks, hs)[n] == before.tracks[n]
      ensures n in before.trackIndex && !TrackNamed(cs, n) ==>
        LastWins(before.trackIndex, hs)[n] == before.trackIndex[n]
    {
      RegistryNames(before.tracks, hs, n);
      IndexNames(before.trackIndex, hs, n);
      TrackNameListed(cs, n);
    }
    forall i: nat | TrackAt(cs, i)
      ensures var h := TrackHandler(cs, i);
        && h.name in FirstWins(before.tracks, hs) && h.name in LastWins(before.trackIndex, hs)
        && (h.name !in before.tracks && FirstTrack(cs, i) ==> FirstWins(before.tracks, hs)[h.name] == h)
        && (LastTrack(cs, i) ==> LastWins(before.trackIndex, hs)[h.name] == h)
    {
      TrackIsFiled(cs, i, before.tracks, before.trackIndex);
    }
  }

  class AutoConfigurer {
    const connector: MosaicConnector
    var configurables: seq<ConfigurableConnector>
    var dcHandlers: map<string, DataChannelHandler>
    var mtHandlers: map<string, MediaTrackHandler>

    constructor (connector: MosaicConnector)
      ensures this.connector == connector && configurables == [] && dcHandlers == map[] && mtHandlers == map[]
    {
      this.connector, configurables, dcHandlers, mtHandlers := connector, [], map[], map[];
    }

    /** A connector handed out once keeps its own entry; handed out again, it has the entry it was given last. */
    method ResolveConnectors(es: seq<Entry>)
      modifies this`configurables, set e | e in es && e.made != null :: e.made
      ensures |configurables| == |old(configurables)| + |Kept(es)|
      ensures configurables[..|old(configurables)|] == old(configurables)
      ensures forall k :: 0 <= k < |Kept(es)| ==>
        Kept(es)[k] < |es| && configurables[|old(configurables)| + k] == es[Kept(es)[k]].made
      ensures forall i :: 0 <= i < |es| && LastUse(es, i) ==> es[i].made.config == Some(es[i].config)
    {
      KeptExactly(es);
      var i := 0;
      while i < |es|
        invariant 0 <= i <= |es|
        invariant |configurables| == |old(configurables)| + |Kept(es[..i])|
        invariant configurables[..|old(configurables)|] == old(configurables)
        invariant forall k :: 0 <= k < |Kept(es[..i])| ==>
          Kept(es[..i])[k] < i && configurables[|old(configurables)| + k] == es[Kept(es[..i])[k]].made
        invariant forall j :: 0 <= j < i && LastUse(es[..i], j) ==> es[j].made.config == Some(es[j].config)
      {
        var e := es[i];
        assert es[..i + 1][..i] == es[..i];
        assert forall j :: 0 <= j < i && LastUse(es[..i + 1], j) ==> LastUse(es[..i], j);
        i := i + 1;
        if !e.supported || e.made == null {
          continue;
        }
        e.made.SetConfig(e.config);
        if !e.valid {
          continue;
        }
        configurables := configurables + [e.made];
      }
      assert es[..|es|] == es;
    }

    ghost function Filed(): Filing
      reads this, connector
    {
      Filing(connector.channels, dcHandlers, connector.tracks, mtHandlers)
    }

    /**
    Files the handlers of the connectors. A connector whose `Configure` throws ends it, with the handlers of the
    connectors before it filed; a null handler ends the process, with the handlers before it filed.
    */
    method ConfigureConnectors(cs: seq<Configured>) returns (ending: Ending)
      requires connector.Valid() && forall c :: c in cs ==> InLibrary(c, connector.library)
      modifies connector`channels, connector`tracks, this`dcHandlers, this`mtHandlers
      ensures connector.Valid() && EndsAs(cs, ending)
      ensures ChannelsFiled(cs, old(Filed()), Filed()) && TracksFiled(cs, old(Filed()), Filed())
    {
      EndingToldApart(cs);
      ChannelsAreFiled(cs, Filed());
      TracksAreFiled(cs, Filed());
      ending := FileConnectors(cs);
    }

    /** The same, told from the lists of handlers in the order they are filed. */
    method FileConnectors(cs: seq<Configured>) returns (ending: Ending)
      requires connector.Valid() && forall c :: c in cs ==> InLibrary(c, connector.library)
      modifies connector`channels, connector`tracks, this`dcHandlers, this`mtHandlers
      ensures connector.Valid() && ending == EndingOf(cs)
      ensures Filed() == FileAll(old(Filed()), Channels(cs, Seen(cs)), Tracks(cs, Seen(cs)))
    {
      ghost var first := Filed();
      ghost var channels, tracks := Channels(cs, 0), Tracks(cs, 0);
      var i := 0;
      while i < |cs|
        invariant 0 <= i <= Reached(cs) && connector.Valid()
        invariant channels == Channels(cs, i) && tracks == Tracks(cs, i)
        invariant Filed() == FileAll(first, channels, tracks)
      {
        if cs[i].Throwing? {
          return Threw;
        }
        OneMoreConnector(cs, i);
        var nullMet := FileConnector(cs[i], first, channels, tracks);
        channels, tracks, i := channels + ChannelsOf(cs[i]), tracks + TracksOf(cs[i]), i + 1;
        if nullMet {
          return NullHandler;
        }
      }
      ending := Finished;
    }

    /** The handlers of one connector; the ghost arguments are what was there at first and what was filed since. */
    method FileConnector(c: Configured, ghost first: Filing, ghost channels: seq<Named<DataChannelHandler>>,
                         ghost tracks: seq<Named<MediaTrackHandler>>)
      returns (nullMet: bool)
      requires connector.Valid() && InLibrary(c, connector.library)
      requires Filed() == FileAll(first, channels, tracks)
      modifies connector`channels, connector`tracks, this`dcHandlers, this`mtHandlers
      ensures connector.Valid() && nullMet == CallsNull(c)
      ensures Filed() == FileAll(first, channels + ChannelsOf(c), tracks + TracksOf(c))
    {
      nullMet := false;
      if c.OneChannel? && c.channel.Some? {
        assert ChannelsOf(c)[0].handler == c.channel.value;
        FileChannel(c.channel.value, first, channels, tracks);
      } else if c.ManyChannels? {
        assert forall k :: 0 <= k < NonNull(c.channels) ==> ChannelsOf(c)[k].handler == c.channels[k].value;
        nullMet := FileChannels(c.channels, first, channels, tracks);
      } else if c.OneTrack? {
        if c.track.None? {
          nullMet := true;
        } else {
          FileTrack(c.track.value, first, channels, tracks);
        }
      }
      assert channels + [] == channels && tracks + [] == tracks;
    }

    method FileTrack(h: MediaTrackHandler, ghost first: Filing, ghost channels: seq<Named<DataChannelHandler>>,
                     ghost tracks: seq<Named<MediaTrackHandler>>)
      requires connector.Valid() && Filed() == FileAll(first, channels, tracks)
      modifies connector`tracks, this`mtHandlers
      ensures connector.Valid() && Filed() == FileAll(first, channels, tracks + [Named(h.name, h)])
    {
      OneMoreHandler(first.tracks, tracks, Named(h.name, h));
      OneMoreHandler(first.trackIndex, tracks, Named(h.name, h));
      connector.AddMediaTrackHandler(h);
      mtHandlers := mtHandlers[h.name := h];
    }

    method FileChannel(h: DataChannelHandler, ghost first: Filing, ghost channels: seq<Named<DataChannelHandler>>,
                       ghost tracks: seq<Named<MediaTrackHandler>>)
      requires connector.Valid() && h.library == connector.library
      requires Filed() == FileAll(first, channels, tracks)
      modifies connector`channels, this`dcHandlers
      ensures connector.Valid() && Filed() == FileAll(first, channels + [Named(h.name, h)], tracks)
    {
      OneMoreHandler(first.registry, channels, Named(h.name, h));
      OneMoreHandler(first.index, channels, Named(h.name, h));
      connector.AddDataChannelHandler(h);
      dcHandlers := dcHandlers[h.name := h];
    }

    method FileChannels(hs: seq<Option<DataChannelHandler>>, ghost first: Filing,
                        ghost channels: seq<Named<DataChannelHandler>>, ghost tracks: seq<Named<MediaTrackHandler>>)
      returns (nullMet: bool)
      requires connector.Valid() && forall k :: 0 <= k < NonNull(hs) ==> hs[k].value.library == connector.library
      requires Filed() == FileAll(first, channels, tracks)
      modifies connector`channels, this`dcHandlers
      ensures connector.Valid() && Filed() == FileAll(first, channels + NamedAll(hs, NonNull(hs)), tracks)
      ensures nullMet <==> NonNull(hs) < |hs|
    {
      ghost var filed := channels;
      assert channels + NamedAll(hs, 0) == channels;
      var k := 0;
      while k < |hs|
        invariant 0 <= k <= NonNull(hs) && connector.Valid()
        invariant filed == channels + NamedAll(hs, k)
        invariant Filed() == FileAll(first, filed, tracks)
      {
        if hs[k].None? {
          return true;
        }
        OneMoreNamed(channels, hs, k);
        FileChannel(hs[k].value, first, filed, tracks);
        filed, k := filed + [Named(hs[k].value.name, hs[k].value)], k + 1;
      }
      nullMet := false;
    }
  }

  const RECEIVER := "-receiver"
  const SENDER := "-sender"

  /** `ConnectionCheckDCHandlerConfigurer`. */
  class ConnectionCheckConfigurer {
    const name: string
    var handlers: seq<DataChannelHandler>

    constructor (name: string)
      ensures this.name == name && handlers == []
    {
      this.name, handlers := name, [];
    }

    /** Makes the pair, links it, and files the receiver before the sender. */
    method Configure(library: Library, receiverId: nat, senderId: nat) returns (receiver: ConnectionCheckReceiver)
      modifies this
      ensures fresh(receiver) && fresh(receiver.handler) && receiver.sender != null && fresh(receiver.sender)
      ensures handlers == old(handlers) + [receiver.handler, receiver.sender]
      ensures receiver.handler != receiver.sender
      ensures receiver.handler.name == name + RECEIVER && receiver.sender.name == name + SENDER
      ensures receiver.handler.library == library == receiver.sender.library
    {
      var sender := new DataChannelHandler(name + SENDER, senderId, library);
      var handler := new DataChannelHandler(name + RECEIVER, receiverId, library);
      receiver := new ConnectionCheckReceiver(handler);
      receiver.SetSender(sender);
      handlers := handlers + [handler];
      handlers := handlers + [sender];
    }
  }

  /** Name number `k` of those that the connection checks of some labels use, in the order they are filed. */
  function CheckName(names: seq<string>, k: nat): string
    requires k < 2 * |names|
  {
    if k % 2 == 0 then names[k / 2] + RECEIVER else names[k / 2] + SENDER
  }

  /** A receiver's name is no sender's, and either comes from one label only. */
  lemma CheckNamesDistinct(a: string, b: string)
    ensures a + RECEIVER != b + SENDER
    ensures a + RECEIVER == b + RECEIVER ==> a == b
    ensures a + SENDER == b + SENDER ==> a == b
  {
    var r, s := a + RECEIVER, b + SENDER;
    assert r[|r| - 3] == 'v' && s[|s| - 3] == 'd';
    if a + RECEIVER == b + RECEIVER {
      assert a == (a + RECEIVER)[..|a|] && b == (b + RECEIVER)[..|b|];
    }
    if a + SENDER == b + SENDER {
      assert a == (a + SENDER)[..|a|] && b == (b + SENDER)[..|b|];
    }
  }

  /** The handlers of connection checks, every check with two handlers of its own. */
  function CheckHandlers<H>(names: seq<string>, handlers: seq<H>): seq<Named<H>>
    requires |handlers| == 2 * |names|
  {
    seq(|handlers|, k requires 0 <= k < |handlers| => Named(CheckName(names, k), handlers[k]))
  }

  lemma SameCheckName(names: seq<string>, i: nat, j: nat)
    requires i < j < 2 * |names|
    ensures CheckName(names, i) == CheckName(names, j) <==> i % 2 == j % 2 && names[i / 2] == names[j / 2]
    ensures i % 2 == j % 2 ==> i / 2 < j / 2
  {
    CheckNamesDistinct(names[i / 2], names[j / 2]);
    CheckNamesDistinct(names[j / 2], names[i / 2]);
  }

  predicate Distinct(names: seq<string>) {
    forall i, j :: 0 <= i < j < |names| ==> names[i] != names[j]
  }

  lemma DistinctChecks<H>(names: seq<string>, handlers: seq<H>)
    requires |handlers| == 2 * |names| && Distinct(names)
    ensures NoNameShared(CheckHandlers(names, handlers))
  {
    var hs := CheckHandlers(names, handlers);
    forall i: nat, j: nat | i < j < |hs|
      ensures hs[i].name != hs[j].name
    {
      SameCheckName(names, i, j);
    }
  }

  lemma RepeatedCheck<H>(names: seq<string>, handlers: seq<H>, i: nat, j: nat)
    requires |handlers| == 2 * |names| && i < j < |names| && names[i] == names[j]
    requires handlers[2 * i] != handlers[2 * j]
    ensures !NoNameShared(CheckHandlers(names, handlers))
  {
    var hs := CheckHandlers(names, handlers);
    SameCheckName(names, 2 * i, 2 * j);
    assert hs[2 * i].name == hs[2 * j].name && hs[2 * i].handler != hs[2 * j].handler;
  }

  /** Connection checks are filed alike in both indexes exactly when no two of them have the same label. */
  lemma ChecksNeverCollide<H>(names: seq<string>, handlers: seq<H>)
    requires |handlers| == 2 * |names|
    requires forall i, j :: 0 <= i < j < |handlers| ==> handlers[i] != handlers[j]
    ensures var hs := CheckHandlers(names, handlers);
      FirstWins(map[], hs) == LastWins(map[], hs) <==> Distinct(names)
  {
    var hs := CheckHandlers(names, handlers);
    assert forall i :: 0 <= i < |hs| ==> hs[i].handler == handlers[i];
    IndexesAgreeOnDistinct(hs);
    if Distinct(names) {
      DistinctChecks(names, handlers);
    } else {
      var i: nat, j: nat :| i < j < |names| && names[i] == names[j];
      RepeatedCheck(names, handlers, i, j);
    }
  }
}
