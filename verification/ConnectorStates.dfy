/** The seven connector states, their wire codes, and the lifecycle graph they are meant to follow. */
module ConnectorStates {
  datatype State =
    | Initializing
    | ReadyToConnect
    | RtcConnecting
    | RtcConnected
    | RtcDisconnecting
    | RtcFailed
    | Disconnected

  const NO_STATE := -1

  /** The code sent in a status frame. */
  function StateToInt(s: State): int {
    match s
    case Initializing => 6
    case ReadyToConnect => 0
    case RtcConnecting => 1
    case RtcConnected => 2
    case RtcDisconnecting => 3
    case RtcFailed => 4
    case Disconnected => 5
  }

  /** What a receiver of a status frame reads back. */
  function IntToState(code: int): State
    requires 0 <= code <= 6
  {
    match code
    case 0 => ReadyToConnect
    case 1 => RtcConnecting
    case 2 => RtcConnected
    case 3 => RtcDisconnecting
    case 4 => RtcFailed
    case 5 => Disconnected
    case _ => Initializing
  }

  /** The codes are exactly 0..6, none of them the "nothing recorded" mark, and each is decoded to its state. */
  lemma CodesRoundTrip(s: State)
    ensures 0 <= StateToInt(s) <= 6
    ensures StateToInt(s) != NO_STATE
    ensures IntToState(StateToInt(s)) == s
    ensures StateToInt(ReadyToConnect) == 0 && StateToInt(RtcConnecting) == 1 && StateToInt(RtcConnected) == 2
    ensures StateToInt(RtcDisconnecting) == 3 && StateToInt(RtcFailed) == 4 && StateToInt(Disconnected) == 5
    ensures StateToInt(Initializing) == 6
  {
  }

  /** The states in which a connection is being built or is up. */
  predicate Active(s: State) {
    s.RtcConnecting? || s.RtcConnected?
  }

  /** The intended lifecycle graph. */
  predicate Edge(a: State, b: State) {
    match b
    case Initializing => false
    case ReadyToConnect => a.Initializing? || a.RtcDisconnecting?
    case RtcConnecting => a.ReadyToConnect?
    case RtcConnected => Active(a)
    case RtcDisconnecting => Active(a)
    case RtcFailed => a.RtcConnecting?
    case Disconnected => true
  }

  /** The graph the states keep to when a status frame may fail: a connection not closed after all can still come up. */
  predicate LooseEdge(a: State, b: State) {
    Edge(a, b) || (b.RtcConnected? && (a.RtcDisconnecting? || a.Disconnected?))
  }

  /** Where such a path ends. */
  function EndOf(first: State, emitted: seq<State>): State {
    if emitted == [] then first else emitted[|emitted| - 1]
  }

  /** The states a manager passes through when it starts in `first` and announces `emitted`. */
  predicate IsPath(first: State, emitted: seq<State>) {
    forall i {:trigger emitted[..i]} :: 0 <= i < |emitted| ==> Edge(EndOf(first, emitted[..i]), emitted[i])
  }

  predicate IsLoosePath(first: State, emitted: seq<State>) {
    forall i {:trigger emitted[..i]} :: 0 <= i < |emitted| ==> LooseEdge(EndOf(first, emitted[..i]), emitted[i])
  }
}
