/**
 The states of one realtime voice session and the moves between them.
 `Accepts` is the transition table; `SessionMachine` is the object that
 `webrtc_session.rs` threads through a whole session.
 */
module SessionStates {
  datatype SessionState =
    | Disconnected
    | Connecting
    | Ready
    | Capturing
    | Responding
    | Cancelling
    | Reconnecting
    | ShuttingDown
    | Closed
    | Failed

  /** True iff the machine takes the move; staying where it is is always taken. */
  predicate Accepts(from: SessionState, to: SessionState) {
    from == to ||
    match from
    case Disconnected => to.Connecting?
    case Connecting => to.Ready? || to.Reconnecting? || to.Failed? || to.ShuttingDown?
    case Ready =>
      to.Capturing? || to.Responding? || to.Cancelling? || to.ShuttingDown? || to.Reconnecting? || to.Failed?
    case Capturing => to.Responding? || to.Cancelling? || to.ShuttingDown? || to.Reconnecting? || to.Failed?
    case Responding =>
      to.Capturing? || to.Ready? || to.Cancelling? || to.ShuttingDown? || to.Reconnecting? || to.Failed?
    case Cancelling => to.Ready? || to.ShuttingDown? || to.Reconnecting? || to.Failed?
    case Reconnecting => to.Connecting? || to.ShuttingDown? || to.Failed?
    case Failed => to.Reconnecting? || to.ShuttingDown? || to.Closed?
    case ShuttingDown => to.Closed?
    case Closed => false
  }

  /** The table read the other way: from where each state can be entered. */
  lemma EnteredFrom(from: SessionState, to: SessionState)
    requires from != to
    ensures var live := from.Ready? || from.Capturing? || from.Responding?;
            Accepts(from, to) <==>
            match to
            case Disconnected => false
            case Connecting => from.Disconnected? || from.Reconnecting?
            case Ready => from.Connecting? || from.Responding? || from.Cancelling?
            case Capturing => from.Ready? || from.Responding?
            case Responding => from.Ready? || from.Capturing?
            case Cancelling => live
            case Reconnecting => live || from.Connecting? || from.Cancelling? || from.Failed?
            case ShuttingDown => !from.Disconnected? && !from.Closed?
            case Closed => from.ShuttingDown? || from.Failed?
            case Failed => live || from.Connecting? || from.Cancelling? || from.Reconnecting?
  {
  }

  class SessionMachine {
    var state: SessionState

    constructor ()
      ensures state == Disconnected
    {
      state := Disconnected;
    }

    /** Moves to `to`, or refuses and stays. */
    method Transition(to: SessionState) returns (ok: bool)
      modifies this
      ensures ok == Accepts(old(state), to)
      ensures state == if ok then to else old(state)
    {
      ok := Accepts(state, to);
      if ok {
        state := to;
      }
    }
  }

  /** The states a machine is in after asking for each move in turn, refused moves included. */
  function After(from: SessionState, moves: seq<SessionState>): SessionState
    decreases |moves|
  {
    if moves == [] then from
    else After(if Accepts(from, moves[0]) then moves[0] else from, moves[1..])
  }

  /** Shutting down is final: whatever is asked for afterwards, the machine can only close. */
  lemma {:induction false} ShutdownIsFinal(from: SessionState, moves: seq<SessionState>)
    requires from.ShuttingDown? || from.Closed?
    ensures After(from, moves).ShuttingDown? || After(from, moves).Closed?
    ensures After(from, moves).Closed? <==> from.Closed? || Closed in moves
    decreases |moves|
  {
    if moves != [] {
      var next := if Accepts(from, moves[0]) then moves[0] else from;
      ShutdownIsFinal(next, moves[1..]);
      assert moves == [moves[0]] + moves[1..];
    }
  }
}
