/** The states of a connection, in the order of its life. */
module ConnStates {
  datatype ConnState = Connecting | Connected | Disconnecting | Disconnected

  function Rank(c: ConnState): nat {
    match c
    case Connecting => 0
    case Connected => 1
    case Disconnecting => 2
    case Disconnected => 3
  }
}
