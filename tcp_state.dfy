/**
 * Practice/state/TCPConnectionClient.java: a connection that forwards open,
 * close and acknowledge to its current state object. The states' answers
 * are fixed; only setState changes which state is current. The printed
 * lines become response values.
 */
module TcpState {

  datatype TCPState = TCPEstablished | TCPListen | TCPClosed

  datatype Response =
    | AlreadyEstablished
    | Opening
    | Closing
    | AlreadyClosed
    | Acknowledging
    | NotEstablishedYet

  /** open(): an established connection reports it is already established; the other states open it. */
  function OpenResponse(s: TCPState): (r: Response)
    ensures r == AlreadyEstablished <==> s == TCPEstablished
    ensures r != AlreadyEstablished ==> r == Opening
  {
    match s
    case TCPEstablished => AlreadyEstablished
    case TCPListen => Opening
    case TCPClosed => Opening
  }

  /** close(): only an established connection is closed; the other states report it is already closed. */
  function CloseResponse(s: TCPState): (r: Response)
    ensures r == Closing <==> s == TCPEstablished
    ensures r != Closing ==> r == AlreadyClosed
  {
    match s
    case TCPEstablished => Closing
    case TCPListen => AlreadyClosed
    case TCPClosed => AlreadyClosed
  }

  /** acknowledge(): only an established connection acknowledges; the other states report it is not established yet. */
  function AcknowledgeResponse(s: TCPState): (r: Response)
    ensures r == Acknowledging <==> s == TCPEstablished
    ensures r != Acknowledging ==> r == NotEstablishedYet
  {
    match s
    case TCPEstablished => Acknowledging
    case TCPListen => NotEstablishedYet
    case TCPClosed => NotEstablishedYet
  }

  /** The three answers of a state, in the order open, acknowledge, close. */
  function Answers(s: TCPState): seq<Response>
  {
    [OpenResponse(s), AcknowledgeResponse(s), CloseResponse(s)]
  }

  /**
   * Listen and Closed cannot be told apart by any operation, and an
   * established connection answers every operation differently from them.
   */
  lemma ListenAndClosedAgree()
    ensures Answers(TCPListen) == Answers(TCPClosed)
    ensures forall i :: 0 <= i < 3 ==> Answers(TCPEstablished)[i] != Answers(TCPClosed)[i]
    ensures forall s :: Answers(s) == Answers(TCPEstablished) <==> s == TCPEstablished
  {
    assert Answers(TCPListen)[0] != Answers(TCPEstablished)[0];
    assert Answers(TCPClosed)[0] != Answers(TCPEstablished)[0];
  }

  class TCPConnection {
    var state: TCPState

    /** The initial state is the one given. */
    constructor (state: TCPState)
      ensures this.state == state
    {
      this.state := state;
    }

    method SetState(state: TCPState)
      modifies this
      ensures this.state == state
    {
      this.state := state;
    }

    /** open: the current state's answer; the state stays. */
    method Open() returns (r: Response)
      ensures r == OpenResponse(state)
    {
      r := OpenResponse(state);
    }

    method Close() returns (r: Response)
      ensures r == CloseResponse(state)
    {
      r := CloseResponse(state);
    }

    method Acknowledge() returns (r: Response)
      ensures r == AcknowledgeResponse(state)
    {
      r := AcknowledgeResponse(state);
    }
  }

  /** The client's run: three passes of open, acknowledge, close through Closed, Listen and Established. */
  method ConnectionClient() returns (answers: seq<Response>)
    ensures answers == Answers(TCPClosed) + Answers(TCPListen) + Answers(TCPEstablished)
    ensures answers[..6] == [Opening, NotEstablishedYet, AlreadyClosed, Opening, NotEstablishedYet, AlreadyClosed]
    ensures answers[6..] == [AlreadyEstablished, Acknowledging, Closing]
  {
    var connection := new TCPConnection(TCPClosed);
    var o1 := connection.Open();
    var a1 := connection.Acknowledge();
    var c1 := connection.Close();
    connection.SetState(TCPListen);
    var o2 := connection.Open();
    var a2 := connection.Acknowledge();
    var c2 := connection.Close();
    connection.SetState(TCPEstablished);
    var o3 := connection.Open();
    var a3 := connection.Acknowledge();
    var c3 := connection.Close();
    answers := [o1, a1, c1, o2, a2, c2, o3, a3, c3];
  }
}
