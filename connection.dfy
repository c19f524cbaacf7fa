/**
 * The view's single WebSocket link: its ready state, the label the
 * connect button shows for it, and the rule a click on that button follows.
 */
module Connection {
  import opened Options

  /** `WebSocket.readyState`: CONNECTING, OPEN, CLOSING, CLOSED. */
  datatype ReadyState = Connecting | Open | Closing | Closed

  /**
   * The connect button's label for the current connection's ready state
   * (`None` when there is no connection, displayed as CLOSED).
   */
  function ButtonLabel(conn: Option<ReadyState>): (text: string)
    ensures conn.None? ==> text == "Connect to Server"
    ensures text == "Disconnect" <==> conn == Some(Open)
    ensures text == "Connect to Server" <==> conn.None? || conn == Some(Closed)
    ensures text == "Connecting..." <==> conn == Some(Connecting)
    ensures text == "Disconnecting..." <==> conn == Some(Closing)
  {
    var state := if conn.Some? then conn.value else Closed;
    match state
    case Open => "Disconnect"
    case Closed => "Connect to Server"
    case Connecting => "Connecting..."
    case Closing => "Disconnecting..."
  }

  /** What a click on the connect button does. */
  datatype ClickOutcome = CloseConnection | Ignore | Connect(url: string)

  /**
   * The click rule, given the current connection's ready state and what the
   * URL prompt would answer (`None` for a cancelled prompt). The prompt is
   * only shown when there is no connection.
   */
  function ClickDecision(conn: Option<ReadyState>, answer: Option<string>): (d: ClickOutcome)
    ensures d.CloseConnection? <==> conn == Some(Open)
    ensures d.Connect? <==> conn.None? && answer.Some? && answer.value != ""
    ensures d.Connect? ==> d.url == answer.value
  {
    if conn.Some? then
      (if conn.value == Open then CloseConnection else Ignore)
    else if answer.None? || answer.value == "" then Ignore
    else Connect(answer.value)
  }

  /**
   * The button offers what the click does: it reads "Disconnect" exactly
   * when a click closes the connection, and, for any connection that is not
   * already CLOSED, "Connect to Server" exactly when a click with a
   * non-empty URL opens a new one.
   */
  lemma LabelAgreesWithClick(conn: Option<ReadyState>, answer: Option<string>)
    ensures ButtonLabel(conn) == "Disconnect" <==> ClickDecision(conn, answer) == CloseConnection
    ensures conn != Some(Closed) && answer.Some? && answer.value != "" ==>
      (ButtonLabel(conn) == "Connect to Server" <==> ClickDecision(conn, answer) == Connect(answer.value))
  {
  }

  /** One WebSocket the view created. */
  class Socket {
    const url: string
    var readyState: ReadyState
    /** The `wasConnected` flag shared by the callbacks registered on this socket. */
    var wasConnected: bool
    /** Every message handed to `send`, oldest first. */
    var sent: seq<string>

    constructor (url: string)
      ensures this.url == url
      ensures readyState == Connecting && !wasConnected && sent == []
    {
      this.url := url;
      readyState := Connecting;
      wasConnected := false;
      sent := [];
    }

    method Send(data: string)
      modifies this`sent
      ensures sent == old(sent) + [data]
    {
      sent := sent + [data];
    }

    /** `close()`: starts the closing handshake unless already closing or closed. */
    method Close()
      modifies this`readyState
      ensures old(readyState) in {Connecting, Open} ==> readyState == Closing
      ensures old(readyState) in {Closing, Closed} ==> readyState == old(readyState)
    {
      if readyState == Connecting || readyState == Open {
        readyState := Closing;
      }
    }
  }
}
