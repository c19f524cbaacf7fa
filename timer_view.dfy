/**
 * The timer view's remote-control state machine: the dispatcher shared by
 * local buttons and remote messages, the WebSocket callbacks, the connect
 * button and the sidebar refresh.
 */
module View {
  import opened Options
  import opened Timer
  import opened Vocabulary
  import opened Connection
  import Wire

  /**
   * The notifications the view raises. The source's failure toast carries
   * the text of the exception `new WebSocket` threw; the model, which does
   * not model that exception, carries the refused URL in its place.
   */
  datatype Toast = FailedToConnect(url: string) | ConnectedToServer | ClosedConnectionToServer

  /** The payload of a WebSocket message event. */
  datatype MessageData = Text(text: string) | Binary

  /** The accesses a dispatch adds to the timer's log. */
  function WriteLog(w: Option<TimerOp>): (log: seq<Access>)
    ensures |log| <= 1
    ensures log == [] <==> w.None?
    ensures forall e :: e in log ==> e.Write? && Some(e.op) == w
  {
    if w.Some? then [Write(w.value)] else []
  }

  /** Every wire name is a single token. */
  lemma WireNameIsToken(a: Action)
    ensures Wire.IsToken(WireName(a))
  {
  }

  /**
   * Local and remote commands mean the same: the line a view sends for an
   * action with space-free arguments makes a peer that receives it perform
   * the very write the sender performed.
   */
  lemma PeerReplaysLocalAction(a: Action, args: seq<string>, parse: string -> Option<TimeSpan>)
    requires forall arg :: arg in args ==> Wire.IsToken(arg)
    ensures var m := Wire.Decode(Wire.Encode(Wire.Message(WireName(a), args)));
      DispatchWrite(m.command, m.args, parse) == HandlerWrite(a, args, parse)
  {
    WireNameIsToken(a);
    Wire.DecodeEncode(Wire.Message(WireName(a), args));
    LookupWireName(a);
  }

  class TimerView {
    const timer: SharedTimer
    /** `TimeSpan.parse` of the timing engine. */
    const parse: string -> Option<TimeSpan>
    /** Whether `new WebSocket(url)` accepts the URL rather than throwing. */
    const urlAccepted: string -> bool
    var connection: Socket?
    /** The sidebar's `state.comparison` and `state.timingMethod`. */
    var comparison: Option<string>
    var timingMethod: Option<TimingMethod>
    var toasts: seq<Toast>
    /** Every socket this view has created. */
    ghost var sockets: set<Socket>

    /**
     * The current connection, if any, is one of the view's sockets and not
     * yet CLOSED, and its `wasConnected` flag records whether it got past
     * CONNECTING; every other socket the view created is CLOSED.
     */
    ghost predicate Valid()
      reads this, sockets
    {
      && (connection != null ==>
            && connection in sockets
            && connection.readyState != Closed
            && (connection.wasConnected <==> connection.readyState != Connecting))
      && (forall s :: s in sockets && s != connection ==> s.readyState == Closed)
    }

    /** The ready state the connect button displays (`None` for no connection). */
    function ConnectionState(): (st: Option<ReadyState>)
      reads this, connection, sockets
      ensures st.None? <==> connection == null
      ensures connection != null ==> st == Some(connection.readyState)
      ensures Valid() ==> st != Some(Closed)
      ensures Valid() ==> (ButtonLabel(st) == "Connect to Server" <==> connection == null)
    {
      if connection == null then None else Some(connection.readyState)
    }

    /** The constructor, connecting at once when the page names a `ws_url`. */
    constructor (timer: SharedTimer, parse: string -> Option<TimeSpan>,
                 urlAccepted: string -> bool, wsUrl: Option<string>)
      ensures Valid()
      ensures this.timer == timer && this.parse == parse && this.urlAccepted == urlAccepted
      ensures comparison == None && timingMethod == None
      ensures wsUrl.None? ==> connection == null && toasts == []
      ensures wsUrl.Some? && urlAccepted(wsUrl.value) ==>
        && connection != null && fresh(connection) && connection.url == wsUrl.value
        && connection.readyState == Connecting && connection.sent == [] && toasts == []
      ensures wsUrl.Some? && !urlAccepted(wsUrl.value) ==>
        connection == null && toasts == [FailedToConnect(wsUrl.value)]
    {
      this.timer := timer;
      this.parse := parse;
      this.urlAccepted := urlAccepted;
      connection := null;
      comparison := None;
      timingMethod := None;
      toasts := [];
      sockets := {};
      new;
      if wsUrl.Some? {
        var _ := ConnectToServer(wsUrl.value);
      }
    }

    /**
     * `connectToServer`: open a socket to `url` and make it the connection.
     * Its callers only call it when there is no connection.
     */
    method ConnectToServer(url: string) returns (ok: bool)
      requires Valid() && connection == null
      modifies this
      ensures Valid()
      ensures ok == urlAccepted(url)
      ensures ok ==>
        && connection != null && fresh(connection) && connection.url == url
        && connection.readyState == Connecting && !connection.wasConnected && connection.sent == []
        && toasts == old(toasts)
      ensures !ok ==> connection == null && toasts == old(toasts) + [FailedToConnect(url)]
      ensures comparison == old(comparison) && timingMethod == old(timingMethod)
    {
      if !urlAccepted(url) {
        toasts := toasts + [FailedToConnect(url)];
        return false;
      }
      var s := new Socket(url);
      connection := s;
      sockets := sockets + {s};
      ok := true;
    }

    /** `handleClickConnectOrDisconnect`, with `answer` what the URL prompt returns. */
    method HandleClickConnectOrDisconnect(answer: Option<string>)
      requires Valid()
      modifies this, connection
      ensures Valid()
      ensures comparison == old(comparison) && timingMethod == old(timingMethod)
      ensures old(connection) != null ==> old(connection).sent == old(connection.sent)
      ensures ClickDecision(old(ConnectionState()), answer) == CloseConnection ==>
        && connection == old(connection) && connection.readyState == Closing
        && toasts == old(toasts)
      ensures ClickDecision(old(ConnectionState()), answer) == Ignore ==>
        && connection == old(connection) && toasts == old(toasts)
        && (connection != null ==> connection.readyState == old(connection.readyState))
      ensures ClickDecision(old(ConnectionState()), answer).Connect? && urlAccepted(answer.value) ==>
        && connection != null && fresh(connection) && connection.url == answer.value
        && connection.readyState == Connecting && !connection.wasConnected && connection.sent == []
        && toasts == old(toasts)
      ensures ClickDecision(old(ConnectionState()), answer).Connect? && !urlAccepted(answer.value) ==>
        connection == null && toasts == old(toasts) + [FailedToConnect(answer.value)]
    {
      if connection != null {
        if connection.readyState == Open {
          connection.Close();
        }
        return;
      }
      if answer.None? || answer.value == "" {
        return;
      }
      var _ := ConnectToServer(answer.value);
    }

    /**
     * The handler methods `start` ... `resumeGameTime`: each performs at most
     * one write on the shared timer and no read.
     */
    method RunHandler(a: Action, args: seq<string>)
      modifies timer`accesses
      ensures timer.accesses == old(timer.accesses) + WriteLog(HandlerWrite(a, args, parse))
    {
      match a {
        case StartAction => timer.WriteWith(Start);
        case SplitAction => timer.WriteWith(Split);
        case SplitOrStartAction => timer.WriteWith(SplitOrStart);
        case ResetAction => timer.WriteWith(Reset(true));
        case TogglePauseAction => timer.WriteWith(TogglePauseOrStart);
        case UndoAction => timer.WriteWith(UndoSplit);
        case SkipAction => timer.WriteWith(SkipSplit);
        case InitGameTimeAction => timer.WriteWith(InitializeGameTime);
        case SetGameTimeAction =>
          if |args| > 0 {
            var time := parse(args[0]);
            if time.Some? {
              timer.WriteWith(SetGameTime(time.value));
            }
          }
        case SetLoadingTimesAction =>
          if |args| > 0 {
            var time := parse(args[0]);
            if time.Some? {
              timer.WriteWith(SetLoadingTimes(time.value));
            }
          }
        case PauseGameTimeAction => timer.WriteWith(PauseGameTime);
        case ResumeGameTimeAction => timer.WriteWith(ResumeGameTime);
      }
    }

    /**
     * `getActionHandler(action, emitToWebsocket)(...args)`: run the handler
     * the name finds, if any, then, when emitting, hand the encoded command
     * to the current connection, if any, whether or not a handler was found.
     */
    method Dispatch(action: string, args: seq<string>, emitToWebsocket: bool)
      requires Valid()
      modifies timer`accesses, if emitToWebsocket && connection != null then {connection} else {}
      ensures Valid()
      ensures timer.accesses == old(timer.accesses) + WriteLog(DispatchWrite(action, args, parse))
      ensures connection == old(connection)
      ensures connection != null ==> connection.readyState == old(connection.readyState)
      ensures connection != null ==>
        connection.sent == old(connection.sent)
          + (if emitToWebsocket then [Wire.Encode(Wire.Message(action, args))] else [])
    {
      var handler := Lookup(action);
      if handler.Some? {
        RunHandler(handler.value, args);
      }
      if emitToWebsocket && connection != null {
        connection.Send(Wire.Encode(Wire.Message(action, args)));
      }
    }

    /**
     * A local control bound to an action (the layout click for
     * `splitorstart`; the undo, pause, skip and reset buttons): the
     * action's handler runs and, with a connection, its wire name is sent.
     */
    method LocalAction(a: Action)
      requires Valid()
      modifies timer`accesses, connection
      ensures Valid()
      ensures timer.accesses == old(timer.accesses) + WriteLog(HandlerWrite(a, [], parse))
      ensures connection == old(connection)
      ensures connection != null ==>
        && connection.sent == old(connection.sent) + [WireName(a)]
        && connection.readyState == old(connection.readyState)
    {
      LookupWireName(a);
      Dispatch(WireName(a), [], true);
    }

    /** `onopen`: only the current connection can open; it records that it did. */
    method OnOpen(s: Socket)
      requires Valid() && s in sockets && s.readyState == Connecting
      modifies s`readyState, s`wasConnected, this`toasts
      ensures Valid()
      ensures s == connection
      ensures s.readyState == Open && s.wasConnected
      ensures toasts == old(toasts) + [ConnectedToServer]
    {
      s.readyState := Open;
      s.wasConnected := true;
      toasts := toasts + [ConnectedToServer];
    }

    /**
     * `onclose`: the socket closing is the current connection; the field is
     * reset, and the notification fires only if that socket had opened.
     */
    method OnClose(s: Socket)
      requires Valid() && s in sockets && s.readyState != Closed
      modifies s`readyState, this`toasts, this`connection
      ensures Valid()
      ensures s == old(connection) && connection == null && s.readyState == Closed
      ensures toasts == old(toasts) + (if s.wasConnected then [ClosedConnectionToServer] else [])
    {
      s.readyState := Closed;
      if s.wasConnected {
        toasts := toasts + [ClosedConnectionToServer];
      }
      connection := null;
    }

    /**
     * `onmessage`: a text message is decoded and dispatched without
     * emitting, so it never sends anything back; other payloads are ignored.
     */
    method OnMessage(s: Socket, data: MessageData)
      requires Valid() && s in sockets && s.readyState == Open
      modifies timer`accesses
      ensures Valid()
      ensures s == connection
      ensures s.sent == old(s.sent) && s.readyState == Open
      ensures data.Binary? ==> timer.accesses == old(timer.accesses)
      ensures data.Text? ==>
        var m := Wire.Decode(data.text);
        timer.accesses == old(timer.accesses) + WriteLog(DispatchWrite(m.command, m.args, parse))
    {
      if data.Text? {
        var m := Wire.Decode(data.text);
        Dispatch(m.command, m.args, false);
      }
    }

    /**
     * `updateSidebar`: when the sidebar is shown, read the comparison and
     * timing method and update the state only if either changed.
     */
    method UpdateSidebar(sidebarOpen: bool, isDesktop: bool) returns (updated: bool)
      modifies timer`accesses, this`comparison, this`timingMethod
      ensures !(sidebarOpen || isDesktop) ==>
        && !updated && timer.accesses == old(timer.accesses)
        && comparison == old(comparison) && timingMethod == old(timingMethod)
      ensures sidebarOpen || isDesktop ==>
        && timer.accesses == old(timer.accesses) + [Read]
        && comparison == Some(timer.comparison) && timingMethod == Some(timer.timingMethod)
        && updated == (old(comparison) != comparison || old(timingMethod) != timingMethod)
    {
      updated := false;
      if sidebarOpen || isDesktop {
        var c, tm := timer.ReadComparisonAndTimingMethod();
        if Some(c) != comparison || Some(tm) != timingMethod {
          comparison, timingMethod := Some(c), Some(tm);
          updated := true;
        }
      }
    }
  }

  /** The line a local `setgametime 1:23.45` sends. */
  lemma SetGameTimeLine()
    ensures Wire.Encode(Wire.Message("setgametime", ["1:23.45"])) == "setgametime 1:23.45"
  {
    assert ["setgametime"] + ["1:23.45"] == ["setgametime", "1:23.45"];
    assert Wire.Join(["setgametime", "1:23.45"]) == "setgametime" + " " + Wire.Join(["1:23.45"]);
  }

  /** The line `bogus foo bar`: an unknown command with two arguments. */
  lemma BogusLine()
    ensures Wire.Encode(Wire.Message("bogus", ["foo", "bar"])) == "bogus foo bar"
    ensures Wire.WellFormed(Wire.Message("bogus", ["foo", "bar"]))
    ensures Lookup("bogus").None?
  {
    assert Wire.IsToken("bogus") && Wire.IsToken("foo") && Wire.IsToken("bar");
    assert ["bogus"] + ["foo", "bar"] == ["bogus", "foo", "bar"];
    assert Wire.Join(["foo", "bar"]) == "foo" + " " + Wire.Join(["bar"]);
    assert Wire.Join(["bogus", "foo", "bar"]) == "bogus" + " " + Wire.Join(["foo", "bar"]);
    assert "bogus" !in HandlerTable();
  }

  /**
   * A session seen by its caller: the page names a peer, the peer accepts;
   * a local `setgametime 1:23.45` writes the parsed time once and is sent
   * once; a remote `bogus foo bar` reaches no handler and sends nothing
   * back; a click disconnects, and the close is announced.
   */
  method RemoteControlSession(timer: SharedTimer, parse: string -> Option<TimeSpan>, urlAccepted: string -> bool)
    requires urlAccepted("ws://peer") && parse("1:23.45").Some?
    modifies timer
  {
    var before := timer.accesses;
    var view := new TimerView(timer, parse, urlAccepted, Some("ws://peer"));
    var s := view.connection;
    view.OnOpen(s);
    assert view.toasts == [ConnectedToServer];
    assert ButtonLabel(view.ConnectionState()) == "Disconnect";

    view.Dispatch("setgametime", ["1:23.45"], true);
    SetGameTimeLine();
    assert timer.accesses == before + [Write(SetGameTime(parse("1:23.45").value))];
    assert s.sent == ["setgametime 1:23.45"];

    var bogus := Wire.Message("bogus", ["foo", "bar"]);
    var line := Wire.Encode(bogus);
    BogusLine();
    Wire.DecodeEncode(bogus);
    assert line == "bogus foo bar";
    view.OnMessage(s, Text(line));
    assert Lookup("bogus").None?;
    assert timer.accesses == before + [Write(SetGameTime(parse("1:23.45").value))];
    assert s.sent == ["setgametime 1:23.45"] && view.connection == s;

    view.HandleClickConnectOrDisconnect(None);
    assert s.readyState == Closing;
    view.OnClose(s);
    assert view.connection == null && view.toasts == [ConnectedToServer, ClosedConnectionToServer];
    assert ButtonLabel(view.ConnectionState()) == "Connect to Server";
  }
}
