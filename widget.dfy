/**
  The call controller and status renderer of the voice widget (static/widget.js): the module
  variables `room` and `isConnected`, the start and end buttons, the status line, the
  `connected` class on header and launcher, the popup, and the transcript list. Every
  handler is one atomic step; what the real-time SDK and `fetch` answer is a parameter.
*/
module CallWidget {
  import opened Options
  import opened Reconciler

  /** What the start button shows: its idle "Start Call" markup or the spinner with "Connecting...". */
  datatype StartLabel = StartCallLabel | ConnectingLabel

  /** Everything the widget shows or keeps, apart from the transcript. */
  datatype Ui = Ui(
    roomPresent: bool,
    isConnected: bool,
    startVisible: bool,
    startDisabled: bool,
    startLabel: StartLabel,
    endVisible: bool,
    status: string,
    headerConnected: bool,
    launcherConnected: bool,
    popupOpen: bool)

  /** The widget as `createWidget` builds it. */
  const InitialUi := Ui(false, false, true, false, StartCallLabel, false, "Ready to connect", false, false, false)

  /** The view after `updateStatus(message, connected)`. */
  function WithStatus(u: Ui, message: string, connected: bool): Ui
  {
    u.(status := message, headerConnected := connected, launcherConnected := connected)
  }

  /**
    `updateStatus` shows the message and puts the `connected` class on both header and
    launcher iff `connected`, and changes nothing else; calling it twice is calling it once.
  */
  lemma WithStatusEffect(u: Ui, message: string, connected: bool)
    ensures var v := WithStatus(u, message, connected);
      && v.status == message && v.headerConnected == connected && v.launcherConnected == connected
      && v.(status := u.status, headerConnected := u.headerConnected, launcherConnected := u.launcherConnected) == u
      && WithStatus(v, message, connected) == v
  {
  }

  /** The JSON fields of the token reply that the widget looks at before connecting. */
  datatype TokenReply = TokenReply(success: bool, error: Option<string>)

  /** The outcome of `fetch(...)` followed by `response.json()`. */
  datatype Fetch = Fetched(reply: TokenReply) | FetchRejected(message: string)

  /** The outcome of an awaited SDK call: it resolves, or rejects with an error message. */
  datatype Outcome = Resolved | Rejected(message: string)

  const TokenFallback := "Failed to get token"

  /** The message of `new Error(data.error || 'Failed to get token')`; an empty error is falsy. */
  function RefusalMessage(reply: TokenReply): string
  {
    if reply.error.Some? && reply.error.value != "" then reply.error.value else TokenFallback
  }

  /** Whether the reply lets `startCall` go on to create a room. */
  predicate TokenGranted(fetch: Fetch)
  {
    fetch.Fetched? && fetch.reply.success
  }

  /** The message of the error that reaches `startCall`'s catch block, if one does. */
  function StartCallError(fetch: Fetch, connect: Outcome): (e: Option<string>)
    ensures e.None? <==> TokenGranted(fetch) && connect.Resolved?
    ensures fetch.Fetched? && !fetch.reply.success ==> e == Some(RefusalMessage(fetch.reply))
  {
    match fetch
    case FetchRejected(m) => Some(m)
    case Fetched(reply) =>
      if !reply.success then Some(RefusalMessage(reply))
      else if connect.Rejected? then Some(connect.message)
      else None
  }

  /** The message the `connected` handler adds once the microphone request settles. */
  function MicrophoneMessage(microphone: Outcome): string
  {
    if microphone.Resolved? then "Microphone Connected!" else "Error: Could not access microphone"
  }

  class Widget {
    /** `room != null`. */
    var roomPresent: bool
    var isConnected: bool
    /** `startBtn.style.display` is not 'none'. */
    var startVisible: bool
    var startDisabled: bool
    var startLabel: StartLabel
    /** `endBtn.style.display` is not 'none'. */
    var endVisible: bool
    /** The text of `livekit-widget-status`. */
    var status: string
    var headerConnected: bool
    var launcherConnected: bool
    /** The `open` class on the popup. */
    var popupOpen: bool
    const transcript: Transcript

    function View(): Ui
      reads this
    {
      Ui(roomPresent, isConnected, startVisible, startDisabled, startLabel, endVisible, status,
         headerConnected, launcherConnected, popupOpen)
    }

    /**
      The transcript keeps its invariant; the end button shows exactly while connected and the
      start button exactly while not; header and launcher agree on the `connected` class.
    */
    ghost predicate Valid()
      reads this, transcript
    {
      && transcript.Valid()
      && endVisible == isConnected
      && startVisible == !isConnected
      && headerConnected == launcherConnected
    }

    /** `createWidget`: the markup and its stylesheet defaults. */
    constructor ()
      ensures Valid() && fresh(transcript)
      ensures View() == InitialUi
      ensures transcript.messages == [] && transcript.emptyState
    {
      roomPresent, isConnected := false, false;
      startVisible, startDisabled, startLabel, endVisible := true, false, StartCallLabel, false;
      status, headerConnected, launcherConnected := "Ready to connect", false, false;
      popupOpen := false;
      transcript := new Transcript();
    }

    /** `updateStatus(message, connected)`. */
    method UpdateStatus(message: string, connected: bool)
      modifies this
      ensures View() == WithStatus(old(View()), message, connected)
    {
      status := message;
      if connected {
        headerConnected, launcherConnected := true, true;
      } else {
        headerConnected, launcherConnected := false, false;
      }
    }

    /**
      `startCall`, run to its end: the token request, the room creation and `room.connect`.
      Any failure goes through the catch block: status "Connection failed", a final user bubble
      "Error: <message>", the start button enabled again. `room` is not cleared.
    */
    method StartCall(fetch: Fetch, connect: Outcome)
      requires Valid()
      modifies this, transcript
      ensures Valid()
      ensures var err := StartCallError(fetch, connect);
        View() == old(View()).(
          roomPresent := old(roomPresent) || TokenGranted(fetch),
          startDisabled := err.None?,
          startLabel := if err.None? then ConnectingLabel else StartCallLabel,
          status := if err.None? then "Connecting..." else "Connection failed",
          headerConnected := false,
          launcherConnected := false)
      ensures var err := StartCallError(fetch, connect);
        transcript.messages ==
          if err.None? then old(transcript.messages)
          else Present(old(transcript.messages), User, "Error: " + err.value, true)
      ensures transcript.emptyState == (old(transcript.emptyState) && StartCallError(fetch, connect).None?)
    {
      startDisabled := true;
      startLabel := ConnectingLabel;
      UpdateStatus("Connecting...", false);

      var error: Option<string> := None;
      match fetch {
        case FetchRejected(m) =>
          error := Some(m);
        case Fetched(reply) =>
          if !reply.success {
            error := Some(RefusalMessage(reply));
          } else {
            roomPresent := true;
            if connect.Rejected? {
              error := Some(connect.message);
            }
          }
      }

      if error.Some? {
        UpdateStatus("Connection failed", false);
        transcript.AddMessage("Error: " + error.value, false, true);
        startDisabled := false;
        startLabel := StartCallLabel;
      }
    }

    /**
      The room's `connected` handler, with the outcome of `setMicrophoneEnabled(true)`.
      A microphone failure is reported but the call stays connected.
    */
    method OnConnected(microphone: Outcome)
      requires Valid()
      modifies this, transcript
      ensures Valid()
      ensures View() == old(View()).(
        isConnected := true, status := "Connected - Listening...",
        headerConnected := true, launcherConnected := true,
        startVisible := false, endVisible := true)
      ensures transcript.messages == Present(old(transcript.messages), User, MicrophoneMessage(microphone), true)
      ensures !transcript.emptyState
    {
      isConnected := true;
      UpdateStatus("Connected - Listening...", true);
      startVisible := false;
      endVisible := true;
      if microphone.Resolved? {
        transcript.AddMessage("Microphone Connected!", false, true);
      } else {
        transcript.AddMessage("Error: Could not access microphone", false, true);
      }
    }

    /** The room's `disconnected` handler: resets the buttons and adds no bubble. */
    method OnDisconnected()
      requires Valid()
      modifies this
      ensures Valid()
      ensures View() == old(View()).(
        isConnected := false, status := "Disconnected",
        headerConnected := false, launcherConnected := false,
        startVisible := true, startDisabled := false, startLabel := StartCallLabel,
        endVisible := false)
    {
      isConnected := false;
      UpdateStatus("Disconnected", false);
      startVisible := true;
      startDisabled := false;
      startLabel := StartCallLabel;
      endVisible := false;
    }

    /** The room's `participantConnected` handler: only a remote participant is announced. */
    method OnParticipantConnected(participantIsLocal: bool)
      requires Valid()
      modifies this, transcript
      ensures Valid()
      ensures participantIsLocal ==>
        View() == old(View()) && transcript.messages == old(transcript.messages)
        && transcript.emptyState == old(transcript.emptyState)
      ensures !participantIsLocal ==>
        && View() == WithStatus(old(View()), "AI Assistant connected", true)
        && transcript.messages == Present(old(transcript.messages), Agent, "AI Assistant has joined the call", true)
        && !transcript.emptyState
    {
      if !participantIsLocal {
        UpdateStatus("AI Assistant connected", true);
        transcript.AddMessage("AI Assistant has joined the call", true, true);
      }
    }

    /**
      The room's `transcriptionReceived` handler: each segment, in order, goes to `addMessage`
      as an agent bubble iff the participant is not local.
    */
    method OnTranscriptionReceived(segments: seq<Segment>, participantIsLocal: bool)
      requires Valid()
      modifies transcript
      ensures Valid()
      ensures transcript.messages == PresentAll(old(transcript.messages), RoleOf(!participantIsLocal), segments)
      ensures transcript.emptyState == (old(transcript.emptyState) && segments == [])
    {
      var role := RoleOf(!participantIsLocal);
      for i := 0 to |segments|
        invariant transcript.Valid()
        invariant transcript.messages == PresentAll(old(transcript.messages), role, segments[..i])
        invariant transcript.emptyState == (old(transcript.emptyState) && i == 0)
      {
        assert segments[..i + 1][..i] == segments[..i];
        transcript.AddMessage(segments[i].text, !participantIsLocal, segments[i].final);
      }
      assert segments[..|segments|] == segments;
    }

    /**
      `endCall`, with the outcome of `room.disconnect()`. Nothing happens without a room;
      otherwise status "Disconnecting...", a final "Call ended" bubble, and `room` is cleared
      once the disconnect resolves.
    */
    method EndCall(disconnect: Outcome)
      requires Valid()
      modifies this, transcript
      ensures Valid()
      ensures !old(roomPresent) ==>
        View() == old(View()) && transcript.messages == old(transcript.messages)
        && transcript.emptyState == old(transcript.emptyState)
      ensures old(roomPresent) ==>
        && View() == WithStatus(old(View()), "Disconnecting...", false).(roomPresent := disconnect.Rejected?)
        && transcript.messages == Present(old(transcript.messages), User, "Call ended", true)
        && !transcript.emptyState
    {
      if roomPresent {
        UpdateStatus("Disconnecting...", false);
        transcript.AddMessage("Call ended", false, true);
        if disconnect.Resolved? {
          roomPresent := false;
        }
      }
    }

    /** A click on the launcher toggles the popup. */
    method OnLauncherClick()
      modifies this
      ensures View() == old(View()).(popupOpen := !old(popupOpen))
    {
      popupOpen := !popupOpen;
    }

    /** A click on the close button closes the popup. */
    method OnCloseClick()
      modifies this
      ensures View() == old(View()).(popupOpen := false)
    {
      popupOpen := false;
    }

    /** Any click in the document closes the popup unless it landed inside the widget's container. */
    method OnDocumentClick(insideContainer: bool)
      modifies this
      ensures View() == old(View()).(popupOpen := old(popupOpen) && insideContainer)
    {
      if !insideContainer {
        popupOpen := false;
      }
    }
  }

  // ---------------------------------------------------------------------------------------
  // Runs of the handlers

  /** Two launcher clicks give the popup back its state. */
  method LauncherClickTwice(w: Widget)
    modifies w
    ensures w.View() == old(w.View())
  {
    w.OnLauncherClick();
    w.OnLauncherClick();
  }

  /** Closing an already closed popup, by the close button or an outside click, changes nothing. */
  method CloseTwice(w: Widget, insideContainer: bool)
    modifies w
    ensures w.View() == old(w.View()).(popupOpen := false)
  {
    w.OnCloseClick();
    w.OnCloseClick();
    w.OnDocumentClick(insideContainer);
  }

  /** The server refuses the token with "room full". */
  method TokenRefusedRun() returns (ui: Ui, messages: seq<Message>)
    ensures ui == InitialUi.(status := "Connection failed")
    ensures messages == [Message(User, "Error: room full", false)]
  {
    var w := new Widget();
    w.StartCall(Fetched(TokenReply(false, Some("room full"))), Resolved);
    assert StartCallError(Fetched(TokenReply(false, Some("room full"))), Resolved) == Some("room full");
    assert "Error: " + "room full" == "Error: room full";
    ui, messages := w.View(), w.transcript.messages;
  }

  /** The reply has `success: false` and an empty `error`: the fallback text is shown. */
  method EmptyErrorRun() returns (messages: seq<Message>)
    ensures messages == [Message(User, "Error: " + TokenFallback, false)]
  {
    var reply := TokenReply(false, Some(""));
    assert RefusalMessage(reply) == TokenFallback;
    var w := new Widget();
    w.StartCall(Fetched(reply), Resolved);
    messages := w.transcript.messages;
  }

  /** `room.connect` rejects: the catch block runs, and the room that was created stays. */
  method ConnectRejectedRun(reason: string) returns (ui: Ui, messages: seq<Message>)
    ensures ui == InitialUi.(status := "Connection failed", roomPresent := true)
    ensures messages == [Message(User, "Error: " + reason, false)]
  {
    var w := new Widget();
    w.StartCall(Fetched(TokenReply(true, None)), Rejected(reason));
    ui, messages := w.View(), w.transcript.messages;
  }

  /** Connected without a microphone: the error is shown and the call stays connected. */
  method MicrophoneDeniedRun() returns (ui: Ui, messages: seq<Message>)
    ensures ui.isConnected && ui.endVisible && !ui.startVisible && ui.headerConnected
    ensures messages == [Message(User, "Error: Could not access microphone", false)]
  {
    var w := new Widget();
    w.StartCall(Fetched(TokenReply(true, None)), Resolved);
    w.OnConnected(Rejected("NotAllowedError"));
    ui, messages := w.View(), w.transcript.messages;
  }

  /**
    A call that the remote side ends, and one the user ends: both leave the same buttons and
    status, only the user's path adds "Call ended", and only it clears `room`.
  */
  method HangUpRuns() returns (remote: Ui, remoteMessages: seq<Message>, local: Ui, localMessages: seq<Message>)
    ensures remote == InitialUi.(status := "Disconnected", roomPresent := true)
    ensures local == remote.(roomPresent := false)
    ensures remoteMessages == [Message(User, "Microphone Connected!", false)]
    ensures localMessages == remoteMessages + [Message(User, "Call ended", false)]
  {
    var a := new Widget();
    a.StartCall(Fetched(TokenReply(true, None)), Resolved);
    a.OnConnected(Resolved);
    a.OnDisconnected();
    remote, remoteMessages := a.View(), a.transcript.messages;

    var b := new Widget();
    b.StartCall(Fetched(TokenReply(true, None)), Resolved);
    b.OnConnected(Resolved);
    b.EndCall(Resolved);
    b.OnDisconnected();
    local, localMessages := b.View(), b.transcript.messages;
  }

  /** The agent's "hel", "hello", then final "hello there" leave one final agent bubble. */
  method AgentTranscriptRun() returns (messages: seq<Message>)
    ensures messages == [Message(Agent, "hello there", false)]
  {
    var w := new Widget();
    w.OnTranscriptionReceived([Segment("hel", false), Segment("hello", false), Segment("hello there", true)], false);
    AgentScenario();
    messages := w.transcript.messages;
  }
}
