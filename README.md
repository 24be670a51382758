# Voice-agent widget and token endpoint: a verified model

This project models the small rules at the core of an embeddable voice-assistant widget
(`static/widget.js`) and of the Flask endpoint that hands it access tokens (`app.py`).

- **Transcript reconciler** (`reconciler.dfy`, module `Reconciler`). This models `addMessage`.
  - The transcript container is a class `Transcript`. Its fields are the ordered bubbles (`seq<Message>`) and the one-time empty-state placeholder.
  - Each bubble has a role (user or agent), a text, and an interim flag. Interim bubbles carry the DOM id `interim-<role>`; final bubbles carry none.
  - `FindById` is the `getElementById` lookup, written as a loop. `AddMessage` rewrites the list in place.
  - `AddMessage` is proved against the function `Present`. The lemmas about `Present` and `PresentAll` (the per-event `forEach`) state the promises:
    - at most one interim bubble per role;
    - an interim segment updates that bubble in place or appends one;
    - a final segment removes the role's interim bubble and appends a final one;
    - final bubbles are only ever appended to, never changed;
    - the other role's interim bubble is untouched.
- **Status renderer and call/popup state machine** (`widget.dfy`, module `CallWidget`).
  - Class `Widget` holds the module variables `room` (present or not) and `isConnected`.
  - It also holds the start and end buttons (shown or hidden, disabled, label), the status text, the `connected` class on header and launcher, the popup's `open` class, and the transcript.
  - Each handler is one atomic method: `startCall`, the `connected`, `disconnected`, `participantConnected` and `transcriptionReceived` callbacks, `endCall`, and the three click listeners.
  - What `fetch` and the SDK answer is a parameter: the token reply or a rejection, and whether `connect`, `setMicrophoneEnabled` and `disconnect` resolve or reject.
  - The object invariant `Valid()` says:
    - the transcript invariant holds;
    - the end button shows exactly while connected, and the start button exactly while not;
    - header and launcher agree on the `connected` class.
  - The `...Run` methods replay whole scenarios on a fresh widget: a refused token, a rejected connect, a denied microphone, the two hang-up paths, and an agent transcript.
- **Token endpoint** (`token_server.dfy`, module `TokenServer`; Python string semantics in `pytext.dfy`, module `PyText`).
  - Parsing of `ALLOWED_ORIGINS`, using Python's `split(',')`, `strip()` and the non-empty filter.
  - The authorization chain of `get_token`.
  - The precondition and permission merge of `make_token`.
  - The status code and body of every response of `get_token`.
  - The environment settings, the request headers, the two `uuid4().hex` strings, the clock and the JWT signer are parameters.
- **Both sides together** (`end_to_end.dfy`, module `EndToEnd`). These lemmas cover how the reply `get_token` returns drives the widget's `startCall`. The browser side is abstracted in two definitions. `Readable` is the CORS check: a reply is readable when the request carried no Origin header, when the origin is listed, or when it is a 200, which carries its own Access-Control-Allow-Origin. `WidgetFetch` is the `fetch` call: it resolves with the parsed reply when it is readable and otherwise rejects with the browser's network error, whose text is the parameter `blocked`.

In these places the code behaves differently from what one might expect; the model follows the code:

- After a token failure the status reads "Connection failed".
- The error is shown as a final *user* bubble.
- `room` is not cleared on the failure path. A rejected `connect` leaves the room that was just created in place.
- `data.error || 'Failed to get token'` also falls back when the error text is empty.
- A hang-up by the remote side leaves `room` set; only `endCall` clears it.
- If SECRET_KEY is unset, a request without an X-API-Key header passes the second test of the chain (`None == None`), whatever its origin. The widget never sends that header, so then every widget request is authorized (`EndToEnd.WidgetNeverRefusedWithoutSecret`).

## Model

| member | source | states |
|---|---|---|
| `Reconciler.IdIdentifiesInterim` | static/widget.js:360-361 | the id `interim-<role>` is carried exactly by the interim bubbles of that role |
| `Reconciler.FirstInterim` | static/widget.js:365 | the interim bubble found for a role is the first one in document order; none comes before it, and `|ms|` means there is none |
| `Reconciler.Transcript.constructor` | static/widget.js:305-313 | the container starts with no bubbles and with the empty-state placeholder |
| `Reconciler.Transcript.FindById` | static/widget.js:390-391 | `getElementById` returns the first bubble with that id, or reports that none has it |
| `Reconciler.Transcript.AddMessage` | static/widget.js:355-412 | removes the placeholder, and the new list is `Present` of the old one for the role from `isAgent`; keeps the invariant |
| `Reconciler.PresentKeepsAtMostOne` | static/widget.js:361-393 | any segment, interim or final, keeps at most one interim bubble per role |
| `Reconciler.InterimSegmentEffect` | static/widget.js:364-386 | with no interim bubble for the role, one interim bubble with the text is appended at the end; with one, only its text changes, and length and all other positions stay the same |
| `Reconciler.FinalSegmentEffect` | static/widget.js:389-411 | the role's interim bubble is removed wherever it was; one final bubble with the text (even empty) is appended at the end; no interim bubble of the role remains; the list keeps its length if a bubble was removed and grows by one otherwise; every other bubble is kept unchanged and in its order, shifted down by one past the removed position |
| `Reconciler.PresentFinals` | static/widget.js:395-410 | final bubbles are never changed or removed; a final segment appends exactly one, an interim segment none |
| `Reconciler.PresentOtherRole` | static/widget.js:360-393 | the other role's interim bubble is untouched by any segment |
| `Reconciler.PresentOwnInterim` | static/widget.js:364-393 | after the segment the role has exactly one interim bubble showing the text if the segment was interim, none if final |
| `Reconciler.PresentAllKeepsAtMostOne` | static/widget.js:506-512 | folding a batch of segments in order keeps at most one interim bubble per role |
| `Reconciler.PresentAllFinals` | static/widget.js:506-512 | across a batch the final bubbles grow by exactly the batch's final segments, in order |
| `Reconciler.PresentAllOtherRole` | static/widget.js:506-512 | a batch from one participant never touches the other role's interim bubble |
| `Reconciler.PresentAllOwnInterim` | static/widget.js:506-512 | after a batch of interim segments one interim bubble shows the latest text; after a final one there is none |
| `Reconciler.AgentScenario` | static/widget.js:364-411 | "hel", "hello" (interim) then "hello there" (final) from the agent leave one final agent bubble "hello there" and nothing else |
| `CallWidget.WithStatusEffect` | static/widget.js:340-353 | the status text becomes the message, the `connected` class is on header and launcher iff the flag, nothing else changes, and a second identical call changes nothing |
| `CallWidget.Widget.UpdateStatus` | static/widget.js:340-353 | the widget's state after `updateStatus` is `WithStatus` of the state before |
| `CallWidget.StartCallError` | static/widget.js:425-430 | `startCall` reaches its catch block iff the token request fails or is refused or `connect` rejects; a refusal carries `data.error`, or "Failed to get token" when it is absent or empty |
| `CallWidget.Widget.constructor` | static/widget.js:296-328 | the widget starts closed, idle, with "Ready to connect", start shown and enabled, end hidden, an empty transcript |
| `CallWidget.Widget.StartCall` | static/widget.js:414-545 | start is disabled and "Connecting..." is shown; on failure the status is "Connection failed", a final user bubble "Error: <message>" is appended and start is enabled again; `room` is set once a token is granted and never cleared here |
| `CallWidget.Widget.OnConnected` | static/widget.js:448-465 | `isConnected` is set, start is hidden and end shown, the status shows connected; a microphone failure adds its error bubble and the call stays connected |
| `CallWidget.Widget.OnDisconnected` | static/widget.js:467-481 | `isConnected` is cleared, start is shown, enabled and labelled "Start Call", end is hidden, and no bubble is added |
| `CallWidget.Widget.OnParticipantConnected` | static/widget.js:483-489 | only a non-local participant changes the status and adds the final agent bubble announcing it |
| `CallWidget.Widget.OnTranscriptionReceived` | static/widget.js:506-512 | the transcript becomes the in-order fold of the segments, as agent bubbles iff the participant is not local; the placeholder goes iff the batch is non-empty |
| `CallWidget.Widget.EndCall` | static/widget.js:547-555 | a no-op without a room; otherwise the status is "Disconnecting...", a final "Call ended" bubble is appended, and `room` is cleared once `disconnect` resolves |
| `CallWidget.Widget.OnLauncherClick` | static/widget.js:564-566 | the popup's `open` state is inverted and nothing else changes |
| `CallWidget.Widget.OnCloseClick` | static/widget.js:568-570 | the popup is closed and nothing else changes |
| `CallWidget.Widget.OnDocumentClick` | static/widget.js:572-576 | a click outside the container closes the popup; a click inside changes nothing |
| `CallWidget.LauncherClickTwice` | static/widget.js:564-566 | two launcher clicks restore the whole state |
| `CallWidget.CloseTwice` | static/widget.js:568-576 | closing, by the button or by an outside click, is idempotent |
| `CallWidget.TokenRefusedRun` | static/widget.js:428-544 | a reply `{success: false, error: "room full"}` leaves only "Error: room full" in the transcript, status "Connection failed", start enabled, no room |
| `CallWidget.EmptyErrorRun` | static/widget.js:428-429 | a refusal with an empty error shows "Error: Failed to get token" |
| `CallWidget.ConnectRejectedRun` | static/widget.js:530-544 | a rejected `connect` runs the catch block and leaves the room set |
| `CallWidget.MicrophoneDeniedRun` | static/widget.js:456-464 | a denied microphone is reported and the call stays connected |
| `CallWidget.HangUpRuns` | static/widget.js:448-555 | remote and user hang-ups leave the same buttons and status; only the user's adds "Call ended" and clears `room` |
| `CallWidget.AgentTranscriptRun` | static/widget.js:506-512 | the agent's "hel", "hello", "hello there" (final) leave one final agent bubble "hello there" |
| `PyText.LeadingSpaces` | app.py:16 | the length of the longest all-whitespace prefix, in the sense of Python's `isspace` |
| `PyText.TrailingSpaces` | app.py:16 | the length of the longest all-whitespace suffix |
| `PyText.Strip` | app.py:16 | `strip()`: the input is leading whitespace, the result, trailing whitespace, and the result neither starts nor ends with whitespace |
| `PyText.Split` | app.py:16 | `split(',')`: at least one piece, no piece holds the separator, and joining the pieces with it gives the input |
| `PyText.SplitJoin` | app.py:16 | splitting recovers exactly the pieces that were joined, so the pieces are uniquely determined |
| `PyText.Take` | app.py:149-150 | `hex[:n]` is the prefix of length `n`, or the whole string when it is shorter |
| `TokenServer.AllowedOriginsMembers` | app.py:16 | an origin is allowed iff it is non-empty and is the stripped form of a comma-separated piece of the variable |
| `TokenServer.AllowedOriginsWellFormed` | app.py:16 | every allowed origin is non-empty, has no comma and no surrounding whitespace |
| `TokenServer.NoOriginsWhenUnset` | app.py:16 | an unset or empty variable gives an empty list |
| `TokenServer.Authorize` | app.py:128-138 | access iff the origin is in the list, or the API key equals SECRET_KEY (`None` equals `None`), or the origin is absent or empty and the host starts with "127.0.0.1", tried in that order |
| `TokenServer.UnsetSecretKeyAdmitsAll` | app.py:128-134 | with SECRET_KEY unset, a request without X-API-Key is admitted from any origin |
| `TokenServer.MakeToken` | app.py:32-64 | `ValueError` iff the API key or secret is missing or empty; otherwise identity and name are the identity, the TTL is 6 hours, and each of the six grants is the override if given, else True for join/publish/subscribe/publish-data and False for admin/create |
| `TokenServer.ExtraKeysIgnored` | app.py:53-64 | override keys other than the six grant names have no effect |
| `TokenServer.GetToken` | app.py:89-181 | OPTIONS gives 200 `{'status': 'ok'}` before any check; 403 iff authorization fails; missing credentials give 500; 200 iff a token is issued, and then room and identity echo the arguments or default to "widget-room-" + 8 and "user-" + 6 hex characters of a uuid; an authorized request with credentials gives 200 with the URL, the signature of the default-grant claims for that identity and room, "6 hours" and the time when signing succeeds, and 500 with the signer's message when it fails |
| `TokenServer.SuccessMatchesStatus` | app.py:140-181 | on a GET, the body's `success` is True exactly when the status is 200 |
| `TokenServer.IssuedTokenGrants` | app.py:149-171 | an issued token is the signature of the claims for the echoed identity and room with the default grants |
| `EndToEnd.ReplyOf` | static/widget.js:426-429 | the parsed body has `success` true only for an issued token, and carries the server's `error` text on refusals and failures |
| `EndToEnd.ServerErrorReachesWidget` | app.py:140-181 | a 403 to a same-origin page, or a 500 for missing credentials to a same-origin or listed page, puts the server's own error text into the widget's "Error: ..." bubble |
| `EndToEnd.UnlistedPageSeesNetworkError` | app.py:22-28 | any non-200 reply to a cross-origin page that is not listed carries no CORS header, so the widget's error is the browser's network error, not the server's text |
| `EndToEnd.IssuedTokenReachesWidget` | app.py:167-171 | a 200 is readable from every page, so the call then fails exactly when `connect` rejects; any other status always ends in the catch block |
| `EndToEnd.WidgetNeverRefusedWithoutSecret` | app.py:128-145 | with SECRET_KEY unset, the widget's request (no X-API-Key) is never answered with 403 |

## Left out

- Presentation: CSS injection, HTML templates, SVG markup, the difference between the bubble's initial `innerHTML` and the later `textContent` update, and scroll position.
- The SDK's `Room` construction options, track `attach`/`play` and audio element insertion (`trackSubscribed`), and the SDK script loader in `init`. These are foreign calls with no effect on the modelled state.
- `participantDisconnected`: it only logs.
- The outcomes of `connect`, `setMicrophoneEnabled` and `disconnect` are parameters (`Outcome`). The SDK's behaviour behind them is not modelled.
- A failure in constructing `Room` is not modelled. It would also reach the catch block of `startCall`.
- `fetch` and `response.json()`: their result is a parameter (`Fetch`). `TokenReply` keeps only `success` and `error`; `url` and `token` go only to the SDK.
- The `config.baseUrl` fallback chain: it only chooses the URL that is fetched, and the model takes the fetch result as input.
- Async interleaving: each handler is one atomic step. `startCall` is one step, followed by the `connected` callback as another, although in the browser that callback fires while `connect` is pending.
- Ending a call while connecting is not treated specially.
- Which `room` object emitted an event is not tracked. An event from an earlier room acts like one from the current room.
- Click gating: a disabled or hidden button fires no click. The handler methods do not require that, so the model also covers calls the browser would not make.
- Flask routing, the CORS preflight and `methods`/`allow_headers` options of `flask_cors` (only its origin check is modelled, in `EndToEnd.Readable`), the Cache-Control header, `send_from_directory`, `/`, `/widget.js`, `/health`, the error handlers, `load_dotenv` and the reading of the environment. The settings are a parameter.
- `AccessToken.to_jwt` signing is the parameter `sign`, and the JWT format is not modelled.
- `uuid4()` randomness: the `.hex` strings are parameters.
- `datetime.now()`: the time is a parameter.
- `print` logging.
- Override values in `make_token` are booleans. Python would accept any value.
- Only the one widget instance that the guard at static/widget.js:3 allows is modelled. That guard is why id lookups are done within the transcript list.
- EndToEnd.ServerErrorReachesWidget: promises the server's text only when the page may read the reply. `Readable` compares origins exactly, while flask_cors compares them case-insensitively and treats a listed entry with regular-expression characters as a pattern. The browser's error text is the parameter `blocked`.
