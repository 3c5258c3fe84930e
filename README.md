# draw: session and stroke engine, modelled in Dafny

This project models the logic core of *draw*, a shared whiteboard, and of *plume*, its chat-page sibling:

- **DrawClient** (`draw_client.dfy`) models the `App` component of `static/js/ui.js` as a class with the same fields. Pointer handlers turn presses and moves into strokes. A palm-rejection jump limit (200² squared pixels) ends a drag. A smoothing limit (10 squared pixels) drops samples that are too close. Strokes are committed and sent one per gesture. Incoming Hello, Text, ChangeUser, PresentUsers and EmptyCanvas messages update the presence roster, the committed strokes and the FIFO toast queue. The profile is saved to and restored from local storage.
- **ChatClient** (`chat_client.dfy`) models `static/js/plume.js`. It covers the enter, verify and message forms and the socket events that move between them. `verify`, `send` and `close` are guarded on a missing socket. The log is capped at about 500 entries, and `colorizeString` is modelled with JavaScript's exact 32-bit arithmetic.
- **DrawRoom** (`draw_room.dfy`) models `pkg/draw/room.go` and `pkg/draw/client.go`, plus the declarations in `message.go`, `user.go` and `err.go`. A room holds its member clients. `Broadcast` is recorded as a delivery to every member, the sender included. A client can `Send` into its room and `Leave` it once.
- **DrawServer** (`draw_server.dfy`) models the message switch of `Server.connect` in `pkg/draw/server.go` as one step per message. The step uses the connection's `client` variable and a boolean that stands for the rate limiter.
- **Strings** (`strings.dfy`) holds the split-at-newline used on both sides (JavaScript `split` and Go `strings.Split` agree here) and its inverse, `Join`.

Modelling choices:

- The engine's external collaborators become data:
  - frames written to a socket are appended to an `outbox` sequence;
  - the outcome of `JSON.parse` arrives as an `Option`;
  - local storage is an `Option<Stored>` field;
  - a timer firing is an explicit method (`ExpireOldest`);
  - the rate limiter's answer is a parameter.
- Go strings are byte sequences (`seq<byte>`), so truncation to `maxTextLen` counts bytes. JavaScript strings are `seq<char>`. `colorizeString` expands characters above U+FFFF into UTF-16 surrogate pairs, as `charCodeAt` does.
- `Send` follows its callers. `client.go` declares `Send(text)` and always sends a Text message, but every call in `server.go` passes the type first. The model's `Client.Send(kind, text)` broadcasts `{kind, user, text}`.
- `Client.User` is read as a pointer (`room.go` stores `&u`). So a client's rename is what a later `PresentUsers` snapshot shows.

Behaviour this model keeps as written:

- Receiving EmptyCanvas only queues the toast `"<name> cleared"`; the local strokes are not cleared.
- `onEnd` commits the stroke in progress even when no drag is on, so empty strokes can be committed and sent.
- AuthRst leaves the verify form up and raises an alert; it does not return to the enter form.
- The chat screens are three independent visibility flags. For example, MayNotEnter after AuthAck leaves both the enter and the message form shown.
- On the server, a second valid Hello on one connection enters a new client. The earlier client stays a member of the room.
- A ChangeUser payload is checked and split before truncation. The broadcast carries the truncated text, but the server-side user takes the untruncated name and color.
- The server broadcasts to every member, so a drawing client gets its own Hello and strokes back. It appends its own strokes a second time.

## Model

| member | source | states |
|---|---|---|
| `Strings.Split` | static/js/ui.js:186 | n separators give n + 1 parts, and no part contains the separator |
| `Strings.JoinSplit` | pkg/draw/server.go:81 | joining the parts of a split with the separator gives the input back |
| `Strings.SplitJoin` | pkg/draw/server.go:123 | splitting a join of separator-free parts gives the parts back |
| `DrawClient.TrackSpaced` | static/js/ui.js:316-341 | consecutive points among the press point and the points kept after it are more than 10 and at most 200² apart (squared) |
| `DrawClient.TrackSubsequence` | static/js/ui.js:338-341 | the kept points are samples, in arrival order |
| `DrawClient.TrackStopsAtJump` | static/js/ui.js:319-325 | after a palm jump, later samples neither extend the stroke nor start a new one |
| `DrawClient.SmoothingScenario` | static/js/ui.js:327-341 | press (0,0), move (1,1), move (50,50) keeps exactly (0,0) and (50,50) |
| `DrawClient.ParseIdentityOfPayload` | static/js/ui.js:185-192 | the `"name\ncolor"` text a client sends for a non-empty, newline-free identity reads back as that identity |
| `DrawClient.ParseIdentitySound` | static/js/ui.js:186-189 | an accepted payload starts with its identity's encoding, and both fields are non-empty and newline-free; a payload without a newline is refused |
| `DrawClient.RenameAt` | static/js/ui.js:213-219 | when entry i is the first equal to the old identity, the rename replaces exactly entry i |
| `DrawClient.RenameAbsent` | static/js/ui.js:213-219 | with no equal entry the rename changes nothing |
| `DrawClient.RenameChangesOne` | static/js/ui.js:206-223 | renaming a present identity changes exactly its first occurrence; renaming an absent one changes nothing |
| `DrawClient.SnapshotRenameScenario` | static/js/ui.js:206-232 | roster [a, b] renamed from a to c is [c, b] |
| `DrawClient.App.constructor` | static/js/ui.js:79-105 | the default profile unless storage holds a record; the dialog opens only on the default profile; connected; empty roster, toasts, strokes |
| `DrawClient.App.SaveState` | static/js/ui.js:133-138 | storage holds the current name and color |
| `DrawClient.App.TryRestoreState` | static/js/ui.js:140-153 | a stored record replaces name and color; an absent or unparsable one keeps them |
| `DrawClient.App.OnOpen` | static/js/ui.js:175-180 | exactly one Hello frame with `"name\ncolor"` is sent |
| `DrawClient.App.Send` | static/js/ui.js:242-251 | one stroke frame is sent when connected, none otherwise |
| `DrawClient.App.Toast` | static/js/ui.js:253-256 | the text joins the back of the toast queue |
| `DrawClient.App.ExpireOldest` | static/js/ui.js:257-260 | the front toast leaves the queue (FIFO); an empty queue stays empty |
| `DrawClient.App.PushPt` | static/js/ui.js:263-265 | the point joins the end of the stroke in progress |
| `DrawClient.App.PushCurve` | static/js/ui.js:267-276 | exactly one `{color, points}` is committed, the stroke in progress empties, and that stroke is sent if connected |
| `DrawClient.ExtendSpaced` | static/js/ui.js:318-341 | a sample more than 10 and at most 200² (squared) from the last point keeps the drag's points consecutively spaced |
| `DrawClient.App.OnStart` | static/js/ui.js:278-293 | more than one touch changes nothing; otherwise the drag starts at the press point, which is pushed and begins the drag's points; the App invariant (consecutive points of the drag within the limits, the last one recorded) is established |
| `DrawClient.App.OnEnd` | static/js/ui.js:295-302 | the drag ends and the stroke in progress is committed and sent, even with no drag on; a drag's points in the committed stroke are consecutively spaced |
| `DrawClient.App.OnMove` | static/js/ui.js:304-342 | no drag: no change. A jump ends the drag, commits without the sample and clears the last point. Too close: no change. Otherwise the sample is appended and becomes the last point. Every step keeps the drag's points consecutively more than 10 and at most 200² apart, ending at the last point, and a jump commits a stroke whose drag points are so spaced |
| `DrawClient.App.EmptyCanvas` | static/js/ui.js:344-357 | strokes and stroke in progress are emptied; an EmptyCanvas frame is sent only when connected; the App invariant is kept |
| `DrawClient.App.ChangeUser` | static/js/ui.js:374-387 | name and color always change; storage and a ChangeUser frame only when connected |
| `DrawClient.App.SaveProfile` | static/js/ui.js:86-90 | as ChangeUser, and the dialog closes |
| `DrawClient.App.ToggleProfileDialog` | static/js/ui.js:407-410 | the dialog flag flips |
| `DrawClient.App.OnHello` | static/js/ui.js:185-193 | a well-formed identity is appended to the roster, duplicates included; otherwise nothing changes |
| `DrawClient.App.OnText` | static/js/ui.js:194-202 | a parsed stroke is appended; an unparsable one is dropped |
| `DrawClient.App.OnEmptyCanvas` | static/js/ui.js:203-205 | only the toast `"<name> cleared"` is queued |
| `DrawClient.App.OnChangeUser` | static/js/ui.js:206-223 | a well-formed payload renames the first entry equal to the sender's old identity; otherwise nothing changes |
| `DrawClient.App.OnPresentUsers` | static/js/ui.js:224-232 | a parsed snapshot replaces the roster wholesale |
| `DrawClient.App.OnMessage` | static/js/ui.js:181-236 | the per-type effects above, on roster, strokes and toasts; unknown types change nothing |
| `ChatClient.ToInt32` | static/js/plume.js:165-166 | the result is a signed 32-bit integer congruent to the input modulo 2^32 |
| `ChatClient.CodeUnits` | static/js/plume.js:163-164 | every code unit `charCodeAt` yields lies in [0, 0xFFFF] |
| `ChatClient.StepWraps` | static/js/plume.js:165-166 | `((h << 5) - h) + ch` then `& h` is the wrapping step int32(31h + ch) |
| `ChatClient.HashIsWrappedPoly` | static/js/plume.js:161-167 | the stepwise wrapped hash equals the 32-bit wrap of the unbounded polynomial hash |
| `ChatClient.HueOfMagnitude` | static/js/plume.js:168 | `Math.abs(h % 360)` is abs(h) mod 360, a hue in [0, 359] |
| `ChatClient.ColorizeString` | static/js/plume.js:161-169 | the hue is the wrapped polynomial hash of the name's code units, mapped into [0, 359] |
| `ChatClient.LoggedIsNewest` | static/js/plume.js:35-56 | one append keeps at most 501 entries, namely the newest of the old log plus the new entry |
| `ChatClient.LogKeepsNewest` | static/js/plume.js:32-58 | after any run of messages the log is the newest 501 of everything logged, in order |
| `ChatClient.Plume.constructor` | static/js/plume.js:209-210 | no socket, and only the enter form is shown |
| `ChatClient.Plume.LogMessage` | static/js/plume.js:32-58 | the oldest entry goes when there are more than 500, then the coloured entry is appended; at most 501 remain |
| `ChatClient.Plume.Connect` | static/js/plume.js:62-67 | a socket for this name and email takes the connection slot |
| `ChatClient.Plume.OnOpen` | static/js/plume.js:68-77 | Hello `"name\nemail"` is sent; enter form hidden, verify form shown |
| `ChatClient.Plume.OnMessage` | static/js/plume.js:78-124 | Text is logged. AuthAck moves verify to message. AuthRst keeps verify and alerts. MayNotEnter shows enter, hides verify and alerts. Anything else changes nothing |
| `ChatClient.Plume.Verify` | static/js/plume.js:130-139 | an Auth frame only when there is a socket |
| `ChatClient.Plume.Send` | static/js/plume.js:141-150 | a Text frame only when there is a socket |
| `ChatClient.Plume.Close` | static/js/plume.js:152-159 | there is no socket afterwards, so a second close is a no-op |
| `ChatClient.Plume.SubmitEnter` | static/js/plume.js:171-182 | an empty name or email connects nothing; otherwise a socket for them is opened |
| `ChatClient.Plume.SubmitVerify` | static/js/plume.js:184-193 | a blank token sends nothing |
| `ChatClient.Plume.SubmitMessage` | static/js/plume.js:195-207 | blank text sends nothing |
| `DrawRoom.Room.constructor` | pkg/draw/room.go:12-17 | a new room has no members |
| `DrawRoom.Room.Enter` | pkg/draw/room.go:21-33 | exactly one new member, with user u, in this room; existing members stay |
| `DrawRoom.Room.Broadcast` | pkg/draw/room.go:37-41 | the message is delivered to every current member, the sender included |
| `DrawRoom.Room.PresentUsers` | pkg/draw/room.go:45-53 | exactly one user per current member, in some order; empty for an empty room |
| `DrawRoom.Client.constructor` | pkg/draw/room.go:23-27 | a client with the given user in the given room |
| `DrawRoom.Client.Send` | pkg/draw/client.go:14-26 | no room: an error and no broadcast. Otherwise one broadcast of `{kind, user, text}` |
| `DrawRoom.Client.Leave` | pkg/draw/client.go:29-39 | a member is removed from exactly its room's members and loses its room; a second Leave errs and changes nothing |
| `DrawServer.ParseUserExact` | pkg/draw/server.go:80-92 | a Hello payload is accepted iff it is name, one newline, color, with neither containing a newline |
| `DrawServer.Truncate` | pkg/draw/server.go:116-118 | longer text is cut to exactly `maxTextLen` bytes (a prefix); shorter text is unchanged |
| `DrawServer.Decide` | pkg/draw/server.go:79-150 | a two-field Hello enters as that user, whatever the client and limiter; with a client and a token a Text is relayed truncated and a two-field ChangeUser renames; a malformed Hello or ChangeUser, EmptyCanvas and unknown types are ignored; without a client or a token only a Hello acts; relayed text is a prefix of at most `maxTextLen` bytes |
| `DrawServer.Connection.constructor` | pkg/draw/server.go:44 | no client before the first Hello |
| `DrawServer.Connection.Dispatch` | pkg/draw/server.go:79-150 | a Hello enters a fresh member, then broadcasts the Hello and a snapshot, in that order. Text is relayed under the current user. ChangeUser is broadcast under the old user, then the user is renamed. Relay and rename leave the client in its room; an earlier client replaced by a new Hello keeps its user and room. Ignored messages change nothing |
| `DrawServer.Connection.OnReadError` | pkg/draw/server.go:68-77 | a member leaves the room, keeping its user, and the loop ends |
| `DrawServer.Connection.OnPingError` | pkg/draw/server.go:49-61 | a member leaves the room, keeping its user; the read loop goes on |

## Left out

- Rendering is left out: `render`, `drawCurve`, `compose`, `resize`, the line drawn in `onMove` (static/js/ui.js:331-336), `UserEditDialog`, and the show/hide/focus calls. Only the visibility flags and the texts passed to `window.alert` are kept.
- The MayNotEnter alert is deferred by two animation frames; the model records it at once. The `beforeunload` guard installed on AuthAck is not modelled.
- Clearing the message input after a send (static/js/plume.js:206) is DOM work and is not modelled.
- WebSocket construction and events are not modelled. A send is an append to `outbox`. A frame's JSON text is abstract: a stroke frame carries the stroke itself.
- `JSON.parse` outcomes are parameters: `Option<Curve>` and `Option<seq<User>>`. Parsed values are taken to have the expected shape. A message missing its `text` or `user` field, which would throw in the handlers, is not modelled.
- A second `connect` in plume replaces the `conn` slot. The earlier socket's own handlers are not modelled.
- Elements of the message list other than log items do not exist in this model. The page markup is not part of this model, and any such nodes would count toward the 500.
- Toast expiry time (1600 ms) is not modelled. Each scheduled timeout is a call of `ExpireOldest`.
- Go goroutines, channels, `StartListening`, `close(receiver)` and the timing of the ping loop are left out, as concurrency. A broadcast is a recorded set of recipients.
- The race between the ping goroutine and the read loop is not modelled.
- `rate.Limiter` is a boolean parameter. The token it consumes is not modelled.
- The `json.Marshal` error branch (pkg/draw/server.go:100-103) cannot fail for a list of users, so it is not modelled.
- Logging is left out.
- Re-encoding of truncated, invalid UTF-8 by `encoding/json` is not modelled.
- `StartServer`, `handleHome`, the upgrader and its origin check are HTTP plumbing and are left out. `loginCodes` is never used.
- The server for the chat protocol is not part of this model.
- Pointer coordinates are integers. Only squared distances are compared, and fractional coordinates are not modelled.
