# Audio mixer volume server — a Dafny model

This project models the synchronization engine of the audio mixer's WebSocket
server (`main.ts`). The server holds one authoritative list of volume
settings, `bootedVolumeSettings`. Each entry has an `audioKey`, a
`faderVolume` and a `group`. Clients send typed events that replace the list
or change the level of one key. After each accepted change, the server
broadcasts a `SERVER_STATE` snapshot of the list to every open client. A
newly connected client first gets one snapshot of the current list.

Modules:

- `Wrappers` (`wrappers.dfy`): `Option` stands for `undefined`, and `Outcome` for "returns or throws".
- `VolumeSettings` (`settings.dfy`): the entry type, the boot list, and the
  keyed update that `updateVolume` performs. The update is
  `UpdateEntries`, the `.map` of `recursiveUpdate`. `UpdateEach` is that
  pass written as a loop, with the captured `found` flag.
- `Protocol` (`protocol.dfy`): the parsed events, the `SERVER_STATE`
  message, and `Handle`. `Handle` is `handleCustomEvent` written as a pure
  function from the current settings and an event to the new settings and
  the snapshot to broadcast, if any.
- `Fanout` (`fanout.dfy`): client connections reduced to an id and an
  open/closed flag. Also the sends one broadcast makes (`Deliveries`) and the
  messages a client has received (`MessagesTo`).
- `Server` (`engine.dfy`): class `Engine`, with the fields `settings`,
  `clients` and `outbox` (a log of every message sent). The class invariant
  `Valid` states convergence: every open client's newest message is the
  snapshot of the current settings. The constructor establishes `Valid`, and
  `Connect`, `ClientClosed`, `HandleCustomEvent` and `OnMessage` keep it.
  `HandleCustomEvent` and `OnMessage` are proved against `Handle` and
  `Receive`. `Connect` and `ClientClosed` state the whole new state.
  `UpdateVolume`, `BroadcastMessage` and `Publish` are steps inside
  `HandleCustomEvent`. `Valid` does not hold between them: `UpdateVolume`
  changes the settings before the broadcast. They are proved against
  `UpdateEntries` and `Deliveries` instead.

Behaviours of `main.ts` worth noting:

- `updateVolume` changes every entry whose `audioKey` matches, not only the
  first (main.ts:137-148). `UpdateEntriesSpec` states this for duplicate keys too.
- When no entry has the key, `recursiveUpdate` still reassigns
  `bootedVolumeSettings` to the mapped copy before "not found" is thrown
  (main.ts:149-153). The model does the same. `UpdateEntriesMissing`
  proves the copy equals the old list, so the state does not change.
- `INITIALIZE_VOLUME_SETTINGS` without `data` sets the settings to
  `undefined` and still broadcasts. `SET_GLOBAL_VOLUME_STATE` whose payload
  lacks `volumeSettings` does the same. Both are modelled, since the settings
  are an `Option`.
- The wire names of `SET_VOLUME` are `audioKey`/`faderVolume`, as in main.ts.

## Model

| member | source | states |
|---|---|---|
| `VolumeSettings.DefaultSettings` | main.ts:34-50 | The boot list has three entries with distinct keys: `boost_button`, `spin_button` and `main_game_background`. |
| `VolumeSettings.UpdateEntry` | main.ts:138-147 | The `.map` callback: an entry with the key keeps its key and group and gets the new volume. Any other entry is returned unchanged. |
| `VolumeSettings.UpdateEntries` | main.ts:137-148 | The list `.map` builds, one updated entry per input entry, so its length equals the input's. |
| `VolumeSettings.UpdateEntriesSpec` | main.ts:133-148 | The keyed update keeps length and order. Every entry whose `audioKey` equals the key gets the new `faderVolume` and keeps its key and `group`. Every other entry is unchanged. |
| `VolumeSettings.UpdateEntriesKeys` | main.ts:137-148 | The update never adds, drops or renames a key: a key is present after the update iff it was present before. |
| `VolumeSettings.UpdateEntriesMissing` | main.ts:149-153 | When no entry has the key, the reassigned copy equals the old list. |
| `VolumeSettings.UpdateEntriesLastWins` | main.ts:137-149 | A second update of the same key gives the same list as that update alone. The last write wins, and repeating an update is idempotent. |
| `VolumeSettings.UpdateEntriesCommute` | main.ts:137-149 | Updates of two different keys give the same list in either order. |
| `VolumeSettings.UpdateEntriesSnoc` | main.ts:137-148 | Mapping a list extended by one entry gives the old result extended by that entry's update, so `.map` keeps order. |
| `VolumeSettings.UpdateEach` | main.ts:134-148 | The pass over the entries returns the updated list. Its `found` flag is true iff some entry carries the key. |
| `Protocol.Handle` | main.ts:68-120 | Every broadcast is the `SERVER_STATE` snapshot of the new settings. An event that broadcasts nothing leaves the settings as they were. |
| `Protocol.ReceiveAsWritten` | main.ts:54-118 | The `message` listener as written. An error escapes it iff the message is the JSON value `null` or an object whose `type` matches no event and cannot be converted to a string. Text that is not JSON is dropped, and any other JSON value is dispatched by `Handle`. A handled message that broadcasts nothing leaves the settings unchanged. |
| `Protocol.Receive` | main.ts:54-62 | The corrected listener: text that is not JSON, `null` and an unprintable `type` are dropped, with no change and no broadcast. An envelope is dispatched by `Handle`. |
| `Protocol.EscapingMessages` | main.ts:57-118 | Two parseable messages escape the listener as written. `null` throws a `TypeError` at main.ts:62. A `type` like `{"toString":0}` throws one when main.ts:117 converts it to a string. Both are outside any `try`. The corrected listener drops both. |
| `Protocol.ReceiveAgrees` | main.ts:54-62 | Wherever the listener as written does not throw, the corrected one gives the same reaction. An envelope goes to `Handle`. |
| `Protocol.SetVolumeAccepted` | main.ts:82-95 | `SET_VOLUME` on initialized settings with a key that is present gives a list of the same length and order. Matching entries get the new volume and keep their key and group. The others are unchanged. That list is broadcast. |
| `Protocol.SetVolumeRejected` | main.ts:84-98 | `SET_VOLUME` broadcasts iff the settings are defined and non-empty, `data` is present and some entry has its key. Otherwise the settings stay as they were. |
| `Protocol.InitReplaces` | main.ts:70-81 | `INITIALIZE_VOLUME_SETTINGS` replaces the settings wholesale with `data`, unchecked, and broadcasts the snapshot. |
| `Protocol.GlobalStateReplaces` | main.ts:103-115 | `SET_GLOBAL_VOLUME_STATE` without `data` does nothing. With `data` it sets the settings to `data.volumeSettings` and broadcasts them. |
| `Protocol.IgnoredInputs` | main.ts:56-118 | `UPDATED_VOLUME_SETTINGS`, an unknown event type and text that is not JSON never change the settings and never broadcast. |
| `Protocol.SetVolumeIdempotent` | main.ts:82-98 | Applying the same `SET_VOLUME` twice leaves the same settings as applying it once. |
| `Protocol.SetVolumeCommute` | main.ts:82-98 | Two `SET_VOLUME` events for different keys lead to the same settings in either arrival order. |
| `Protocol.BootSessionExample` | main.ts:34-50 | From the boot list, setting `spin_button` to 0.35 broadcasts the list with only that level changed. A following `SET_VOLUME` for an absent key broadcasts nothing and keeps that list. |
| `Fanout.Deliveries` | main.ts:122-128 | The sends of one broadcast, in client order. In total there are no more of them than clients. `BroadcastReaches` gives the copies each client gets. |
| `Fanout.DeliveriesTargets` | main.ts:122-128 | A broadcast sends only the given message, and only to open clients. |
| `Fanout.BroadcastReaches` | main.ts:122-128 | Over clients with distinct ids, a broadcast sends exactly one copy of the message to each open client, the sender included. Every other client gets nothing. |
| `Fanout.BroadcastSyncs` | main.ts:122-128 | After a broadcast, its message is the newest that each open client has received. |
| `Server.Engine.constructor` | main.ts:34-50 | The server starts with the boot list, no clients and nothing sent, and satisfies its invariant. |
| `Server.Engine.Connect` | main.ts:52-53 | A new client joins as open. It is sent exactly one `SERVER_STATE` snapshot of the current settings, before any other message to it. The settings do not change. |
| `Server.Engine.ClientClosed` | main.ts:124 | A client leaving the OPEN state is only flagged closed. The settings and the sent messages do not change. |
| `Server.Engine.BroadcastMessage` | main.ts:122-128 | The log grows by `Deliveries`: the message to each open client in connection order. |
| `Server.Engine.UpdateVolume` | main.ts:133-155 | The settings become the mapped copy. The result is "not found" iff no entry has the key, and in that case the settings equal the old list. |
| `Server.Engine.Publish` | main.ts:94-95 | Broadcasts the snapshot of the current settings and re-establishes that every open client holds it. |
| `Server.Engine.HandleCustomEvent` | main.ts:68-120 | The new settings and the broadcast are exactly what `Handle` gives. A broadcast reaches every open client. The client set is unchanged, and convergence is kept. |
| `Server.Engine.OnMessage` | main.ts:54-63 | Follows the corrected `Receive`. Text that is not JSON, `null` and an unprintable `type` change nothing. An envelope is handled as by `HandleCustomEvent`. Convergence is kept. |

## Left out

- The WebSocket transport (the `ws` server, its port and its event wiring). Connections are ids with an open flag, and a client id is assumed fresh on connect.
- `JSON.parse` and `JSON.stringify`. A parsed message is a `RawMessage`: text that is not JSON, the value `null`, an object with an unprintable `type`, or an envelope. The outbound message is the `ServerState` datatype.
- The switch on the `type` string is folded into the `Event` datatype. Any other name, `SERVER_STATE` included, is `Unrecognized`.
- The untyped `data: any`: payloads are typed and optional. Object-shaped or otherwise mistyped `data` is not modelled, for example a settings object that is not an array, or a `SET_VOLUME` without `audioKey`. Neither are the `TypeError`s the server would then catch.
- Exceptions thrown by a send during a broadcast, and transport errors.
- Console logging, including the text of the caught error messages.
- Floating point: `faderVolume` is a `real` that is only copied.
- The client-side bootstrap (`ConnectToServer.ts`), which only opens a socket and sends one message.

## Findings

| source | as written | input that shows it | evidently intended | confidence | as-written member | corrected member |
|---|---|---|---|---|---|---|
| main.ts:57-117 | `JSON.parse` succeeds on the text `null`. Reading `parsedMessage.type` then throws a `TypeError` outside any `try`. An unknown `type` that cannot be converted to a string reaches the `default` case, and its log line at main.ts:117 throws a `TypeError`, also outside any `try`. Both escape the `message` listener. | the text frame `null`; the text frame `{"type":{"toString":0}}` | A malformed message or an unknown event type is dropped with no state change, as the `try` around `JSON.parse` and the `default` case do for other such input. | medium; not executed | `Protocol.ReceiveAsWritten` (shown by `Protocol.EscapingMessages`) | `Protocol.Receive` (used by `Server.Engine.OnMessage`) |
