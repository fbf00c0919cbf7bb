/**
 * The wire events of the volume server and what `handleCustomEvent` in
 * main.ts does with each of them, stated as a pure function of the current
 * settings and the event.
 */
module Protocol {
  import opened Wrappers
  import opened VolumeSettings

  /** The server's `bootedVolumeSettings`: a collection, or `undefined`. */
  type SettingsState = Option<seq<VolumeSetting>>

  /** The payload of `SET_VOLUME` (`audioKey`/`faderVolume` naming). */
  datatype VolumeChange = VolumeChange(audioKey: string, faderVolume: Volume)

  /** The payload of `SET_GLOBAL_VOLUME_STATE`; its `volumeSettings` may be absent. */
  datatype GlobalVolumeState = GlobalVolumeState(volumeSettings: SettingsState)

  /**
   * A parsed client message, one constructor per case of the dispatch. A
   * missing `data` is `None`. Any other `type` string, `SERVER_STATE`
   * included, is `Unrecognized`.
   */
  datatype Event =
    | InitVolumeSettings(data: SettingsState)
    | SetVolume(change: Option<VolumeChange>)
    | UpdatedVolumeSettings
    | SetGlobalVolumeState(payload: Option<GlobalVolumeState>)
    | Unrecognized(eventType: string)

  /** The one message the server sends: a `SERVER_STATE` snapshot of the settings. */
  datatype Message = ServerState(bootedVolumeSettings: SettingsState)

  /** What handling one event leads to: the new settings and the snapshot to broadcast, if any. */
  datatype Reaction = Reaction(settings: SettingsState, broadcast: Option<Message>)

  /** The guard of `SET_VOLUME`: the settings are defined and hold at least one entry. */
  predicate Initialized(s: SettingsState)
  {
    s.Some? && |s.value| != 0
  }

  /**
   * `handleCustomEvent`. Every broadcast is the snapshot of the new settings,
   * and an event that broadcasts nothing leaves the settings as they were.
   */
  function Handle(s: SettingsState, e: Event): (r: Reaction)
    ensures r.broadcast.Some? ==> r.broadcast.value == ServerState(r.settings)
    ensures r.broadcast.None? ==> r.settings == s
  {
    match e
    case InitVolumeSettings(data) =>
      Reaction(data, Some(ServerState(data)))
    case SetVolume(change) =>
      if !Initialized(s) then Reaction(s, None)
      else if change.None? then Reaction(s, None)
      else
        var updated := UpdateEntries(s.value, change.value.audioKey, change.value.faderVolume);
        if HasKey(s.value, change.value.audioKey) then
          Reaction(Some(updated), Some(ServerState(Some(updated))))
        else
          // the state is reassigned to the mapped copy before "not found" is thrown
          UpdateEntriesMissing(s.value, change.value.audioKey, change.value.faderVolume);
          Reaction(Some(updated), None)
    case UpdatedVolumeSettings =>
      Reaction(s, None)
    case SetGlobalVolumeState(payload) =>
      if payload.None? then Reaction(s, None)
      else Reaction(payload.value.volumeSettings, Some(ServerState(payload.value.volumeSettings)))
    case Unrecognized(_) =>
      Reaction(s, None)
  }

  /**
   * A text frame from a client after `JSON.parse`: text that is not JSON;
   * the JSON value `null`; an object whose `type` matches no event and is
   * itself an object that cannot be turned into a string (its `toString`
   * and `valueOf` are not functions, as in `{"type":{"toString":0}}`); or
   * any other JSON value, read as an envelope. A value that is not an
   * object (a number, a string, an array) or an object whose `type` is no
   * known event name reads as `Unrecognized`.
   */
  datatype RawMessage = NotJson | JsonNull | UnprintableType | Envelope(event: Event)

  /** How the server's `message` listener ends: it handled the message, or an error escaped it. */
  datatype Dispatch = Handled(reaction: Reaction) | Uncaught

  /**
   * The `message` listener as written: text that is not JSON is caught and
   * dropped; for `null`, reading `parsedMessage.type` throws a `TypeError`
   * outside any `try`; an unprintable `type` reaches the `default` case,
   * whose log line throws a `TypeError` when it converts `type` to a
   * string, again outside any `try`; anything else goes to
   * `handleCustomEvent`.
   */
  function ReceiveAsWritten(s: SettingsState, raw: RawMessage): (r: Dispatch)
    ensures r.Uncaught? <==> raw.JsonNull? || raw.UnprintableType?
    ensures r.Handled? ==> r.reaction.broadcast.None? ==> r.reaction.settings == s
  {
    match raw
    case NotJson => Handled(Reaction(s, None))
    case JsonNull => Uncaught
    case UnprintableType => Uncaught
    case Envelope(e) => Handled(Handle(s, e))
  }

  /**
   * The `message` listener with `null` dropped like any other malformed
   * message and an unprintable `type` dropped like any other unknown
   * event type: a message that is not an envelope changes nothing and
   * broadcasts nothing, and an envelope is dispatched.
   */
  function Receive(s: SettingsState, raw: RawMessage): (r: Reaction)
    ensures !raw.Envelope? ==> r == Reaction(s, None)
    ensures r.broadcast.None? ==> r.settings == s
  {
    if raw.Envelope? then Handle(s, raw.event) else Reaction(s, None)
  }

  /**
   * The JSON text `null` and an envelope with an unprintable `type` escape
   * the listener as written, although both are parseable JSON; the
   * corrected listener drops them.
   */
  lemma EscapingMessages(s: SettingsState)
    ensures ReceiveAsWritten(s, JsonNull) == Uncaught
    ensures ReceiveAsWritten(s, UnprintableType) == Uncaught
    ensures Receive(s, JsonNull) == Reaction(s, None)
    ensures Receive(s, UnprintableType) == Reaction(s, None)
  {
  }

  /** The corrected listener agrees with the one as written wherever that one does not throw. */
  lemma ReceiveAgrees(s: SettingsState, raw: RawMessage)
    ensures ReceiveAsWritten(s, raw).Handled? ==> ReceiveAsWritten(s, raw).reaction == Receive(s, raw)
    ensures raw.Envelope? ==> Receive(s, raw) == Handle(s, raw.event)
  {
  }

  /**
   * `SET_VOLUME` on initialized settings with a present key: same length and
   * order, every entry with the key gets the new volume and keeps its key and
   * group, every other entry is unchanged, and that new state is broadcast.
   */
  lemma SetVolumeAccepted(s: SettingsState, audioKey: string, faderVolume: Volume)
    requires Initialized(s) && HasKey(s.value, audioKey)
    ensures var r := Handle(s, SetVolume(Some(VolumeChange(audioKey, faderVolume))));
      && r.settings.Some?
      && |r.settings.value| == |s.value|
      && (forall i :: 0 <= i < |s.value| && s.value[i].audioKey == audioKey ==>
            r.settings.value[i] == VolumeSetting(audioKey, faderVolume, s.value[i].group))
      && (forall i :: 0 <= i < |s.value| && s.value[i].audioKey != audioKey ==>
            r.settings.value[i] == s.value[i])
      && r.broadcast == Some(ServerState(r.settings))
  {
    UpdateEntriesSpec(s.value, audioKey, faderVolume);
  }

  /**
   * `SET_VOLUME` broadcasts exactly when the settings are initialized, the
   * payload is present and some entry carries its key; otherwise the
   * settings stay as they were.
   */
  lemma SetVolumeRejected(s: SettingsState, change: Option<VolumeChange>)
    ensures var r := Handle(s, SetVolume(change));
      && (r.broadcast.None? <==> !Initialized(s) || change.None? || !HasKey(s.value, change.value.audioKey))
      && (r.broadcast.None? ==> r.settings == s)
  {
  }

  /** `INITIALIZE_VOLUME_SETTINGS` replaces the settings by its payload, unchecked, and broadcasts it. */
  lemma InitReplaces(s: SettingsState, data: SettingsState)
    ensures Handle(s, InitVolumeSettings(data)) == Reaction(data, Some(ServerState(data)))
  {
  }

  /**
   * `SET_GLOBAL_VOLUME_STATE` without a payload does nothing; with one it
   * replaces the settings by `volumeSettings` and broadcasts them.
   */
  lemma GlobalStateReplaces(s: SettingsState, payload: Option<GlobalVolumeState>)
    ensures payload.None? ==> Handle(s, SetGlobalVolumeState(payload)) == Reaction(s, None)
    ensures payload.Some? ==>
      Handle(s, SetGlobalVolumeState(payload)) ==
        Reaction(payload.value.volumeSettings, Some(ServerState(payload.value.volumeSettings)))
  {
  }

  /** An acknowledgement, an unknown event type and text that is not JSON change nothing and broadcast nothing. */
  lemma IgnoredInputs(s: SettingsState, eventType: string)
    ensures Handle(s, UpdatedVolumeSettings) == Reaction(s, None)
    ensures Handle(s, Unrecognized(eventType)) == Reaction(s, None)
    ensures ReceiveAsWritten(s, NotJson) == Handled(Reaction(s, None))
  {
  }

  /** Delivering the same `SET_VOLUME` twice leaves the settings as delivering it once. */
  lemma SetVolumeIdempotent(s: SettingsState, change: Option<VolumeChange>)
    ensures var once := Handle(s, SetVolume(change)).settings;
      Handle(once, SetVolume(change)).settings == once
  {
    if Initialized(s) && change.Some? {
      var k, v := change.value.audioKey, change.value.faderVolume;
      var updated := UpdateEntries(s.value, k, v);
      UpdateEntriesSpec(s.value, k, v);
      UpdateEntriesKeys(s.value, k, v, k);
      UpdateEntriesLastWins(s.value, k, v, v);
      if HasKey(s.value, k) {
        assert Handle(s, SetVolume(change)).settings == Some(updated);
        assert Initialized(Some(updated));
      }
    }
  }

  /**
   * Two `SET_VOLUME` events for different keys, from different clients, lead
   * to the same settings whichever arrives first.
   */
  lemma SetVolumeCommute(s: SettingsState, c1: VolumeChange, c2: VolumeChange)
    requires c1.audioKey != c2.audioKey
    ensures Handle(Handle(s, SetVolume(Some(c1))).settings, SetVolume(Some(c2))).settings
         == Handle(Handle(s, SetVolume(Some(c2))).settings, SetVolume(Some(c1))).settings
  {
    if Initialized(s) {
      var xs := s.value;
      var (k1, v1, k2, v2) := (c1.audioKey, c1.faderVolume, c2.audioKey, c2.faderVolume);
      UpdateEntriesSpec(xs, k1, v1);
      UpdateEntriesSpec(xs, k2, v2);
      UpdateEntriesKeys(xs, k1, v1, k2);
      UpdateEntriesKeys(xs, k2, v2, k1);
      UpdateEntriesCommute(xs, k1, v1, k2, v2);
      if !HasKey(xs, k1) {
        UpdateEntriesMissing(xs, k1, v1);
        UpdateEntriesMissing(UpdateEntries(xs, k2, v2), k1, v1);
      }
      if !HasKey(xs, k2) {
        UpdateEntriesMissing(xs, k2, v2);
        UpdateEntriesMissing(UpdateEntries(xs, k1, v1), k2, v2);
      }
    }
  }

  /**
   * From the boot settings, `SET_VOLUME` of `spin_button` to 0.35 broadcasts
   * the collection with only that level changed; a following `SET_VOLUME`
   * of a key no entry has broadcasts nothing and keeps that state.
   */
  lemma BootSessionExample()
    ensures var first := Handle(Some(DefaultSettings()), SetVolume(Some(VolumeChange("spin_button", 0.35))));
      && first.broadcast == Some(ServerState(Some([
           VolumeSetting("boost_button", 1.0, "UI"),
           VolumeSetting("spin_button", 0.35, "UI"),
           VolumeSetting("main_game_background", 1.0, "Music")])))
      && Handle(first.settings, SetVolume(Some(VolumeChange("nonexistent", 0.9)))) == Reaction(first.settings, None)
  {
    var boot := DefaultSettings();
    UpdateEntriesSpec(boot, "spin_button", 0.35);
    var updated := UpdateEntries(boot, "spin_button", 0.35);
    assert boot[0].audioKey != "spin_button" && boot[2].audioKey != "spin_button";
    assert updated == [boot[0], VolumeSetting("spin_button", 0.35, "UI"), boot[2]];
    UpdateEntriesKeys(boot, "spin_button", 0.35, "nonexistent");
    assert !HasKey(boot, "nonexistent") by {
      forall i | 0 <= i < |boot| ensures boot[i].audioKey != "nonexistent" {
        assert boot[i].audioKey[0] != 'n';
      }
    }
  }
}
