/**
 * The server of main.ts as one object: the settings it holds, the clients
 * connected to it and the log of every message it has sent them.
 */
module Server {
  import opened Wrappers
  import opened VolumeSettings
  import opened Protocol
  import opened Fanout

  /** The error `updateVolume` throws. */
  datatype Failure = AudioKeyNotFound(audioKey: string)

  class Engine {
    /** `bootedVolumeSettings`. */
    var settings: SettingsState
    /** `wsServer.clients`, in the order the clients connected. */
    var clients: seq<Connection>
    /** Every message sent so far, oldest first. */
    var outbox: seq<Delivery<Message>>

    /**
     * Client ids are distinct, every message went to a known client, and
     * every open client's newest message is the snapshot of the current
     * settings: the observers agree with the server.
     */
    ghost predicate Valid()
      reads this
    {
      && DistinctIds(clients)
      && (forall d :: d in outbox ==> Known(clients, d.to))
      && (forall i :: 0 <= i < |clients| && clients[i].open ==>
            Latest(MessagesTo(outbox, clients[i].id)) == Some(ServerState(settings)))
    }

    /** The server at start-up: the default settings, no clients, nothing sent. */
    constructor ()
      ensures Valid()
      ensures settings == Some(DefaultSettings()) && clients == [] && outbox == []
    {
      settings := Some(DefaultSettings());
      clients := [];
      outbox := [];
    }

    /**
     * A client connects: it joins the open clients and is sent one snapshot
     * of the current settings, the first and only message it has so far.
     */
    method Connect(id: ClientId)
      requires Valid() && !Known(clients, id)
      modifies this
      ensures Valid()
      ensures settings == old(settings)
      ensures clients == old(clients) + [Connection(id, true)]
      ensures outbox == old(outbox) + [Delivery(id, ServerState(settings))]
      ensures MessagesTo(outbox, id) == [ServerState(settings)]
    {
      var snapshot := [Delivery(id, ServerState(settings))];
      forall d | d in outbox ensures d.to != id {
        var i :| 0 <= i < |clients| && clients[i].id == d.to;
      }
      MessagesToNone(outbox, id);
      MessagesToAppend(outbox, snapshot, id);
      forall i | 0 <= i < |clients| && clients[i].open
        ensures Latest(MessagesTo(outbox + snapshot, clients[i].id)) == Some(ServerState(settings))
      {
        MessagesToAppend(outbox, snapshot, clients[i].id);
        assert MessagesTo(snapshot, clients[i].id) == MessagesTo(snapshot[..0], clients[i].id);
      }
      ghost var before := clients;
      clients := clients + [Connection(id, true)];
      outbox := outbox + snapshot;
      forall d | d in outbox ensures Known(clients, d.to) {
        if d in old(outbox) {
          var i :| 0 <= i < |before| && before[i].id == d.to;
          assert clients[i] == before[i];
        } else {
          assert clients[|clients| - 1].id == d.to;
        }
      }
    }

    /** The transport reports that client `id` is no longer open; later broadcasts skip it. */
    method ClientClosed(id: ClientId)
      requires Valid()
      modifies this
      ensures Valid()
      ensures settings == old(settings) && outbox == old(outbox)
      ensures |clients| == |old(clients)|
      ensures forall i :: 0 <= i < |clients| ==>
        clients[i] == if old(clients)[i].id == id then Connection(id, false) else old(clients)[i]
    {
      var cs := clients;
      clients := seq(|cs|, i requires 0 <= i < |cs| => if cs[i].id == id then Connection(id, false) else cs[i]);
      forall d | d in outbox ensures Known(clients, d.to) {
        var i :| 0 <= i < |cs| && cs[i].id == d.to;
        assert clients[i].id == d.to;
      }
    }

    /** `broadcastMessage`: `message` goes to every open client, in connection order. */
    method BroadcastMessage(message: Message)
      modifies `outbox
      ensures outbox == old(outbox) + Deliveries(clients, message)
    {
      var i := 0;
      while i < |clients|
        invariant 0 <= i <= |clients|
        invariant outbox == old(outbox) + Deliveries(clients[..i], message)
      {
        var client := clients[i];
        assert clients[..i + 1][..i] == clients[..i];
        if client.open {
          outbox := outbox + [Delivery(client.id, message)];
        }
        i := i + 1;
      }
      assert clients[..i] == clients;
    }

    /**
     * `updateVolume`: the settings become the mapped copy of `current`
     * whether or not the key was found; "not found" is thrown afterwards.
     */
    method UpdateVolume(current: seq<VolumeSetting>, audioKey: string, faderVolume: Volume)
      returns (outcome: Outcome<Failure>)
      modifies `settings
      ensures settings == Some(UpdateEntries(current, audioKey, faderVolume))
      ensures outcome == if HasKey(current, audioKey) then Pass else Fail(AudioKeyNotFound(audioKey))
      ensures outcome.Fail? ==> settings == Some(current)
    {
      var newSettings, found := UpdateEach(current, audioKey, faderVolume);
      settings := Some(newSettings);
      if !found {
        UpdateEntriesMissing(current, audioKey, faderVolume);
        return Fail(AudioKeyNotFound(audioKey));
      }
      return Pass;
    }

    /** Sends the snapshot of the current settings to every open client and restores `Valid`. */
    method Publish() returns (sent: Option<Message>)
      requires DistinctIds(clients) && forall d :: d in outbox ==> Known(clients, d.to)
      modifies `outbox
      ensures Valid()
      ensures sent == Some(ServerState(settings))
      ensures outbox == old(outbox) + Deliveries(clients, sent.value)
    {
      sent := Some(ServerState(settings));
      BroadcastMessage(sent.value);
      BroadcastSyncs(old(outbox), clients, sent.value);
    }

    /**
     * `handleCustomEvent`: the settings and the broadcast follow `Handle`,
     * and a broadcast reaches every open client.
     */
    method HandleCustomEvent(e: Event) returns (sent: Option<Message>)
      requires Valid()
      modifies this
      ensures Valid()
      ensures Reaction(settings, sent) == Handle(old(settings), e)
      ensures clients == old(clients)
      ensures outbox == old(outbox) + (if sent.Some? then Deliveries(clients, sent.value) else [])
    {
      match e
      case InitVolumeSettings(data) =>
        settings := data;
        sent := Publish();
      case SetVolume(change) =>
        if !Initialized(settings) {
          // "not initialized" is thrown and caught
          return None;
        }
        if change.None? {
          return None;
        }
        var outcome := UpdateVolume(settings.value, change.value.audioKey, change.value.faderVolume);
        if outcome.Fail? {
          // "not found" is thrown and caught; the settings are value-equal to the old ones
          return None;
        }
        sent := Publish();
      case UpdatedVolumeSettings =>
        sent := None;
      case SetGlobalVolumeState(payload) =>
        if payload.None? {
          return None;
        }
        settings := payload.value.volumeSettings;
        sent := Publish();
      case Unrecognized(_) =>
        sent := None;
    }

    /**
     * A message arrives from a client. Text that is not JSON, the JSON
     * value `null` and an unprintable `type` are dropped; an envelope is
     * dispatched.
     */
    method OnMessage(raw: RawMessage) returns (sent: Option<Message>)
      requires Valid()
      modifies this
      ensures Valid()
      ensures Reaction(settings, sent) == Receive(old(settings), raw)
      ensures clients == old(clients)
      ensures outbox == old(outbox) + (if sent.Some? then Deliveries(clients, sent.value) else [])
    {
      if !raw.Envelope? {
        return None;
      }
      sent := HandleCustomEvent(raw.event);
    }
  }
}
