/**
 * The volume settings collection of main.ts and the keyed update that
 * `updateVolume` performs on it.
 */
module VolumeSettings {

  /** A fader level. The server copies it and never computes with it. */
  type Volume = real

  /** One addressable audio control (the `VolumeSetting` record of main.ts). */
  datatype VolumeSetting = VolumeSetting(audioKey: string, faderVolume: Volume, group: string)

  /** Some entry of `s` carries the key `audioKey`. */
  predicate HasKey(s: seq<VolumeSetting>, audioKey: string)
  {
    exists i :: 0 <= i < |s| && s[i].audioKey == audioKey
  }

  /** No two entries of `s` share a key. */
  predicate UniqueKeys(s: seq<VolumeSetting>)
  {
    forall i, j :: 0 <= i < j < |s| ==> s[i].audioKey != s[j].audioKey
  }

  /** The collection the server boots with. */
  function DefaultSettings(): (r: seq<VolumeSetting>)
    ensures |r| == 3 && UniqueKeys(r)
    ensures HasKey(r, "boost_button") && HasKey(r, "spin_button") && HasKey(r, "main_game_background")
  {
    var r := [
      VolumeSetting("boost_button", 1.0, "UI"),
      VolumeSetting("spin_button", 0.6, "UI"),
      VolumeSetting("main_game_background", 1.0, "Music")
    ];
    assert r[0].audioKey == "boost_button";
    assert r[1].audioKey == "spin_button";
    assert r[2].audioKey == "main_game_background";
    r
  }

  /**
   * The callback of the `.map` in `recursiveUpdate`: an entry with the
   * matching key is rebuilt from its own fields with the key and the new
   * volume written over them; any other entry is returned as it is.
   */
  function UpdateEntry(item: VolumeSetting, audioKey: string, faderVolume: Volume): (r: VolumeSetting)
    ensures r.audioKey == item.audioKey && r.group == item.group
    ensures item.audioKey == audioKey ==> r.faderVolume == faderVolume
    ensures item.audioKey != audioKey ==> r == item
  {
    if item.audioKey == audioKey then VolumeSetting(audioKey, faderVolume, item.group) else item
  }

  /** The collection `.map` builds: `UpdateEntry` applied to every entry, in order. */
  function UpdateEntries(s: seq<VolumeSetting>, audioKey: string, faderVolume: Volume): (r: seq<VolumeSetting>)
    ensures |r| == |s|
  {
    if s == [] then [] else [UpdateEntry(s[0], audioKey, faderVolume)] + UpdateEntries(s[1..], audioKey, faderVolume)
  }

  /**
   * The keyed update keeps length and order, gives every entry carrying the
   * key the new volume (its key and group kept), and leaves every other
   * entry as it was.
   */
  lemma {:induction false} UpdateEntriesSpec(s: seq<VolumeSetting>, audioKey: string, faderVolume: Volume)
    ensures |UpdateEntries(s, audioKey, faderVolume)| == |s|
    ensures forall i :: 0 <= i < |s| && s[i].audioKey == audioKey ==>
      UpdateEntries(s, audioKey, faderVolume)[i] == VolumeSetting(audioKey, faderVolume, s[i].group)
    ensures forall i :: 0 <= i < |s| && s[i].audioKey != audioKey ==>
      UpdateEntries(s, audioKey, faderVolume)[i] == s[i]
  {
    if s != [] {
      var tail := UpdateEntries(s[1..], audioKey, faderVolume);
      UpdateEntriesSpec(s[1..], audioKey, faderVolume);
      var r := UpdateEntries(s, audioKey, faderVolume);
      assert r == [UpdateEntry(s[0], audioKey, faderVolume)] + tail;
      forall i | 1 <= i < |s|
        ensures r[i] == tail[i - 1] && s[i] == s[1..][i - 1]
      {
      }
    }
  }

  /** The update never adds, drops or renames a key. */
  lemma UpdateEntriesKeys(s: seq<VolumeSetting>, audioKey: string, faderVolume: Volume, other: string)
    ensures HasKey(UpdateEntries(s, audioKey, faderVolume), other) <==> HasKey(s, other)
  {
    UpdateEntriesSpec(s, audioKey, faderVolume);
    var r := UpdateEntries(s, audioKey, faderVolume);
    if HasKey(s, other) {
      var i :| 0 <= i < |s| && s[i].audioKey == other;
      assert r[i].audioKey == other;
    }
    if HasKey(r, other) {
      var i :| 0 <= i < |r| && r[i].audioKey == other;
      assert s[i].audioKey == other;
    }
  }

  /** With no entry carrying the key, the update returns a collection equal to its input. */
  lemma {:induction false} UpdateEntriesMissing(s: seq<VolumeSetting>, audioKey: string, faderVolume: Volume)
    requires !HasKey(s, audioKey)
    ensures UpdateEntries(s, audioKey, faderVolume) == s
  {
    if s != [] {
      assert s[0].audioKey != audioKey;
      assert !HasKey(s[1..], audioKey) by {
        forall i | 0 <= i < |s[1..]| ensures s[1..][i].audioKey != audioKey {
          assert s[1..][i] == s[i + 1];
        }
      }
      UpdateEntriesMissing(s[1..], audioKey, faderVolume);
      assert s == [s[0]] + s[1..];
    }
  }

  /** A second update of the same key overrides the first: the last write wins (so repeating one is idempotent). */
  lemma {:induction false} UpdateEntriesLastWins(s: seq<VolumeSetting>, audioKey: string, first: Volume, second: Volume)
    ensures UpdateEntries(UpdateEntries(s, audioKey, first), audioKey, second) == UpdateEntries(s, audioKey, second)
  {
    if s != [] {
      var once := UpdateEntries(s, audioKey, first);
      assert once[1..] == UpdateEntries(s[1..], audioKey, first);
      UpdateEntriesLastWins(s[1..], audioKey, first, second);
    }
  }

  /** Updates of two different keys commute: the order in which they arrive does not matter. */
  lemma {:induction false} UpdateEntriesCommute(s: seq<VolumeSetting>, k1: string, v1: Volume, k2: string, v2: Volume)
    requires k1 != k2
    ensures UpdateEntries(UpdateEntries(s, k1, v1), k2, v2) == UpdateEntries(UpdateEntries(s, k2, v2), k1, v1)
  {
    if s != [] {
      assert UpdateEntries(s, k1, v1)[1..] == UpdateEntries(s[1..], k1, v1);
      assert UpdateEntries(s, k2, v2)[1..] == UpdateEntries(s[1..], k2, v2);
      UpdateEntriesCommute(s[1..], k1, v1, k2, v2);
    }
  }

  /** Updating a collection extended by one entry extends the update by that entry's update. */
  lemma {:induction false} UpdateEntriesSnoc(s: seq<VolumeSetting>, item: VolumeSetting, audioKey: string, faderVolume: Volume)
    ensures UpdateEntries(s + [item], audioKey, faderVolume) == UpdateEntries(s, audioKey, faderVolume) + [UpdateEntry(item, audioKey, faderVolume)]
  {
    if s == [] {
      assert [] + [item] == [item];
    } else {
      assert (s + [item])[1..] == s[1..] + [item];
      UpdateEntriesSnoc(s[1..], item, audioKey, faderVolume);
    }
  }

  /**
   * `recursiveUpdate`'s pass over the collection: the `.map` visits every
   * entry in order, builds the updated entry list, and its callback raises
   * the captured `found` flag on each entry that carries the key.
   */
  method UpdateEach(settings: seq<VolumeSetting>, audioKey: string, faderVolume: Volume)
    returns (newSettings: seq<VolumeSetting>, found: bool)
    ensures newSettings == UpdateEntries(settings, audioKey, faderVolume)
    ensures found <==> HasKey(settings, audioKey)
  {
    newSettings, found := [], false;
    var i := 0;
    while i < |settings|
      invariant 0 <= i <= |settings|
      invariant newSettings == UpdateEntries(settings[..i], audioKey, faderVolume)
      invariant found <==> HasKey(settings[..i], audioKey)
    {
      var item := settings[i];
      assert settings[..i + 1] == settings[..i] + [item];
      UpdateEntriesSnoc(settings[..i], item, audioKey, faderVolume);
      if item.audioKey == audioKey {
        found := true;
        newSettings := newSettings + [VolumeSetting(audioKey, faderVolume, item.group)];
        assert settings[..i + 1][i].audioKey == audioKey;
      } else {
        newSettings := newSettings + [item];
        assert HasKey(settings[..i + 1], audioKey) ==> HasKey(settings[..i], audioKey) by {
          if HasKey(settings[..i + 1], audioKey) {
            var j :| 0 <= j < i + 1 && settings[..i + 1][j].audioKey == audioKey;
            assert j < i && settings[..i][j] == settings[..i + 1][j];
          }
        }
        assert HasKey(settings[..i], audioKey) ==> HasKey(settings[..i + 1], audioKey) by {
          if HasKey(settings[..i], audioKey) {
            var j :| 0 <= j < i && settings[..i][j].audioKey == audioKey;
            assert settings[..i + 1][j] == settings[..i][j];
          }
        }
      }
      i := i + 1;
    }
    assert settings[..i] == settings;
  }
}
