/** The media player entity of `custom_components/sony/media_player.py`. It
    copies state, volume and muted from the coordinator's snapshot, keeps a local
    `_playing` flag that only its own play and pause commands change, and forwards
    every other command to the device. Commands are returned as the events they send. */
module MediaPlayer {
  import opened Values
  import opened Device

  /** Play/pause as a function of the local flag: the new flag and the command sent. */
  datatype Toggled = Toggled(playing: bool, sent: Event)

  function PlayPause(playing: bool): (r: Toggled)
    ensures r.playing == !playing
    ensures r.sent == (if playing then Pause else Play)
  {
    if playing then Toggled(false, Pause) else Toggled(true, Play)
  }

  /** The commands `n` consecutive `media_play_pause` calls send, from flag `playing`. */
  function PlayPauseRun(playing: bool, n: nat): seq<Event>
    decreases n
  {
    if n == 0 then []
    else
      var t := PlayPause(playing);
      [t.sent] + PlayPauseRun(t.playing, n - 1)
  }

  /** Repeated `media_play_pause` calls alternate; from a fresh entity the first is play. */
  lemma {:induction false} PlayPauseAlternates(playing: bool, n: nat)
    ensures |PlayPauseRun(playing, n)| == n
    ensures forall k :: 0 <= k < n ==>
      PlayPauseRun(playing, n)[k] == (if (k % 2 == 0) != playing then Play else Pause)
    decreases n
  {
    if n > 0 {
      PlayPauseAlternates(!playing, n - 1);
      var run := PlayPauseRun(playing, n);
      forall k | 0 <= k < n
        ensures run[k] == (if (k % 2 == 0) != playing then Play else Pause)
      {
        if k > 0 {
          assert run[k] == PlayPauseRun(!playing, n - 1)[k - 1];
          assert ((k - 1) % 2 == 0) <==> !(k % 2 == 0);
        }
      }
    }
  }

  /** `SonyMediaPlayerEntity`. */
  class SonyMediaPlayerEntity {
    /** `_state`: the coordinator's state string, or `None`. */
    var state: PyValue
    /** `_attr_volume_level` */
    var volumeLevel: PyValue
    /** `_attr_is_volume_muted` */
    var volumeMuted: PyValue
    /** `_playing` */
    var playing: bool

    constructor (snapshot: map<string, PyValue>)
      ensures state == Get(snapshot, "state", NoneVal)
      ensures volumeLevel == Get(snapshot, "volume", Int(0))
      ensures volumeMuted == Get(snapshot, "muted", Bool(false))
      ensures !playing
    {
      state := Str("off");
      volumeLevel := Int(0);
      volumeMuted := Bool(false);
      playing := false;
      new;
      Update(snapshot);
    }

    /** `update`, also run by `_handle_coordinator_update`: it never touches `_playing`. */
    method Update(snapshot: map<string, PyValue>)
      modifies this
      ensures state == Get(snapshot, "state", NoneVal)
      ensures volumeLevel == Get(snapshot, "volume", Int(0))
      ensures volumeMuted == Get(snapshot, "muted", Bool(false))
      ensures playing == old(playing)
    {
      state := Get(snapshot, "state", NoneVal);
      UpdateVolume(snapshot);
    }

    method UpdateVolume(snapshot: map<string, PyValue>)
      modifies this
      ensures volumeLevel == Get(snapshot, "volume", Int(0))
      ensures volumeMuted == Get(snapshot, "muted", Bool(false))
      ensures state == old(state) && playing == old(playing)
    {
      volumeLevel := Get(snapshot, "volume", Int(0));
      volumeMuted := Get(snapshot, "muted", Bool(false));
    }

    method TurnOn() returns (events: seq<Event>)
      ensures events == [Power(true)]
    {
      events := [Power(true)];
    }

    method TurnOff() returns (events: seq<Event>)
      ensures events == [Power(false)]
    {
      events := [Power(false)];
    }

    method MediaPlay() returns (events: seq<Event>)
      modifies this`playing
      ensures playing && events == [Play]
    {
      playing := true;
      events := [Play];
    }

    method MediaPause() returns (events: seq<Event>)
      modifies this`playing
      ensures !playing && events == [Pause]
    {
      playing := false;
      events := [Pause];
    }

    /** `media_play_pause`: pauses exactly when the local flag says playing. */
    method MediaPlayPause() returns (events: seq<Event>)
      modifies this`playing
      ensures |events| == 1 && Toggled(playing, events[0]) == PlayPause(old(playing))
    {
      if playing {
        events := MediaPause();
      } else {
        events := MediaPlay();
      }
    }

    method MediaNextTrack() returns (events: seq<Event>)
      ensures events == [NextTrack]
    {
      events := [NextTrack];
    }

    method MediaPreviousTrack() returns (events: seq<Event>)
      ensures events == [PreviousTrack]
    {
      events := [PreviousTrack];
    }

    method MediaStop() returns (events: seq<Event>)
      ensures events == [Stop]
    {
      events := [Stop];
    }

    /** Forwards the step; the local volume is left as it is until the next poll. */
    method VolumeUp() returns (events: seq<Event>)
      ensures events == [Event.VolumeUp]
    {
      events := [Event.VolumeUp];
    }

    method VolumeDown() returns (events: seq<Event>)
      ensures events == [Event.VolumeDown]
    {
      events := [Event.VolumeDown];
    }

    /** The same mute toggle is sent whatever `mute` asks for. */
    method MuteVolume(mute: bool) returns (events: seq<Event>)
      ensures events == [Mute]
    {
      events := [Mute];
    }
  }
}
