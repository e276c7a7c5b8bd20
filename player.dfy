/** The player provider: one audio element, a queue with a cursor, the transport flags and
    the "last saved track" marker that suppresses repeated history writes.

    Each operation is given twice: as a step function on a snapshot of the whole state
    (`PlayerState`), which the lemmas reason about, and as a method of `PlayerProvider`, which
    updates the fields in place and is proved to produce exactly that step. */
module Player {
  import opened Types

  /** What the audio element holds. `paused` is the element's own flag, distinct from the
      provider's `isPlaying`. */
  datatype AudioState = AudioState(src: string, currentTime: real, volume: real, muted: bool, paused: bool)

  /** `new Audio()`. */
  const NewAudio := AudioState("", 0.0, 1.0, false, true)

  /** Assigning `src` runs the element's load algorithm: output stops and the position returns to 0. */
  function Load(a: AudioState, url: string): AudioState {
    a.(src := url, currentTime := 0.0, paused := true)
  }

  /** The value `audio.src = url` stores: the attribute is a string, so an absent URL is converted
      to the text "undefined" (which the element then tries to load as a relative URL). */
  function SrcValue(url: Option<string>): string {
    match url
    case Some(u) => u
    case None => "undefined"
  }

  /** `play()`: output starts only when the device accepts the request. */
  function StartOutput(a: AudioState, accepted: bool): AudioState {
    if accepted then a.(paused := false) else a
  }

  datatype PlayerState = PlayerState(
    currentTrack: Option<Track>,
    isPlaying: bool,
    currentTime: real,
    duration: real,
    queue: seq<Track>,
    currentIndex: int,
    volume: real,
    isMuted: bool,
    lastSavedTrackId: Option<string>,
    audio: AudioState)

  /** The provider's state right after mounting (the volume sync writes 1 and false, which the
      new element already holds). */
  const Initial := PlayerState(None, false, 0.0, 0.0, [], 0, 1.0, false, None, NewAudio)

  /** The cursor is -1 (track not found in the list it came with), a position in the queue, or
      the initial 0 of an empty queue. */
  predicate CursorValid(s: PlayerState) {
    -1 <= s.currentIndex && (s.currentIndex < |s.queue| || s.currentIndex == 0)
  }

  lemma InitialValid()
    ensures CursorValid(Initial) && Initial.queue == [] && Initial.currentIndex == 0
  {
  }

  /** `playTrack(track, trackList?)`. */
  function PlayTrackStep(s: PlayerState, track: Track, trackList: Option<seq<Track>>, playOk: bool): (r: PlayerState)
    ensures trackList.Some? ==>
      var list := trackList.value;
      && r.queue == list
      && -1 <= r.currentIndex < |list|
      && (r.currentIndex >= 0 ==> list[r.currentIndex].id == track.id)
      && forall j :: 0 <= j < |list| && (r.currentIndex == -1 || j < r.currentIndex) ==> list[j].id != track.id
    ensures trackList.None? ==> r.queue == s.queue && r.currentIndex == s.currentIndex
    ensures CursorValid(s) ==> CursorValid(r)
    ensures r.currentTrack == Some(track) && r.audio.src == SrcValue(track.audioUrl)
    // isPlaying becomes true only once play() has been accepted; a refused start keeps the old flag
    ensures r.isPlaying == (playOk || s.isPlaying)
    ensures r.audio.paused == !playOk && r.audio.currentTime == 0.0
    ensures r.volume == s.volume && r.isMuted == s.isMuted && r.audio.volume == s.audio.volume &&
            r.audio.muted == s.audio.muted
    ensures r.currentTime == s.currentTime && r.duration == s.duration && r.lastSavedTrackId == s.lastSavedTrackId
  {
    var s1 := if trackList.Some?
      then s.(queue := trackList.value, currentIndex := FindIndex(trackList.value, TrackHasId(track.id)))
      else s;
    var s2 := s1.(audio := Load(s1.audio, SrcValue(track.audioUrl)), currentTrack := Some(track));
    if playOk then s2.(audio := StartOutput(s2.audio, true), isPlaying := true) else s2
  }

  /** `playNext`: moves forward only while there is a next entry; no wraparound. */
  function NextStep(s: PlayerState, playOk: bool): (r: PlayerState)
    requires CursorValid(s)
    ensures CursorValid(r) && r.queue == s.queue
    ensures s.currentIndex + 1 < |s.queue| ==>
      && r.currentIndex == s.currentIndex + 1
      && r.currentTrack == Some(s.queue[s.currentIndex + 1])
      && r.audio.src == SrcValue(s.queue[s.currentIndex + 1].audioUrl)
      && r.isPlaying == (playOk || s.isPlaying)
    ensures s.currentIndex + 1 >= |s.queue| ==> r == s
  {
    var next := s.currentIndex + 1;
    if next < |s.queue| then PlayTrackStep(s, s.queue[next], None, playOk).(currentIndex := next) else s
  }

  /** `playPrevious`: moves back only while there is a previous entry. */
  function PreviousStep(s: PlayerState, playOk: bool): (r: PlayerState)
    requires CursorValid(s)
    ensures CursorValid(r) && r.queue == s.queue
    ensures s.currentIndex - 1 >= 0 ==>
      && r.currentIndex == s.currentIndex - 1
      && r.currentTrack == Some(s.queue[s.currentIndex - 1])
      && r.audio.src == SrcValue(s.queue[s.currentIndex - 1].audioUrl)
      && r.isPlaying == (playOk || s.isPlaying)
    ensures s.currentIndex - 1 < 0 ==> r == s
  {
    var prev := s.currentIndex - 1;
    if prev >= 0 then PlayTrackStep(s, s.queue[prev], None, playOk).(currentIndex := prev) else s
  }

  /** `togglePlay`: flips the flag whether or not a track is loaded and whether or not play() is
      accepted; only the element's own `paused` depends on the device. */
  function TogglePlayStep(s: PlayerState, playOk: bool): (r: PlayerState)
    ensures r.isPlaying == !s.isPlaying
    ensures s.isPlaying ==> r.audio.paused
    ensures !s.isPlaying ==> r.audio.paused == (s.audio.paused && !playOk)
    ensures r.(isPlaying := s.isPlaying, audio := s.audio) == s
    ensures r.audio.(paused := s.audio.paused) == s.audio
  {
    if s.isPlaying then s.(audio := s.audio.(paused := true), isPlaying := false)
    else s.(audio := StartOutput(s.audio, playOk), isPlaying := true)
  }

  /** `seek(time)`: the requested time is stored as given, with no clamping. */
  function SeekStep(s: PlayerState, time: real): (r: PlayerState)
    ensures r.currentTime == time && r.audio.currentTime == time
    ensures r.(currentTime := s.currentTime, audio := s.audio) == s
    ensures r.audio.(currentTime := s.audio.currentTime) == s.audio
  {
    s.(audio := s.audio.(currentTime := time), currentTime := time)
  }

  /** The volume-sync effect: copies `volume` and `isMuted` onto the element. */
  function Sync(s: PlayerState): (r: PlayerState)
    ensures r.audio.volume == s.volume && r.audio.muted == s.isMuted
    ensures r.(audio := s.audio) == s
    ensures r.audio.(volume := s.audio.volume, muted := s.audio.muted) == s.audio
  {
    s.(audio := s.audio.(volume := s.volume, muted := s.isMuted))
  }

  /** `toggleMute` followed by the sync: the flag flips and the volume is left alone. */
  function ToggleMuteStep(s: PlayerState): (r: PlayerState)
    ensures r.isMuted == !s.isMuted && r.volume == s.volume
    ensures r.audio.muted == r.isMuted && r.audio.volume == r.volume
    ensures r.(isMuted := s.isMuted, audio := s.audio) == s
  {
    Sync(s.(isMuted := !s.isMuted))
  }

  /** `setVolume(v)` followed by the sync: the value is stored as given, with no clamping. */
  function SetVolumeStep(s: PlayerState, v: real): (r: PlayerState)
    ensures r.volume == v && r.audio.volume == v && r.audio.muted == s.isMuted
    ensures r.(volume := s.volume, audio := s.audio) == s
  {
    Sync(s.(volume := v))
  }

  /** The `ended` listener, after the element has stopped at the end of the media. It plays
      `queue[currentIndex + 1]` when there is one and otherwise clears `isPlaying`; it never moves
      the cursor and never touches the queue. */
  function EndedStep(s: PlayerState, playOk: bool): (r: PlayerState)
    requires CursorValid(s)
    ensures CursorValid(r)
    ensures r.currentIndex == s.currentIndex && r.queue == s.queue
    ensures s.currentIndex < |s.queue| - 1 ==>
      && r.currentTrack == Some(s.queue[s.currentIndex + 1])
      && r.audio.src == SrcValue(s.queue[s.currentIndex + 1].audioUrl)
      && r.isPlaying == (playOk || s.isPlaying)
    ensures s.currentIndex >= |s.queue| - 1 ==>
      !r.isPlaying && r.audio.paused && r.currentTrack == s.currentTrack && r.audio.src == s.audio.src
  {
    var stopped := s.(audio := s.audio.(paused := true));
    if s.currentIndex < |s.queue| - 1 then PlayTrackStep(stopped, s.queue[s.currentIndex + 1], None, playOk)
    else stopped.(isPlaying := false)
  }

  datatype HistoryWrite = HistoryWrite(uid: string, trackId: string)

  /** The write the history effect issues, if any. */
  function HistoryAttempt(s: PlayerState, user: Option<string>): (w: Option<HistoryWrite>)
    ensures w.Some? <==>
      s.currentTrack.Some? && user.Some? && s.lastSavedTrackId != Some(s.currentTrack.value.id)
    ensures w.Some? ==> w.value == HistoryWrite(user.value, s.currentTrack.value.id)
  {
    if s.currentTrack.None? || user.None? then None
    else if s.lastSavedTrackId == Some(s.currentTrack.value.id) then None
    else Some(HistoryWrite(user.value, s.currentTrack.value.id))
  }

  /** The history effect: the marker moves to the track only after a successful write; a failed
      write is swallowed and changes nothing. */
  function HistoryStep(s: PlayerState, user: Option<string>, writeOk: bool): (r: PlayerState)
    ensures HistoryAttempt(s, user).Some? && writeOk ==> r.lastSavedTrackId == Some(s.currentTrack.value.id)
    ensures !(HistoryAttempt(s, user).Some? && writeOk) ==> r == s
    ensures r.(lastSavedTrackId := s.lastSavedTrackId) == s
  {
    if HistoryAttempt(s, user).Some? && writeOk then s.(lastSavedTrackId := Some(s.currentTrack.value.id)) else s
  }

  /** After a successful write, running the effect again for the same track and user writes nothing. */
  lemma HistoryDeduplicates(s: PlayerState, user: Option<string>)
    requires HistoryAttempt(s, user).Some?
    ensures HistoryAttempt(HistoryStep(s, user, true), user).None?
  {
  }

  /** After a failed write the marker is unchanged, so the next run tries the same write again. */
  lemma HistoryRetriesAfterFailure(s: PlayerState, user: Option<string>)
    ensures HistoryAttempt(HistoryStep(s, user, false), user) == HistoryAttempt(s, user)
  {
  }

  /** Anonymous sessions never write history. */
  lemma HistoryNeedsUser(s: PlayerState, writeOk: bool)
    ensures HistoryAttempt(s, None).None? && HistoryStep(s, None, writeOk) == s
  {
  }

  /** The auto-advance quirk: `ended` plays the next entry but leaves the cursor where it was, so
      when that entry ends too the same "next" entry is played again, where two `playNext` calls
      would have moved on to the one after it. */
  lemma EndedTwiceReplaysSameNext(s: PlayerState, ok1: bool, ok2: bool)
    requires CursorValid(s) && s.currentIndex < |s.queue| - 1
    ensures var s1 := EndedStep(s, ok1);
      var s2 := EndedStep(s1, ok2);
      && s1.currentIndex == s.currentIndex && s2.currentIndex == s.currentIndex
      && s1.currentTrack == Some(s.queue[s.currentIndex + 1])
      && s2.currentTrack == Some(s.queue[s.currentIndex + 1])
      && s2.audio.src == s1.audio.src
    ensures s.currentIndex + 2 < |s.queue| ==>
      NextStep(NextStep(s, ok1), ok2).currentTrack == Some(s.queue[s.currentIndex + 2])
  {
    var s1 := EndedStep(s, ok1);
    assert s1.currentIndex < |s1.queue| - 1;
  }

  /** `playNext` applied n times. */
  function NextTimes(s: PlayerState, n: nat, playOk: bool): (r: PlayerState)
    requires CursorValid(s)
    ensures CursorValid(r)
    decreases n
  {
    if n == 0 then s else NextTimes(NextStep(s, playOk), n - 1, playOk)
  }

  function Min(a: int, b: int): int {
    if a <= b then a else b
  }

  /** n presses of "next" on a non-empty queue leave the cursor at min(i + n, last): it stops at
      the last entry and never wraps to the first; the queue never changes. */
  lemma {:induction false} NextTimesCursor(s: PlayerState, n: nat, playOk: bool)
    requires CursorValid(s) && |s.queue| > 0
    ensures NextTimes(s, n, playOk).currentIndex == Min(s.currentIndex + n, |s.queue| - 1)
    ensures NextTimes(s, n, playOk).queue == s.queue
    decreases n
  {
    if n > 0 {
      var s1 := NextStep(s, playOk);
      NextTimesCursor(s1, n - 1, playOk);
    }
  }

  /** "Next" then "previous" from a position with a successor comes back to the same entry. */
  lemma NextThenPreviousReturns(s: PlayerState, ok1: bool, ok2: bool)
    requires CursorValid(s) && 0 <= s.currentIndex && s.currentIndex + 1 < |s.queue|
    ensures var r := PreviousStep(NextStep(s, ok1), ok2);
      r.currentIndex == s.currentIndex && r.currentTrack == Some(s.queue[s.currentIndex]) && r.queue == s.queue
  {
  }

  /** Two mute toggles restore the flag and leave the element synchronised with the state. */
  lemma ToggleMuteTwice(s: PlayerState)
    ensures ToggleMuteStep(ToggleMuteStep(s)) == Sync(s)
  {
  }

  /** A refused start after a playing track leaves the flag claiming playback while the element
      is paused: the flag and the device disagree. */
  lemma RefusedStartLeavesStaleFlag(s: PlayerState, track: Track)
    requires s.isPlaying
    ensures var r := PlayTrackStep(s, track, None, false);
      r.isPlaying && r.audio.paused && r.currentTrack == Some(track)
  {
  }

  /** The media element. The device's answer to `play()` is a parameter. */
  class AudioElement {
    var src: string
    var currentTime: real
    var volume: real
    var muted: bool
    var paused: bool

    function State(): AudioState
      reads this
    {
      AudioState(src, currentTime, volume, muted, paused)
    }

    constructor ()
      ensures State() == NewAudio
    {
      src, currentTime, volume, muted, paused := "", 0.0, 1.0, false, true;
    }

    method SetSource(url: string)
      modifies this
      ensures State() == Load(old(State()), url)
    {
      src := url;
      currentTime := 0.0;
      paused := true;
    }

    method Play(accepted: bool) returns (ok: bool)
      modifies this
      ensures ok == accepted
      ensures State() == StartOutput(old(State()), accepted)
    {
      ok := accepted;
      if ok {
        paused := false;
      }
    }

    method Pause()
      modifies this
      ensures State() == old(State()).(paused := true)
    {
      paused := true;
    }

    method SetCurrentTime(t: real)
      modifies this
      ensures State() == old(State()).(currentTime := t)
    {
      currentTime := t;
    }

    method SetVolumeAndMuted(v: real, m: bool)
      modifies this
      ensures State() == old(State()).(volume := v, muted := m)
    {
      volume := v;
      muted := m;
    }
  }

  /** `PlayerProvider`: the React state and the two refs, updated in place. */
  class PlayerProvider {
    const audio: AudioElement
    var currentTrack: Option<Track>
    var isPlaying: bool
    var currentTime: real
    var duration: real
    var queue: seq<Track>
    var currentIndex: int
    var volume: real
    var isMuted: bool
    var lastSavedTrackId: Option<string>

    function State(): PlayerState
      reads this, audio
    {
      PlayerState(currentTrack, isPlaying, currentTime, duration, queue, currentIndex, volume, isMuted,
                  lastSavedTrackId, audio.State())
    }

    predicate Valid()
      reads this, audio
    {
      CursorValid(State())
    }

    constructor ()
      ensures State() == Initial && Valid() && fresh(audio)
    {
      audio := new AudioElement();
      currentTrack, isPlaying, currentTime, duration := None, false, 0.0, 0.0;
      queue, currentIndex, volume, isMuted := [], 0, 1.0, false;
      lastSavedTrackId := None;
    }

    method PlayTrack(track: Track, trackList: Option<seq<Track>>, playOk: bool)
      requires Valid()
      modifies this, audio
      ensures Valid()
      ensures State() == PlayTrackStep(old(State()), track, trackList, playOk)
    {
      if trackList.Some? {
        queue := trackList.value;
        currentIndex := FindIndex(trackList.value, TrackHasId(track.id));
      }
      audio.SetSource(SrcValue(track.audioUrl));
      currentTrack := Some(track);
      var ok := audio.Play(playOk);
      if ok {
        isPlaying := true;
      }
    }

    method PlayNext(playOk: bool)
      requires Valid()
      modifies this, audio
      ensures Valid()
      ensures State() == NextStep(old(State()), playOk)
    {
      var next := currentIndex + 1;
      if next < |queue| {
        PlayTrack(queue[next], None, playOk);
        currentIndex := next;
      }
    }

    method PlayPrevious(playOk: bool)
      requires Valid()
      modifies this, audio
      ensures Valid()
      ensures State() == PreviousStep(old(State()), playOk)
    {
      var prev := currentIndex - 1;
      if prev >= 0 {
        PlayTrack(queue[prev], None, playOk);
        currentIndex := prev;
      }
    }

    method TogglePlay(playOk: bool)
      modifies this, audio
      ensures State() == TogglePlayStep(old(State()), playOk)
    {
      if isPlaying {
        audio.Pause();
        isPlaying := false;
      } else {
        var _ := audio.Play(playOk);
        isPlaying := true;
      }
    }

    method Seek(time: real)
      modifies this, audio
      ensures State() == SeekStep(old(State()), time)
    {
      audio.SetCurrentTime(time);
      currentTime := time;
    }

    /** The volume-sync effect. */
    method SyncVolume()
      modifies audio
      ensures State() == Sync(old(State()))
    {
      audio.SetVolumeAndMuted(volume, isMuted);
    }

    method ToggleMute()
      modifies this, audio
      ensures State() == ToggleMuteStep(old(State()))
    {
      isMuted := !isMuted;
      SyncVolume();
    }

    method SetVolume(v: real)
      modifies this, audio
      ensures State() == SetVolumeStep(old(State()), v)
    {
      volume := v;
      SyncVolume();
    }

    /** The element reached the end of its media and fired `ended`. */
    method OnEnded(playOk: bool)
      requires Valid()
      modifies this, audio
      ensures Valid()
      ensures State() == EndedStep(old(State()), playOk)
    {
      audio.Pause();
      if currentIndex < |queue| - 1 {
        PlayTrack(queue[currentIndex + 1], None, playOk);
      } else {
        isPlaying := false;
      }
    }

    /** The history effect; `writeOk` is whether the remote write succeeds. Returns the write issued. */
    method SaveToHistory(user: Option<string>, writeOk: bool) returns (write: Option<HistoryWrite>)
      modifies this
      ensures write == HistoryAttempt(old(State()), user)
      ensures State() == HistoryStep(old(State()), user, writeOk)
    {
      write := None;
      if currentTrack.Some? && user.Some? && lastSavedTrackId != Some(currentTrack.value.id) {
        write := Some(HistoryWrite(user.value, currentTrack.value.id));
        if writeOk {
          lastSavedTrackId := Some(currentTrack.value.id);
        }
      }
    }
  }
}
