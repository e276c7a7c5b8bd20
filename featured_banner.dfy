/** The featured-banner carousel on the home page: the slide index and its arithmetic, the
    auto-slide guard, what is rendered, and where the play button leads. */
module FeaturedBanner {
  import opened Types
  import Player

  /** JavaScript `%` on integers: the remainder takes the sign of the dividend, is smaller than
      the divisor in magnitude, and differs from the Euclidean remainder by 0 or `n`. */
  function JsMod(a: int, n: int): (r: int)
    requires n > 0
    ensures -n < r < n
    ensures a > 0 ==> r >= 0
    ensures a < 0 ==> r <= 0
    ensures r == a % n || r == a % n - n
  {
    if a >= 0 then a % n
    else
      var m := (-a) % n;
      if m == 0 then
        RemainderOf(a, n, -((-a) / n), 0);
        0
      else
        RemainderOf(a, n, -((-a) / n) - 1, n - m);
        -m
  }

  /** A decomposition `a == k * n + r` with `0 <= r < n` names the remainder. */
  lemma RemainderOf(a: int, n: int, k: int, r: int)
    requires n > 0 && 0 <= r < n && a == k * n + r
    ensures a % n == r
  {
    var d := k - a / n;
    assert d * n == a % n - r;
    MultipleAwayFromZero(d, n);
  }

  /** A non-zero multiple of `n` is at least `n` away from 0. */
  lemma MultipleAwayFromZero(d: int, n: int)
    requires n > 0
    ensures d >= 1 ==> d * n >= n
    ensures d <= -1 ==> d * n <= -n
  {
  }

  /** The next-arrow and auto-slide update `(prev + 1) % n`. */
  function NextIndex(prev: int, n: int): (r: int)
    requires n > 0
    ensures 0 <= prev < n - 1 ==> r == prev + 1
    ensures prev == n - 1 ==> r == 0
  {
    JsMod(prev + 1, n)
  }

  /** The previous-arrow update `(prev - 1 + n) % n`. */
  function PrevIndex(prev: int, n: int): (r: int)
    requires n > 0
    ensures 0 < prev < n ==> r == prev - 1
    ensures prev == 0 ==> r == n - 1
  {
    JsMod(prev - 1 + n, n)
  }

  /** Both updates land on a slide that exists, from any index the carousel can hold (including
      one left past the end after the list shrank). */
  lemma IndexUpdatesInRange(prev: int, n: int)
    requires n > 0 && prev >= 0
    ensures 0 <= NextIndex(prev, n) < n
    ensures 0 <= PrevIndex(prev, n) < n
  {
  }

  /** A remainder of a value below `2n`. */
  lemma ModBelowTwice(a: int, n: int)
    requires n > 0 && 0 <= a < 2 * n
    ensures a % n == if a < n then a else a - n
  {
  }

  /** Next then previous, and previous then next, return to the slide shown. */
  lemma {:induction false} NextPrevInverse(i: int, n: int)
    requires 0 <= i < n
    ensures PrevIndex(NextIndex(i, n), n) == i
    ensures NextIndex(PrevIndex(i, n), n) == i
  {
    ModBelowTwice(i + 1, n);
    ModBelowTwice(NextIndex(i, n) - 1 + n, n);
    ModBelowTwice(i - 1 + n, n);
    ModBelowTwice(PrevIndex(i, n) + 1, n);
  }

  /** The slide reached after `k` auto-slide ticks. */
  function Advance(i: int, n: int, k: nat): (r: int)
    requires n > 0
    ensures 0 <= i < n ==> 0 <= r < n
  {
    if k == 0 then i else NextIndex(Advance(i, n, k - 1), n)
  }

  /** The carousel is a cycle: within `n` ticks it moves forward one slide per tick, wrapping
      from the last slide to the first, so every slide is reached and `n` ticks come back to
      the start. */
  lemma {:induction false} AdvanceCycles(i: int, n: int, k: nat)
    requires 0 <= i < n && k <= n
    ensures Advance(i, n, k) == if i + k < n then i + k else i + k - n
    ensures k == n ==> Advance(i, n, k) == i
  {
    if k > 0 {
      AdvanceCycles(i, n, k - 1);
      ModBelowTwice(Advance(i, n, k - 1) + 1, n);
    }
  }

  /** The auto-slide interval exists only when there are banners and none is hovered. */
  function AutoSlideArmed(n: nat, isHovered: bool): (armed: bool)
    ensures armed <==> n > 0 && !isHovered
  {
    !(n == 0 || isHovered)
  }

  /** What the component shows: nothing, one slide with its "k / n" counter, or the failure of
      reading a banner past the end of the list (which throws while rendering). */
  datatype View = Nothing | Slide(banner: Banner, position: int, total: int) | RenderError

  function Render(loading: bool, banners: seq<Banner>, current: int): (v: View)
    requires current >= 0
    ensures v == Nothing <==> loading || banners == []
    ensures v.Slide? ==> current < |banners| && v.banner == banners[current] &&
                         1 <= v.position <= v.total == |banners|
    ensures v == RenderError <==> !loading && 0 < |banners| <= current
  {
    if loading || |banners| == 0 then Nothing
    else if current < |banners| then Slide(banners[current], current + 1, |banners|)
    else RenderError
  }

  /** `mapSongToTrack`: every field is copied as is, so a song without audio gives a track whose
      `audioUrl` is still absent. */
  function SongToTrack(song: Song): (t: Track)
    ensures t.id == song.id && t.title == song.title && t.artist == song.artist
    ensures t.audioUrl == song.audioUrl && t.coverUrl == song.coverUrl
  {
    Track(song.id, song.title, song.artist, song.audioUrl, song.coverUrl)
  }

  function SongsToTracks(songs: seq<Song>): (ts: seq<Track>)
    ensures |ts| == |songs| && forall k :: 0 <= k < |songs| ==> ts[k] == SongToTrack(songs[k])
  {
    seq(|songs|, k requires 0 <= k < |songs| => SongToTrack(songs[k]))
  }

  /** The effect of the play button. */
  datatype Effect = NoEffect | PlayTrack(track: Track, queue: seq<Track>) | Navigate(path: string)

  /** `handlePlayClick`: a song redirect plays the song with every song as the queue (and does
      nothing when the song is unknown); artist and section redirects navigate; anything else,
      including no redirect type, does nothing. */
  function PlayClick(banner: Banner, songs: seq<Song>): (e: Effect)
    ensures banner.redirectType == "song" ==>
      (e.PlayTrack? <==> exists j :: 0 <= j < |songs| && songs[j].id == banner.redirectId)
    ensures e.PlayTrack? ==>
      && banner.redirectType == "song"
      && e.queue == SongsToTracks(songs)
      && e.track.id == banner.redirectId
      && exists j :: 0 <= j < |songs| && e.track == SongToTrack(songs[j])
    ensures e.PlayTrack? ==>
      var found := Find(songs, SongHasId(banner.redirectId));
      found.Some? && e.track == SongToTrack(found.value)
    ensures e.Navigate? <==> banner.redirectType == "artist" || banner.redirectType == "section"
    ensures banner.redirectType == "artist" ==> e == Navigate("/artist/" + banner.redirectId)
    ensures banner.redirectType == "section" ==> e == Navigate("/section/" + banner.redirectId)
  {
    if banner.redirectType == "" then NoEffect
    else if banner.redirectType == "song" then
      match Find(songs, SongHasId(banner.redirectId))
      case None => NoEffect
      case Some(song) => PlayTrack(SongToTrack(song), SongsToTracks(songs))
    else if banner.redirectType == "artist" then Navigate("/artist/" + banner.redirectId)
    else if banner.redirectType == "section" then Navigate("/section/" + banner.redirectId)
    else NoEffect
  }

  /** Mapping songs to tracks keeps the position of the first match on an id. */
  lemma {:induction false} FindIndexMapped(songs: seq<Song>, id: string)
    ensures FindIndex(SongsToTracks(songs), TrackHasId(id)) == FindIndex(songs, SongHasId(id))
    decreases |songs|
  {
    if |songs| > 0 {
      FindIndexMapped(songs[1..], id);
      assert SongsToTracks(songs)[1..] == SongsToTracks(songs[1..]);
    }
  }

  /** Playing a banner's song puts the player's cursor on the first song with that id in the
      catalogue order, with the whole catalogue as the queue. */
  lemma {:induction false} BannerPlayPositionsCursor(banner: Banner, songs: seq<Song>, s: Player.PlayerState, playOk: bool)
    requires banner.redirectType == "song"
    requires exists j :: 0 <= j < |songs| && songs[j].id == banner.redirectId
    ensures PlayClick(banner, songs).PlayTrack?
    ensures var e := PlayClick(banner, songs);
      e.PlayTrack? &&
      var r := Player.PlayTrackStep(s, e.track, Some(e.queue), playOk);
      && r.queue == SongsToTracks(songs)
      && r.currentIndex == FindIndex(songs, SongHasId(banner.redirectId))
      && 0 <= r.currentIndex < |songs|
      && songs[r.currentIndex].id == banner.redirectId
  {
    FindIndexMapped(songs, banner.redirectId);
  }

  /** Playing a banner's song loads that song's audio URL into the element; when the song has no
      audio, the element is given the text "undefined", not an empty source. */
  lemma BannerPlayLoadsSongAudio(banner: Banner, songs: seq<Song>, s: Player.PlayerState, playOk: bool)
    requires PlayClick(banner, songs).PlayTrack?
    ensures var e := PlayClick(banner, songs);
      var r := Player.PlayTrackStep(s, e.track, Some(e.queue), playOk);
      && r.currentTrack.Some? && r.currentTrack.value.id == banner.redirectId
      && exists j :: 0 <= j < |songs| && songs[j].id == banner.redirectId &&
           (songs[j].audioUrl.Some? ==> r.audio.src == songs[j].audioUrl.value) &&
           (songs[j].audioUrl.None? ==> r.audio.src == "undefined")
  {
    var e := PlayClick(banner, songs);
    var j :| 0 <= j < |songs| && e.track == SongToTrack(songs[j]);
    assert songs[j].id == banner.redirectId;
  }

  /** The carousel's own state. */
  class Carousel {
    var current: int
    var isHovered: bool

    constructor ()
      ensures current == 0 && !isHovered
    {
      current, isHovered := 0, false;
    }

    /** The next arrow. */
    method Next(n: int)
      requires n > 0 && current >= 0
      modifies this
      ensures current == NextIndex(old(current), n) && 0 <= current < n && isHovered == old(isHovered)
    {
      current := (current + 1) % n;
    }

    /** The previous arrow. */
    method Prev(n: int)
      requires n > 0 && current >= 0
      modifies this
      ensures current == PrevIndex(old(current), n) && 0 <= current < n && isHovered == old(isHovered)
    {
      current := (current - 1 + n) % n;
    }

    /** One firing of the auto-slide interval, which only exists while it is armed. */
    method Tick(n: nat)
      requires AutoSlideArmed(n, isHovered) && current >= 0
      modifies this
      ensures current == NextIndex(old(current), n) && 0 <= current < n && !isHovered
    {
      current := (current + 1) % n;
    }

    /** A progress dot: jumps to its slide. */
    method GoTo(index: int, n: int)
      requires 0 <= index < n
      modifies this
      ensures current == index && isHovered == old(isHovered)
    {
      current := index;
    }

    /** Mouse enter and leave. */
    method SetHovered(h: bool)
      modifies this
      ensures isHovered == h && current == old(current)
    {
      isHovered := h;
    }
  }
}
