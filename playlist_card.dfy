/** The playlist card of the library: the gradient chosen from the name, the cover choice and the
    song-count badge. The card's `playlist` prop is untyped, so its input is the set of fields the
    card reads, each possibly absent. */
module PlaylistCard {
  import opened Types
  import opened Strings
  import Playlists
  import SongManager

  /** The six gradient classes, in the order the card lists them. */
  const Gradients: seq<string> := [
    "from-[#FA2E6E] to-purple-500",
    "from-blue-400 to-cyan-400",
    "from-green-400 to-emerald-500",
    "from-orange-400 to-pink-500",
    "from-indigo-400 to-purple-400",
    "from-yellow-400 to-orange-400"
  ]

  /** `name?.length % gradients.length || 0`: an absent name gives `NaN`, which `|| 0` turns
      into 0; a name's length is never negative, so the remainder is the mathematical one. */
  function GradientIndex(name: Option<string>): (i: nat)
    ensures i < |Gradients|
    ensures name.None? ==> i == 0
  {
    match name
    case None => 0
    case Some(n) => |n| % |Gradients|
  }

  /** `getGradient`. */
  function Gradient(name: Option<string>): (g: string)
    ensures g in Gradients
  {
    Gradients[GradientIndex(name)]
  }

  /** The colouring depends on the name's length only. */
  lemma SameLengthSameGradient(a: string, b: string)
    requires |a| == |b|
    ensures Gradient(Some(a)) == Gradient(Some(b))
  {
  }

  /** It repeats every six characters. */
  lemma GradientPeriodic(a: string, b: string)
    requires |b| == |a| + 6
    ensures Gradient(Some(b)) == Gradient(Some(a))
  {
    assert |b| % 6 == |a| % 6;
  }

  /** Names of lengths 0 to 5 get six different gradients, and an absent name gets the first. */
  lemma ShortNamesDistinct(a: string, b: string)
    requires |a| < 6 && |b| < 6 && |a| != |b|
    ensures Gradient(Some(a)) != Gradient(Some(b))
    ensures Gradient(None) == Gradient(Some(""))
  {
    assert GradientIndex(Some(a)) == |a| && GradientIndex(Some(b)) == |b|;
  }

  /** The fields of the `playlist` object the card reads; `coverURL` is not among them, it is
      listed because stored playlists carry it. */
  datatype CardInput = CardInput(
    id: string,
    name: Option<string>,
    coverUrl: Option<string>,
    coverURL: Option<string>,
    songCount: int)

  /** The object the library hands the card: the document's id with its stored fields spread in. */
  function FromStored(id: string, p: Playlists.Playlist): (c: CardInput)
    ensures c.coverUrl == None && c.coverURL == Some(p.coverURL)
    ensures c.id == id && c.name == Some(p.name) && c.songCount == p.songCount
  {
    CardInput(id, Some(p.name), None, Some(p.coverURL), p.songCount)
  }

  /** What fills the card's square: the cover image, or the gradient with the library icon. */
  datatype Cover = Image(src: string) | GradientFill(gradient: string)

  /** The cover choice of both variants, as written: a truthy `coverUrl` is shown, anything else
      falls back to the name's gradient. */
  function CoverAsWritten(c: CardInput): (r: Cover)
    ensures r.Image? <==> c.coverUrl.Some? && c.coverUrl.value != ""
    ensures r.Image? ==> r.src == c.coverUrl.value
    ensures r.GradientFill? ==> r.gradient == Gradient(c.name)
  {
    if c.coverUrl.Some? && c.coverUrl.value != "" then Image(c.coverUrl.value)
    else GradientFill(Gradient(c.name))
  }

  /** A card built from a stored playlist never shows its cover, whatever `coverURL` holds. */
  lemma StoredCoverNeverShown(id: string, p: Playlists.Playlist)
    ensures CoverAsWritten(FromStored(id, p)) == GradientFill(Gradient(Some(p.name)))
  {
  }

  /** The cover choice reading the field the playlist service writes. */
  function CoverCorrected(c: CardInput): (r: Cover)
    ensures r.Image? <==> c.coverURL.Some? && c.coverURL.value != ""
    ensures r.Image? ==> r.src == c.coverURL.value
    ensures r.GradientFill? ==> r.gradient == Gradient(c.name)
  {
    if c.coverURL.Some? && c.coverURL.value != "" then Image(c.coverURL.value)
    else GradientFill(Gradient(c.name))
  }

  /** With the field name corrected, a stored playlist shows its cover exactly when it has one. */
  lemma StoredCoverShownWhenSet(id: string, p: Playlists.Playlist)
    ensures CoverCorrected(FromStored(id, p)) ==
      if p.coverURL != "" then Image(p.coverURL) else GradientFill(Gradient(Some(p.name)))
  {
  }

  /** The concrete case: a new playlist gets its first song, which has an image. The service
      copies the image into `coverURL`; the card as written still shows the gradient, the
      corrected card shows the image. */
  lemma AutoCoverInvisibleAsWritten()
    ensures
      var s := Playlists.Store(map["p" := Playlists.Playlist("Road", "u", "", false, 0)], map[]);
      var song := Playlists.PlaylistSong("s", "T", "A", Some("img"), None);
      var stored := Playlists.AddSongStep(s, "p", song).store.playlists["p"];
      && stored.coverURL == "img"
      && CoverAsWritten(FromStored("p", stored)) == GradientFill(Gradient(Some("Road")))
      && CoverCorrected(FromStored("p", stored)) == Image("img")
  {
    var s := Playlists.Store(map["p" := Playlists.Playlist("Road", "u", "", false, 0)], map[]);
    var song := Playlists.PlaylistSong("s", "T", "A", Some("img"), None);
    Playlists.AddSetsMissingCover(s, "p", song);
  }

  /** The song-count line: absent for an empty playlist, "1 song", otherwise "N songs". */
  function Badge(songCount: int): (b: Option<string>)
    ensures b.Some? <==> songCount > 0
    ensures songCount == 1 ==> b == Some("1 song")
    ensures songCount > 1 ==> b == Some(NatToString(songCount) + " songs")
  {
    if songCount > 0 then Some(SongManager.CountText(songCount)) else None
  }

  /** The whole card, the same in both variants apart from layout: where a click goes, the
      cover, the title and the badge. */
  datatype View = View(link: string, cover: Cover, title: Option<string>, badge: Option<string>)

  /** The card as written: the cover is chosen from `coverUrl`. */
  function Render(c: CardInput): (v: View)
    ensures v.link == "/playlist/" + c.id && v.title == c.name && v.badge == Badge(c.songCount)
    ensures v.cover == CoverAsWritten(c)
  {
    View("/playlist/" + c.id, CoverAsWritten(c), c.name, Badge(c.songCount))
  }

  /** The card with the cover read from `coverURL`; everything else as written. */
  function RenderCorrected(c: CardInput): (v: View)
    ensures v.link == "/playlist/" + c.id && v.title == c.name && v.badge == Badge(c.songCount)
    ensures v.cover == CoverCorrected(c)
  {
    Render(c).(cover := CoverCorrected(c))
  }

  /** A freshly created playlist's card as written: no badge, and the name's gradient even when
      it was created with a cover. */
  lemma NewPlaylistCard(id: string, userId: string, name: string, coverURL: string)
    ensures
      var s := Playlists.Store(map[], map[]);
      var p := Playlists.CreateStep(s, id, userId, name, coverURL).playlists[id];
      var v := Render(FromStored(id, p));
      && v.link == "/playlist/" + id && v.title == Some(name)
      && v.badge == None
      && v.cover == GradientFill(Gradient(Some(name)))
  {
    var p := Playlists.CreateStep(Playlists.Store(map[], map[]), id, userId, name, coverURL).playlists[id];
    assert p.songCount == 0 && p.name == name;
  }

  /** The corrected card of a freshly created playlist: no badge, and the cover image exactly
      when one was given at creation. */
  lemma NewPlaylistCardCorrected(id: string, userId: string, name: string, coverURL: string)
    ensures
      var s := Playlists.Store(map[], map[]);
      var p := Playlists.CreateStep(s, id, userId, name, coverURL).playlists[id];
      var v := RenderCorrected(FromStored(id, p));
      && v.badge == None
      && (v.cover.Image? <==> coverURL != "")
      && (v.cover.Image? ==> v.cover.src == coverURL)
  {
    var p := Playlists.CreateStep(Playlists.Store(map[], map[]), id, userId, name, coverURL).playlists[id];
    assert p.songCount == 0 && p.coverURL == coverURL;
  }
}
