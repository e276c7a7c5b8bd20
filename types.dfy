/** Records shared by the player, the catalogue and the admin screens, and the two
    array searches (`findIndex`, `find`) that several of them use. */
module Types {

  datatype Option<T> = None | Some(value: T) {
    function GetOr(default: T): T {
      match this
      case Some(v) => v
      case None => default
    }
  }

  /** A playable item as the player sees it (ITrack). The interface declares `audioUrl` a string,
      but a track mapped from a catalogue song without audio carries `undefined`, so it is optional. */
  datatype Track = Track(id: string, title: string, artist: string, audioUrl: Option<string>, coverUrl: string)

  /** A catalogue song document (ISong); `createdAt` is a server timestamp and is not modelled. */
  datatype Song = Song(
    id: string,
    title: string,
    artist: string,
    audioUrl: Option<string>,
    coverUrl: string,
    duration: Option<string>,
    album: Option<string>,
    sectionIds: seq<string>,
    likeCount: int)

  /** A home-page section (ISection). */
  datatype Section = Section(id: string, title: string, isActive: bool, itemCount: Option<int>)

  /** A featured banner document (IBanner). `mediaType` and `redirectType` are kept as the
      strings stored in the document, because the code tests them as strings. */
  datatype Banner = Banner(
    id: string,
    title: string,
    subtitle: string,
    mediaType: string,
    mediaUrl: string,
    imageUrl: string,
    buttonText: string,
    redirectType: string,
    redirectId: string,
    isActive: bool,
    order: int)

  /** `Array.prototype.findIndex`: the first position whose element satisfies `p`, or -1. */
  function FindIndex<T>(s: seq<T>, p: T -> bool): (r: int)
    ensures -1 <= r < |s|
    ensures r >= 0 ==> p(s[r])
    ensures forall j :: 0 <= j < |s| && (r == -1 || j < r) ==> !p(s[j])
  {
    if |s| == 0 then -1
    else if p(s[0]) then 0
    else
      var k := FindIndex(s[1..], p);
      if k == -1 then -1 else k + 1
  }

  /** `Array.prototype.find`: the first element satisfying `p`, if any. */
  function Find<T>(s: seq<T>, p: T -> bool): (r: Option<T>)
    ensures r.Some? <==> exists j :: 0 <= j < |s| && p(s[j])
    ensures r.Some? ==> exists j :: 0 <= j < |s| && s[j] == r.value && p(s[j]) &&
                          forall k :: 0 <= k < j ==> !p(s[k])
  {
    var i := FindIndex(s, p);
    if i == -1 then None else Some(s[i])
  }

  /** The lambda `t => t.id === id` used to locate a track. */
  function TrackHasId(id: string): Track -> bool {
    (t: Track) => t.id == id
  }

  /** The lambda `s => s.id === id` used to locate a song. */
  function SongHasId(id: string): Song -> bool {
    (s: Song) => s.id == id
  }

  /** `a` is `b` with some elements left out, the rest in their order. */
  predicate Sublist<T(==)>(a: seq<T>, b: seq<T>)
    decreases |b|
  {
    if a == [] then true
    else if b == [] then false
    else (a[0] == b[0] && Sublist(a[1..], b[1..])) || Sublist(a, b[1..])
  }
}
