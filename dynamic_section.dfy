/** One home-page section: the songs filed under it and what the section shows of them. */
module DynamicSection {
  import opened Types

  /** `songs.filter(song => song.sectionIds?.includes(section.id))`. */
  function SectionSongs(songs: seq<Song>, sectionId: string): (r: seq<Song>)
    ensures |r| <= |songs|
    ensures forall s :: s in r <==> s in songs && sectionId in s.sectionIds
  {
    if songs == [] then []
    else if sectionId in songs[0].sectionIds then [songs[0]] + SectionSongs(songs[1..], sectionId)
    else SectionSongs(songs[1..], sectionId)
  }

  /** The section's songs keep the catalogue order. */
  lemma {:induction false} SectionSongsInOrder(songs: seq<Song>, sectionId: string)
    ensures Sublist(SectionSongs(songs, sectionId), songs)
    decreases |songs|
  {
    if songs != [] {
      SectionSongsInOrder(songs[1..], sectionId);
      var rest := SectionSongs(songs[1..], sectionId);
      if sectionId in songs[0].sectionIds {
        assert ([songs[0]] + rest)[1..] == rest;
      }
    }
  }

  /** How many cards the grid shows at most. */
  function CardLimit(isMobile: bool): (n: nat)
    ensures n == if isMobile then 4 else 6
  {
    if isMobile then 4 else 6
  }

  /** A song card: its song, the queue it plays from, and its position. */
  datatype Card = Card(song: Song, queue: seq<Song>, index: nat)

  datatype View =
    | Hidden
    | Skeleton
    | Shown(count: nat, cards: seq<Card>, viewAll: bool, more: Option<nat>, browseAll: bool)

  /** What the section renders. */
  function Render(section: Section, songs: seq<Song>, loading: bool, isMobile: bool): (v: View)
    ensures !section.isActive ==> v == Hidden
    ensures section.isActive && loading ==> v == Skeleton
    ensures v == Hidden <==> !section.isActive || (!loading && SectionSongs(songs, section.id) == [])
  {
    var ss := SectionSongs(songs, section.id);
    if !section.isActive then Hidden
    else if loading then Skeleton
    else if |ss| == 0 then Hidden
    else
      var limit := CardLimit(isMobile);
      var shown := if |ss| < limit then |ss| else limit;
      Shown(
        |ss|,
        seq(shown, i requires 0 <= i < shown => Card(ss[i], ss, i)),
        |ss| > 6,
        if |ss| > limit then Some(|ss| - limit) else None,
        !isMobile && |ss| > 10)
  }

  /** The grid shows a prefix of the section's songs, at most four on mobile and six otherwise,
      and every card plays from the whole section, not from the prefix. */
  lemma CardsArePrefix(section: Section, songs: seq<Song>, loading: bool, isMobile: bool)
    requires Render(section, songs, loading, isMobile).Shown?
    ensures var v := Render(section, songs, loading, isMobile);
      var ss := SectionSongs(songs, section.id);
      && v.count == |ss|
      && |v.cards| == (if |ss| < CardLimit(isMobile) then |ss| else CardLimit(isMobile))
      && forall i :: 0 <= i < |v.cards| ==> v.cards[i] == Card(ss[i], ss, i)
  {
  }

  /** "+k more" appears exactly when the songs overflow the grid, and counts what is left out;
      "View All" appears past six songs and "Browse all" only off mobile past ten. */
  lemma Indicators(section: Section, songs: seq<Song>, loading: bool, isMobile: bool)
    requires Render(section, songs, loading, isMobile).Shown?
    ensures var v := Render(section, songs, loading, isMobile);
      && (v.more.Some? <==> v.count > CardLimit(isMobile))
      && (v.more.Some? ==> v.more.value == v.count - CardLimit(isMobile) && |v.cards| + v.more.value == v.count)
      && (v.more.None? ==> |v.cards| == v.count)
      && (v.viewAll <==> v.count > 6)
      && (v.browseAll <==> !isMobile && v.count > 10)
      && (v.browseAll ==> v.viewAll && v.more.Some?)
  {
  }
}
