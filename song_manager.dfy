/** The admin song table: the case-insensitive search, the footer count text and the confirmed
    delete. */
module SongManager {
  import opened Types
  import opened Strings

  /** A song is kept when its lower-cased title or artist includes the lower-cased term. */
  predicate Matches(song: Song, term: string)
    ensures term == "" ==> Matches(song, term)
  {
    ContainsEmpty(LowerStr(song.title));
    Contains(LowerStr(song.title), LowerStr(term)) || Contains(LowerStr(song.artist), LowerStr(term))
  }

  /** `filteredSongs`. */
  function FilteredSongs(songs: seq<Song>, term: string): (r: seq<Song>)
    ensures |r| <= |songs|
    ensures forall s :: s in r <==> s in songs && Matches(s, term)
  {
    if songs == [] then []
    else if Matches(songs[0], term) then [songs[0]] + FilteredSongs(songs[1..], term)
    else FilteredSongs(songs[1..], term)
  }

  /** The search result is an order-preserving sublist of the catalogue. */
  lemma {:induction false} FilteredIsSublist(songs: seq<Song>, term: string)
    ensures Sublist(FilteredSongs(songs, term), songs)
    decreases |songs|
  {
    if songs != [] {
      FilteredIsSublist(songs[1..], term);
      var rest := FilteredSongs(songs[1..], term);
      if Matches(songs[0], term) {
        assert ([songs[0]] + rest)[1..] == rest;
      }
    }
  }

  /** Only the letter case of the term differs: the result is the same. */
  lemma {:induction false} CaseOfTermIrrelevant(songs: seq<Song>, t1: string, t2: string)
    requires LowerStr(t1) == LowerStr(t2)
    ensures FilteredSongs(songs, t1) == FilteredSongs(songs, t2)
    decreases |songs|
  {
    if songs != [] {
      CaseOfTermIrrelevant(songs[1..], t1, t2);
    }
  }

  /** In particular, searching for the lower-cased term gives the same result. */
  lemma LowerCasedTermSameResult(songs: seq<Song>, term: string)
    ensures FilteredSongs(songs, LowerStr(term)) == FilteredSongs(songs, term)
  {
    LowerStrIdempotent(term);
    CaseOfTermIrrelevant(songs, LowerStr(term), term);
  }

  /** An empty term keeps every song (titles and artists are always present). */
  lemma {:induction false} EmptyTermKeepsAll(songs: seq<Song>)
    ensures FilteredSongs(songs, "") == songs
    decreases |songs|
  {
    if songs != [] {
      ContainsEmpty(LowerStr(songs[0].title));
      assert LowerStr("") == "";
      EmptyTermKeepsAll(songs[1..]);
    }
  }

  /** "N song" or "N songs". */
  function CountText(n: int): (t: string)
    ensures n == 1 ==> t == "1 song"
    ensures n != 1 ==> t == IntToString(n) + " songs"
  {
    IntToString(n) + " " + (if n == 1 then "song" else "songs")
  }

  /** The footer's " (filtered from N total)" suffix. */
  function FilterSuffix(term: string, shown: int, total: int): (t: string)
    ensures t != "" <==> term != "" && shown != total
    ensures t != "" ==> t == " (filtered from " + IntToString(total) + " total)"
  {
    if term != "" && shown != total then " (filtered from " + IntToString(total) + " total)" else ""
  }

  /** The footer line. */
  function Footer(songs: seq<Song>, term: string): (text: string)
    ensures |FilteredSongs(songs, term)| == |songs| ==> text == "Total: " + CountText(|songs|)
    ensures term != "" && |FilteredSongs(songs, term)| != |songs| ==>
      text == "Total: " + CountText(|FilteredSongs(songs, term)|) + " (filtered from " + IntToString(|songs|) + " total)"
  {
    var shown := |FilteredSongs(songs, term)|;
    "Total: " + CountText(shown) + FilterSuffix(term, shown, |songs|)
  }

  /** With no search term the footer never says it is filtered. */
  lemma EmptyTermFooter(songs: seq<Song>)
    ensures Footer(songs, "") == "Total: " + CountText(|songs|)
  {
    EmptyTermKeepsAll(songs);
  }

  /** The table's own state: the song documents and the id being deleted. */
  class SongTable {
    var store: map<string, Song>
    var deletingId: Option<string>

    constructor (songs: map<string, Song>)
      ensures store == songs && deletingId == None
    {
      store, deletingId := songs, None;
    }

    /** `handleDelete`: a declined confirmation does nothing; otherwise the delete runs with
        `deletingId` set, and the document is gone only if the delete succeeded. */
    method HandleDelete(id: string, confirmed: bool, deleteOk: bool) returns (deleted: bool)
      modifies this
      ensures deleted <==> confirmed && deleteOk
      ensures store == if deleted then old(store) - {id} else old(store)
      ensures deletingId == if confirmed then None else old(deletingId)
    {
      if !confirmed {
        return false;
      }
      deletingId := Some(id);
      if deleteOk {
        store := store - {id};
      }
      deleted := deleteOk;
      deletingId := None;
    }
  }
}
