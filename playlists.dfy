/** The playlist service over an in-memory document store: playlist documents keyed by id and
    their `songs` sub-collection keyed by (playlist id, song id). */
module Playlists {
  import opened Types

  /** A playlist document. Its id is the key it is stored under; "" stands for "no cover";
      `createdAt` is a server timestamp and is not modelled. */
  datatype Playlist = Playlist(name: string, userId: string, coverURL: string, isPublic: bool, songCount: int)

  /** A song document in a playlist's `songs` sub-collection (`addedAt` is not modelled). */
  datatype PlaylistSong = PlaylistSong(id: string, title: string, artist: string, image: Option<string>, audioUrl: Option<string>)

  /** The path `playlists/<playlistId>/songs/<songId>`. */
  datatype SongKey = SongKey(playlistId: string, songId: string)

  datatype Store = Store(playlists: map<string, Playlist>, songs: map<SongKey, PlaylistSong>)

  /** How a call ended: it wrote, it returned early without writing, or the store refused the
      write because it updates a playlist document that does not exist (which fails the whole
      batch, so nothing is written). */
  datatype Outcome = Committed | Skipped | Rejected

  datatype Write = Write(store: Store, outcome: Outcome)

  /** `Partial<Playlist>`: the fields an update supplies. */
  datatype PlaylistPatch = PlaylistPatch(
    name: Option<string>,
    userId: Option<string>,
    coverURL: Option<string>,
    isPublic: Option<bool>,
    songCount: Option<int>)

  /** JavaScript truthiness of an optional string. */
  predicate Truthy(o: Option<string>) {
    o.Some? && o.value != ""
  }

  /** The song documents stored under one playlist. */
  ghost function SongsOf(s: Store, pid: string): set<SongKey> {
    set k | k in s.songs && k.playlistId == pid
  }

  /** Every playlist's `songCount` equals the number of song documents under it. */
  ghost predicate CountsInStep(s: Store) {
    forall pid :: pid in s.playlists ==> s.playlists[pid].songCount == |SongsOf(s, pid)|
  }

  /** `createPlaylist` with the store-chosen id `newId`. */
  function CreateStep(s: Store, newId: string, userId: string, name: string, coverURL: string := ""): (r: Store)
    requires newId !in s.playlists
    ensures newId in r.playlists
    ensures r.playlists[newId].userId == userId && r.playlists[newId].name == name
    ensures r.playlists[newId].coverURL == coverURL
    ensures !r.playlists[newId].isPublic && r.playlists[newId].songCount == 0
    ensures r.playlists - {newId} == s.playlists && r.songs == s.songs
  {
    s.(playlists := s.playlists[newId := Playlist(name, userId, coverURL, false, 0)])
  }

  /** The cover a playlist has after `song` was added to it. */
  function CoverAfterAdd(cover: string, song: PlaylistSong): (c: string)
    ensures cover != "" ==> c == cover
    ensures cover == "" ==> (c != "" <==> Truthy(song.image))
  {
    if cover == "" && Truthy(song.image) then song.image.value else cover
  }

  /** `addSongToPlaylist`. */
  function AddSongStep(s: Store, pid: string, song: PlaylistSong): (r: Write)
    ensures SongKey(pid, song.id) in s.songs ==> r == Write(s, Skipped)
    ensures SongKey(pid, song.id) !in s.songs && pid !in s.playlists ==> r == Write(s, Rejected)
    ensures r.outcome == Committed <==> SongKey(pid, song.id) !in s.songs && pid in s.playlists
    ensures r.outcome == Committed ==>
      && r.store.songs == s.songs[SongKey(pid, song.id) := song]
      && pid in r.store.playlists
      && r.store.playlists[pid].songCount == s.playlists[pid].songCount + 1
      && r.store.playlists[pid] == s.playlists[pid].(songCount := s.playlists[pid].songCount + 1,
                                                      coverURL := r.store.playlists[pid].coverURL)
      && r.store.playlists - {pid} == s.playlists - {pid}
  {
    var key := SongKey(pid, song.id);
    if key in s.songs then Write(s, Skipped)
    else if pid !in s.playlists then Write(s, Rejected)
    else
      var p := s.playlists[pid];
      var counted := p.(songCount := p.songCount + 1);
      var covered := counted.(coverURL := CoverAfterAdd(counted.coverURL, song));
      Write(Store(s.playlists[pid := covered], s.songs[key := song]), Committed)
  }

  /** `removeSongFromPlaylist`. */
  function RemoveSongStep(s: Store, pid: string, songId: string): (r: Write)
    ensures pid !in s.playlists ==> r == Write(s, Rejected)
    ensures pid in s.playlists ==>
      && r.outcome == Committed
      && r.store.songs == s.songs - {SongKey(pid, songId)}
      && r.store.playlists == s.playlists[pid := s.playlists[pid].(songCount := s.playlists[pid].songCount - 1)]
  {
    if pid !in s.playlists then Write(s, Rejected)
    else
      var p := s.playlists[pid];
      Write(Store(s.playlists[pid := p.(songCount := p.songCount - 1)], s.songs - {SongKey(pid, songId)}), Committed)
  }

  function ApplyPatch(p: Playlist, patch: PlaylistPatch): (q: Playlist)
    ensures q.name == patch.name.GetOr(p.name) && q.userId == patch.userId.GetOr(p.userId)
    ensures q.coverURL == patch.coverURL.GetOr(p.coverURL) && q.isPublic == patch.isPublic.GetOr(p.isPublic)
    ensures q.songCount == patch.songCount.GetOr(p.songCount)
  {
    Playlist(
      patch.name.GetOr(p.name),
      patch.userId.GetOr(p.userId),
      patch.coverURL.GetOr(p.coverURL),
      patch.isPublic.GetOr(p.isPublic),
      patch.songCount.GetOr(p.songCount))
  }

  /** `updatePlaylist`: an update of a missing document is refused. */
  function UpdateStep(s: Store, pid: string, patch: PlaylistPatch): (r: Write)
    ensures pid !in s.playlists ==> r == Write(s, Rejected)
    ensures pid in s.playlists ==> r.outcome == Committed && pid in r.store.playlists
    ensures pid in s.playlists ==> r.store.playlists[pid] == ApplyPatch(s.playlists[pid], patch)
    ensures r.store.playlists - {pid} == s.playlists - {pid} && r.store.songs == s.songs
  {
    if pid !in s.playlists then Write(s, Rejected)
    else Write(s.(playlists := s.playlists[pid := ApplyPatch(s.playlists[pid], patch)]), Committed)
  }

  /** `deletePlaylist`: every song document under the playlist, then the playlist itself. */
  function DeleteStep(s: Store, pid: string): (r: Store)
    ensures pid !in r.playlists && SongsOf(r, pid) == {}
    ensures r.playlists == s.playlists - {pid}
    ensures forall k :: k in s.songs && k.playlistId != pid ==> k in r.songs && r.songs[k] == s.songs[k]
    ensures forall k :: k in r.songs ==> k in s.songs
  {
    Store(s.playlists - {pid}, map k | k in s.songs && k.playlistId != pid :: s.songs[k])
  }

  /** A playlist created without a cover starts private, empty and with no cover. */
  lemma CreateDefaults(s: Store, newId: string, userId: string, name: string)
    requires newId !in s.playlists
    ensures CreateStep(s, newId, userId, name).playlists[newId] == Playlist(name, userId, "", false, 0)
  {
  }

  /** Adding a song that is already there changes nothing, so adding twice is adding once. */
  lemma AddTwiceIsAddOnce(s: Store, pid: string, song: PlaylistSong)
    ensures AddSongStep(AddSongStep(s, pid, song).store, pid, song).store == AddSongStep(s, pid, song).store
  {
  }

  /** An existing cover is never overwritten; an empty one is taken from the song's image. */
  lemma AddKeepsExistingCover(s: Store, pid: string, song: PlaylistSong)
    requires pid in s.playlists && s.playlists[pid].coverURL != ""
    ensures pid in AddSongStep(s, pid, song).store.playlists
    ensures AddSongStep(s, pid, song).store.playlists[pid].coverURL == s.playlists[pid].coverURL
  {
  }

  lemma AddSetsMissingCover(s: Store, pid: string, song: PlaylistSong)
    requires pid in s.playlists && s.playlists[pid].coverURL == "" && SongKey(pid, song.id) !in s.songs
    ensures AddSongStep(s, pid, song).store.playlists[pid].coverURL == song.image.GetOr("")
  {
  }

  /** Adding a new song and removing it again restores the song documents and the count. */
  lemma AddThenRemoveRestores(s: Store, pid: string, song: PlaylistSong)
    requires pid in s.playlists && SongKey(pid, song.id) !in s.songs
    ensures var r := RemoveSongStep(AddSongStep(s, pid, song).store, pid, song.id).store;
      && r.songs == s.songs
      && r.playlists[pid].songCount == s.playlists[pid].songCount
      && r.playlists - {pid} == s.playlists - {pid}
  {
    var a := AddSongStep(s, pid, song).store;
    var r := RemoveSongStep(a, pid, song.id).store;
    assert r.songs == s.songs;
  }

  lemma SongsOfAdd(s: Store, key: SongKey, song: PlaylistSong, pid: string)
    ensures SongsOf(s.(songs := s.songs[key := song]), pid) ==
      if key.playlistId == pid then SongsOf(s, pid) + {key} else SongsOf(s, pid)
  {
  }

  lemma SongsOfRemove(s: Store, key: SongKey, pid: string)
    ensures SongsOf(s.(songs := s.songs - {key}), pid) == SongsOf(s, pid) - {key}
  {
  }

  /** Adding keeps every count in step with the song documents. */
  lemma {:induction false} AddKeepsCountsInStep(s: Store, pid: string, song: PlaylistSong)
    requires CountsInStep(s)
    ensures CountsInStep(AddSongStep(s, pid, song).store)
  {
    var r := AddSongStep(s, pid, song);
    if r.outcome == Committed {
      var key := SongKey(pid, song.id);
      forall q | q in r.store.playlists
        ensures r.store.playlists[q].songCount == |SongsOf(r.store, q)|
      {
        SongsOfAdd(s, key, song, q);
        assert r.store.songs == s.(songs := s.songs[key := song]).songs;
        assert SongsOf(r.store, q) == SongsOf(s.(songs := s.songs[key := song]), q);
        if q == pid {
          assert key !in SongsOf(s, pid);
        }
      }
    }
  }

  /** Removing a song that is there keeps every count in step. */
  lemma {:induction false} RemovePresentKeepsCountsInStep(s: Store, pid: string, songId: string)
    requires CountsInStep(s) && SongKey(pid, songId) in s.songs
    ensures CountsInStep(RemoveSongStep(s, pid, songId).store)
  {
    var r := RemoveSongStep(s, pid, songId);
    if pid in s.playlists {
      var key := SongKey(pid, songId);
      forall q | q in r.store.playlists
        ensures r.store.playlists[q].songCount == |SongsOf(r.store, q)|
      {
        SongsOfRemove(s, key, q);
        assert SongsOf(r.store, q) == SongsOf(s.(songs := s.songs - {key}), q);
        if q == pid {
          assert key in SongsOf(s, pid);
        } else {
          assert SongsOf(s, q) - {key} == SongsOf(s, q);
        }
      }
    }
  }

  /** Removing a song that is not there still decrements the count, which then falls one
      below the number of song documents. */
  lemma {:induction false} RemoveAbsentDesynchronisesCount(s: Store, pid: string, songId: string)
    requires CountsInStep(s) && pid in s.playlists && SongKey(pid, songId) !in s.songs
    ensures var r := RemoveSongStep(s, pid, songId).store;
      r.playlists[pid].songCount == |SongsOf(r, pid)| - 1
  {
    var r := RemoveSongStep(s, pid, songId).store;
    SongsOfRemove(s, SongKey(pid, songId), pid);
    assert SongsOf(r, pid) == SongsOf(s.(songs := s.songs - {SongKey(pid, songId)}), pid);
    assert SongsOf(s, pid) - {SongKey(pid, songId)} == SongsOf(s, pid);
  }

  /** An update changes only the supplied fields of that one playlist, and applying it twice is
      applying it once. */
  lemma UpdateOnlySuppliedFields(s: Store, pid: string, patch: PlaylistPatch)
    requires pid in s.playlists
    ensures var p := UpdateStep(s, pid, patch).store.playlists[pid];
      && (patch.name.None? ==> p.name == s.playlists[pid].name)
      && (patch.userId.None? ==> p.userId == s.playlists[pid].userId)
      && (patch.coverURL.None? ==> p.coverURL == s.playlists[pid].coverURL)
      && (patch.isPublic.None? ==> p.isPublic == s.playlists[pid].isPublic)
      && (patch.songCount.None? ==> p.songCount == s.playlists[pid].songCount)
      && (patch == PlaylistPatch(None, None, None, None, None) ==> p == s.playlists[pid])
  {
  }

  lemma UpdateIdempotent(s: Store, pid: string, patch: PlaylistPatch)
    ensures UpdateStep(UpdateStep(s, pid, patch).store, pid, patch) == UpdateStep(s, pid, patch)
  {
  }

  /** Deleting keeps the other playlists' counts in step. */
  lemma {:induction false} DeleteKeepsCountsInStep(s: Store, pid: string)
    requires CountsInStep(s)
    ensures CountsInStep(DeleteStep(s, pid))
  {
    var r := DeleteStep(s, pid);
    forall q | q in r.playlists
      ensures r.playlists[q].songCount == |SongsOf(r, q)|
    {
      assert SongsOf(r, q) == SongsOf(s, q);
    }
  }

  /** The store with its documents updated in place. */
  class PlaylistStore {
    var playlists: map<string, Playlist>
    var songs: map<SongKey, PlaylistSong>

    function State(): Store
      reads this
    {
      Store(playlists, songs)
    }

    constructor ()
      ensures State() == Store(map[], map[])
    {
      playlists, songs := map[], map[];
    }

    /** `createPlaylist`, with `newId` the id the store generates. */
    method CreatePlaylist(newId: string, userId: string, name: string, coverURL: string := "") returns (id: string)
      requires newId !in playlists
      modifies this
      ensures id == newId && State() == CreateStep(old(State()), newId, userId, name, coverURL)
    {
      playlists := playlists[newId := Playlist(name, userId, coverURL, false, 0)];
      id := newId;
    }

    /** `addSongToPlaylist`: the duplicate check, the song write with the count increment, then
        the auto-cover read and write. */
    method AddSongToPlaylist(pid: string, song: PlaylistSong) returns (outcome: Outcome)
      modifies this
      ensures Write(State(), outcome) == AddSongStep(old(State()), pid, song)
    {
      var key := SongKey(pid, song.id);
      if key in songs {
        return Skipped;
      }
      if pid !in playlists {
        return Rejected;
      }
      songs := songs[key := song];
      var p := playlists[pid];
      playlists := playlists[pid := p.(songCount := p.songCount + 1)];
      var current := playlists[pid];
      if current.coverURL == "" && Truthy(song.image) {
        playlists := playlists[pid := current.(coverURL := song.image.value)];
      }
      outcome := Committed;
    }

    method RemoveSongFromPlaylist(pid: string, songId: string) returns (outcome: Outcome)
      modifies this
      ensures Write(State(), outcome) == RemoveSongStep(old(State()), pid, songId)
    {
      if pid !in playlists {
        return Rejected;
      }
      songs := songs - {SongKey(pid, songId)};
      var p := playlists[pid];
      playlists := playlists[pid := p.(songCount := p.songCount - 1)];
      outcome := Committed;
    }

    method UpdatePlaylist(pid: string, patch: PlaylistPatch) returns (outcome: Outcome)
      modifies this
      ensures Write(State(), outcome) == UpdateStep(old(State()), pid, patch)
    {
      if pid !in playlists {
        return Rejected;
      }
      playlists := playlists[pid := ApplyPatch(playlists[pid], patch)];
      outcome := Committed;
    }

    /** `deletePlaylist`: reads the song documents, deletes them one by one, then the playlist. */
    method DeletePlaylist(pid: string)
      modifies this
      ensures State() == DeleteStep(old(State()), pid)
    {
      var snapshot := set k | k in songs && k.playlistId == pid;
      var remaining := snapshot;
      while remaining != {}
        invariant remaining <= snapshot
        invariant songs.Keys == old(songs).Keys - (snapshot - remaining)
        invariant forall k :: k in songs ==> songs[k] == old(songs)[k]
        invariant playlists == old(playlists)
        decreases remaining
      {
        var k :| k in remaining;
        songs := songs - {k};
        remaining := remaining - {k};
      }
      playlists := playlists - {pid};
      assert songs == DeleteStep(old(State()), pid).songs;
    }
  }
}
