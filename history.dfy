/** The recently-played hook: the join from history ids to catalogue songs, the refresh
    counter and the combined loading flag. */
module History {
  import opened Types

  /** Whether some catalogue song carries this id. */
  predicate Resolves(songs: seq<Song>, id: string) {
    Find(songs, SongHasId(id)).Some?
  }

  /** `historyIds.map(id => songs.find(...)).filter(Boolean)`: each id becomes the first song with
      that id, and ids without a song are dropped. */
  function ResolveIds(ids: seq<string>, songs: seq<Song>): (r: seq<Song>)
    ensures |r| <= |ids|
    ensures forall k :: 0 <= k < |r| ==> r[k] in songs && r[k].id in ids
    decreases |ids|
  {
    if ids == [] then []
    else
      var found := Find(songs, SongHasId(ids[0]));
      var rest := ResolveIds(ids[1..], songs);
      assert forall k :: 0 <= k < |rest| ==> rest[k].id in ids by {
        forall k | 0 <= k < |rest| ensures rest[k].id in ids {
          assert rest[k].id in ids[1..];
        }
      }
      (if found.Some? then [found.value] else []) + rest
  }

  /** The memoised `historyTracks`: empty as soon as either list is empty. */
  function HistoryTracks(historyIds: seq<string>, songs: seq<Song>): (r: seq<Song>)
    ensures historyIds == [] || songs == [] ==> r == []
    ensures |r| <= |historyIds|
    ensures forall k :: 0 <= k < |r| ==> r[k] in songs && r[k].id in historyIds
  {
    if |historyIds| == 0 || |songs| == 0 then [] else ResolveIds(historyIds, songs)
  }

  function Shift(xs: seq<int>, d: int): (r: seq<int>)
    ensures |r| == |xs| && forall k :: 0 <= k < |xs| ==> r[k] == xs[k] + d
  {
    seq(|xs|, k requires 0 <= k < |xs| => xs[k] + d)
  }

  /** The positions of `ids` that resolve to a song, in increasing order. */
  ghost function Sources(ids: seq<string>, songs: seq<Song>): seq<int>
    decreases |ids|
  {
    if ids == [] then []
    else (if Resolves(songs, ids[0]) then [0] else []) + Shift(Sources(ids[1..], songs), 1)
  }

  /** The join keeps one song per resolving id: as many results as resolving positions. */
  lemma {:induction false} SourcesCount(ids: seq<string>, songs: seq<Song>)
    ensures |Sources(ids, songs)| == |ResolveIds(ids, songs)|
    decreases |ids|
  {
    if ids != [] {
      SourcesCount(ids[1..], songs);
    }
  }

  /** The resolving positions lie within the ids and strictly increase, so the join keeps the
      order of the ids. */
  lemma {:induction false} SourcesIncreasing(ids: seq<string>, songs: seq<Song>)
    ensures forall k :: 0 <= k < |Sources(ids, songs)| ==> 0 <= Sources(ids, songs)[k] < |ids|
    ensures forall k, l :: 0 <= k < l < |Sources(ids, songs)| ==> Sources(ids, songs)[k] < Sources(ids, songs)[l]
    decreases |ids|
  {
    if ids != [] {
      SourcesIncreasing(ids[1..], songs);
    }
  }

  /** The k-th result is the first song carrying the id at the k-th resolving position. */
  lemma {:induction false} SourcesResolve(ids: seq<string>, songs: seq<Song>)
    ensures forall k :: 0 <= k < |Sources(ids, songs)| && k < |ResolveIds(ids, songs)| ==>
      0 <= Sources(ids, songs)[k] < |ids| &&
      Resolves(songs, ids[Sources(ids, songs)[k]]) &&
      ResolveIds(ids, songs)[k] == Find(songs, SongHasId(ids[Sources(ids, songs)[k]])).value
  {
    forall k | 0 <= k < |Sources(ids, songs)| && k < |ResolveIds(ids, songs)|
      ensures 0 <= Sources(ids, songs)[k] < |ids| &&
              Resolves(songs, ids[Sources(ids, songs)[k]]) &&
              ResolveIds(ids, songs)[k] == Find(songs, SongHasId(ids[Sources(ids, songs)[k]])).value
    {
      SourceAt(ids, songs, k);
    }
  }

  /** One position of `SourcesResolve`. */
  lemma {:induction false} SourceAt(ids: seq<string>, songs: seq<Song>, k: int)
    requires 0 <= k < |Sources(ids, songs)| && k < |ResolveIds(ids, songs)|
    ensures 0 <= Sources(ids, songs)[k] < |ids|
    ensures Resolves(songs, ids[Sources(ids, songs)[k]])
    ensures ResolveIds(ids, songs)[k] == Find(songs, SongHasId(ids[Sources(ids, songs)[k]])).value
    decreases |ids|
  {
    var h := if Resolves(songs, ids[0]) then 1 else 0;
    if k >= h {
      SourceInTail(ids, songs, k, h);
    }
  }

  /** A position past the head comes from the tail, shifted by one. */
  lemma {:induction false} SourceInTail(ids: seq<string>, songs: seq<Song>, k: int, h: int)
    requires 0 <= k < |Sources(ids, songs)| && k < |ResolveIds(ids, songs)|
    requires ids != [] && h == (if Resolves(songs, ids[0]) then 1 else 0) && k >= h
    ensures 0 <= Sources(ids, songs)[k] < |ids|
    ensures Resolves(songs, ids[Sources(ids, songs)[k]])
    ensures ResolveIds(ids, songs)[k] == Find(songs, SongHasId(ids[Sources(ids, songs)[k]])).value
    decreases |ids|, 0
  {
    var tail := Sources(ids[1..], songs);
    var rest := ResolveIds(ids[1..], songs);
    assert Sources(ids, songs)[k] == tail[k - h] + 1;
    assert ResolveIds(ids, songs)[k] == rest[k - h];
    SourceAt(ids[1..], songs, k - h);
    assert ids[1..][tail[k - h]] == ids[tail[k - h] + 1];
  }

  /** No resolving id is dropped: every position whose id has a song is a resolving position. */
  lemma {:induction false} SourcesComplete(ids: seq<string>, songs: seq<Song>)
    ensures forall j :: 0 <= j < |ids| && Resolves(songs, ids[j]) ==> j in Sources(ids, songs)
    decreases |ids|
  {
    if ids != [] {
      SourcesComplete(ids[1..], songs);
      var tail := Sources(ids[1..], songs);
      var head: seq<int> := if Resolves(songs, ids[0]) then [0] else [];
      var src := Sources(ids, songs);
      assert src == head + Shift(tail, 1);
      forall j | 0 <= j < |ids| && Resolves(songs, ids[j]) ensures j in src {
        if j == 0 {
          assert src[0] == 0;
        } else {
          assert ids[1..][j - 1] == ids[j];
          var k :| 0 <= k < |tail| && tail[k] == j - 1;
          assert src[|head| + k] == j;
        }
      }
    }
  }

  /** Every song returned is the first catalogue song carrying its id. */
  lemma HistoryTrackIsFirstMatch(historyIds: seq<string>, songs: seq<Song>, k: int)
    requires 0 <= k < |HistoryTracks(historyIds, songs)|
    ensures var s := HistoryTracks(historyIds, songs)[k];
      exists j :: 0 <= j < |songs| && songs[j] == s && forall i :: 0 <= i < j ==> songs[i].id != s.id
  {
    SourcesCount(historyIds, songs);
    SourcesResolve(historyIds, songs);
    var src := Sources(historyIds, songs);
    var id := historyIds[src[k]];
    var f := Find(songs, SongHasId(id));
    var j :| 0 <= j < |songs| && songs[j] == f.value && SongHasId(id)(songs[j]) &&
             forall i :: 0 <= i < j ==> !SongHasId(id)(songs[i]);
  }

  /** The hook's own state. */
  class HistoryHook {
    var historyIds: seq<string>
    var historyLoading: bool
    var refreshKey: int

    constructor ()
      ensures historyIds == [] && historyLoading && refreshKey == 0
    {
      historyIds, historyLoading, refreshKey := [], true, 0;
    }

    /** The subscription callback delivering the ids, newest first. */
    method Receive(ids: seq<string>)
      modifies this
      ensures historyIds == ids && !historyLoading && refreshKey == old(refreshKey)
    {
      historyIds := ids;
      historyLoading := false;
    }

    /** `refresh`: strictly increases the key, which re-runs the subscription effect. */
    method Refresh()
      modifies this
      ensures refreshKey == old(refreshKey) + 1
      ensures historyIds == old(historyIds) && historyLoading == old(historyLoading)
    {
      refreshKey := refreshKey + 1;
    }

    /** The `loading` the hook reports: still loading while either the history or the songs are. */
    function Loading(songsLoading: bool): (r: bool)
      reads this
      ensures !r <==> !historyLoading && !songsLoading
    {
      historyLoading || songsLoading
    }

    function Tracks(songs: seq<Song>): (r: seq<Song>)
      reads this
      ensures |r| <= |historyIds|
      ensures forall k :: 0 <= k < |r| ==> r[k] in songs && r[k].id in historyIds
    {
      HistoryTracks(historyIds, songs)
    }
  }
}
