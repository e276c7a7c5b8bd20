/** The like toggle: one transaction that flips the user's like document for a song and moves
    the song's `likeCount` with it. */
module Likes {

  /** The path `users/<userId>/likedSongs/<songId>` (its `createdAt` is not modelled). */
  datatype LikeKey = LikeKey(userId: string, songId: string)

  /** The like documents that exist, and the `likeCount` of each song document. */
  datatype LikeStore = LikeStore(likes: set<LikeKey>, likeCount: map<string, int>)

  /** A transaction either commits or, when it updates a song document that does not exist,
      fails as a whole and writes nothing. */
  datatype Outcome = Committed | Rejected

  datatype Toggle = Toggle(store: LikeStore, outcome: Outcome)

  /** The users who like a song. */
  ghost function LikesOf(s: LikeStore, songId: string): set<LikeKey> {
    set k | k in s.likes && k.songId == songId
  }

  /** Every song's `likeCount` equals the number of like documents for it. */
  ghost predicate CountsMatchLikes(s: LikeStore) {
    forall songId :: songId in s.likeCount ==> s.likeCount[songId] == |LikesOf(s, songId)|
  }

  /** `toggleLikeTransaction`. */
  function ToggleStep(s: LikeStore, userId: string, songId: string): (r: Toggle)
    ensures songId !in s.likeCount ==> r == Toggle(s, Rejected)
    ensures songId in s.likeCount ==> r.outcome == Committed && songId in r.store.likeCount
    ensures songId in s.likeCount && LikeKey(userId, songId) in s.likes ==>
      LikeKey(userId, songId) !in r.store.likes && r.store.likeCount[songId] == s.likeCount[songId] - 1
    ensures songId in s.likeCount && LikeKey(userId, songId) !in s.likes ==>
      LikeKey(userId, songId) in r.store.likes && r.store.likeCount[songId] == s.likeCount[songId] + 1
  {
    var key := LikeKey(userId, songId);
    if songId !in s.likeCount then Toggle(s, Rejected)
    else if key in s.likes then
      Toggle(LikeStore(s.likes - {key}, s.likeCount[songId := s.likeCount[songId] - 1]), Committed)
    else
      Toggle(LikeStore(s.likes + {key}, s.likeCount[songId := s.likeCount[songId] + 1]), Committed)
  }

  /** Two toggles in a row restore the like documents and the counts. */
  lemma ToggleTwiceRestores(s: LikeStore, userId: string, songId: string)
    ensures ToggleStep(ToggleStep(s, userId, songId).store, userId, songId).store == s
  {
    var key := LikeKey(userId, songId);
    var r := ToggleStep(ToggleStep(s, userId, songId).store, userId, songId).store;
    if songId in s.likeCount {
      assert r.likes == s.likes;
      assert r.likeCount == s.likeCount;
    }
  }

  /** Only the user's like document for that song, and that song's count, change. */
  lemma ToggleTouchesOneDocument(s: LikeStore, userId: string, songId: string)
    ensures var r := ToggleStep(s, userId, songId).store;
      && r.likeCount.Keys == s.likeCount.Keys
      && (forall k :: k != LikeKey(userId, songId) ==> (k in r.likes <==> k in s.likes))
      && (forall id :: id in s.likeCount && id != songId ==> r.likeCount[id] == s.likeCount[id])
  {
  }

  lemma {:induction false} LikesOfAdd(s: LikeStore, key: LikeKey)
    requires key !in s.likes
    ensures |LikesOf(s.(likes := s.likes + {key}), key.songId)| == |LikesOf(s, key.songId)| + 1
  {
    assert LikesOf(s.(likes := s.likes + {key}), key.songId) == LikesOf(s, key.songId) + {key};
  }

  lemma {:induction false} LikesOfRemove(s: LikeStore, key: LikeKey)
    requires key in s.likes
    ensures |LikesOf(s.(likes := s.likes - {key}), key.songId)| == |LikesOf(s, key.songId)| - 1
  {
    assert LikesOf(s.(likes := s.likes - {key}), key.songId) == LikesOf(s, key.songId) - {key};
  }

  /** The change in `likeCount` always equals the change in the number of like documents
      for the song. */
  lemma {:induction false} CountDeltaMatchesLikeDelta(s: LikeStore, userId: string, songId: string)
    requires songId in s.likeCount
    ensures var r := ToggleStep(s, userId, songId).store;
      r.likeCount[songId] - s.likeCount[songId] == |LikesOf(r, songId)| - |LikesOf(s, songId)|
  {
    var key := LikeKey(userId, songId);
    var r := ToggleStep(s, userId, songId).store;
    if key in s.likes {
      LikesOfRemove(s, key);
      assert r.likes == s.(likes := s.likes - {key}).likes;
      assert LikesOf(r, songId) == LikesOf(s.(likes := s.likes - {key}), songId);
    } else {
      LikesOfAdd(s, key);
      assert LikesOf(r, songId) == LikesOf(s.(likes := s.likes + {key}), songId);
    }
  }

  /** So the toggle keeps every count equal to the number of like documents. */
  lemma {:induction false} ToggleKeepsCountsMatchingLikes(s: LikeStore, userId: string, songId: string)
    requires CountsMatchLikes(s)
    ensures CountsMatchLikes(ToggleStep(s, userId, songId).store)
  {
    var r := ToggleStep(s, userId, songId).store;
    if songId in s.likeCount {
      CountDeltaMatchesLikeDelta(s, userId, songId);
      forall id | id in r.likeCount
        ensures r.likeCount[id] == |LikesOf(r, id)|
      {
        if id != songId {
          assert LikesOf(r, id) == LikesOf(s, id);
        }
      }
    }
  }

  /** The store with its documents updated in place. */
  class Store {
    var likes: set<LikeKey>
    var likeCount: map<string, int>

    function State(): LikeStore
      reads this
    {
      LikeStore(likes, likeCount)
    }

    constructor (songs: set<string>)
      ensures likes == {} && likeCount.Keys == songs
      ensures forall id :: id in songs ==> likeCount[id] == 0
    {
      likes := {};
      likeCount := map id | id in songs :: 0;
    }

    /** `toggleLikeTransaction`: reads the like document, then deletes or creates it and moves
        the song's count. */
    method ToggleLikeTransaction(userId: string, songId: string) returns (outcome: Outcome)
      modifies this
      ensures Toggle(State(), outcome) == ToggleStep(old(State()), userId, songId)
    {
      if songId !in likeCount {
        return Rejected;
      }
      var key := LikeKey(userId, songId);
      if key in likes {
        likes := likes - {key};
        likeCount := likeCount[songId := likeCount[songId] - 1];
      } else {
        likes := likes + {key};
        likeCount := likeCount[songId := likeCount[songId] + 1];
      }
      outcome := Committed;
    }
  }
}
