/**
  The local song store: the whole collection is kept, serialised, under one
  fixed key of the device's key-value store.
*/
module SongsStorage {
  import opened Types

  /** The one key the module reads and writes. */
  const Key: string := "@playlist:songs"

  /**
    What the key-value store holds under a key, as far as loading is concerned:
    the empty string (the only falsy string), or the JSON text of an array of
    songs, represented by the array it parses back to.
  */
  datatype StoredValue = EmptyText | SongsJson(songs: seq<Song>)

  /** The device's key-value store: keys to stored text. */
  type Storage = map<string, StoredValue>

  /** The collection that loading yields from `storage`. */
  function CollectionIn(storage: Storage): seq<Song> {
    if Key in storage && storage[Key].SongsJson? then storage[Key].songs else []
  }

  /** `songs.filter((s) => s.id !== id)`. */
  function RemoveById(songs: seq<Song>, id: string): seq<Song> {
    if songs == [] then []
    else if songs[0].id != id then [songs[0]] + RemoveById(songs[1..], id)
    else RemoveById(songs[1..], id)
  }

  /** An empty store, or one whose value under the key is empty text, loads as the empty collection. */
  lemma LoadNothingStored(storage: Storage)
    requires Key !in storage || storage[Key] == EmptyText
    ensures CollectionIn(storage) == []
  {
  }

  /** `after` differs from `before` at most under the key: every other key keeps its presence and value. */
  ghost predicate OnlyKeyChanged(before: Storage, after: Storage) {
    forall k :: k != Key ==> (k in after <==> k in before) && (k in after ==> after[k] == before[k])
  }

  /** A song is kept by the filter exactly when it was there and has another id. */
  lemma {:induction false} RemoveByIdMembership(songs: seq<Song>, id: string, s: Song)
    ensures s in RemoveById(songs, id) <==> s in songs && s.id != id
  {
    if songs != [] {
      RemoveByIdMembership(songs[1..], id, s);
      assert songs == [songs[0]] + songs[1..];
    }
  }

  /** Every song with another id keeps its multiplicity; songs with the id are all gone. */
  lemma {:induction false} RemoveByIdCounts(songs: seq<Song>, id: string, s: Song)
    ensures multiset(RemoveById(songs, id))[s] == if s.id == id then 0 else multiset(songs)[s]
  {
    if songs != [] {
      RemoveByIdCounts(songs[1..], id, s);
      assert songs == [songs[0]] + songs[1..];
    }
  }

  /** The filter never lengthens the collection, and keeps its length exactly when no song has the id. */
  lemma {:induction false} RemoveByIdLength(songs: seq<Song>, id: string)
    ensures |RemoveById(songs, id)| <= |songs|
    ensures |RemoveById(songs, id)| == |songs| <==> forall k :: 0 <= k < |songs| ==> songs[k].id != id
  {
    if songs != [] {
      RemoveByIdLength(songs[1..], id);
      assert forall k :: 1 <= k < |songs| ==> songs[k] == songs[1..][k - 1];
    }
  }

  /** Removing an id that no song carries leaves the collection unchanged. */
  lemma {:induction false} RemoveAbsentId(songs: seq<Song>, id: string)
    requires forall k :: 0 <= k < |songs| ==> songs[k].id != id
    ensures RemoveById(songs, id) == songs
  {
    if songs != [] {
      assert songs[0].id != id;
      RemoveAbsentId(songs[1..], id);
      assert songs == [songs[0]] + songs[1..];
    }
  }

  /** Removing twice is removing once. */
  lemma RemoveByIdIdempotent(songs: seq<Song>, id: string)
    ensures RemoveById(RemoveById(songs, id), id) == RemoveById(songs, id)
  {
    var r := RemoveById(songs, id);
    forall k | 0 <= k < |r| ensures r[k].id != id {
      RemoveByIdMembership(songs, id, r[k]);
    }
    RemoveAbsentId(r, id);
  }

  /** The filter works piecewise: on a concatenation it is the concatenation of the filtered parts. */
  lemma {:induction false} RemoveByIdAppend(a: seq<Song>, b: seq<Song>, id: string)
    ensures RemoveById(a + b, id) == RemoveById(a, id) + RemoveById(b, id)
  {
    if a != [] {
      RemoveByIdAppend(a[1..], b, id);
      assert (a + b)[1..] == a[1..] + b;
    } else {
      assert a + b == b;
    }
  }

  /**
    Relative order is kept: two songs that survive the filter appear in the
    result in the order they had before.
  */
  lemma RemoveByIdKeepsOrder(songs: seq<Song>, id: string, i: nat, j: nat)
    requires i < j < |songs| && songs[i].id != id && songs[j].id != id
    ensures exists p, q :: 0 <= p < q < |RemoveById(songs, id)|
                        && RemoveById(songs, id)[p] == songs[i]
                        && RemoveById(songs, id)[q] == songs[j]
  {
    var before, middle, after := songs[..i], songs[i + 1..j], songs[j + 1..];
    assert songs == before + ([songs[i]] + (middle + ([songs[j]] + after)));
    RemoveByIdAppend(before, [songs[i]] + (middle + ([songs[j]] + after)), id);
    RemoveByIdAppend([songs[i]], middle + ([songs[j]] + after), id);
    RemoveByIdAppend(middle, [songs[j]] + after, id);
    RemoveByIdAppend([songs[j]], after, id);
    assert RemoveById([songs[i]], id) == [songs[i]];
    assert RemoveById([songs[j]], id) == [songs[j]];
    var r := RemoveById(songs, id);
    var p := |RemoveById(before, id)|;
    var q := p + 1 + |RemoveById(middle, id)|;
    assert r == RemoveById(before, id) + ([songs[i]] + (RemoveById(middle, id) + ([songs[j]] + RemoveById(after, id))));
    assert r[p] == songs[i] && r[q] == songs[j];
  }

  /** The key-value store, updated in place by the four operations of the module. */
  class SongStore {
    var storage: Storage

    constructor (initial: Storage)
      ensures storage == initial
    {
      storage := initial;
    }

    /** `loadSongs`: the stored collection, or the empty one when nothing (or empty text) is stored. */
    method LoadSongs() returns (songs: seq<Song>)
      ensures songs == CollectionIn(storage)
      ensures Key !in storage || storage[Key] == EmptyText ==> songs == []
    {
      var raw := if Key in storage then storage[Key] else EmptyText;
      songs := if raw.SongsJson? then raw.songs else [];
    }

    /** `saveSong`: prepends `song`, writes the whole collection back under the key and returns it. */
    method SaveSong(song: Song) returns (updated: seq<Song>)
      modifies this
      ensures updated == [song] + CollectionIn(old(storage))
      ensures |updated| == |CollectionIn(old(storage))| + 1 && updated[0] == song
      ensures updated[1..] == CollectionIn(old(storage))
      ensures storage == old(storage)[Key := SongsJson(updated)]
      ensures CollectionIn(storage) == updated && OnlyKeyChanged(old(storage), storage)
    {
      var current := LoadSongs();
      updated := [song] + current;
      storage := storage[Key := SongsJson(updated)];
    }

    /** `removeSong`: drops every song with `id`, writes the rest back under the key and returns it. */
    method RemoveSong(id: string) returns (updated: seq<Song>)
      modifies this
      ensures updated == RemoveById(CollectionIn(old(storage)), id)
      ensures forall s :: s in updated ==> s.id != id
      ensures |updated| <= |CollectionIn(old(storage))|
      ensures storage == old(storage)[Key := SongsJson(updated)]
      ensures CollectionIn(storage) == updated && OnlyKeyChanged(old(storage), storage)
    {
      var current := LoadSongs();
      updated := RemoveById(current, id);
      forall s | s in updated ensures s.id != id {
        RemoveByIdMembership(current, id, s);
      }
      RemoveByIdLength(current, id);
      storage := storage[Key := SongsJson(updated)];
    }

    /** `clearAllSongs`: deletes the key; nothing else in the store changes. */
    method ClearAllSongs()
      modifies this
      ensures storage == old(storage) - {Key}
      ensures Key !in storage && CollectionIn(storage) == [] && OnlyKeyChanged(old(storage), storage)
    {
      storage := storage - {Key};
    }
  }

  /** A save followed by a load: the load returns exactly what the save returned, and only the key changed. */
  method SaveThenLoad(store: SongStore, song: Song) returns (updated: seq<Song>, loaded: seq<Song>)
    modifies store
    ensures updated == [song] + CollectionIn(old(store.storage))
    ensures loaded == updated
    ensures OnlyKeyChanged(old(store.storage), store.storage)
  {
    updated := store.SaveSong(song);
    loaded := store.LoadSongs();
  }

  /** A removal followed by a load: the load returns exactly what the removal returned, and only the key changed. */
  method RemoveThenLoad(store: SongStore, id: string) returns (updated: seq<Song>, loaded: seq<Song>)
    modifies store
    ensures updated == RemoveById(CollectionIn(old(store.storage)), id)
    ensures loaded == updated
    ensures OnlyKeyChanged(old(store.storage), store.storage)
  {
    updated := store.RemoveSong(id);
    loaded := store.LoadSongs();
  }

  /** Clearing followed by a load: the key has no value, the load returns [], and only the key changed. */
  method ClearThenLoad(store: SongStore) returns (loaded: seq<Song>)
    modifies store
    ensures Key !in store.storage && loaded == []
    ensures OnlyKeyChanged(old(store.storage), store.storage)
  {
    store.ClearAllSongs();
    loaded := store.LoadSongs();
  }

  /** Two saves into an empty store: the later song comes first, the earlier one second. */
  method TwoSavesThenLoad(first: Song, second: Song) returns (loaded: seq<Song>)
    ensures loaded == [second, first]
  {
    var store := new SongStore(map[]);
    var afterFirst := store.SaveSong(first);
    assert afterFirst == [first];
    var afterSecond := store.SaveSong(second);
    loaded := store.LoadSongs();
  }
}
