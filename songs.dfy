/** The song list both song fetchers query: `filter` by category and `find` by id. */
module Songs {

  datatype Option<T> = None | Some(value: T)

  /** A song of songData.json, with the two fields the queries test. */
  datatype Song = Song(id: string, category: string, title: string)

  /** `songs.filter(song => song.category === category)`. */
  function InCategory(songs: seq<Song>, category: string): (r: seq<Song>)
    ensures |r| <= |songs|
    ensures forall k :: 0 <= k < |r| ==> r[k].category == category
  {
    if songs == [] then []
    else InCategory(songs[..|songs| - 1], category) + (if songs[|songs| - 1].category == category then [songs[|songs| - 1]] else [])
  }

  /** The filter keeps exactly the songs of the category: each one of them, and no other. */
  lemma {:induction false} InCategoryMembers(songs: seq<Song>, category: string)
    ensures forall s :: s in InCategory(songs, category) <==> s in songs && s.category == category
  {
    if songs != [] {
      var init := songs[..|songs| - 1];
      InCategoryMembers(init, category);
      assert songs == init + [songs[|songs| - 1]];
    }
  }

  /** The filter distributes over concatenation, so it keeps the list's order. */
  lemma {:induction false} InCategoryAppend(a: seq<Song>, b: seq<Song>, category: string)
    ensures InCategory(a + b, category) == InCategory(a, category) + InCategory(b, category)
    decreases |b|
  {
    if b == [] {
      assert a + b == a;
    } else {
      var init := b[..|b| - 1];
      assert (a + b)[..|a + b| - 1] == a + init;
      assert (a + b)[|a + b| - 1] == b[|b| - 1];
      InCategoryAppend(a, init, category);
    }
  }

  /** A list of songs of one category passes the filter unchanged. */
  lemma {:induction false} InCategoryAll(songs: seq<Song>, category: string)
    requires forall k :: 0 <= k < |songs| ==> songs[k].category == category
    ensures InCategory(songs, category) == songs
  {
    if songs != [] {
      InCategoryAll(songs[..|songs| - 1], category);
    }
  }

  /** With no song of the category the filter is empty. */
  lemma {:induction false} InCategoryNone(songs: seq<Song>, category: string)
    requires forall k :: 0 <= k < |songs| ==> songs[k].category != category
    ensures InCategory(songs, category) == []
  {
    if songs != [] {
      InCategoryNone(songs[..|songs| - 1], category);
    }
  }

  /** `songs.find(song => song.id === id)`: the first song with the id, or none. */
  function FindById(songs: seq<Song>, id: string): (r: Option<Song>)
    ensures r.Some? ==> exists k :: 0 <= k < |songs| && songs[k] == r.value && r.value.id == id && forall j :: 0 <= j < k ==> songs[j].id != id
    ensures r.None? <==> forall k :: 0 <= k < |songs| ==> songs[k].id != id
  {
    if songs == [] then None
    else if songs[0].id == id then Some(songs[0])
    else
      var r := FindById(songs[1..], id);
      assert forall k :: 1 <= k < |songs| ==> songs[k] == songs[1..][k - 1];
      if r.Some? then
        ghost var k :| 0 <= k < |songs[1..]| && songs[1..][k] == r.value && r.value.id == id && forall j :: 0 <= j < k ==> songs[1..][j].id != id;
        assert songs[k + 1] == r.value;
        r
      else r
  }

  /** The songs the filter keeps are the songs `find` can return for their ids. */
  lemma FindInCategory(songs: seq<Song>, id: string, category: string)
    requires FindById(songs, id).Some? && FindById(songs, id).value.category == category
    ensures FindById(songs, id).value in InCategory(songs, category)
  {
    InCategoryMembers(songs, category);
  }
}
