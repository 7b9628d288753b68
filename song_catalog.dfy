/** The 3D scene's song fetcher (3D_control/js/DataFetcher.js): the whole parsed
    songData.json is cached, and the queries answer from the cache only, with no special
    'all' category. The network is outside the model: what a fetch yields is a parameter. */
module SongCatalog {
  import opened Songs

  datatype Result<T> = Ok(value: T) | Failure(message: string)

  /** What `fetch` then `response.json()` give: the parsed list, or an error that was thrown. */
  datatype Response = Parsed(songs: seq<Song>) | Threw(error: string)

  /** What getSongById returns: `null` with nothing loaded, `undefined` when no song has the
      id, or the song. */
  datatype Lookup = Null | Undefined | Found(song: Song)

  class DataFetcher {
    var songData: Option<seq<Song>>

    constructor ()
      ensures songData == None
    {
      songData := None;
    }

    /** fetchSongList: the parsed document is stored whole and returned; an error leaves the cache. */
    method FetchSongList(response: Response) returns (r: Result<seq<Song>>)
      modifies this
      ensures response.Parsed? ==> songData == Some(response.songs) && r == Ok(response.songs)
      ensures response.Threw? ==> songData == old(songData) && r == Failure(response.error)
    {
      match response {
        case Threw(error) => return Failure(error);
        case Parsed(songs) =>
          songData := Some(songs);
          return Ok(songs);
      }
    }

    /** getSongsByCategory: nothing with no list loaded, else exactly the songs of the category, in order. */
    function GetSongsByCategory(category: string): (r: seq<Song>)
      reads this
      ensures songData.None? ==> r == []
      ensures songData.Some? ==> forall s :: s in r <==> s in songData.value && s.category == category
      ensures songData.Some? ==> r == InCategory(songData.value, category)
    {
      if songData.None? then []
      else
        InCategoryMembers(songData.value, category);
        InCategory(songData.value, category)
    }

    /** getSongById: null with no list loaded, else the first song with the id or undefined. */
    function GetSongById(id: string): (r: Lookup)
      reads this
      ensures songData.None? <==> r == Null
      ensures songData.Some? ==> (r == Undefined <==> forall k :: 0 <= k < |songData.value| ==> songData.value[k].id != id)
      ensures r.Found? ==> r.song in songData.value && r.song.id == id && FindById(songData.value, id) == Some(r.song)
    {
      if songData.None? then Null
      else
        match FindById(songData.value, id)
        case None => Undefined
        case Some(song) => Found(song)
    }
  }

  /** Unlike the rhythm game's fetcher, 'all' is an ordinary category here: with no song in a
      category named "all", the query is empty. */
  lemma AllIsOrdinary(d: DataFetcher)
    requires d.songData.Some? && forall k :: 0 <= k < |d.songData.value| ==> d.songData.value[k].category != "all"
    ensures d.GetSongsByCategory("all") == []
  {
    InCategoryNone(d.songData.value, "all");
  }
}
