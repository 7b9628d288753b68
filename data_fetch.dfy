/** The rhythm game's song fetcher (MIR/js/dataFetch.js): the cached song list, the beat-map
    conversion, and the two queries, which load the list first when nothing is cached. The
    network is outside the model: what a fetch of songData.json yields is a parameter. */
module SongData {
  import opened Songs

  datatype Result<T> = Ok(value: T) | Failure(message: string)

  /** The parsed songData.json document. */
  datatype Document = Document(songs: seq<Song>)

  /** What `fetch` then `response.json()` give: a document, a response that was not ok, or a
      fetch or parse that threw. */
  datatype Response = Parsed(document: Document) | NotOk | Threw(error: string)

  const NotOkMessage: string := "Network response was not ok"

  /** A beat as songData.json stores it. */
  datatype RawBeat = RawBeat(time: real, x: real, y: real, z: real, points: int)
  datatype Position = Position(x: real, y: real, z: real)
  /** A beat as the game uses it. */
  datatype Beat = Beat(time: real, position: Position, points: int)

  /** processSongData: the document's song list. */
  function ProcessSongData(data: Document): seq<Song>
  {
    data.songs
  }

  /** processBeatMap: every beat with x, y and z gathered into a position, in order. */
  function ProcessBeatMap(beatMap: seq<RawBeat>): (r: seq<Beat>)
    ensures |r| == |beatMap|
    ensures forall k :: 0 <= k < |beatMap| ==>
      && r[k].time == beatMap[k].time && r[k].points == beatMap[k].points
      && r[k].position == Position(beatMap[k].x, beatMap[k].y, beatMap[k].z)
  {
    seq(|beatMap|, k requires 0 <= k < |beatMap| =>
      Beat(beatMap[k].time, Position(beatMap[k].x, beatMap[k].y, beatMap[k].z), beatMap[k].points))
  }

  /** A beat spread back into its stored fields. */
  function Unprocess(beats: seq<Beat>): (r: seq<RawBeat>)
    ensures |r| == |beats|
  {
    seq(|beats|, k requires 0 <= k < |beats| =>
      RawBeat(beats[k].time, beats[k].position.x, beats[k].position.y, beats[k].position.z, beats[k].points))
  }

  /** The conversion loses nothing: spreading the converted beats gives the stored beat map back. */
  lemma ProcessBeatMapRoundTrip(beatMap: seq<RawBeat>)
    ensures Unprocess(ProcessBeatMap(beatMap)) == beatMap
  {
    var back := Unprocess(ProcessBeatMap(beatMap));
    forall k | 0 <= k < |beatMap|
      ensures back[k] == beatMap[k]
    {
    }
  }

  /** The conversion commutes with concatenation, so beat maps can be converted piecewise. */
  lemma ProcessBeatMapAppend(a: seq<RawBeat>, b: seq<RawBeat>)
    ensures ProcessBeatMap(a + b) == ProcessBeatMap(a) + ProcessBeatMap(b)
  {
    var l, r := ProcessBeatMap(a + b), ProcessBeatMap(a) + ProcessBeatMap(b);
    forall k | 0 <= k < |a + b|
      ensures l[k] == r[k]
    {
      if k < |a| {
        assert (a + b)[k] == a[k];
      } else {
        assert (a + b)[k] == b[k - |a|];
      }
    }
  }

  /** The songs of a category, with 'all' standing for every song. */
  function SongsOf(songs: seq<Song>, category: string): (r: seq<Song>)
    ensures category == "all" ==> r == songs
    ensures category != "all" ==> r == InCategory(songs, category)
  {
    if category == "all" then songs else InCategory(songs, category)
  }

  class DataFetcher {
    var songData: Option<seq<Song>>
    const baseUrl: string

    constructor ()
      ensures songData == None && baseUrl == "songData.json"
    {
      songData := None;
      baseUrl := "songData.json";
    }

    /** fetchSongList: a parsed document's songs are cached and returned; a failed response
        is an error and the cache is left as it was. */
    method FetchSongList(response: Response) returns (r: Result<seq<Song>>)
      modifies this
      ensures response.Parsed? ==> songData == Some(response.document.songs) && r == Ok(response.document.songs)
      ensures response.NotOk? ==> r == Failure(NotOkMessage) && songData == old(songData)
      ensures response.Threw? ==> r == Failure(response.error) && songData == old(songData)
    {
      match response {
        case NotOk => return Failure(NotOkMessage);
        case Threw(error) => return Failure(error);
        case Parsed(data) =>
          songData := Some(ProcessSongData(data));
          return Ok(songData.value);
      }
    }

    /** Loads the list when nothing is cached (`!this.songData`) and gives the cached list. */
    method Loaded(response: Response) returns (r: Result<seq<Song>>)
      modifies this
      ensures old(songData).Some? ==> songData == old(songData) && r == Ok(songData.value)
      ensures old(songData).None? && response.Parsed? ==> songData == Some(response.document.songs) && r == Ok(response.document.songs)
      ensures old(songData).None? && !response.Parsed? ==> r.Failure? && songData == None
    {
      if songData.None? {
        var fetched := FetchSongList(response);
        if fetched.Failure? {
          return Failure(fetched.message);
        }
      }
      return Ok(songData.value);
    }

    /** getSongById: the first cached song with the id, loading the list first if needed. */
    method GetSongById(id: string, response: Response) returns (r: Result<Option<Song>>)
      modifies this
      ensures old(songData).Some? ==> songData == old(songData) && r == Ok(FindById(songData.value, id))
      ensures old(songData).None? && response.Parsed? ==>
        songData == Some(response.document.songs) && r == Ok(FindById(response.document.songs, id))
      ensures old(songData).None? && !response.Parsed? ==> r.Failure? && songData == None
    {
      var songs := Loaded(response);
      if songs.Failure? {
        return Failure(songs.message);
      }
      return Ok(FindById(songs.value, id));
    }

    /** getSongsByCategory: every cached song for 'all', else those of the category, in order. */
    method GetSongsByCategory(category: string, response: Response) returns (r: Result<seq<Song>>)
      modifies this
      ensures old(songData).Some? ==> songData == old(songData) && r == Ok(SongsOf(songData.value, category))
      ensures old(songData).None? && response.Parsed? ==>
        songData == Some(response.document.songs) && r == Ok(SongsOf(response.document.songs, category))
      ensures old(songData).None? && !response.Parsed? ==> r.Failure? && songData == None
    {
      var songs := Loaded(response);
      if songs.Failure? {
        return Failure(songs.message);
      }
      if category == "all" {
        return Ok(songs.value);
      }
      return Ok(InCategory(songs.value, category));
    }
  }
}
