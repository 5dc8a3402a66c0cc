/** The parts of the resource records the clients read or write. The JSON
    mapping classes carry many more fields; only these take part in the logic. */
module Records {
  import opened Common

  /** TrackInformation: its numeric id, its title and the name of the
      playlist it was fetched through (set by the client, not by the server). */
  datatype Track = Track(id: int, title: Option<string>, playlistName: Option<string>)

  /** PlaylistInformation: its title and its track array, which the resolve
      document fills with bare references (only `id` set) or leaves null. */
  datatype Playlist = Playlist(title: Option<string>, tracks: Option<seq<Track>>)

  /** User: only its id is used, to address the user's collections. */
  datatype User = User(id: int)

  /** What deserializing one JSON document gives: an exception, a null
      reference (the text `null`), or a value. */
  datatype Doc<T> = Malformed | Null | Parsed(value: T)

  /** The ids of a track list, in order (`Select(x => x.Id)`). */
  function Ids(ts: seq<Track>): (ids: seq<int>)
    ensures |ids| == |ts|
    ensures forall i :: 0 <= i < |ts| ==> ids[i] == ts[i].id
  {
    seq(|ts|, i requires 0 <= i < |ts| => ts[i].id)
  }

  lemma IdsConcat(a: seq<Track>, b: seq<Track>)
    ensures Ids(a + b) == Ids(a) + Ids(b)
  {
  }
}
