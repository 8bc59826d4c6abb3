/**
 * The per-file tag branch shared by both extractors: read the file's ID3
 * tags, take the first title value (defaulting to the file's stem) and the
 * first artist value (defaulting to "Unknown Artist").
 */
module Tags {
  import opened Wrappers
  import PathExt

  const UnknownArtist: string := "Unknown Artist"

  /** A track record: what one local file contributes to the run. */
  datatype Record = Record(title: string, artist: string)

  /**
   * The outcome of opening a file with the tag reader, given as an input per
   * file. `NoHeader` is the reader's "no ID3 header" error, `Failed` any other
   * error. A tag key is `None` when absent, otherwise its list of values
   * (which the reader may give back empty).
   */
  datatype TagRead =
    | NoHeader
    | Failed
    | Tags(title: Option<seq<string>>, artist: Option<seq<string>>)

  /**
   * `tags.get(key, [default])[0]`: `None` stands for the IndexError raised
   * when the key is present with an empty list of values.
   */
  function FirstOr(values: Option<seq<string>>, default: string): (r: Option<string>)
    ensures r.None? <==> values == Some([])
    ensures r.Some? ==> r.value == (if values.Some? then values.value[0] else default)
  {
    match values
    case None => Some(default)
    case Some(vs) => if vs == [] then None else Some(vs[0])
  }

  /**
   * The body of the `try` around the tag reader: `None` when it raises
   * (no header, any other read error, or an empty list of values).
   */
  function TagRecord(file: string, read: TagRead): (r: Option<Record>)
    ensures r.Some? <==> read.Tags? && read.title != Some([]) && read.artist != Some([])
  {
    match read
    case NoHeader => None
    case Failed => None
    case Tags(t, a) =>
      match (FirstOr(t, PathExt.Stem(file)), FirstOr(a, UnknownArtist))
      case (Some(title), Some(artist)) => Some(Record(title, artist))
      case _ => None
  }

  /**
   * When the tag branch yields a record, its title is the first title value,
   * or the stem when there is no title key, and its artist the first artist
   * value, or "Unknown Artist" when there is no artist key.
   */
  lemma TagRecordSpec(file: string, read: TagRead)
    ensures TagRecord(file, read).Some? ==>
              TagRecord(file, read).value.title == (if read.title.Some? then read.title.value[0] else PathExt.Stem(file))
    ensures TagRecord(file, read).Some? ==>
              TagRecord(file, read).value.artist == (if read.artist.Some? then read.artist.value[0] else UnknownArtist)
  {
  }
}
