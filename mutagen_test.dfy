/**
 * The extractor of tests/mutagen_test.py: it lists ".mp3" and ".m4a" files,
 * and every file yields a record, falling back to the filename parser when
 * the tag reader fails for any reason.
 */
module MutagenTest {
  import opened Wrappers
  import opened Tags
  import Listing
  import FilenameParser

  const AudioSuffixes: seq<string> := [".mp3", ".m4a"]

  /** `files(directory)`, given the directory listing. */
  function Files(listing: seq<string>): (r: seq<string>)
    ensures forall f :: f in r <==> f in listing && (Listing.EndsWith(f, ".mp3") || Listing.EndsWith(f, ".m4a"))
  {
    assert forall f :: Listing.EndsWithAny(f, AudioSuffixes) <==> Listing.EndsWith(f, ".mp3") || Listing.EndsWith(f, ".m4a") by {
      forall f ensures Listing.EndsWithAny(f, AudioSuffixes) <==> Listing.EndsWith(f, ".mp3") || Listing.EndsWith(f, ".m4a") {
        if Listing.EndsWith(f, ".m4a") { assert Listing.EndsWith(f, AudioSuffixes[1]); }
        if Listing.EndsWith(f, ".mp3") { assert Listing.EndsWith(f, AudioSuffixes[0]); }
      }
    }
    Listing.WithSuffix(listing, AudioSuffixes)
  }

  /**
   * The record the loop appends for one file: the tag branch's record, or
   * `parse_filename(file)` when the tag branch raises (no ID3 header, any
   * other read error, an empty list of tag values).
   */
  function FileRecord(file: string, read: TagRead): (r: Record)
    ensures read.NoHeader? || read.Failed? ==> r == FilenameParser.ParseFilename(file)
    ensures TagRecord(file, read).Some? ==> r == TagRecord(file, read).value
    ensures TagRecord(file, read).None? ==> r == FilenameParser.ParseFilename(file)
  {
    TagRecord(file, read).GetOr(FilenameParser.ParseFilename(file))
  }

  /**
   * One pass of the loop in `main()`: the tags when they can be read,
   * otherwise the parsed filename.
   */
  method ReadRecord(file: string, read: TagRead) returns (record: Record)
    ensures record == FileRecord(file, read)
  {
    var tagged := TagRecord(file, read);
    if tagged.Some? {
      record := tagged.value;
    } else if read.NoHeader? {
      // the reader's "no ID3 header" error
      record := FilenameParser.ParseFilename(file);
    } else {
      // any other error, including an empty list of tag values
      record := FilenameParser.ParseFilename(file);
    }
  }

  /**
   * `main()`: `None` when the DIRECTORY setting is missing or empty; otherwise
   * exactly one record per listed audio file, in file order.
   */
  method Run(directory: Option<string>, listing: seq<string>, readTags: string -> TagRead)
    returns (r: Option<seq<Record>>)
    ensures r.None? <==> directory.None? || directory.value == []
    ensures r.Some? ==> |r.value| == |Files(listing)|
    ensures r.Some? ==> forall k :: 0 <= k < |r.value| ==>
              r.value[k] == FileRecord(Files(listing)[k], readTags(Files(listing)[k]))
  {
    if directory.None? || directory.value == [] {
      return None;
    }
    var files := Files(listing);
    var metadata: seq<Record> := [];
    for i := 0 to |files|
      invariant |metadata| == i
      invariant forall k :: 0 <= k < i ==> metadata[k] == FileRecord(files[k], readTags(files[k]))
    {
      var record := ReadRecord(files[i], readTags(files[i]));
      metadata := metadata + [record];
    }
    return Some(metadata);
  }

  /**
   * A record's artist is empty exactly when it was taken from a readable tag
   * whose first artist value is itself empty; an empty title list sends the
   * file to `parse_filename`, whose artist is never empty.
   */
  lemma ArtistNonEmpty(file: string, read: TagRead)
    ensures FileRecord(file, read).artist == [] <==>
            read.Tags? && read.title != Some([]) &&
            read.artist.Some? && read.artist.value != [] && read.artist.value[0] == []
  {
  }

  /**
   * A file "Artist1 - SongA.mp3" without an ID3 header and a file
   * "SongB.m4a" tagged title "Song B", artist "Band2" yield the records
   * ("SongA", "Artist1") and ("Song B", "Band2").
   */
  lemma TwoFileExample()
    ensures FileRecord("Artist1 - SongA.mp3", NoHeader) == Record("SongA", "Artist1")
    ensures FileRecord("SongB.m4a", Tags(Some(["Song B"]), Some(["Band2"]))) == Record("Song B", "Band2")
  {
    var a, b := "Artist1", "SongA";
    assert a + FilenameParser.Separator + b + ".mp3" == "Artist1 - SongA.mp3";
    forall i | 1 <= i < |a| ensures !FilenameParser.SeparatorAt(a + FilenameParser.Separator, i) {
      var t := a + FilenameParser.Separator;
      assert t[i..i + 3][0] == t[i] == a[i] != ' ';
    }
    FilenameParser.ParseArtistDashTitle(a, b, ".mp3");
  }
}
