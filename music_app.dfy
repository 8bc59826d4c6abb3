/**
 * main.py: the `Music` object that extracts local metadata and reconciles it
 * against a remote playlist, and the configuration checks of `main`.
 *
 * Every remote response is an input: the user id returned once the session
 * is authorised, the first page of the user's playlists, the id the service
 * gives a newly created playlist, the chain of pages of the playlist's
 * items, and the top search hit for a query. The directory listing and the
 * tag reader's outcome per file are inputs too. Calls that change the remote
 * state are recorded, in order, in the object's `calls` log.
 */
module MusicApp {
  import opened Wrappers
  import opened Tags
  import opened Spotify
  import Listing
  import MutagenTest

  const DefaultPlaylistName: string := "Local Tracks"
  const PublicScope: string := "playlist-modify-public"

  /** The settings an authorised session is built from. */
  datatype Session = Session(clientId: string, clientSecret: string, redirectUri: string, scope: string)

  /** The values of the successful outcomes, in order. */
  function Somes<T>(outcomes: seq<Option<T>>): (r: seq<T>)
    ensures |r| <= |outcomes|
  {
    if outcomes == [] then []
    else
      var last := outcomes[|outcomes| - 1];
      Somes(outcomes[..|outcomes| - 1]) + (if last.Some? then [last.value] else [])
  }

  /** `Somes` keeps order: it maps a concatenation to a concatenation. */
  lemma {:induction false} SomesAppend<T>(a: seq<Option<T>>, b: seq<Option<T>>)
    ensures Somes(a + b) == Somes(a) + Somes(b)
    decreases |b|
  {
    if b == [] {
      assert a + b == a;
    } else {
      assert (a + b)[..|a + b| - 1] == a + b[..|b| - 1];
      SomesAppend(a, b[..|b| - 1]);
    }
  }

  /** A value is kept exactly when it is the value of some successful outcome. */
  lemma {:induction false} SomesMembership<T>(outcomes: seq<Option<T>>, x: T)
    ensures x in Somes(outcomes) <==> Some(x) in outcomes
    decreases |outcomes|
  {
    if outcomes != [] {
      var init := outcomes[..|outcomes| - 1];
      SomesMembership(init, x);
      assert outcomes == init + [outcomes[|outcomes| - 1]];
    }
  }

  /** With no failed outcome, every value is kept, in place. */
  lemma {:induction false} SomesAllSome<T>(outcomes: seq<Option<T>>)
    requires forall k :: 0 <= k < |outcomes| ==> outcomes[k].Some?
    ensures |Somes(outcomes)| == |outcomes|
    ensures forall k :: 0 <= k < |outcomes| ==> Somes(outcomes)[k] == outcomes[k].value
    decreases |outcomes|
  {
    if outcomes != [] {
      SomesAllSome(outcomes[..|outcomes| - 1]);
    }
  }

  /** The tag branch's outcome for each file. */
  function Outcomes(files: seq<string>, readTags: string -> TagRead): (r: seq<Option<Record>>)
    ensures |r| == |files|
    ensures forall k :: 0 <= k < |files| ==> r[k] == TagRecord(files[k], readTags(files[k]))
  {
    seq(|files|, k requires 0 <= k < |files| => TagRecord(files[k], readTags(files[k])))
  }

  /**
   * The records `extract_metadata` appends for the given files: the tag
   * branch's record for each file whose tag read succeeds, in file order;
   * a file whose tag read raises contributes nothing.
   */
  function MainRecords(files: seq<string>, readTags: string -> TagRead): (r: seq<Record>)
    ensures |r| <= |files|
  {
    Somes(Outcomes(files, readTags))
  }

  /** The records keep file order: extracting from a concatenation concatenates the extractions. */
  lemma MainRecordsAppend(a: seq<string>, b: seq<string>, readTags: string -> TagRead)
    ensures MainRecords(a + b, readTags) == MainRecords(a, readTags) + MainRecords(b, readTags)
  {
    var oa, ob, oab := Outcomes(a, readTags), Outcomes(b, readTags), Outcomes(a + b, readTags);
    assert oab == oa + ob by {
      forall k | 0 <= k < |oab| ensures oab[k] == (oa + ob)[k] {
        if k < |a| {
          assert (a + b)[k] == a[k];
        } else {
          assert (a + b)[k] == b[k - |a|];
        }
      }
    }
    SomesAppend(Outcomes(a, readTags), Outcomes(b, readTags));
  }

  /**
   * A record is produced exactly when it is the tag branch's record of some
   * file; a file whose tag read raises produces none.
   */
  lemma MainRecordsMembership(files: seq<string>, readTags: string -> TagRead, rec: Record)
    ensures rec in MainRecords(files, readTags) <==>
              exists i :: 0 <= i < |files| && TagRecord(files[i], readTags(files[i])) == Some(rec)
  {
    var outcomes := Outcomes(files, readTags);
    SomesMembership(outcomes, rec);
    if Some(rec) in outcomes {
      var i :| 0 <= i < |outcomes| && outcomes[i] == Some(rec);
      assert TagRecord(files[i], readTags(files[i])) == Some(rec);
    }
  }

  /** When every tag read succeeds, there is one record per file, the tag branch's, in file order. */
  lemma MainRecordsAllRead(files: seq<string>, readTags: string -> TagRead)
    requires forall f :: f in files ==> TagRecord(f, readTags(f)).Some?
    ensures |MainRecords(files, readTags)| == |files|
    ensures forall k :: 0 <= k < |files| ==>
              MainRecords(files, readTags)[k] == TagRecord(files[k], readTags(files[k])).value
  {
    var outcomes := Outcomes(files, readTags);
    assert forall k :: 0 <= k < |outcomes| ==> outcomes[k].Some? by {
      forall k | 0 <= k < |outcomes| ensures outcomes[k].Some? {
        assert files[k] in files;
      }
    }
    SomesAllSome(outcomes);
  }

  /**
   * On ".mp3" files whose tags can be read, main.py's extractor and the one
   * in tests/mutagen_test.py give the same records.
   */
  lemma VariantsAgreeWhenTagsRead(files: seq<string>, readTags: string -> TagRead)
    requires forall f :: f in files ==> TagRecord(f, readTags(f)).Some?
    ensures |MainRecords(files, readTags)| == |files|
    ensures forall k :: 0 <= k < |files| ==>
              MainRecords(files, readTags)[k] == MutagenTest.FileRecord(files[k], readTags(files[k]))
  {
    MainRecordsAllRead(files, readTags);
  }

  /** Why `main` stops before building a `Music` object. */
  datatype ConfigError = NoDirectorySelected | MissingCredentials

  /** What `main` builds the `Music` object from. */
  datatype Settings = Settings(directory: string, clientId: string, clientSecret: string, redirectUri: string)

  /** An environment value counts as set when it is present and not empty. */
  predicate IsSet(v: Option<string>) {
    v.Some? && v.value != []
  }

  /**
   * The checks of `main`: a directory must have been chosen, then all three
   * service credentials must be set.
   */
  function CheckConfig(directory: string, clientId: Option<string>, clientSecret: Option<string>,
                       redirectUri: Option<string>): (r: Result<Settings, ConfigError>)
    ensures r == Err(NoDirectorySelected) <==> directory == []
    ensures r == Err(MissingCredentials) <==>
              directory != [] && !(IsSet(clientId) && IsSet(clientSecret) && IsSet(redirectUri))
    ensures r.Ok? ==> r.value.directory == directory && r.value.directory != []
    ensures r.Ok? ==> Some(r.value.clientId) == clientId && Some(r.value.clientSecret) == clientSecret &&
                      Some(r.value.redirectUri) == redirectUri
    ensures r.Ok? ==> r.value.clientId != [] && r.value.clientSecret != [] && r.value.redirectUri != []
  {
    if directory == [] then Err(NoDirectorySelected)
    else if !(IsSet(clientId) && IsSet(clientSecret) && IsSet(redirectUri)) then Err(MissingCredentials)
    else Ok(Settings(directory, clientId.value, clientSecret.value, redirectUri.value))
  }

  class Music {
    const directory: string
    const clientId: string
    const clientSecret: string
    const redirectUri: string
    const scope: string
    var sp: Option<Session>
    var userId: Option<string>
    /** The calls issued through `sp` that change the remote state, oldest first. */
    var calls: seq<Call>

    constructor (directory: string, clientId: string, clientSecret: string, redirectUri: string)
      ensures this.directory == directory && this.clientId == clientId
      ensures this.clientSecret == clientSecret && this.redirectUri == redirectUri
      ensures scope == PublicScope && sp == None && userId == None && calls == []
    {
      this.directory := directory;
      this.clientId := clientId;
      this.clientSecret := clientSecret;
      this.redirectUri := redirectUri;
      this.scope := PublicScope;
      this.sp := None;
      this.userId := None;
      this.calls := [];
    }

    /** `files()`, given the listing of `directory`: the ".mp3" files, in listing order. */
    function Files(listing: seq<string>): (r: seq<string>)
      ensures forall f :: f in r <==> f in listing && Listing.EndsWith(f, ".mp3")
    {
      assert forall f :: Listing.EndsWithAny(f, [".mp3"]) <==> Listing.EndsWith(f, ".mp3") by {
        forall f ensures Listing.EndsWithAny(f, [".mp3"]) <==> Listing.EndsWith(f, ".mp3") {
          if Listing.EndsWith(f, ".mp3") { assert Listing.EndsWith(f, [".mp3"][0]); }
        }
      }
      Listing.WithSuffix(listing, [".mp3"])
    }

    /** `extract_metadata()`: one record per ".mp3" file whose tags can be read, in file order. */
    method ExtractMetadata(listing: seq<string>, readTags: string -> TagRead) returns (metadata: seq<Record>)
      ensures metadata == MainRecords(Files(listing), readTags)
    {
      var files := Files(listing);
      metadata := [];
      for i := 0 to |files|
        invariant metadata == Somes(Outcomes(files, readTags)[..i])
      {
        var file := files[i];
        var tagged := TagRecord(file, readTags(file));
        ghost var outcomes := Outcomes(files, readTags);
        assert outcomes[..i + 1][..i] == outcomes[..i];
        if tagged.Some? {
          metadata := metadata + [tagged.value];
        }
      }
      assert Outcomes(files, readTags)[..|files|] == Outcomes(files, readTags);
    }

    /** `integrate_with_spotify()`: open a session with this object's settings and remember the user's id. */
    method IntegrateWithSpotify(me: string)
      modifies this`sp, this`userId
      ensures sp == Some(Session(clientId, clientSecret, redirectUri, scope)) && userId == Some(me)
    {
      sp := Some(Session(clientId, clientSecret, redirectUri, scope));
      userId := Some(me);
    }

    /**
     * `create_playlist(playlist_name)`: reuse the first playlist on the page
     * named exactly `playlistName`; only when there is none, create a public
     * one, once.
     */
    method CreatePlaylist(me: string, page: seq<PlaylistSummary>, createdId: PlaylistId, playlistName: string)
      returns (id: PlaylistId)
      modifies this`sp, this`userId, this`calls
      ensures sp == Some(Session(clientId, clientSecret, redirectUri, scope)) && userId == Some(me)
      ensures FirstNamed(page, playlistName).Some? ==>
                id == page[FirstNamed(page, playlistName).value].id && calls == old(calls)
      ensures FirstNamed(page, playlistName).None? ==>
                id == createdId && calls == old(calls) + [CreateUserPlaylist(me, playlistName, true)]
    {
      IntegrateWithSpotify(me);
      match FirstNamed(page, playlistName) {
        case Some(k) =>
          return page[k].id;
        case None =>
          calls := calls + [CreateUserPlaylist(me, playlistName, true)];
          return createdId;
      }
    }

    /**
     * `get_playlist_tracks(playlist_id)`: the track ids of every item on
     * every page, in page order, following `next` links until there is none.
     */
    method GetPlaylistTracks(pages: seq<TrackPage>) returns (ids: seq<TrackId>)
      requires sp.Some?
      requires IsChain(pages)
      ensures ids == TrackIds(AllItems(pages))
      ensures |ids| == ItemCount(pages)
    {
      var k := 0;
      var results := pages[0];
      var tracks := results.items;
      assert pages[..1][..0] == [];
      while results.hasNext
        invariant 0 <= k < |pages| && results == pages[k]
        invariant tracks == AllItems(pages[..k + 1])
        decreases |pages| - k
      {
        k := k + 1;
        results := pages[k];
        assert pages[..k + 1][..k] == pages[..k];
        tracks := tracks + results.items;
      }
      assert pages[..k + 1] == pages;
      ids := TrackIds(tracks);
    }

    /**
     * `search_and_add_tracks(playlist_id)`: take the playlist's membership
     * once, extract the local records, then add what is missing.
     */
    method SearchAndAddTracks(playlistId: PlaylistId, pages: seq<TrackPage>, listing: seq<string>,
                              readTags: string -> TagRead, search: string -> Option<TrackId>)
      requires sp.Some?
      requires IsChain(pages)
      modifies this`calls
      ensures calls == old(calls) +
                AddCalls(playlistId, AddedIds(MainRecords(Files(listing), readTags), search, TrackIds(AllItems(pages))))
    {
      var existing := GetPlaylistTracks(pages);
      var metadata := ExtractMetadata(listing, readTags);
      AddMissingTracks(playlistId, metadata, existing, search);
    }

    /**
     * The loop of `search_and_add_tracks`: for each record in order, search
     * for `"{title} {artist}"` and add the top hit, one track per call,
     * unless its id is in `existing`, the snapshot taken before the loop.
     */
    method AddMissingTracks(playlistId: PlaylistId, metadata: seq<Record>, existing: seq<TrackId>,
                            search: string -> Option<TrackId>)
      requires sp.Some?
      modifies this`calls
      ensures calls == old(calls) + AddCalls(playlistId, AddedIds(metadata, search, existing))
    {
      ghost var added: seq<TrackId> := [];
      for i := 0 to |metadata|
        invariant added == AddedIds(metadata[..i], search, existing)
        invariant calls == old(calls) + AddCalls(playlistId, added)
      {
        var record := metadata[i];
        var query := record.title + " " + record.artist;
        var hit := search(query);
        AddedIdsStep(metadata, i, search, existing);
        if hit.Some? && hit.value !in existing {
          var trackId := hit.value;
          calls := calls + [AddItems(playlistId, [trackId])];
          AddCallsAppend(playlistId, added, [trackId]);
          added := added + [trackId];
        }
      }
      assert metadata[..|metadata|] == metadata;
    }
  }

  /**
   * `main()`: check the settings, then resolve the "Local Tracks" playlist and
   * add the missing tracks to it. The result is the `Music` object, whose
   * `calls` log is every change the run made to the remote state.
   */
  method Run(directory: string, clientId: Option<string>, clientSecret: Option<string>, redirectUri: Option<string>,
             me: string, playlists: seq<PlaylistSummary>, createdId: PlaylistId, pages: seq<TrackPage>,
             listing: seq<string>, readTags: string -> TagRead, search: string -> Option<TrackId>)
    returns (r: Result<Music, ConfigError>)
    requires IsChain(pages)
    ensures CheckConfig(directory, clientId, clientSecret, redirectUri).Err? ==>
              r == Err(CheckConfig(directory, clientId, clientSecret, redirectUri).error)
    ensures CheckConfig(directory, clientId, clientSecret, redirectUri).Ok? ==> r.Ok? && fresh(r.value)
    ensures r.Ok? ==> r.value.directory == directory && r.value.userId == Some(me)
    ensures r.Ok? && FirstNamed(playlists, DefaultPlaylistName).Some? ==>
              r.value.calls ==
                AddCalls(playlists[FirstNamed(playlists, DefaultPlaylistName).value].id,
                         AddedIds(MainRecords(r.value.Files(listing), readTags), search, TrackIds(AllItems(pages))))
    ensures r.Ok? && FirstNamed(playlists, DefaultPlaylistName).None? ==>
              r.value.calls ==
                [CreateUserPlaylist(me, DefaultPlaylistName, true)] +
                AddCalls(createdId, AddedIds(MainRecords(r.value.Files(listing), readTags), search, TrackIds(AllItems(pages))))
  {
    var config := CheckConfig(directory, clientId, clientSecret, redirectUri);
    if config.Err? {
      return Err(config.error);
    }
    var settings := config.value;
    var music := new Music(settings.directory, settings.clientId, settings.clientSecret, settings.redirectUri);
    var playlistId := music.CreatePlaylist(me, playlists, createdId, DefaultPlaylistName);
    ghost var created := music.calls;
    assert created == if FirstNamed(playlists, DefaultPlaylistName).Some? then []
                      else [CreateUserPlaylist(me, DefaultPlaylistName, true)];
    music.SearchAndAddTracks(playlistId, pages, listing, readTags, search);
    assert music.calls == created +
             AddCalls(playlistId, AddedIds(MainRecords(music.Files(listing), readTags), search, TrackIds(AllItems(pages))));
    return Ok(music);
  }
}
