/**
 * What the reconciler needs from the remote service, as plain values, and
 * the specification of what one run adds to the playlist.
 */
module Spotify {
  import opened Wrappers
  import opened Tags

  type TrackId = string
  type PlaylistId = string

  /** An entry of the first page of the user's playlists. */
  datatype PlaylistSummary = PlaylistSummary(id: PlaylistId, name: string)

  /** An item of a playlist: the track it holds, by id. */
  datatype PlaylistItem = PlaylistItem(trackId: TrackId)

  /** One page of a playlist's items, and whether a `next` link follows it. */
  datatype TrackPage = TrackPage(items: seq<PlaylistItem>, hasNext: bool)

  /** A call that changes the remote state, in the order it is issued. */
  datatype Call =
    | CreateUserPlaylist(user: string, name: string, public: bool)
    | AddItems(playlist: PlaylistId, tracks: seq<TrackId>)

  /**
   * The first playlist on the page whose name equals `name` exactly
   * (case-sensitive), by position.
   */
  function FirstNamed(page: seq<PlaylistSummary>, name: string): (r: Option<nat>)
    ensures r.Some? ==> r.value < |page| && page[r.value].name == name
    ensures r.Some? ==> forall j :: 0 <= j < r.value ==> page[j].name != name
    ensures r.None? <==> forall j :: 0 <= j < |page| ==> page[j].name != name
  {
    if page == [] then None
    else if page[0].name == name then Some(0)
    else
      match FirstNamed(page[1..], name)
      case Some(k) =>
        assert forall j :: 1 <= j < k + 1 ==> page[j] == page[1..][j - 1];
        Some(k + 1)
      case None =>
        assert forall j :: 1 <= j < |page| ==> page[j] == page[1..][j - 1];
        None
  }

  /**
   * The pages the service hands out for one playlist, following `next` links
   * until one is null: every page but the last has a link, the last has none.
   */
  predicate IsChain(pages: seq<TrackPage>) {
    |pages| > 0 &&
    (forall k :: 0 <= k < |pages| - 1 ==> pages[k].hasNext) &&
    !pages[|pages| - 1].hasNext
  }

  /** The items of all pages, concatenated in page order. */
  function AllItems(pages: seq<TrackPage>): (r: seq<PlaylistItem>)
    ensures |r| == ItemCount(pages)
  {
    if pages == [] then []
    else
      ItemCountLast(pages);
      AllItems(pages[..|pages| - 1]) + pages[|pages| - 1].items
  }

  /** The total number of items over all pages. */
  function ItemCount(pages: seq<TrackPage>): nat
  {
    if pages == [] then 0 else ItemCount(pages[1..]) + |pages[0].items|
  }

  /** `[item['track']['id'] for item in items]`. */
  function TrackIds(items: seq<PlaylistItem>): (r: seq<TrackId>)
    ensures |r| == |items| && forall k :: 0 <= k < |items| ==> r[k] == items[k].trackId
  {
    seq(|items|, k requires 0 <= k < |items| => items[k].trackId)
  }

  /** `ItemCount` may equally be summed from the last page. */
  lemma {:induction false} ItemCountLast(pages: seq<TrackPage>)
    requires pages != []
    ensures ItemCount(pages) == ItemCount(pages[..|pages| - 1]) + |pages[|pages| - 1].items|
    decreases |pages|
  {
    if |pages| > 1 {
      ItemCountLast(pages[1..]);
      assert pages[1..][..|pages[1..]| - 1] == pages[..|pages| - 1][1..];
    }
  }

  /** An item is collected exactly when some page holds it. */
  lemma {:induction false} AllItemsMembership(pages: seq<TrackPage>, x: PlaylistItem)
    ensures x in AllItems(pages) <==> exists k :: 0 <= k < |pages| && x in pages[k].items
    decreases |pages|
  {
    if pages != [] {
      var init := pages[..|pages| - 1];
      AllItemsMembership(init, x);
      if x in AllItems(pages) && x !in pages[|pages| - 1].items {
        var k :| 0 <= k < |init| && x in init[k].items;
        assert x in pages[k].items;
      }
      if k :| 0 <= k < |pages| && x in pages[k].items {
        if k < |pages| - 1 { assert x in init[k].items; }
      }
    }
  }

  /** The search text for a record: `f"{title} {artist}"`. */
  function Query(r: Record): (q: string)
    ensures |q| == |r.title| + 1 + |r.artist|
    ensures q[..|r.title|] == r.title && q[|r.title|] == ' ' && q[|r.title| + 1..] == r.artist
  {
    r.title + " " + r.artist
  }

  /**
   * What the loop adds for one record: the top search hit for its query, when
   * there is one and its id is not in the snapshot.
   */
  function AddFor(r: Record, search: string -> Option<TrackId>, snapshot: seq<TrackId>): (added: seq<TrackId>)
    ensures |added| <= 1
    ensures added != [] <==> search(Query(r)).Some? && search(Query(r)).value !in snapshot
    ensures added != [] ==> added[0] == search(Query(r)).value
  {
    match search(Query(r))
    case Some(id) => if id !in snapshot then [id] else []
    case None => []
  }

  /**
   * The ids one run adds, in record order, when every record is checked
   * against the same snapshot taken before the loop.
   */
  function AddedIds(records: seq<Record>, search: string -> Option<TrackId>, snapshot: seq<TrackId>): (added: seq<TrackId>)
    ensures |added| <= |records|
    ensures forall id :: id in added ==> id !in snapshot
  {
    if records == [] then []
    else
      var init := records[..|records| - 1];
      AddedIds(init, search, snapshot) + AddFor(records[|records| - 1], search, snapshot)
  }

  /** The add calls for a sequence of ids, one call of one track each. */
  function AddCalls(playlist: PlaylistId, ids: seq<TrackId>): (calls: seq<Call>)
    ensures |calls| == |ids|
    ensures forall k :: 0 <= k < |ids| ==> calls[k] == AddItems(playlist, [ids[k]])
  {
    seq(|ids|, k requires 0 <= k < |ids| => AddItems(playlist, [ids[k]]))
  }

  /** The adds for the first `i + 1` records extend those for the first `i` by the adds for record `i`. */
  lemma AddedIdsStep(records: seq<Record>, i: nat, search: string -> Option<TrackId>, snapshot: seq<TrackId>)
    requires i < |records|
    ensures AddedIds(records[..i + 1], search, snapshot) ==
              AddedIds(records[..i], search, snapshot) + AddFor(records[i], search, snapshot)
  {
    assert records[..i + 1][..i] == records[..i];
  }

  /** The add calls for a concatenation of ids are those for each part, in order. */
  lemma AddCallsAppend(playlist: PlaylistId, a: seq<TrackId>, b: seq<TrackId>)
    ensures AddCalls(playlist, a + b) == AddCalls(playlist, a) + AddCalls(playlist, b)
  {
  }

  /**
   * Records are handled one after the other: the adds for a concatenation are
   * the adds for the first part followed by those for the second.
   */
  lemma {:induction false} AddedIdsAppend(a: seq<Record>, b: seq<Record>, search: string -> Option<TrackId>, snapshot: seq<TrackId>)
    ensures AddedIds(a + b, search, snapshot) == AddedIds(a, search, snapshot) + AddedIds(b, search, snapshot)
    decreases |b|
  {
    if b == [] {
      assert a + b == a;
    } else {
      assert (a + b)[..|a + b| - 1] == a + b[..|b| - 1];
      AddedIdsAppend(a, b[..|b| - 1], search, snapshot);
    }
  }

  /**
   * An id is added exactly when it is the top hit for some record and is not
   * in the snapshot.
   */
  lemma {:induction false} AddedIdsMembership(records: seq<Record>, search: string -> Option<TrackId>, snapshot: seq<TrackId>, id: TrackId)
    ensures id in AddedIds(records, search, snapshot) <==>
              id !in snapshot && exists i :: 0 <= i < |records| && search(Query(records[i])) == Some(id)
    decreases |records|
  {
    if records != [] {
      var init := records[..|records| - 1];
      var last := records[|records| - 1];
      AddedIdsMembership(init, search, snapshot, id);
      if id in AddedIds(records, search, snapshot) && id !in AddFor(last, search, snapshot) {
        var i :| 0 <= i < |init| && search(Query(init[i])) == Some(id);
        assert records[i] == init[i];
      }
      if i :| 0 <= i < |records| && search(Query(records[i])) == Some(id) {
        if id !in snapshot {
          if i < |init| {
            assert init[i] == records[i];
          } else {
            assert AddFor(last, search, snapshot) == [id];
          }
        }
      }
    }
  }

  /**
   * The snapshot is not refreshed after an add: two records whose top hit is
   * the same id missing from the snapshot both add it.
   */
  lemma SameNewHitAddedTwice(r1: Record, r2: Record, search: string -> Option<TrackId>, snapshot: seq<TrackId>, id: TrackId)
    requires search(Query(r1)) == Some(id) && search(Query(r2)) == Some(id) && id !in snapshot
    ensures AddedIds([r1, r2], search, snapshot) == [id, id]
  {
  }

  /**
   * Running again with the same records and search results adds nothing once
   * the new snapshot holds every id of the old snapshot and every id the
   * first run added.
   */
  lemma Idempotent(records: seq<Record>, search: string -> Option<TrackId>, first: seq<TrackId>, second: seq<TrackId>)
    requires forall id :: id in first ==> id in second
    requires forall id :: id in AddedIds(records, search, first) ==> id in second
    ensures AddedIds(records, search, second) == []
  {
    if AddedIds(records, search, second) != [] {
      var id := AddedIds(records, search, second)[0];
      AddedIdsMembership(records, search, second, id);
      AddedIdsMembership(records, search, first, id);
      assert false;
    }
  }

  /**
   * In particular, a second run against the playlist as the first run left it
   * (the old members followed by the added ones) adds nothing.
   */
  lemma RerunAddsNothing(records: seq<Record>, search: string -> Option<TrackId>, snapshot: seq<TrackId>)
    ensures AddedIds(records, search, snapshot + AddedIds(records, search, snapshot)) == []
  {
    Idempotent(records, search, snapshot, snapshot + AddedIds(records, search, snapshot));
  }
}
