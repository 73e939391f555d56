/**
 * The data access layer of the curation back end (acura/internal/models/dao.py) over
 * an in-memory copy of its Postgres tables. The engine runs in AUTOCOMMIT mode, so
 * every statement commits on its own: a failed statement changes nothing, and what an
 * earlier statement wrote stays. Serial ids are drawn before constraints are checked,
 * so a failed insert still consumes one.
 */
module Dao {
  import opened Wrappers
  import opened Schema

  /** What a query can raise besides a handled `IntegrityError`. */
  datatype DaoError =
    | ForeignKeyViolation   // an IntegrityError the DAO does not catch
    | MultipleResultsFound  // `one_or_none` saw more than one row
    | GroupingError         // Postgres rejects the statement
    | InvalidUuid           // a uuid parameter that is not uuid text

  /** The four columns `create_track` inserts. */
  datatype TrackData = TrackData(title: string, artist: string, duration: int, uri: string)

  /** Cosine distance between two embeddings (pgvector's `<=>`), left uninterpreted. */
  type Distance = (Embedding, Embedding) -> real

  const DEFAULT_SIM_THRESHOLD: real := 0.5

  /** Two playlists collide on the unique key (sid, created_at); NULLs never collide. */
  predicate PlaylistKeyClash(a: Playlist, b: Playlist) {
    a.sid.Some? && a.createdAt.Some? && a.sid == b.sid && a.createdAt == b.createdAt
  }

  predicate IsPlaylistFor(p: Playlist, sid: int, day: Date) {
    p.sid == Some(sid) && p.createdAt == Some(day)
  }

  /**
   * The playlists after `create_or_get_playlist(sid)` on day `today` with `next` the id
   * it draws: unchanged when the (sid, today) row exists or `sid` is no subscriber,
   * otherwise with the new row added.
   */
  function WithPlaylistFor(playlists: map<int, Playlist>, next: int, sid: int, today: Date, subscribed: bool): map<int, Playlist> {
    if !subscribed || exists id :: id in playlists && IsPlaylistFor(playlists[id], sid, today) then playlists
    else playlists[next := Playlist(next, Some(sid), Some(today))]
  }

  class Store {
    var subscribers: seq<Subscriber>
    var prompts: seq<Prompt>
    var playlists: map<int, Playlist>
    var tracks: map<int, Track>
    /** Suggestions in insertion order. */
    var suggestions: seq<Suggestion>
    /** Next values of the serial sequences of playlists and tracks. */
    var playlistSeq: int
    var trackSeq: int
    /** Stands for `gen_random_uuid()`: every value drawn is new. */
    var uuidSeq: nat

    function SubscriberIds(): set<int>
      reads this`subscribers
    {
      set i | 0 <= i < |subscribers| :: subscribers[i].id
    }

    /** Primary keys, unique keys and foreign keys of the schema hold. */
    predicate Valid()
      reads this
    {
      SubscribersValid() && PlaylistsValid() && TracksValid() && SuggestionsValid()
    }

    /** Subscriber ids are unique and every prompt belongs to a subscriber. */
    predicate SubscribersValid()
      reads this`subscribers, this`prompts
    {
      (forall i, j :: 0 <= i < j < |subscribers| ==> subscribers[i].id != subscribers[j].id)
      && (forall i :: 0 <= i < |prompts| ==> prompts[i].sid in SubscriberIds())
    }

    /** Playlists are keyed by id below the serial, owned by a subscriber, and unique per (sid, day). */
    predicate PlaylistsValid()
      reads this`subscribers, this`playlists, this`playlistSeq
    {
      (forall id :: id in playlists ==> playlists[id].id == id && id < playlistSeq)
      && (forall id :: id in playlists && playlists[id].sid.Some? ==> playlists[id].sid.value in SubscriberIds())
      && (forall a, b :: a in playlists && b in playlists && a != b ==> !PlaylistKeyClash(playlists[a], playlists[b]))
    }

    /** Tracks are keyed by id below the serial and unique per (title, artist). */
    predicate TracksValid()
      reads this`tracks, this`trackSeq
    {
      (forall id :: id in tracks ==> tracks[id].id == id && id < trackSeq)
      && (forall a, b :: a in tracks && b in tracks && a != b ==>
            !(tracks[a].title == tracks[b].title && tracks[a].artist == tracks[b].artist))
    }

    /** Suggestions link known playlists and tracks under distinct drawn uuids. */
    predicate SuggestionsValid()
      reads this`suggestions, this`playlists, this`tracks, this`uuidSeq
    {
      (forall i :: 0 <= i < |suggestions| ==>
         suggestions[i].pid in playlists && suggestions[i].tid in tracks && suggestions[i].id < uuidSeq)
      && (forall i, j :: 0 <= i < j < |suggestions| ==> suggestions[i].id != suggestions[j].id)
    }

    constructor(subscribers: seq<Subscriber>, prompts: seq<Prompt>)
      requires forall i, j :: 0 <= i < j < |subscribers| ==> subscribers[i].id != subscribers[j].id
      requires forall i :: 0 <= i < |prompts| ==> prompts[i].sid in (set k | 0 <= k < |subscribers| :: subscribers[k].id)
      ensures this.subscribers == subscribers && this.prompts == prompts
      ensures playlists == map[] && tracks == map[] && suggestions == []
      ensures Valid()
    {
      this.subscribers := subscribers;
      this.prompts := prompts;
      playlists := map[];
      tracks := map[];
      suggestions := [];
      playlistSeq := 1;
      trackSeq := 1;
      uuidSeq := 0;
      new;
      assert SubscriberIds() == set k | 0 <= k < |subscribers| :: subscribers[k].id;
    }

    // ------------------------------------------------------------ SubscribersDAO

    /**
     * `get_subscriber_by_license`: the one subscriber whose license is the uuid
     * `license` spells, None when no one's is, `MultipleResultsFound` when several
     * are, and `InvalidUuid` when `license` is not uuid text.
     */
    function GetSubscriberByLicense(license: string): (r: Result<Option<Subscriber>, DaoError>)
      reads this
      ensures r == Success(None) <==>
                ParseUuid(license).Some? && forall s :: s in subscribers ==> !SameLicense(s.license, license)
      ensures r.Success? && r.value.Some? ==>
                r.value.value in subscribers && SameLicense(r.value.value.license, license)
                && forall i :: 0 <= i < |subscribers| && SameLicense(subscribers[i].license, license) ==>
                                 subscribers[i] == r.value.value
      ensures r.Failure? <==> ParseUuid(license).None? || TwoHolders(subscribers, license)
      ensures r.Failure? ==> r.error == (if ParseUuid(license).None? then InvalidUuid else MultipleResultsFound)
    {
      var rows := SelectByLicense(subscribers, license);
      LicenseMatches(subscribers, license);
      if ParseUuid(license).None? then Failure(InvalidUuid)
      else if |rows| == 0 then
        assert forall s :: s in subscribers ==> !SameLicense(s.license, license);
        Success(None)
      else if |rows| == 1 then Success(Some(rows[0]))
      else Failure(MultipleResultsFound)
    }

    // ------------------------------------------------------------ PromptsDAO

    /** `get_subscriber_prompts_by_sid`: the prompts of subscriber `sid`, in table order. */
    function GetSubscriberPromptsBySid(sid: int): (r: seq<Prompt>)
      reads this
      ensures forall p :: p in r <==> p in prompts && p.sid == sid
      ensures |r| <= |prompts|
    {
      PromptsOf(prompts, sid)
    }

    // ------------------------------------------------------------ PlaylistsDAO

    /**
     * `create_or_get_playlist(sid)` on day `today`: inserts the (sid, today) playlist;
     * when the insert violates the unique key or the subscriber foreign key, selects the
     * existing (sid, today) playlist instead. Returns its id, or None when there is none.
     */
    method CreateOrGetPlaylist(sid: int, today: Date) returns (r: Option<int>)
      requires Valid()
      modifies this
      ensures Valid()
      ensures subscribers == old(subscribers) && prompts == old(prompts) && tracks == old(tracks)
      ensures suggestions == old(suggestions) && trackSeq == old(trackSeq) && uuidSeq == old(uuidSeq)
      ensures playlistSeq == old(playlistSeq) + 1
      ensures (exists id :: id in old(playlists) && IsPlaylistFor(old(playlists)[id], sid, today)) ==>
                playlists == old(playlists) && r.Some? && r.value in playlists
                && IsPlaylistFor(playlists[r.value], sid, today)
      ensures (forall id :: id in old(playlists) ==> !IsPlaylistFor(old(playlists)[id], sid, today))
              && sid !in SubscriberIds() ==>
                playlists == old(playlists) && r.None?
      ensures (forall id :: id in old(playlists) ==> !IsPlaylistFor(old(playlists)[id], sid, today))
              && sid in SubscriberIds() ==>
                r == Some(old(playlistSeq))
                && playlists == old(playlists)[old(playlistSeq) := Playlist(old(playlistSeq), Some(sid), Some(today))]
      ensures r.Some? <==> sid in SubscriberIds()
      ensures r.Some? ==> r.value in playlists && IsPlaylistFor(playlists[r.value], sid, today)
                          && forall id :: id in playlists && IsPlaylistFor(playlists[id], sid, today) ==> id == r.value
      ensures playlists == WithPlaylistFor(old(playlists), old(playlistSeq), sid, today, sid in old(SubscriberIds()))
    {
      var id := playlistSeq;
      playlistSeq := playlistSeq + 1;  // nextval() is not rolled back
      var row := Playlist(id, Some(sid), Some(today));
      if exists other :: other in playlists && IsPlaylistFor(playlists[other], sid, today) {
        // UniqueViolationError: select the existing row
        var other :| other in playlists && IsPlaylistFor(playlists[other], sid, today);
        assert playlists[other].sid.value in SubscriberIds();
        r := Some(other);
      } else if sid !in SubscriberIds() {
        // ForeignKeyViolationError: the select finds nothing
        r := None;
      } else {
        playlists := playlists[id := row];
        r := Some(id);
      }
    }

    /**
     * `add_track_to_playlist`: creates the track and, only when that succeeds, links it
     * to the playlist; returns the new track id, or None when the track already exists.
     * A failed link raises after the track was committed.
     */
    method AddTrackToPlaylist(playlistId: int, data: TrackData, now: Timestamp) returns (r: Result<Option<int>, DaoError>)
      requires Valid()
      modifies this
      ensures Valid()
      ensures subscribers == old(subscribers) && prompts == old(prompts) && playlists == old(playlists)
      ensures playlistSeq == old(playlistSeq) && trackSeq == old(trackSeq) + 1
      ensures TitleArtistTaken(old(tracks), data.title, data.artist) ==>
                r == Success(None) && tracks == old(tracks) && suggestions == old(suggestions) && uuidSeq == old(uuidSeq)
      ensures !TitleArtistTaken(old(tracks), data.title, data.artist) ==>
                tracks == old(tracks)[old(trackSeq) := NewTrack(old(trackSeq), data)] && uuidSeq == old(uuidSeq) + 1
      ensures !TitleArtistTaken(old(tracks), data.title, data.artist) && playlistId in playlists ==>
                r == Success(Some(old(trackSeq)))
                && suggestions == old(suggestions) + [Suggestion(playlistId, old(trackSeq), old(uuidSeq), Some(now))]
      ensures !TitleArtistTaken(old(tracks), data.title, data.artist) && playlistId !in playlists ==>
                r == Failure(ForeignKeyViolation) && suggestions == old(suggestions)
    {
      var track := CreateTrack(data);
      if track.Some? {
        var link := AddTrackToSuggestions(playlistId, track.value.id, now);
        if link.Failure? {
          return Failure(link.error);
        }
        return Success(Some(track.value.id));
      }
      return Success(None);
    }

    // ------------------------------------------------------------ TracksDAO

    /** `get_tracks_by_ids`: the ids of the list that name a track (rows come in no fixed order). */
    function GetTracksByIds(trackIds: seq<int>): (r: set<int>)
      reads this
      ensures forall id :: id in r <==> id in trackIds && id in tracks
    {
      set id | id in trackIds && id in tracks
    }

    /**
     * `update_track_embedding`: sets the search embedding of the track `trackId` (which
     * may be None) and returns the number of rows matched.
     */
    method UpdateTrackEmbedding(trackId: Option<int>, embedding: Embedding) returns (count: nat)
      requires Valid()
      modifies this
      ensures Valid()
      ensures subscribers == old(subscribers) && prompts == old(prompts) && playlists == old(playlists)
      ensures suggestions == old(suggestions)
      ensures playlistSeq == old(playlistSeq) && trackSeq == old(trackSeq) && uuidSeq == old(uuidSeq)
      ensures count <= 1
      ensures count == 1 <==> trackId.Some? && trackId.value in old(tracks)
      ensures count == 1 ==>
                tracks == old(tracks)[trackId.value := old(tracks)[trackId.value].(searchEmbedding := Some(embedding))]
      ensures count == 0 ==> tracks == old(tracks)
    {
      if trackId.Some? && trackId.value in tracks {
        var id := trackId.value;
        tracks := tracks[id := tracks[id].(searchEmbedding := Some(embedding))];
        count := 1;
      } else {
        count := 0;
      }
    }

    /** The ids `get_similar_track_ids` selects: a stored embedding closer than the threshold. */
    function SimilarIds(embedding: Embedding, dist: Distance, threshold: real): set<int>
      reads this`tracks
    {
      set id | id in tracks && tracks[id].searchEmbedding.Some?
                && dist(tracks[id].searchEmbedding.value, embedding) < threshold
    }

    function DistanceOf(id: int, embedding: Embedding, dist: Distance): real
      reads this`tracks
      requires id in tracks && tracks[id].searchEmbedding.Some?
    {
      dist(tracks[id].searchEmbedding.value, embedding)
    }

    /**
     * `get_similar_track_ids`: each track whose embedding lies closer than `threshold`
     * to `embedding`, once, ordered by ascending distance (ties in any order).
     */
    method GetSimilarTrackIds(embedding: Embedding, dist: Distance, threshold: real := DEFAULT_SIM_THRESHOLD)
      returns (ids: seq<int>)
      ensures forall i :: 0 <= i < |ids| ==> ids[i] in SimilarIds(embedding, dist, threshold)
      ensures forall id :: id in SimilarIds(embedding, dist, threshold) ==> id in ids
      ensures forall i, j :: 0 <= i < j < |ids| ==> ids[i] != ids[j]
      ensures forall i, j :: 0 <= i < j < |ids| ==>
                DistanceOf(ids[i], embedding, dist) <= DistanceOf(ids[j], embedding, dist)
    {
      var remaining := SimilarIds(embedding, dist, threshold);
      ids := [];
      while remaining != {}
        invariant Selection(ids, remaining, embedding, dist, threshold)
        decreases |remaining|
      {
        ghost var closest := Closest(remaining, embedding, dist, threshold);
        var m :| m in remaining && forall x :: x in remaining ==>
                   DistanceOf(m, embedding, dist) <= DistanceOf(x, embedding, dist);
        SelectionStep(ids, remaining, m, embedding, dist, threshold);
        ids := ids + [m];
        remaining := remaining - {m};
      }
    }

    /**
     * The state of the selection loop: `ids` (distinct, sorted by distance) and
     * `remaining` split the similar ids, and nothing remaining is closer than a selected id.
     */
    ghost predicate Selection(ids: seq<int>, remaining: set<int>, embedding: Embedding, dist: Distance, threshold: real)
      reads this
    {
      var similar := SimilarIds(embedding, dist, threshold);
      remaining <= similar
      && (forall i :: 0 <= i < |ids| ==> ids[i] in similar && ids[i] !in remaining)
      && (forall id :: id in similar ==> id in ids || id in remaining)
      && (forall i, j :: 0 <= i < j < |ids| ==> ids[i] != ids[j])
      && (forall i, j :: 0 <= i < j < |ids| ==>
            DistanceOf(ids[i], embedding, dist) <= DistanceOf(ids[j], embedding, dist))
      && (forall i, id :: 0 <= i < |ids| && id in remaining ==>
            DistanceOf(ids[i], embedding, dist) <= DistanceOf(id, embedding, dist))
    }

    /** Moving a closest remaining id to the end of the selection keeps the loop's state. */
    lemma SelectionStep(ids: seq<int>, remaining: set<int>, m: int, embedding: Embedding, dist: Distance, threshold: real)
      requires Selection(ids, remaining, embedding, dist, threshold)
      requires m in remaining
      requires forall x :: x in remaining ==> DistanceOf(m, embedding, dist) <= DistanceOf(x, embedding, dist)
      ensures Selection(ids + [m], remaining - {m}, embedding, dist, threshold)
    {
      var t := ids + [m];
      assert forall i :: 0 <= i < |ids| ==> t[i] == ids[i];
    }

    /** A closest element of a non-empty set of similar ids. */
    lemma Closest(s: set<int>, embedding: Embedding, dist: Distance, threshold: real) returns (m: int)
      requires s != {} && s <= SimilarIds(embedding, dist, threshold)
      ensures m in s && forall x :: x in s ==> DistanceOf(m, embedding, dist) <= DistanceOf(x, embedding, dist)
      decreases |s|
    {
      var a := Any(s);
      if s != {a} {
        var rest := s - {a};
        var b := Closest(rest, embedding, dist, threshold);
        if DistanceOf(a, embedding, dist) < DistanceOf(b, embedding, dist) {
          m := a;
        } else {
          m := b;
        }
      } else {
        assert forall x :: x in s ==> x == a;
        m := a;
      }
    }

    /**
     * `n_similar_tracks_count` as written: the aggregate `count(id)` is ordered by the
     * ungrouped per-row distance, which Postgres rejects whatever the table holds.
     */
    function NSimilarTracksCountAsWritten(embedding: Embedding, dist: Distance): (r: Result<int, DaoError>)
      reads this
      ensures r == Failure(GroupingError)
    {
      Failure(GroupingError)
    }

    /** `n_similar_tracks_count` as intended: the number of tracks closer than 0.5. */
    function NSimilarTracksCount(embedding: Embedding, dist: Distance): (r: Result<int, DaoError>)
      reads this
      ensures r.Success? && r.value == |SimilarIds(embedding, dist, DEFAULT_SIM_THRESHOLD)|
    {
      Success(|SimilarIds(embedding, dist, DEFAULT_SIM_THRESHOLD)|)
    }

    /** The intended count is the length of what `get_similar_track_ids` returns at its default threshold. */
    method CountAgreesWithSimilarIds(embedding: Embedding, dist: Distance) returns (ids: seq<int>, count: int)
      ensures NSimilarTracksCount(embedding, dist) == Success(count)
      ensures |ids| == count
    {
      ids := GetSimilarTrackIds(embedding, dist);
      count := NSimilarTracksCount(embedding, dist).value;
      DistinctSeqCard(ids, SimilarIds(embedding, dist, DEFAULT_SIM_THRESHOLD));
    }

    /**
     * `create_track`: inserts a track with title, artist, duration and uri (explicit
     * takes its default, the other columns stay NULL) and returns the new row; returns
     * None when the (title, artist) pair is already taken.
     */
    method CreateTrack(data: TrackData) returns (r: Option<Track>)
      requires Valid()
      modifies this
      ensures Valid()
      ensures subscribers == old(subscribers) && prompts == old(prompts) && playlists == old(playlists)
      ensures suggestions == old(suggestions) && playlistSeq == old(playlistSeq) && uuidSeq == old(uuidSeq)
      ensures trackSeq == old(trackSeq) + 1
      ensures TitleArtistTaken(old(tracks), data.title, data.artist) ==> r.None? && tracks == old(tracks)
      ensures !TitleArtistTaken(old(tracks), data.title, data.artist) ==>
                r == Some(NewTrack(old(trackSeq), data)) && tracks == old(tracks)[old(trackSeq) := r.value]
    {
      var id := trackSeq;
      trackSeq := trackSeq + 1;  // nextval() is not rolled back
      if TitleArtistTaken(tracks, data.title, data.artist) {
        // UniqueViolationError on tracks_title_artist_key
        r := None;
      } else {
        var row := NewTrack(id, data);
        tracks := tracks[id := row];
        r := Some(row);
      }
    }

    // ------------------------------------------------------------ SuggestionsDAO

    /**
     * `get_past_n_hours_suggestions(playlist_id, hours)` at time `now`: the suggestions of
     * that playlist added less than `hours` hours ago, in table order.
     */
    function GetPastNHoursSuggestions(playlistId: int, now: Timestamp, hours: int := 1): (r: seq<Suggestion>)
      reads this
      ensures forall s :: s in r <==> s in suggestions && InWindow(s, playlistId, now, hours)
      ensures |r| <= |suggestions|
    {
      RecentOf(suggestions, playlistId, now, hours)
    }

    /**
     * `add_track_to_suggestions`: appends one new (pid, tid) suggestion stamped `now`
     * and returns it; repeats are not merged. An unknown playlist or track raises.
     */
    method AddTrackToSuggestions(playlistId: int, trackId: int, now: Timestamp) returns (r: Result<Suggestion, DaoError>)
      requires Valid()
      modifies this
      ensures Valid()
      ensures subscribers == old(subscribers) && prompts == old(prompts) && playlists == old(playlists)
      ensures tracks == old(tracks) && playlistSeq == old(playlistSeq) && trackSeq == old(trackSeq)
      ensures uuidSeq == old(uuidSeq) + 1
      ensures playlistId in playlists && trackId in tracks ==>
                r == Success(Suggestion(playlistId, trackId, old(uuidSeq), Some(now)))
                && suggestions == old(suggestions) + [r.value]
      ensures !(playlistId in playlists && trackId in tracks) ==>
                r == Failure(ForeignKeyViolation) && suggestions == old(suggestions)
    {
      var id := uuidSeq;
      uuidSeq := uuidSeq + 1;
      if playlistId in playlists && trackId in tracks {
        var row := Suggestion(playlistId, trackId, id, Some(now));
        suggestions := suggestions + [row];
        r := Success(row);
      } else {
        r := Failure(ForeignKeyViolation);
      }
    }
  }

  // -------------------------------------------------------------- helpers

  /** Some element of a non-empty set. */
  lemma Any(s: set<int>) returns (a: int)
    requires s != {}
    ensures a in s
  {
    if forall x :: x !in s {
      assert false;
    }
    a :| a in s;
  }

  predicate TitleArtistTaken(tracks: map<int, Track>, title: string, artist: string) {
    exists id :: id in tracks && tracks[id].title == title && tracks[id].artist == artist
  }

  /** The row `create_track` inserts under id `id`. */
  function NewTrack(id: int, data: TrackData): Track {
    Track(id, data.title, data.artist, data.duration, data.uri, Some(false), None, None, None)
  }

  /** `pid = playlist_id AND added_at > now() - INTERVAL 'hours hours'`; a NULL time never qualifies. */
  predicate InWindow(s: Suggestion, playlistId: int, now: Timestamp, hours: int) {
    s.pid == playlistId && s.addedAt.Some? && s.addedAt.value > now - hours * SECONDS_PER_HOUR
  }

  function RecentOf(rows: seq<Suggestion>, playlistId: int, now: Timestamp, hours: int): (r: seq<Suggestion>)
    ensures forall s :: s in r <==> s in rows && InWindow(s, playlistId, now, hours)
    ensures |r| <= |rows|
  {
    if rows == [] then []
    else if InWindow(rows[0], playlistId, now, hours) then [rows[0]] + RecentOf(rows[1..], playlistId, now, hours)
    else RecentOf(rows[1..], playlistId, now, hours)
  }

  function PromptsOf(rows: seq<Prompt>, sid: int): (r: seq<Prompt>)
    ensures forall p :: p in r <==> p in rows && p.sid == sid
    ensures |r| <= |rows|
  {
    if rows == [] then []
    else if rows[0].sid == sid then [rows[0]] + PromptsOf(rows[1..], sid)
    else PromptsOf(rows[1..], sid)
  }

  /** The filtered rows number at least two iff two rows hold the license. */
  lemma {:induction false} LicenseMatches(table: seq<Subscriber>, key: string)
    ensures |SelectByLicense(table, key)| >= 2 <==> TwoHolders(table, key)
  {
    if table != [] {
      LicenseMatches(table[1..], key);
      if SameLicense(table[0].license, key) {
        HolderShift(table, key);
      } else {
        NonHolderShift(table, key);
      }
    }
  }

  /** A first row without the license changes neither side. */
  lemma NonHolderShift(table: seq<Subscriber>, key: string)
    requires table != [] && !SameLicense(table[0].license, key)
    ensures TwoHolders(table, key) <==> TwoHolders(table[1..], key)
  {
    var tail := table[1..];
    if TwoHolders(table, key) {
      var i, j :| 0 <= i < j < |table| && SameLicense(table[i].license, key) && SameLicense(table[j].license, key);
      assert i != 0;
      assert tail[i - 1] == table[i] && tail[j - 1] == table[j];
      assert 0 <= i - 1 < j - 1 < |tail|;
    }
    if TwoHolders(tail, key) {
      var i, j :| 0 <= i < j < |tail| && SameLicense(tail[i].license, key) && SameLicense(tail[j].license, key);
      assert table[i + 1] == tail[i] && table[j + 1] == tail[j];
    }
  }

  predicate TwoHolders(table: seq<Subscriber>, key: string) {
    exists i, j :: 0 <= i < j < |table| && SameLicense(table[i].license, key) && SameLicense(table[j].license, key)
  }

  /** When the first row holds the license, two holders means one more in the rest. */
  lemma HolderShift(table: seq<Subscriber>, key: string)
    requires table != [] && SameLicense(table[0].license, key)
    ensures TwoHolders(table, key) <==> |SelectByLicense(table[1..], key)| >= 1
  {
    var tail := table[1..];
    if TwoHolders(table, key) {
      var i, j :| 0 <= i < j < |table| && SameLicense(table[i].license, key) && SameLicense(table[j].license, key);
      var y := table[j];
      assert y == tail[j - 1];
      assert y in tail;
      assert y in SelectByLicense(tail, key);
    }
    if |SelectByLicense(tail, key)| >= 1 {
      var x := SelectByLicense(tail, key)[0];
      assert x in tail && SameLicense(x.license, key);
      var k :| 0 <= k < |tail| && tail[k] == x;
      assert table[k + 1] == x;
      assert 0 < k + 1 < |table|;
    }
  }

  /** A duplicate-free sequence listing exactly a set has the set's size. */
  lemma {:induction false} DistinctSeqCard(xs: seq<int>, s: set<int>)
    requires forall i, j :: 0 <= i < j < |xs| ==> xs[i] != xs[j]
    requires forall i :: 0 <= i < |xs| ==> xs[i] in s
    requires forall x :: x in s ==> x in xs
    ensures |xs| == |s|
    decreases |xs|
  {
    if xs != [] {
      var last := xs[|xs| - 1];
      var init := xs[..|xs| - 1];
      assert forall x :: x in s - {last} ==> x in init by {
        forall x | x in s - {last} ensures x in init {
          var i :| 0 <= i < |xs| && xs[i] == x;
          assert i < |xs| - 1;
          assert init[i] == x;
        }
      }
      assert forall i :: 0 <= i < |init| ==> init[i] in s - {last} by {
        forall i | 0 <= i < |init| ensures init[i] in s - {last} {
          assert init[i] == xs[i];
        }
      }
      DistinctSeqCard(init, s - {last});
    } else {
      assert forall x :: x !in s;
      assert s == {};
    }
  }
}
