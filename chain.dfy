/**
 * The music discovery pipeline (acura/internal/chain.py): a graph of nodes run one after
 * another over a mutable `GraphState` until a node ends the run with the number of tracks
 * added, or an exception aborts it. Query generation, routing between reuse and discovery,
 * playlist search and matching, and YouTube verification are modelled node by node.
 * Every foreign call — the language-model agents, the embedding service, Levenshtein
 * similarity, `str.lower`, the vector distance, the Spotify and Brave servers and the
 * clock — is a field of `Env`; the database is a `Dao.Store`, the Spotify token cache a
 * `Spotify.SpotifyService`.
 */
module Chain {
  import opened Wrappers
  import opened Schema
  import opened Text
  import Dao
  import Spotify
  import BraveSearch

  const MAX_RETRIES: int := 3
  /** Below this many similar tracks the router always discovers new ones. */
  const MIN_SIMILAR_FOR_REUSE: int := 100
  const DISCOVERY_RATIO: real := 0.5
  const VIDEO_SIMILARITY: real := 0.75
  const WATCH_MARKER: string := "watch"
  const NO_PLAYLISTS_FOUND: string := "No playlists found for query: "
  const NO_MATCHING_PLAYLISTS: string := "No matching playlists found for query: "

  /** The outside world during one run of the pipeline. */
  datatype Env = Env(
    /** The query agent's answer to a prompt in a round (None: the agent raised). */
    queryAgent: (string, int) -> Option<string>,
    /** The search-query embedding (None: the embedding service raised). */
    searchEmbedding: Option<string> -> Option<Embedding>,
    /** The cosine distances seen by the router's and by the reuse node's similarity reads. */
    routerDistance: Dao.Distance,
    reuseDistance: Dao.Distance,
    /** The playlist filter agent's verdict on a playlist for a query (None: it raised). */
    classify: (Spotify.SpotifyPlaylist, string) -> Option<bool>,
    lower: string -> string,
    /** `Levenshtein.ratio`. */
    ratio: (string, string) -> real,
    /** The track embedding for (search query, track name, artist) (None: the service raised). */
    trackEmbedding: (Option<string>, string, string) -> Option<Embedding>,
    tokenEndpoint: Spotify.TokenRequest -> Spotify.TokenResponse,
    spotifySearch: Spotify.SearchCall -> Spotify.SearchReply,
    /** The pages answering the requests for a playlist's tracks. */
    playlistPages: string -> seq<Spotify.PageReply>,
    braveServer: (BraveSearch.Request, nat) -> BraveSearch.Reply,
    now: Timestamp,
    today: Date)

  /** Every playlist's paging ends. */
  ghost predicate EnvValid(env: Env) {
    forall id :: Spotify.Terminal(env.playlistPages(id))
  }

  datatype Fault =
    | MaxRetriesExceeded      // RuntimeError of the query generator's guard
    | QueryGenerationFailed   // RuntimeError: no prompt, or the agent raised
    | EmbeddingFailed         // the router's embedding call raised
    | PlaylistSearchFailed    // RuntimeError around the playlist search
    | PlaylistTracksFailed    // fetching the matched playlist's tracks raised
    | TrackFilterFailed       // TypeError: the explicit filter met a null track
    | MissingArtist           // IndexError: a track without artists
    | VerificationFailed      // RuntimeError around a track's search and save
    | AttributeError          // raised by the reuse node's error handler

  datatype Node =
    | GenerateSearchQuery
    | SourceSelectionRouter
    | ReuseExistingData(searchEmbedding: Embedding)
    | SearchSpotifyPlaylists
    | MatchQueryWithSpotifyPlaylist(foundPlaylists: seq<Option<Spotify.SpotifyPlaylist>>)
    | SearchAndVerifyYoutubeAndSave(tracks: seq<Option<Spotify.SpotifyTrack>>)

  /** What a node's `run` gives back: the next node, `End(n)`, or a raised exception. */
  datatype Step = Next(node: Node) | End(added: int) | Raise(fault: Fault)

  /** The graph's edges go down this rank, except the two back-edges to query generation. */
  function Rank(s: Step): nat {
    match s
    case Next(GenerateSearchQuery) => 5
    case Next(SourceSelectionRouter) => 4
    case Next(SearchSpotifyPlaylists) => 3
    case Next(MatchQueryWithSpotifyPlaylist(_)) => 2
    case Next(_) => 1
    case _ => 0
  }

  /** How an f-string shows the optional query. */
  function QueryText(q: Option<string>): string {
    if q.Some? then q.value else "None"
  }

  class GraphState {
    var spotifySearchQuery: Option<string>
    var retryCount: int
    var errorInfo: Option<string>

    constructor()
      ensures spotifySearchQuery.None? && retryCount == 0 && errorInfo.None?
    {
      spotifySearchQuery := None;
      retryCount := 0;
      errorInfo := None;
    }
  }

  // ------------------------------------------------------------ router

  /** The number of suggestions whose track is among the similar ones. */
  function CountSimilar(suggestions: seq<Suggestion>, similar: set<int>): (n: nat)
    ensures n <= |suggestions|
    ensures n == 0 <==> forall i :: 0 <= i < |suggestions| ==> suggestions[i].tid !in similar
  {
    if |suggestions| == 0 then 0
    else (if suggestions[0].tid in similar then 1 else 0) + CountSimilar(suggestions[1..], similar)
  }

  /** The router's test as written: few similar tracks, or a ratio (0 without tracks) above one half. */
  predicate Discover(similarCount: nat, recentCount: nat) {
    similarCount < MIN_SIMILAR_FOR_REUSE
    || (if similarCount > 0 then recentCount as real / similarCount as real else 0.0) > DISCOVERY_RATIO
  }

  /** The same test over the integers. */
  lemma DiscoverInIntegers(similarCount: nat, recentCount: nat)
    ensures Discover(similarCount, recentCount) <==> similarCount < 100 || 2 * recentCount > similarCount
  {
    if similarCount > 0 {
      var s := similarCount as real;
      var r := recentCount as real;
      var d := r / s - 0.5;
      assert r / s * s == r;
      assert r - 0.5 * s == d * s;
      if d > 0.0 {
        assert d * s > 0.0;
      } else {
        assert -d * s >= 0.0;
      }
    }
  }

  /** Reuse is only chosen with at least 100 similar tracks of which at most half were recent. */
  lemma ReuseNeedsEnoughTracks(similarCount: nat, recentCount: nat)
    requires !Discover(similarCount, recentCount)
    ensures similarCount >= MIN_SIMILAR_FOR_REUSE && 2 * recentCount <= similarCount
  {
    DiscoverInIntegers(similarCount, recentCount);
  }

  /**
   * `SourceSelectionRouterNode.run`. The past-hour read passes the subscriber id where a
   * playlist id is expected, as the code does. `similar` and `recent` are its two reads.
   */
  method SourceSelectionRouterRun(st: GraphState, db: Dao.Store, env: Env, sid: int)
    returns (step: Step, similar: seq<int>, recent: seq<Suggestion>)
    ensures env.searchEmbedding(st.spotifySearchQuery).None? ==> step == Raise(EmbeddingFailed)
    ensures env.searchEmbedding(st.spotifySearchQuery).Some? ==>
              var embedding := env.searchEmbedding(st.spotifySearchQuery).value;
              (forall id :: id in similar <==> id in db.SimilarIds(embedding, env.routerDistance, Dao.DEFAULT_SIM_THRESHOLD))
              && (forall i, j :: 0 <= i < j < |similar| ==> similar[i] != similar[j])
              && recent == db.GetPastNHoursSuggestions(sid, env.now)
              && step == if Discover(|similar|, CountSimilar(recent, set id | id in similar)) then Next(SearchSpotifyPlaylists)
                         else Next(ReuseExistingData(embedding))
  {
    var embedding := env.searchEmbedding(st.spotifySearchQuery);
    if embedding.None? {
      return Raise(EmbeddingFailed), [], [];
    }
    similar := db.GetSimilarTrackIds(embedding.value, env.routerDistance);
    recent := db.GetPastNHoursSuggestions(sid, env.now);
    var similarIds := set id | id in similar;
    if Discover(|similar|, CountSimilar(recent, similarIds)) {
      step := Next(SearchSpotifyPlaylists);
    } else {
      step := Next(ReuseExistingData(embedding.value));
    }
  }

  // ------------------------------------------------------------ reuse

  /** The ids of `xs` outside `excluded`, in order (the list comprehension of the reuse node). */
  function FilterNotIn(xs: seq<int>, excluded: set<int>): (r: seq<int>)
    ensures |r| <= |xs|
    ensures forall x :: x in r <==> x in xs && x !in excluded
  {
    if |xs| == 0 then []
    else (if xs[0] in excluded then [] else [xs[0]]) + FilterNotIn(xs[1..], excluded)
  }

  /** Filtering keeps the order: it distributes over concatenation. */
  lemma {:induction false} FilterNotInConcat(a: seq<int>, b: seq<int>, excluded: set<int>)
    ensures FilterNotIn(a + b, excluded) == FilterNotIn(a, excluded) + FilterNotIn(b, excluded)
    decreases |a|
  {
    if |a| == 0 {
      assert a + b == b;
    } else {
      assert (a + b)[1..] == a[1..] + b;
      FilterNotInConcat(a[1..], b, excluded);
    }
  }

  /** The track ids of a list of suggestions. */
  function Tids(suggestions: seq<Suggestion>): set<int> {
    set i | 0 <= i < |suggestions| :: suggestions[i].tid
  }

  /**
   * The suggestion rows `add_track_to_suggestions` appends for `tids`, one call per id in
   * order, the k-th call drawing uuid `uuid + k`; a call for an unknown track adds nothing.
   */
  function Links(pid: int, tids: seq<int>, tracks: map<int, Track>, uuid: nat, now: Timestamp): (r: seq<Suggestion>)
    ensures |r| <= |tids|
    ensures (forall i :: 0 <= i < |tids| ==> tids[i] in tracks) ==> |r| == |tids|
    ensures forall i :: 0 <= i < |r| ==> r[i].pid == pid && r[i].tid in tracks && r[i].addedAt == Some(now)
    decreases |tids|
  {
    if |tids| == 0 then []
    else
      (if tids[0] in tracks then [Suggestion(pid, tids[0], uuid, Some(now))] else [])
      + Links(pid, tids[1..], tracks, uuid + 1, now)
  }

  /**
   * The attachment loop of the reuse node with failures skipped and logged, as its handler
   * intends: every id of a known track is linked to the playlist; without a playlist
   * nothing is linked.
   */
  method AttachSkippingFailures(db: Dao.Store, playlist: Option<int>, tids: seq<int>, now: Timestamp) returns (added: int)
    requires db.Valid() && (playlist.Some? ==> playlist.value in db.playlists)
    modifies db
    ensures db.Valid()
    ensures db.subscribers == old(db.subscribers) && db.prompts == old(db.prompts)
    ensures db.playlists == old(db.playlists) && db.tracks == old(db.tracks) && db.trackSeq == old(db.trackSeq)
    ensures db.playlistSeq == old(db.playlistSeq)
    ensures db.uuidSeq == old(db.uuidSeq) + (if playlist.Some? then |tids| else 0)
    ensures playlist.None? ==> added == 0 && db.suggestions == old(db.suggestions)
    ensures playlist.Some? ==>
              var links := Links(playlist.value, tids, old(db.tracks), old(db.uuidSeq), now);
              db.suggestions == old(db.suggestions) + links && added == |links|
  {
    added := 0;
    if playlist.None? {
      // `playlist.id` raises AttributeError on every track; each is logged and skipped
      return;
    }
    var pid := playlist.value;
    ghost var base, uuid := db.suggestions, db.uuidSeq;
    var k := 0;
    while k < |tids|
      invariant 0 <= k <= |tids| && db.Valid() && pid in db.playlists
      invariant db.subscribers == old(db.subscribers) && db.prompts == old(db.prompts)
      invariant db.playlists == old(db.playlists) && db.tracks == old(db.tracks) && db.trackSeq == old(db.trackSeq)
      invariant db.playlistSeq == old(db.playlistSeq)
      invariant db.uuidSeq == uuid + k
      invariant var done := Links(pid, tids[..k], db.tracks, uuid, now);
                db.suggestions == base + done && added == |done|
    {
      var link := AttachOne(db, pid, tids, k, now, base, uuid);
      if link.Success? {
        added := added + 1;
      }
      k := k + 1;
    }
    assert tids[..k] == tids;
  }

  /**
   * The attachment loop as written: the handler formats `track.title` of a row that only
   * has an `id`, so the first failed attachment raises AttributeError instead of being skipped.
   */
  method AttachAsWritten(db: Dao.Store, playlist: Option<int>, tids: seq<int>, now: Timestamp) returns (r: Result<int, Fault>)
    requires db.Valid() && (playlist.Some? ==> playlist.value in db.playlists)
    modifies db
    ensures db.Valid()
    ensures db.tracks == old(db.tracks) && db.playlists == old(db.playlists)
    ensures playlist.None? && |tids| > 0 ==> r == Failure(AttributeError) && db.suggestions == old(db.suggestions)
    ensures r.Failure? ==> r.error == AttributeError
    ensures r.Success? ==> forall i :: 0 <= i < |tids| ==> tids[i] in old(db.tracks)
    ensures playlist.Some? && (forall i :: 0 <= i < |tids| ==> tids[i] in old(db.tracks)) ==>
              r == Success(|tids|)
              && db.suggestions == old(db.suggestions) + Links(playlist.value, tids, old(db.tracks), old(db.uuidSeq), now)
  {
    if |tids| == 0 {
      return Success(0);
    }
    if playlist.None? {
      // `playlist.id` raises; the handler's `track.title` raises again
      return Failure(AttributeError);
    }
    var pid := playlist.value;
    ghost var base, uuid := db.suggestions, db.uuidSeq;
    var k := 0;
    var added := 0;
    while k < |tids|
      invariant 0 <= k <= |tids| && db.Valid() && pid in db.playlists
      invariant db.playlists == old(db.playlists) && db.tracks == old(db.tracks)
      invariant db.uuidSeq == uuid + k
      invariant added == k == |Links(pid, tids[..k], db.tracks, uuid, now)|
      invariant db.suggestions == base + Links(pid, tids[..k], db.tracks, uuid, now)
    {
      var link := AttachOne(db, pid, tids, k, now, base, uuid);
      if link.Failure? {
        return Failure(AttributeError);
      }
      added := added + 1;
      k := k + 1;
    }
    assert tids[..k] == tids;
    LinksFull(playlist.value, tids, db.tracks, old(db.uuidSeq), now);
    return Success(added);
  }

  /** The `add_track_to_suggestions` call of the attachment loop for `tids[k]`. */
  method AttachOne(db: Dao.Store, pid: int, tids: seq<int>, k: int, now: Timestamp,
                   ghost base: seq<Suggestion>, ghost uuid: nat)
    returns (link: Result<Suggestion, Dao.DaoError>)
    requires db.Valid() && pid in db.playlists && 0 <= k < |tids|
    requires db.suggestions == base + Links(pid, tids[..k], db.tracks, uuid, now) && db.uuidSeq == uuid + k
    modifies db
    ensures db.Valid()
    ensures db.subscribers == old(db.subscribers) && db.prompts == old(db.prompts)
    ensures db.playlists == old(db.playlists) && db.tracks == old(db.tracks) && db.trackSeq == old(db.trackSeq)
    ensures db.playlistSeq == old(db.playlistSeq)
    ensures db.suggestions == base + Links(pid, tids[..k + 1], db.tracks, uuid, now)
    ensures db.uuidSeq == uuid + k + 1
    ensures link.Success? <==> tids[k] in db.tracks
    ensures |Links(pid, tids[..k + 1], db.tracks, uuid, now)|
         == |Links(pid, tids[..k], db.tracks, uuid, now)| + (if link.Success? then 1 else 0)
  {
    assert tids[..k + 1] == tids[..k] + [tids[k]];
    LinksSnoc(pid, tids[..k], tids[k], db.tracks, uuid, now);
    var before := Links(pid, tids[..k], db.tracks, uuid, now);
    link := db.AddTrackToSuggestions(pid, tids[k], now);
    if link.Success? {
      assert db.suggestions == base + (before + [link.value]);
    }
  }

  /** Only ids of known tracks give one link each. */
  lemma {:induction false} LinksFull(pid: int, tids: seq<int>, tracks: map<int, Track>, uuid: nat, now: Timestamp)
    requires |Links(pid, tids, tracks, uuid, now)| == |tids|
    ensures forall i :: 0 <= i < |tids| ==> tids[i] in tracks
    decreases |tids|
  {
    if |tids| > 0 {
      assert |Links(pid, tids[1..], tracks, uuid + 1, now)| <= |tids[1..]|;
      LinksFull(pid, tids[1..], tracks, uuid + 1, now);
      assert forall i :: 1 <= i < |tids| ==> tids[i] == tids[1..][i - 1];
    }
  }

  lemma {:induction false} LinksSnoc(pid: int, tids: seq<int>, t: int, tracks: map<int, Track>, uuid: nat, now: Timestamp)
    ensures Links(pid, tids + [t], tracks, uuid, now)
         == Links(pid, tids, tracks, uuid, now) + (if t in tracks then [Suggestion(pid, t, uuid + |tids|, Some(now))] else [])
    decreases |tids|
  {
    if |tids| == 0 {
      assert (tids + [t])[1..] == [];
    } else {
      var head := if tids[0] in tracks then [Suggestion(pid, tids[0], uuid, Some(now))] else [];
      var last := if t in tracks then [Suggestion(pid, t, uuid + |tids|, Some(now))] else [];
      assert (tids + [t])[0] == tids[0];
      assert (tids + [t])[1..] == tids[1..] + [t];
      LinksSnoc(pid, tids[1..], t, tracks, uuid + 1, now);
      var middle := Links(pid, tids[1..], tracks, uuid + 1, now);
      assert uuid + 1 + |tids[1..]| == uuid + |tids|;
      assert Links(pid, tids[1..] + [t], tracks, uuid + 1, now) == middle + last;
      assert Links(pid, tids + [t], tracks, uuid, now) == head + Links(pid, tids[1..] + [t], tracks, uuid + 1, now);
      assert Links(pid, tids, tracks, uuid, now) == head + middle;
      AppendAssoc(head, middle, last);
    }
  }

  lemma AppendAssoc<T>(a: seq<T>, b: seq<T>, c: seq<T>)
    ensures a + (b + c) == (a + b) + c
  {
  }

  /**
   * The reads of `ReuseExistingDataNode.run`: a second similarity read, the (sid, today)
   * playlist, and the similar ids not suggested in the past hour (read, as written, with
   * the subscriber id in place of a playlist id).
   */
  method ReuseSelection(db: Dao.Store, env: Env, sid: int, embedding: Embedding)
    returns (playlist: Option<int>, similar: seq<int>, recent: seq<Suggestion>, filtered: seq<int>)
    requires db.Valid()
    modifies db
    ensures db.Valid()
    ensures db.subscribers == old(db.subscribers) && db.prompts == old(db.prompts) && db.tracks == old(db.tracks)
    ensures db.suggestions == old(db.suggestions) && db.uuidSeq == old(db.uuidSeq) && db.trackSeq == old(db.trackSeq)
    ensures forall id :: id in similar <==> id in old(db.SimilarIds(embedding, env.reuseDistance, Dao.DEFAULT_SIM_THRESHOLD))
    ensures Ranked(db, similar, embedding, env.reuseDistance)
    ensures playlist.Some? <==> sid in old(db.SubscriberIds())
    ensures playlist.Some? ==> playlist.value in db.playlists && Dao.IsPlaylistFor(db.playlists[playlist.value], sid, env.today)
    ensures db.playlistSeq == old(db.playlistSeq) + 1
    ensures db.playlists == Dao.WithPlaylistFor(old(db.playlists), old(db.playlistSeq), sid, env.today, sid in old(db.SubscriberIds()))
    ensures recent == old(db.GetPastNHoursSuggestions(sid, env.now))
    ensures filtered == FilterNotIn(similar, Tids(recent))
    ensures forall i :: 0 <= i < |filtered| ==> filtered[i] in db.tracks
    ensures Ranked(db, filtered, embedding, env.reuseDistance)
    ensures |filtered| == |old(db.SimilarIds(embedding, env.reuseDistance, Dao.DEFAULT_SIM_THRESHOLD)) - Tids(recent)|
  {
    ghost var candidates := db.SimilarIds(embedding, env.reuseDistance, Dao.DEFAULT_SIM_THRESHOLD);
    similar := db.GetSimilarTrackIds(embedding, env.reuseDistance);
    playlist := db.CreateOrGetPlaylist(sid, env.today);
    recent := db.GetPastNHoursSuggestions(sid, env.now);
    filtered := FilterNotIn(similar, Tids(recent));
    RankedFilter(db, similar, Tids(recent), embedding, env.reuseDistance);
    forall i | 0 <= i < |filtered| ensures filtered[i] in candidates - Tids(recent) {
      assert filtered[i] in filtered;
    }
    Dao.DistinctSeqCard(filtered, candidates - Tids(recent));
  }

  /**
   * `ids` are distinct ids of tracks with a stored embedding, in ascending distance to
   * `embedding` (the order of `get_similar_track_ids`).
   */
  ghost predicate Ranked(db: Dao.Store, ids: seq<int>, embedding: Embedding, dist: Dao.Distance)
    reads db`tracks
  {
    (forall i :: 0 <= i < |ids| ==> ids[i] in db.tracks && db.tracks[ids[i]].searchEmbedding.Some?)
    && (forall i, j :: 0 <= i < j < |ids| ==> ids[i] != ids[j])
    && (forall i, j :: 0 <= i < j < |ids| ==> db.DistanceOf(ids[i], embedding, dist) <= db.DistanceOf(ids[j], embedding, dist))
  }

  /** Filtering a ranked list leaves it ranked. */
  lemma {:induction false} RankedFilter(db: Dao.Store, xs: seq<int>, excluded: set<int>, embedding: Embedding, dist: Dao.Distance)
    requires Ranked(db, xs, embedding, dist)
    ensures Ranked(db, FilterNotIn(xs, excluded), embedding, dist)
    decreases |xs|
  {
    if |xs| > 0 {
      var tail := xs[1..];
      assert Ranked(db, tail, embedding, dist) by {
        forall i, j | 0 <= i < j < |tail|
          ensures tail[i] != tail[j] && db.DistanceOf(tail[i], embedding, dist) <= db.DistanceOf(tail[j], embedding, dist)
        {
          assert tail[i] == xs[i + 1] && tail[j] == xs[j + 1];
        }
      }
      RankedFilter(db, tail, excluded, embedding, dist);
      if xs[0] !in excluded {
        RankedCons(db, xs[0], tail, FilterNotIn(tail, excluded), embedding, dist);
        assert FilterNotIn(xs, excluded) == [xs[0]] + FilterNotIn(tail, excluded);
      } else {
        assert FilterNotIn(xs, excluded) == FilterNotIn(tail, excluded);
      }
    }
  }

  /** A ranked head of a ranked list, put in front of a ranked list drawn from its tail. */
  lemma RankedCons(db: Dao.Store, x: int, tail: seq<int>, ys: seq<int>, embedding: Embedding, dist: Dao.Distance)
    requires Ranked(db, [x] + tail, embedding, dist) && Ranked(db, ys, embedding, dist)
    requires forall y :: y in ys ==> y in tail
    ensures Ranked(db, [x] + ys, embedding, dist)
  {
    var xs := [x] + tail;
    assert xs[0] == x;
    forall y | y in ys
      ensures y != x && y in db.tracks && db.tracks[y].searchEmbedding.Some?
              && db.DistanceOf(x, embedding, dist) <= db.DistanceOf(y, embedding, dist)
    {
      var j :| 0 <= j < |tail| && tail[j] == y;
      assert xs[0] == x && xs[j + 1] == y;
    }
    var f := [x] + ys;
    forall i, j | 0 <= i < j < |f|
      ensures f[i] != f[j] && db.DistanceOf(f[i], embedding, dist) <= db.DistanceOf(f[j], embedding, dist)
    {
      assert f[j] == ys[j - 1] && f[j] in ys;
      if i > 0 {
        assert f[i] == ys[i - 1];
      }
    }
    assert xs[0] == x;
  }

  /**
   * `ReuseExistingDataNode.run` with failures skipped: links, in order, exactly the similar
   * tracks not suggested in the past hour and ends with their number.
   */
  method ReuseExistingDataRun(db: Dao.Store, env: Env, sid: int, embedding: Embedding) returns (step: Step, filtered: seq<int>)
    requires db.Valid()
    modifies db
    ensures db.Valid()
    ensures db.subscribers == old(db.subscribers) && db.prompts == old(db.prompts) && db.tracks == old(db.tracks)
    ensures db.trackSeq == old(db.trackSeq)
    ensures forall id :: id in filtered <==>
              id in old(db.SimilarIds(embedding, env.reuseDistance, Dao.DEFAULT_SIM_THRESHOLD))
              && id !in Tids(old(db.GetPastNHoursSuggestions(sid, env.now)))
    ensures Ranked(db, filtered, embedding, env.reuseDistance)
    ensures |filtered| == |old(db.SimilarIds(embedding, env.reuseDistance, Dao.DEFAULT_SIM_THRESHOLD))
                           - Tids(old(db.GetPastNHoursSuggestions(sid, env.now)))|
    ensures db.playlistSeq == old(db.playlistSeq) + 1
    ensures db.playlists == Dao.WithPlaylistFor(old(db.playlists), old(db.playlistSeq), sid, env.today, sid in old(db.SubscriberIds()))
    ensures sid in old(db.SubscriberIds()) ==>
              step == End(|filtered|) && db.uuidSeq == old(db.uuidSeq) + |filtered|
              && exists p :: p in db.playlists && Dao.IsPlaylistFor(db.playlists[p], sid, env.today)
                             && AppendedLinks(db.suggestions, old(db.suggestions), p, filtered, db.tracks, old(db.uuidSeq), env.now)
    ensures sid !in old(db.SubscriberIds()) ==>
              step == End(0) && db.suggestions == old(db.suggestions) && db.uuidSeq == old(db.uuidSeq)
  {
    var playlist, similar, recent;
    playlist, similar, recent, filtered := ReuseSelection(db, env, sid, embedding);
    var added := AttachKnown(db, playlist, filtered, env.now, old(db.suggestions), old(db.uuidSeq));
    step := End(added);
    if playlist.Some? {
      var p := playlist.value;
      assert p in db.playlists && Dao.IsPlaylistFor(db.playlists[p], sid, env.today);
      assert AppendedLinks(db.suggestions, old(db.suggestions), p, filtered, db.tracks, old(db.uuidSeq), env.now);
    }
  }

  /**
   * `rows` are `base` followed by the links of `tids` to `pid`: the i-th new row is
   * (pid, i-th tid, uuid + i, now).
   */
  predicate AppendedLinks(rows: seq<Suggestion>, base: seq<Suggestion>, pid: int, tids: seq<int>,
                          tracks: map<int, Track>, uuid: nat, now: Timestamp)
  {
    rows == base + Links(pid, tids, tracks, uuid, now)
    && |rows| == |base| + |tids|
    && forall i :: 0 <= i < |tids| ==> rows[|base| + i] == Suggestion(pid, tids[i], uuid + i, Some(now))
  }

  /**
   * The attachment loop over ids that all name tracks: each is linked, in order. `base`
   * and `uuid` are the suggestions and the uuid sequence it starts from.
   */
  method AttachKnown(db: Dao.Store, playlist: Option<int>, tids: seq<int>, now: Timestamp,
                     ghost base: seq<Suggestion>, ghost uuid: nat) returns (added: int)
    requires db.Valid() && (playlist.Some? ==> playlist.value in db.playlists)
    requires forall i :: 0 <= i < |tids| ==> tids[i] in db.tracks
    requires db.suggestions == base && db.uuidSeq == uuid
    modifies db
    ensures db.Valid()
    ensures db.subscribers == old(db.subscribers) && db.prompts == old(db.prompts)
    ensures db.playlists == old(db.playlists) && db.tracks == old(db.tracks) && db.trackSeq == old(db.trackSeq)
    ensures db.playlistSeq == old(db.playlistSeq)
    ensures playlist.None? ==> added == 0 && db.suggestions == base && db.uuidSeq == uuid
    ensures playlist.Some? ==>
              added == |tids| && db.uuidSeq == uuid + |tids|
              && AppendedLinks(db.suggestions, base, playlist.value, tids, db.tracks, uuid, now)
  {
    added := AttachSkippingFailures(db, playlist, tids, now);
    if playlist.Some? {
      LinksAll(playlist.value, tids, db.tracks, uuid, now);
      var links := Links(playlist.value, tids, db.tracks, uuid, now);
      forall i | 0 <= i < |tids| ensures db.suggestions[|base| + i] == Suggestion(playlist.value, tids[i], uuid + i, Some(now)) {
        assert db.suggestions[|base| + i] == links[i];
      }
    }
  }

  /** When every id names a track, the links are one per id, in order. */
  lemma {:induction false} LinksAll(pid: int, tids: seq<int>, tracks: map<int, Track>, uuid: nat, now: Timestamp)
    requires forall i :: 0 <= i < |tids| ==> tids[i] in tracks
    ensures |Links(pid, tids, tracks, uuid, now)| == |tids|
    ensures forall i :: 0 <= i < |tids| ==> Links(pid, tids, tracks, uuid, now)[i] == Suggestion(pid, tids[i], uuid + i, Some(now))
    decreases |tids|
  {
    if |tids| > 0 {
      LinksAll(pid, tids[1..], tracks, uuid + 1, now);
      var r := Links(pid, tids, tracks, uuid, now);
      assert r == [Suggestion(pid, tids[0], uuid, Some(now))] + Links(pid, tids[1..], tracks, uuid + 1, now);
    }
  }

  /** `ReuseExistingDataNode.run` as written (see `AttachAsWritten`). */
  method ReuseExistingDataRunAsWritten(db: Dao.Store, env: Env, sid: int, embedding: Embedding) returns (step: Step)
    requires db.Valid()
    modifies db
    ensures db.Valid()
    ensures sid !in old(db.SubscriberIds()) && old(db.SimilarIds(embedding, env.reuseDistance, Dao.DEFAULT_SIM_THRESHOLD)) != {}
            && old(db.GetPastNHoursSuggestions(sid, env.now)) == [] ==>
              step == Raise(AttributeError)
  {
    var playlist, similar, recent, filtered := ReuseSelection(db, env, sid, embedding);
    if similar != [] && recent == [] {
      assert FilterNotIn(similar, Tids(recent)) == similar by {
        assert Tids(recent) == {};
        FilterNothing(similar);
      }
    }
    if old(db.SimilarIds(embedding, env.reuseDistance, Dao.DEFAULT_SIM_THRESHOLD)) != {} {
      var id := Dao.Any(old(db.SimilarIds(embedding, env.reuseDistance, Dao.DEFAULT_SIM_THRESHOLD)));
      assert id in similar;
    }
    var r := AttachAsWritten(db, playlist, filtered, env.now);
    step := if r.Success? then End(r.value) else Raise(r.error);
  }

  lemma {:induction false} FilterNothing(xs: seq<int>)
    ensures FilterNotIn(xs, {}) == xs
    decreases |xs|
  {
    if |xs| > 0 {
      FilterNothing(xs[1..]);
    }
  }

  // ------------------------------------------------------------ query generation

  /**
   * `GenerateSearchQueryNode.run`: raises once `retry_count` reaches `MAX_RETRIES`, before
   * the prompts are read; otherwise asks the query agent with the first prompt's text
   * (`error_info` is only logged). `asked` is the text the agent received.
   */
  method GenerateSearchQueryRun(st: GraphState, db: Dao.Store, env: Env, sid: int) returns (step: Step, asked: Option<string>)
    modifies st
    ensures st.retryCount == old(st.retryCount) && st.errorInfo == old(st.errorInfo)
    ensures step.Next? ==> step.node == SourceSelectionRouter
    ensures old(st.retryCount) >= MAX_RETRIES ==>
              step == Raise(MaxRetriesExceeded) && asked.None? && st.spotifySearchQuery == old(st.spotifySearchQuery)
    ensures old(st.retryCount) < MAX_RETRIES && |db.GetSubscriberPromptsBySid(sid)| == 0 ==>
              step == Raise(QueryGenerationFailed) && asked.None? && st.spotifySearchQuery == old(st.spotifySearchQuery)
    ensures old(st.retryCount) < MAX_RETRIES && |db.GetSubscriberPromptsBySid(sid)| > 0 ==>
              var prompt := db.GetSubscriberPromptsBySid(sid)[0].prompt;
              asked == Some(prompt)
              && (env.queryAgent(prompt, old(st.retryCount)).None? ==>
                    step == Raise(QueryGenerationFailed) && st.spotifySearchQuery == old(st.spotifySearchQuery))
              && (env.queryAgent(prompt, old(st.retryCount)).Some? ==>
                    step == Next(SourceSelectionRouter) && st.spotifySearchQuery == env.queryAgent(prompt, old(st.retryCount)))
  {
    if st.retryCount >= MAX_RETRIES {
      return Raise(MaxRetriesExceeded), None;
    }
    var prompts := db.GetSubscriberPromptsBySid(sid);
    if |prompts| == 0 {
      // `prompts[0]` raises IndexError
      return Raise(QueryGenerationFailed), None;
    }
    asked := Some(prompts[0].prompt);
    var flow := env.queryAgent(prompts[0].prompt, st.retryCount);
    if flow.None? {
      return Raise(QueryGenerationFailed), asked;
    }
    st.spotifySearchQuery := flow;
    step := Next(SourceSelectionRouter);
  }

  // ------------------------------------------------------------ playlist search

  /** The playlist search the node issues for a query: a first page of 10 playlists. */
  function SearchCallFor(query: string): Spotify.SearchCall {
    Spotify.Search(query, Spotify.SEARCH_KIND, Spotify.DEFAULT_SEARCH_LIMIT)
  }

  /**
   * `SearchSpotifyPlaylistsNode.run`: an empty result sends the run back to query
   * generation with `retry_count` one higher; otherwise the playlists go to matching.
   * The search raises, and the node with it, exactly when there is no query, the token
   * cannot be renewed, or the search request fails.
   */
  method SearchSpotifyPlaylistsRun(st: GraphState, spotify: Spotify.SpotifyService, env: Env) returns (step: Step)
    requires spotify.Valid()
    modifies st, spotify
    ensures spotify.Valid()
    ensures st.spotifySearchQuery == old(st.spotifySearchQuery)
    ensures step == Next(GenerateSearchQuery) ==>
              st.retryCount == old(st.retryCount) + 1
              && st.errorInfo == Some(NO_PLAYLISTS_FOUND + QueryText(st.spotifySearchQuery))
    ensures step != Next(GenerateSearchQuery) ==> st.retryCount == old(st.retryCount) && st.errorInfo == old(st.errorInfo)
    ensures step.Next? ==>
              st.spotifySearchQuery.Some?
              && env.spotifySearch(SearchCallFor(st.spotifySearchQuery.value)).SearchPage?
              && var found := env.spotifySearch(SearchCallFor(st.spotifySearchQuery.value)).items;
                 step == if found == [] then Next(GenerateSearchQuery) else Next(MatchQueryWithSpotifyPlaylist(found))
    ensures !step.End?
    ensures step.Raise? <==>
              st.spotifySearchQuery.None? || !old(spotify.AuthOk(env.now, env.tokenEndpoint))
              || !env.spotifySearch(SearchCallFor(st.spotifySearchQuery.value)).SearchPage?
    ensures step.Raise? ==> step.fault == PlaylistSearchFailed
    ensures st.spotifySearchQuery.None? ==> unchanged(spotify)
    ensures st.spotifySearchQuery.Some? ==> spotify.State() == old(spotify.AfterAuth(env.now, env.tokenEndpoint))
  {
    var result, call := spotify.SearchPlaylists(st.spotifySearchQuery, None, env.now, env.tokenEndpoint, env.spotifySearch);
    if result.Failure? {
      return Raise(PlaylistSearchFailed);
    }
    var found := result.value.0;
    if found == [] {
      st.retryCount := st.retryCount + 1;
      st.errorInfo := Some(NO_PLAYLISTS_FOUND + QueryText(st.spotifySearchQuery));
      return Next(GenerateSearchQuery);
    }
    return Next(MatchQueryWithSpotifyPlaylist(found));
  }

  // ------------------------------------------------------------ playlist matching

  /** A playlist entry the filter agent accepts; a null entry is skipped and an agent error is no match. */
  predicate Accepts(env: Env, entry: Option<Spotify.SpotifyPlaylist>, query: string) {
    entry.Some? && env.classify(entry.value, query) == Some(true)
  }

  /** The first accepted entry at or after `from`. */
  function FirstMatch(env: Env, found: seq<Option<Spotify.SpotifyPlaylist>>, query: string, from: nat): (r: Option<nat>)
    ensures r.Some? ==> from <= r.value < |found| && Accepts(env, found[r.value], query)
                        && forall k :: from <= k < r.value ==> !Accepts(env, found[k], query)
    ensures r.None? ==> forall k :: from <= k < |found| ==> !Accepts(env, found[k], query)
    decreases |found| - from
  {
    if from >= |found| then None
    else if Accepts(env, found[from], query) then Some(from)
    else FirstMatch(env, found, query, from + 1)
  }

  /**
   * `MatchQueryWithSpotifyPlaylist.run`: the first accepted playlist's tracks go on to
   * verification (the explicit filter is applied lazily there); with no match the run
   * goes back to query generation with `retry_count` one higher.
   */
  method MatchQueryWithSpotifyPlaylistRun(st: GraphState, spotify: Spotify.SpotifyService, env: Env,
                                          found: seq<Option<Spotify.SpotifyPlaylist>>)
    returns (step: Step, matched: Option<nat>)
    requires spotify.Valid() && EnvValid(env)
    modifies st, spotify
    ensures spotify.Valid()
    ensures st.spotifySearchQuery == old(st.spotifySearchQuery)
    ensures matched == FirstMatch(env, found, QueryText(st.spotifySearchQuery), 0)
    ensures matched.None? ==>
              step == Next(GenerateSearchQuery) && st.retryCount == old(st.retryCount) + 1
              && st.errorInfo == Some(NO_MATCHING_PLAYLISTS + QueryText(st.spotifySearchQuery))
    ensures matched.Some? ==> st.retryCount == old(st.retryCount) && st.errorInfo == old(st.errorInfo)
    ensures matched.Some? && step.Next? ==>
              var pages := env.playlistPages(found[matched.value].value.id);
              Spotify.Collect(pages, None, []).Success?
              && step == Next(SearchAndVerifyYoutubeAndSave(Spotify.Collect(pages, None, []).value))
    ensures matched.Some? && !step.Next? ==> step == Raise(PlaylistTracksFailed)
    ensures matched.Some? ==>
              (step.Next? <==> old(spotify.AuthOk(env.now, env.tokenEndpoint))
                               && Spotify.Collect(env.playlistPages(found[matched.value].value.id), None, []).Success?)
    ensures matched.None? ==> unchanged(spotify)
    ensures matched.Some? ==> spotify.State() == old(spotify.AfterAuth(env.now, env.tokenEndpoint))
  {
    var query := QueryText(st.spotifySearchQuery);
    matched := None;
    var k := 0;
    while k < |found|
      invariant 0 <= k <= |found| && matched.None?
      invariant FirstMatch(env, found, query, k) == FirstMatch(env, found, query, 0)
    {
      if found[k].None? {
        k := k + 1;
        continue;
      }
      var verdict := env.classify(found[k].value, query);
      if verdict == Some(true) {
        matched := Some(k);
        break;
      }
      // a False verdict, or an agent error logged and skipped
      k := k + 1;
    }
    if matched.None? {
      st.retryCount := st.retryCount + 1;
      st.errorInfo := Some(NO_MATCHING_PLAYLISTS + query);
      return Next(GenerateSearchQuery), matched;
    }
    var pid := found[matched.value].value.id;
    var tracks, targets := spotify.GetPlaylistTracks(pid, None, env.now, env.tokenEndpoint, env.playlistPages(pid));
    if tracks.Failure? {
      return Raise(PlaylistTracksFailed), matched;
    }
    return Next(SearchAndVerifyYoutubeAndSave(tracks.value)), matched;
  }

  // ------------------------------------------------------------ verification and saving

  /** The Brave query for a track: its name and its first artist's name. */
  function VideoQuery(t: Spotify.SpotifyTrack): string
    requires |t.artists| > 0
  {
    t.name + " " + t.artists[0]
  }

  /** A search hit accepted for a track: title similarity above 0.75 and "watch" in the url. */
  predicate AcceptsVideo(env: Env, t: Spotify.SpotifyTrack, video: BraveSearch.SearchResult)
    requires |t.artists| > 0
  {
    env.ratio(env.lower(t.name) + " - " + env.lower(t.artists[0]), env.lower(video.title)) > VIDEO_SIMILARITY
    && Contains(video.url, WATCH_MARKER)
  }

  /** The first accepted hit at or after `from`. */
  function FirstAcceptedVideo(env: Env, t: Spotify.SpotifyTrack, results: seq<BraveSearch.SearchResult>, from: nat): (r: Option<nat>)
    requires |t.artists| > 0
    ensures r.Some? ==> from <= r.value < |results| && AcceptsVideo(env, t, results[r.value])
                        && forall k :: from <= k < r.value ==> !AcceptsVideo(env, t, results[k])
    ensures r.None? ==> forall k :: from <= k < |results| ==> !AcceptsVideo(env, t, results[k])
    decreases |results| - from
  {
    if from >= |results| then None
    else if AcceptsVideo(env, t, results[from]) then Some(from)
    else FirstAcceptedVideo(env, t, results, from + 1)
  }

  /** The inner loop over the search hits of a track: it stops at the first accepted one. */
  method ChooseVideo(env: Env, t: Spotify.SpotifyTrack, results: seq<BraveSearch.SearchResult>) returns (chosen: Option<nat>)
    requires |t.artists| > 0
    ensures chosen == FirstAcceptedVideo(env, t, results, 0)
  {
    chosen := None;
    var k := 0;
    while k < |results|
      invariant 0 <= k <= |results| && chosen.None?
      invariant FirstAcceptedVideo(env, t, results, k) == FirstAcceptedVideo(env, t, results, 0)
    {
      var similarity := env.ratio(env.lower(t.name) + " - " + env.lower(t.artists[0]), env.lower(results[k].title));
      if similarity > VIDEO_SIMILARITY && Contains(results[k].url, WATCH_MARKER) {
        chosen := Some(k);
        break;
      }
      k := k + 1;
    }
  }

  /**
   * The album image url of a saved track: the first image's url, or None when the album or
   * its image list is absent (the lookups fall back to defaults). A null album or image
   * list, an empty list, or a null first image raises inside the try.
   */
  function ImageUrl(t: Spotify.SpotifyTrack): Result<Option<string>, Fault> {
    match t.album
    case Absent => Success(None)
    case Null => Failure(VerificationFailed)
    case Present(album) =>
      match album.images
      case Absent => Success(None)
      case Null => Failure(VerificationFailed)
      case Present(images) =>
        if |images| == 0 || images[0].None? then Failure(VerificationFailed) else Success(images[0].value.url)
  }

  /**
   * What the verification loop does with one element of the track list; a saved video
   * carries the row written for it and the track embedding stored with it.
   */
  datatype Verdict =
    | Skipped
    | Saved(video: BraveSearch.SearchResult, data: Dao.TrackData, embedding: Embedding)
    | Failed(fault: Fault)

  function VerdictOf(env: Env, query: Option<string>, entry: Option<Spotify.SpotifyTrack>, hasPlaylist: bool): Verdict {
    if entry.None? then Failed(TrackFilterFailed)
    else
      var t := entry.value;
      if t.explicit then Skipped
      else if |t.artists| == 0 then Failed(MissingArtist)
      else match BraveSearch.SearchOutcome(env.braveServer, VideoQuery(t), BraveSearch.DEFAULT_NUM_RESULTS)
        case Failure(_) => Failed(VerificationFailed)
        case Success(results) =>
          match FirstAcceptedVideo(env, t, results, 0)
          case None => Skipped
          case Some(j) =>
            if env.trackEmbedding(query, t.name, t.artists[0]).None? || ImageUrl(t).Failure? || !hasPlaylist
            then Failed(VerificationFailed)
            else Saved(results[j], Dao.TrackData(t.name, t.artists[0], t.durationMs, results[j].url),
                       env.trackEmbedding(query, t.name, t.artists[0]).value)
  }

  /** The outcome of the verification loop over `tracks`: the first failure, or the number saved. */
  function VerifyOutcome(env: Env, query: Option<string>, tracks: seq<Option<Spotify.SpotifyTrack>>, hasPlaylist: bool): Result<int, Fault>
    decreases |tracks|
  {
    if |tracks| == 0 then Success(0)
    else Then(VerdictOf(env, query, tracks[0], hasPlaylist), VerifyOutcome(env, query, tracks[1..], hasPlaylist))
  }

  /** A verdict followed by the outcome of the rest of the loop. */
  function Then(v: Verdict, rest: Result<int, Fault>): Result<int, Fault> {
    match v
    case Failed(f) => Failure(f)
    case Skipped => rest
    case Saved(_, _, _) => Plus(1, rest)
  }

  /** `n` more added than `r` reports. */
  function Plus(n: int, r: Result<int, Fault>): Result<int, Fault> {
    if r.Success? then Success(n + r.value) else r
  }

  /** The number of non-explicit tracks. */
  function CleanCount(tracks: seq<Option<Spotify.SpotifyTrack>>): (n: nat)
    ensures n <= |tracks|
  {
    if |tracks| == 0 then 0
    else (if tracks[0].Some? && !tracks[0].value.explicit then 1 else 0) + CleanCount(tracks[1..])
  }

  /** At most one video per track is saved and explicit tracks never are: the count is at most the clean tracks. */
  lemma {:induction false} AddedAtMostClean(env: Env, query: Option<string>, tracks: seq<Option<Spotify.SpotifyTrack>>, hasPlaylist: bool)
    requires VerifyOutcome(env, query, tracks, hasPlaylist).Success?
    ensures 0 <= VerifyOutcome(env, query, tracks, hasPlaylist).value <= CleanCount(tracks) <= |tracks|
    decreases |tracks|
  {
    if |tracks| > 0 {
      AddedAtMostClean(env, query, tracks[1..], hasPlaylist);
    }
  }

  /** The verification loop fails only on a null track, a track without artists, or a failed search and save. */
  lemma {:induction false} OutcomeFaults(env: Env, query: Option<string>, tracks: seq<Option<Spotify.SpotifyTrack>>, hasPlaylist: bool)
    ensures VerifyOutcome(env, query, tracks, hasPlaylist).Failure? ==>
              VerifyOutcome(env, query, tracks, hasPlaylist).error in {TrackFilterFailed, MissingArtist, VerificationFailed}
    decreases |tracks|
  {
    if |tracks| > 0 {
      OutcomeFaults(env, query, tracks[1..], hasPlaylist);
    }
  }

  /** Without a playlist row the first track with an accepted video aborts the run. */
  lemma NoPlaylistNoSave(env: Env, query: Option<string>, entry: Option<Spotify.SpotifyTrack>)
    ensures !VerdictOf(env, query, entry, false).Saved?
  {
  }

  /** An explicit track is skipped before it is searched. */
  lemma ExplicitSkipped(env: Env, query: Option<string>, t: Spotify.SpotifyTrack, hasPlaylist: bool)
    requires t.explicit
    ensures VerdictOf(env, query, Some(t), hasPlaylist) == Skipped
  {
  }

  /** The verdict of each track, in order. */
  function Verdicts(env: Env, query: Option<string>, tracks: seq<Option<Spotify.SpotifyTrack>>, hasPlaylist: bool): (vs: seq<Verdict>)
    ensures |vs| == |tracks|
    ensures forall i :: 0 <= i < |tracks| ==> vs[i] == VerdictOf(env, query, tracks[i], hasPlaylist)
  {
    seq(|tracks|, i requires 0 <= i < |tracks| => VerdictOf(env, query, tracks[i], hasPlaylist))
  }

  /** The outcome of a list of verdicts: the first failure, or the number saved. */
  function Tally(vs: seq<Verdict>): Result<int, Fault> {
    if |vs| == 0 then Success(0) else Then(vs[0], Tally(vs[1..]))
  }

  /** The loop's outcome is the tally of the per-track verdicts. */
  lemma {:induction false} OutcomeIsTally(env: Env, query: Option<string>, tracks: seq<Option<Spotify.SpotifyTrack>>, hasPlaylist: bool)
    ensures VerifyOutcome(env, query, tracks, hasPlaylist) == Tally(Verdicts(env, query, tracks, hasPlaylist))
    decreases |tracks|
  {
    if |tracks| > 0 {
      OutcomeIsTally(env, query, tracks[1..], hasPlaylist);
      var vs := Verdicts(env, query, tracks, hasPlaylist);
      var rest := Verdicts(env, query, tracks[1..], hasPlaylist);
      assert vs[1..] == rest by {
        forall i | 0 <= i < |rest| ensures vs[1..][i] == rest[i] {
          assert tracks[1..][i] == tracks[i + 1];
        }
      }
    }
  }

  /** The loop's step from `vs[k..]` to `vs[k + 1..]`: a failure aborts, a saved track adds 1, a skipped one 0. */
  lemma TallyStep(vs: seq<Verdict>, k: nat, n: int)
    requires k < |vs|
    ensures Plus(n, Tally(vs[k..]))
         == if vs[k].Failed? then Failure(vs[k].fault) else Plus(if vs[k].Saved? then n + 1 else n, Tally(vs[k + 1..]))
  {
    assert vs[k..][0] == vs[k];
    assert vs[k..][1..] == vs[k + 1..];
  }

  /**
   * One iteration of the loop of `SearchAndVerifyYoutubeAndSaveNode.run`: a saved video
   * creates the track (or finds it by title and artist), links it to the playlist when
   * it is new, and stores its embedding.
   */
  method VerifyAndSave(db: Dao.Store, env: Env, query: Option<string>, playlist: Option<int>,
                       entry: Option<Spotify.SpotifyTrack>)
    returns (verdict: Verdict)
    requires db.Valid() && (playlist.Some? ==> playlist.value in db.playlists)
    modifies db
    ensures db.Valid() && db.playlists == old(db.playlists)
    ensures db.subscribers == old(db.subscribers) && db.prompts == old(db.prompts)
    ensures verdict == VerdictOf(env, query, entry, playlist.Some?)
    ensures verdict.Saved? ==>
              playlist.Some? && TablesOf(db) == SaveTrack(old(TablesOf(db)), playlist.value, verdict.data, verdict.embedding, env.now)
    ensures !verdict.Saved? ==> TablesOf(db) == old(TablesOf(db))
  {
    if entry.None? {
      // the lazy explicit filter indexes a null track
      return Failed(TrackFilterFailed);
    }
    var t := entry.value;
    if t.explicit {
      return Skipped;
    }
    if |t.artists| == 0 {
      return Failed(MissingArtist);
    }
    var results := BraveSearch.SearchYoutubeForVideos(env.braveServer, VideoQuery(t));
    if results.Failure? {
      return Failed(VerificationFailed);
    }
    var chosen := None;
    if results.value != [] {
      chosen := ChooseVideo(env, t, results.value);
    }
    if chosen.None? {
      return Skipped;
    }
    var video := results.value[chosen.value];
    var embedding := env.trackEmbedding(query, t.name, t.artists[0]);
    if embedding.None? || ImageUrl(t).Failure? || playlist.None? {
      // `playlist.id` on None raises AttributeError inside the try as well
      return Failed(VerificationFailed);
    }
    var data := Dao.TrackData(t.name, t.artists[0], t.durationMs, video.url);
    SaveVideo(db, playlist.value, data, embedding.value, env.now);
    verdict := Saved(video, data, embedding.value);
  }

  /** The tables and serials the save path writes. */
  datatype Tables = Tables(tracks: map<int, Track>, suggestions: seq<Suggestion>, trackSeq: int, uuidSeq: nat)

  function TablesOf(db: Dao.Store): Tables
    reads db`tracks, db`suggestions, db`trackSeq, db`uuidSeq
  {
    Tables(db.tracks, db.suggestions, db.trackSeq, db.uuidSeq)
  }

  /** Track ids lie below the track serial. */
  predicate TablesOk(tb: Tables) {
    forall id :: id in tb.tracks ==> id < tb.trackSeq
  }

  /**
   * The write of one accepted video: `add_track_to_playlist` then `update_track_embedding`.
   * A taken (title, artist) only consumes a track serial; otherwise the track is created
   * with the embedding and linked to the playlist by one new suggestion.
   */
  function SaveTrack(tb: Tables, pid: int, data: Dao.TrackData, embedding: Embedding, now: Timestamp): (r: Tables)
    ensures Dao.TitleArtistTaken(r.tracks, data.title, data.artist)
    ensures r.trackSeq == tb.trackSeq + 1
    ensures TablesOk(tb) ==> TablesOk(r) && forall id :: id in tb.tracks ==> id in r.tracks && r.tracks[id] == tb.tracks[id]
    ensures |tb.suggestions| <= |r.suggestions| <= |tb.suggestions| + 1 && r.suggestions[..|tb.suggestions|] == tb.suggestions
    ensures |r.suggestions| > |tb.suggestions| ==>
              var s := r.suggestions[|tb.suggestions|];
              s.pid == pid && s.tid in r.tracks && r.tracks[s.tid].title == data.title
              && r.tracks[s.tid].artist == data.artist && r.tracks[s.tid].searchEmbedding == Some(embedding)
  {
    if Dao.TitleArtistTaken(tb.tracks, data.title, data.artist) then tb.(trackSeq := tb.trackSeq + 1)
    else
      var id := tb.trackSeq;
      var row := Dao.NewTrack(id, data).(searchEmbedding := Some(embedding));
      var tracks := tb.tracks[id := row];
      assert tracks[id].title == data.title && tracks[id].artist == data.artist;
      Tables(tracks, tb.suggestions + [Suggestion(pid, id, tb.uuidSeq, Some(now))], id + 1, tb.uuidSeq + 1)
  }

  /** The writes of the verification loop: one `SaveTrack` per saved verdict, up to the first failure. */
  function Saves(tb: Tables, pid: int, vs: seq<Verdict>, now: Timestamp): Tables
    decreases |vs|
  {
    if |vs| == 0 || vs[0].Failed? then tb
    else Saves(if vs[0].Saved? then SaveTrack(tb, pid, vs[0].data, vs[0].embedding, now) else tb, pid, vs[1..], now)
  }

  /** The loop's write step from `vs[k..]` to `vs[k + 1..]`. */
  lemma SavesStep(tb: Tables, pid: int, vs: seq<Verdict>, k: nat, now: Timestamp)
    requires k < |vs|
    ensures Saves(tb, pid, vs[k..], now)
         == if vs[k].Failed? then tb
            else Saves(if vs[k].Saved? then SaveTrack(tb, pid, vs[k].data, vs[k].embedding, now) else tb, pid, vs[k + 1..], now)
  {
    assert vs[k..][0] == vs[k];
    assert vs[k..][1..] == vs[k + 1..];
  }

  /** Earlier rows survive the loop's writes. */
  lemma {:induction false} SavesKeep(tb: Tables, pid: int, vs: seq<Verdict>, now: Timestamp)
    requires TablesOk(tb)
    ensures TablesOk(Saves(tb, pid, vs, now))
    ensures forall id :: id in tb.tracks ==> id in Saves(tb, pid, vs, now).tracks && Saves(tb, pid, vs, now).tracks[id] == tb.tracks[id]
    decreases |vs|
  {
    if |vs| > 0 && !vs[0].Failed? {
      SavesKeep(if vs[0].Saved? then SaveTrack(tb, pid, vs[0].data, vs[0].embedding, now) else tb, pid, vs[1..], now);
    }
  }

  /** Every video saved before the first failure leaves its (title, artist) in the tracks table. */
  lemma {:induction false} SavedTrackStored(tb: Tables, pid: int, vs: seq<Verdict>, now: Timestamp, k: nat)
    requires TablesOk(tb)
    requires k < |vs| && vs[k].Saved? && forall i :: 0 <= i < k ==> !vs[i].Failed?
    ensures Dao.TitleArtistTaken(Saves(tb, pid, vs, now).tracks, vs[k].data.title, vs[k].data.artist)
    decreases |vs|
  {
    var data := vs[k].data;
    if k == 0 {
      var saved := SaveTrack(tb, pid, data, vs[0].embedding, now);
      SavesKeep(saved, pid, vs[1..], now);
      var id :| id in saved.tracks && saved.tracks[id].title == data.title && saved.tracks[id].artist == data.artist;
      assert Saves(tb, pid, vs, now).tracks[id] == saved.tracks[id];
    } else {
      assert !vs[0].Failed?;
      assert vs[1..][k - 1] == vs[k];
      var next := if vs[0].Saved? then SaveTrack(tb, pid, vs[0].data, vs[0].embedding, now) else tb;
      SavedTrackStored(next, pid, vs[1..], now, k - 1);
    }
  }

  /**
   * Every saved verdict consumes one track id, a duplicate too: when the loop succeeds the
   * track sequence has advanced by exactly its count. Suggestions are only ever appended.
   */
  lemma {:induction false} SavesCount(tb: Tables, pid: int, vs: seq<Verdict>, now: Timestamp)
    ensures Saves(tb, pid, vs, now).trackSeq >= tb.trackSeq
    ensures |Saves(tb, pid, vs, now).suggestions| >= |tb.suggestions|
    ensures Tally(vs).Success? ==> Saves(tb, pid, vs, now).trackSeq == tb.trackSeq + Tally(vs).value
    decreases |vs|
  {
    if |vs| > 0 && !vs[0].Failed? {
      var next := if vs[0].Saved? then SaveTrack(tb, pid, vs[0].data, vs[0].embedding, now) else tb;
      SavesCount(next, pid, vs[1..], now);
    }
  }

  /** Without a playlist row nothing is saved, so a successful loop counts 0. */
  lemma {:induction false} NoPlaylistCountsZero(env: Env, query: Option<string>, tracks: seq<Option<Spotify.SpotifyTrack>>)
    ensures VerifyOutcome(env, query, tracks, false).Success? ==> VerifyOutcome(env, query, tracks, false).value == 0
    decreases |tracks|
  {
    if |tracks| > 0 {
      NoPlaylistNoSave(env, query, tracks[0]);
      NoPlaylistCountsZero(env, query, tracks[1..]);
    }
  }

  /**
   * The write of an accepted video: the track is created (or found taken), linked to the
   * playlist when new, and its embedding stored.
   */
  method SaveVideo(db: Dao.Store, pid: int, data: Dao.TrackData, embedding: Embedding, now: Timestamp)
    requires db.Valid() && pid in db.playlists
    modifies db
    ensures db.Valid() && db.playlists == old(db.playlists)
    ensures db.subscribers == old(db.subscribers) && db.prompts == old(db.prompts)
    ensures TablesOf(db) == SaveTrack(old(TablesOf(db)), pid, data, embedding, now)
  {
    var tid := db.AddTrackToPlaylist(pid, data, now);
    var _ := db.UpdateTrackEmbedding(tid.value, embedding);
  }

  /**
   * Where the saving loop stands before `vs[k..]`: the outcome still to come is the tally
   * from `added` on, and saving the rest reaches `goal` (see `Pending`).
   */
  ghost predicate SaveLoop(total: Result<int, Fault>, added: int, goal: Tables, start: Tables, tb: Tables,
                           playlist: Option<int>, rest: seq<Verdict>, now: Timestamp) {
    total == Plus(added, Tally(rest)) && Pending(goal, start, tb, playlist, rest, now)
  }

  /**
   * What is left of the saving loop: with a playlist, saving the remaining verdicts from
   * the current tables reaches `goal`; without one the tables stay as they started.
   */
  ghost predicate Pending(goal: Tables, start: Tables, tb: Tables, playlist: Option<int>, rest: seq<Verdict>, now: Timestamp) {
    if playlist.Some? then goal == Saves(tb, playlist.value, rest, now) else tb == start
  }

  /**
   * The iteration for `tracks[k]`, with `added` tracks saved so far: it takes the loop one
   * track on, or, on a failure, the outcome is that failure and the tables are final.
   */
  method VerifyAndSaveAt(db: Dao.Store, env: Env, query: Option<string>, playlist: Option<int>,
                         tracks: seq<Option<Spotify.SpotifyTrack>>, k: nat, added: int,
                         ghost vs: seq<Verdict>, ghost total: Result<int, Fault>, ghost goal: Tables, ghost start: Tables)
    returns (verdict: Verdict, added': int)
    requires db.Valid() && (playlist.Some? ==> playlist.value in db.playlists) && k < |tracks|
    requires vs == Verdicts(env, query, tracks, playlist.Some?)
    requires SaveLoop(total, added, goal, start, TablesOf(db), playlist, vs[k..], env.now)
    modifies db
    ensures db.Valid() && db.playlists == old(db.playlists)
    ensures db.subscribers == old(db.subscribers) && db.prompts == old(db.prompts)
    ensures verdict == vs[k]
    ensures added' == if verdict.Saved? then added + 1 else added
    ensures !verdict.Failed? ==> SaveLoop(total, added', goal, start, TablesOf(db), playlist, vs[k + 1..], env.now)
    ensures verdict.Failed? ==>
              total == Failure(verdict.fault) && Pending(goal, start, TablesOf(db), playlist, [], env.now)
  {
    TallyStep(vs, k, added);
    if playlist.Some? {
      SavesStep(TablesOf(db), playlist.value, vs, k, env.now);
    }
    verdict := VerifyAndSave(db, env, query, playlist, tracks[k]);
    added' := if verdict.Saved? then added + 1 else added;
  }

  /** The loop of `SearchAndVerifyYoutubeAndSaveNode.run` over the track list. */
  method VerifyAndSaveAll(db: Dao.Store, env: Env, query: Option<string>, playlist: Option<int>,
                          tracks: seq<Option<Spotify.SpotifyTrack>>)
    returns (r: Result<int, Fault>)
    requires db.Valid() && (playlist.Some? ==> playlist.value in db.playlists)
    modifies db
    ensures db.Valid()
    ensures db.subscribers == old(db.subscribers) && db.prompts == old(db.prompts)
    ensures db.playlists == old(db.playlists)
    ensures r == VerifyOutcome(env, query, tracks, playlist.Some?)
    ensures playlist.Some? ==>
              TablesOf(db) == Saves(old(TablesOf(db)), playlist.value, Verdicts(env, query, tracks, true), env.now)
    ensures playlist.None? ==> TablesOf(db) == old(TablesOf(db))
  {
    ghost var vs := Verdicts(env, query, tracks, playlist.Some?);
    ghost var start := TablesOf(db);
    ghost var goal := Saves(start, playlist.GetOr(0), vs, env.now);
    ghost var total := Tally(vs);
    OutcomeIsTally(env, query, tracks, playlist.Some?);
    r := SaveLoopRun(db, env, query, playlist, tracks, vs, total, goal, start);
  }

  /** The loop itself, from the start of the track list to the outcome `total` and the tables `goal`. */
  method SaveLoopRun(db: Dao.Store, env: Env, query: Option<string>, playlist: Option<int>,
                     tracks: seq<Option<Spotify.SpotifyTrack>>,
                     ghost vs: seq<Verdict>, ghost total: Result<int, Fault>, ghost goal: Tables, ghost start: Tables)
    returns (r: Result<int, Fault>)
    requires db.Valid() && (playlist.Some? ==> playlist.value in db.playlists)
    requires vs == Verdicts(env, query, tracks, playlist.Some?)
    requires SaveLoop(total, 0, goal, start, TablesOf(db), playlist, vs, env.now)
    modifies db
    ensures db.Valid()
    ensures db.subscribers == old(db.subscribers) && db.prompts == old(db.prompts)
    ensures db.playlists == old(db.playlists)
    ensures r == total && Pending(goal, start, TablesOf(db), playlist, [], env.now)
  {
    var added := 0;
    var k := 0;
    assert vs[0..] == vs;
    while k < |tracks|
      invariant 0 <= k <= |tracks| && db.Valid()
      invariant db.subscribers == old(db.subscribers) && db.prompts == old(db.prompts)
      invariant db.playlists == old(db.playlists)
      invariant SaveLoop(total, added, goal, start, TablesOf(db), playlist, vs[k..], env.now)
    {
      var verdict;
      verdict, added := VerifyAndSaveAt(db, env, query, playlist, tracks, k, added, vs, total, goal, start);
      if verdict.Failed? {
        return Failure(verdict.fault);
      }
      k := k + 1;
    }
    assert vs[k..] == [];
    return Success(added);
  }

  /**
   * `SearchAndVerifyYoutubeAndSaveNode.run`: the (sid, today) playlist is fetched or
   * created first; each saved track adds one to the count, also when the track already
   * existed and nothing was linked. Any failure aborts the run.
   */
  method SearchAndVerifyYoutubeAndSaveRun(st: GraphState, db: Dao.Store, env: Env, sid: int,
                                          tracks: seq<Option<Spotify.SpotifyTrack>>)
    returns (step: Step, playlist: Option<int>)
    requires db.Valid()
    modifies db
    ensures db.Valid()
    ensures db.subscribers == old(db.subscribers) && db.prompts == old(db.prompts)
    ensures var outcome := VerifyOutcome(env, st.spotifySearchQuery, tracks, sid in old(db.SubscriberIds()));
            step == if outcome.Success? then End(outcome.value) else Raise(outcome.error)
    ensures playlist.Some? <==> sid in old(db.SubscriberIds())
    ensures playlist.Some? ==>
              playlist.value in db.playlists && Dao.IsPlaylistFor(db.playlists[playlist.value], sid, env.today)
              && (playlist.value in old(db.playlists) ==> db.playlists == old(db.playlists))
              && (playlist.value !in old(db.playlists) ==>
                    db.playlists == old(db.playlists)[playlist.value := Playlist(playlist.value, Some(sid), Some(env.today))])
              && TablesOf(db) == Saves(old(TablesOf(db)), playlist.value,
                                       Verdicts(env, st.spotifySearchQuery, tracks, true), env.now)
    ensures playlist.None? ==> db.playlists == old(db.playlists) && TablesOf(db) == old(TablesOf(db))
    ensures step.End? ==> step.added >= 0
    ensures step.Raise? ==> step.fault in {TrackFilterFailed, MissingArtist, VerificationFailed}
    ensures db.trackSeq >= old(db.trackSeq) && |db.suggestions| >= |old(db.suggestions)|
    ensures step.End? ==> db.trackSeq == old(db.trackSeq) + step.added
  {
    var hasPlaylist := sid in db.SubscriberIds();
    ghost var tb := TablesOf(db);
    OutcomeFaults(env, st.spotifySearchQuery, tracks, hasPlaylist);
    if VerifyOutcome(env, st.spotifySearchQuery, tracks, hasPlaylist).Success? {
      AddedAtMostClean(env, st.spotifySearchQuery, tracks, hasPlaylist);
    }
    playlist := db.CreateOrGetPlaylist(sid, env.today);
    var r := VerifyAndSaveAll(db, env, st.spotifySearchQuery, playlist, tracks);
    if playlist.Some? {
      OutcomeIsTally(env, st.spotifySearchQuery, tracks, true);
      SavesCount(tb, playlist.value, Verdicts(env, st.spotifySearchQuery, tracks, true), env.now);
    } else {
      NoPlaylistCountsZero(env, st.spotifySearchQuery, tracks);
    }
    step := if r.Success? then End(r.value) else Raise(r.error);
  }

  // ------------------------------------------------------------ the graph

  /**
   * `MusicDiscoveryPipeline.run` from query generation with a fresh state: the nodes run
   * one after another until one ends the run or raises. `agentCalls` counts the query
   * agent's calls; the back-edges raise `retry_count`, so it never exceeds `MAX_RETRIES`.
   */
  method RunGraph(st: GraphState, db: Dao.Store, spotify: Spotify.SpotifyService, env: Env, sid: int)
    returns (r: Result<int, Fault>, agentCalls: nat, ghost trace: seq<Step>)
    requires db.Valid() && spotify.Valid() && EnvValid(env)
    requires st.retryCount == 0
    modifies st, db, spotify
    ensures db.Valid() && spotify.Valid()
    ensures agentCalls <= MAX_RETRIES && 0 <= st.retryCount <= MAX_RETRIES
    ensures Path(trace) && !trace[|trace| - 1].Next? && r == OutcomeOf(trace[|trace| - 1])
    ensures r == Failure(MaxRetriesExceeded) <==> st.retryCount == MAX_RETRIES
    ensures r == Failure(MaxRetriesExceeded) ==> agentCalls == MAX_RETRIES
    ensures r.Success? ==> r.value >= 0
    ensures Written(db) >= old(Written(db)) && (r.Success? ==> Written(db) >= old(Written(db)) + r.value)
  {
    var step := Next(GenerateSearchQuery);
    agentCalls := 0;
    trace := [step];
    while step.Next?
      invariant db.Valid() && spotify.Valid()
      invariant Written(db) >= old(Written(db)) && (step.End? ==> Written(db) >= old(Written(db)) + step.added)
      invariant Progress(step, st.retryCount, agentCalls)
      invariant Path(trace) && trace[|trace| - 1] == step
      decreases MAX_RETRIES - st.retryCount, Rank(step)
    {
      var next;
      next, agentCalls := RunNode(st, db, spotify, env, sid, step, agentCalls);
      PathSnoc(trace, next);
      trace, step := trace + [next], next;
    }
    PathLast(trace);
    r := OutcomeOf(step);
  }

  /**
   * What the stores have written: track ids drawn from the sequence (a duplicate insert
   * draws one too) plus suggestion rows. No node takes anything back.
   */
  ghost function Written(db: Dao.Store): int
    reads db`trackSeq, db`suggestions
  {
    db.trackSeq + |db.suggestions|
  }

  /** The run's result once a node has ended it or raised. */
  function OutcomeOf(s: Step): Result<int, Fault>
    requires !s.Next?
  {
    if s.End? then Success(s.added) else Failure(s.fault)
  }

  /**
   * The graph's edges: what each node may hand on, with the exceptions it can raise. Only
   * query generation raises `MaxRetriesExceeded`, and only reuse and verification end a run.
   */
  predicate Edge(a: Step, b: Step) {
    a.Next? &&
    match a.node
    case GenerateSearchQuery =>
      b == Next(SourceSelectionRouter) || b == Raise(MaxRetriesExceeded) || b == Raise(QueryGenerationFailed)
    case SourceSelectionRouter =>
      b == Next(SearchSpotifyPlaylists) || (b.Next? && b.node.ReuseExistingData?) || b == Raise(EmbeddingFailed)
    case ReuseExistingData(_) =>
      b.End? && b.added >= 0
    case SearchSpotifyPlaylists =>
      b == Next(GenerateSearchQuery) || (b.Next? && b.node.MatchQueryWithSpotifyPlaylist?) || b == Raise(PlaylistSearchFailed)
    case MatchQueryWithSpotifyPlaylist(_) =>
      b == Next(GenerateSearchQuery) || (b.Next? && b.node.SearchAndVerifyYoutubeAndSave?) || b == Raise(PlaylistTracksFailed)
    case SearchAndVerifyYoutubeAndSave(_) =>
      (b.End? && b.added >= 0) || (b.Raise? && b.fault in {TrackFilterFailed, MissingArtist, VerificationFailed})
  }

  /** The steps of a run so far: it starts at query generation and follows the graph's edges. */
  predicate Path(trace: seq<Step>) {
    |trace| > 0 && trace[0] == Next(GenerateSearchQuery)
    && forall i :: 0 <= i < |trace| - 1 ==> Edge(trace[i], trace[i + 1])
  }

  lemma PathSnoc(trace: seq<Step>, next: Step)
    requires Path(trace) && Edge(trace[|trace| - 1], next)
    ensures Path(trace + [next])
  {
    var t := trace + [next];
    forall i | 0 <= i < |t| - 1 ensures Edge(t[i], t[i + 1]) {
      if i < |trace| - 1 {
        assert t[i] == trace[i] && t[i + 1] == trace[i + 1];
      }
    }
  }

  /**
   * How a finished run ends: right after a node; a count comes from reuse or verification
   * and is not negative, and `MaxRetriesExceeded` comes from query generation.
   */
  lemma PathLast(trace: seq<Step>)
    requires Path(trace) && !trace[|trace| - 1].Next?
    ensures |trace| >= 2 && trace[|trace| - 2].Next?
    ensures var last := trace[|trace| - 1];
            last.End? ==> last.added >= 0
                          && (trace[|trace| - 2].node.ReuseExistingData? || trace[|trace| - 2].node.SearchAndVerifyYoutubeAndSave?)
    ensures trace[|trace| - 1] == Raise(MaxRetriesExceeded) ==> trace[|trace| - 2] == Next(GenerateSearchQuery)
  {
    assert |trace| != 1;
    assert Edge(trace[|trace| - 2], trace[|trace| - 1]);
  }

  /**
   * What the graph loop keeps: the retry count stays within the budget, only the query
   * node runs with the budget spent, the agent was called once per round entered, and
   * the run stops with `MaxRetriesExceeded` exactly when the budget is spent.
   */
  predicate Progress(step: Step, retries: int, agentCalls: int) {
    0 <= retries <= MAX_RETRIES && agentCalls <= MAX_RETRIES
    && (step.Next? && step.node != GenerateSearchQuery ==> retries < MAX_RETRIES && agentCalls == retries + 1)
    && (step == Next(GenerateSearchQuery) ==> agentCalls == retries)
    && (step == Raise(MaxRetriesExceeded) <==> retries == MAX_RETRIES && !step.Next?)
    && (step == Raise(MaxRetriesExceeded) ==> agentCalls == MAX_RETRIES)
  }

  /** One node of the graph: either the round goes on with a lower rank, or a back-edge starts the next round. */
  method RunNode(st: GraphState, db: Dao.Store, spotify: Spotify.SpotifyService, env: Env, sid: int,
                 step: Step, agentCalls: nat)
    returns (next: Step, calls: nat)
    requires db.Valid() && spotify.Valid() && EnvValid(env)
    requires step.Next? && Progress(step, st.retryCount, agentCalls)
    modifies st, db, spotify
    ensures db.Valid() && spotify.Valid()
    ensures Progress(next, st.retryCount, calls)
    ensures st.retryCount > old(st.retryCount) || (st.retryCount == old(st.retryCount) && Rank(next) < Rank(step))
    ensures Edge(step, next)
    ensures Written(db) >= old(Written(db)) && (next.End? ==> Written(db) >= old(Written(db)) + next.added)
  {
    if step.node.GenerateSearchQuery? || step.node.SourceSelectionRouter? || step.node.ReuseExistingData? {
      next, calls := RunRoutingNode(st, db, env, sid, step, agentCalls);
    } else {
      next := RunSearchNode(st, db, spotify, env, sid, step, agentCalls);
      calls := agentCalls;
    }
  }

  /** The nodes before the web searches: query generation, the router and the reuse of stored tracks. */
  method RunRoutingNode(st: GraphState, db: Dao.Store, env: Env, sid: int, step: Step, agentCalls: nat)
    returns (next: Step, calls: nat)
    requires db.Valid() && EnvValid(env)
    requires step.Next? && Progress(step, st.retryCount, agentCalls)
    requires step.node.GenerateSearchQuery? || step.node.SourceSelectionRouter? || step.node.ReuseExistingData?
    modifies st, db
    ensures db.Valid()
    ensures Progress(next, st.retryCount, calls)
    ensures st.retryCount > old(st.retryCount) || (st.retryCount == old(st.retryCount) && Rank(next) < Rank(step))
    ensures Edge(step, next)
    ensures Written(db) >= old(Written(db)) && (next.End? ==> Written(db) >= old(Written(db)) + next.added)
  {
    calls := agentCalls;
    match step.node
    case GenerateSearchQuery =>
      var asked;
      next, asked := GenerateSearchQueryRun(st, db, env, sid);
      if asked.Some? {
        calls := calls + 1;
      }
    case SourceSelectionRouter =>
      var similar, recent;
      next, similar, recent := SourceSelectionRouterRun(st, db, env, sid);
    case ReuseExistingData(embedding) =>
      var filtered;
      next, filtered := ReuseExistingDataRun(db, env, sid, embedding);
  }

  /** The nodes of the web searches: Spotify playlists, the playlist match and the YouTube verification. */
  method RunSearchNode(st: GraphState, db: Dao.Store, spotify: Spotify.SpotifyService, env: Env, sid: int,
                       step: Step, agentCalls: nat)
    returns (next: Step)
    requires db.Valid() && spotify.Valid() && EnvValid(env)
    requires step.Next? && Progress(step, st.retryCount, agentCalls)
    requires step.node.SearchSpotifyPlaylists? || step.node.MatchQueryWithSpotifyPlaylist? || step.node.SearchAndVerifyYoutubeAndSave?
    modifies st, db, spotify
    ensures db.Valid() && spotify.Valid()
    ensures Progress(next, st.retryCount, agentCalls)
    ensures st.retryCount > old(st.retryCount) || (st.retryCount == old(st.retryCount) && Rank(next) < Rank(step))
    ensures Edge(step, next)
    ensures Written(db) >= old(Written(db)) && (next.End? ==> Written(db) >= old(Written(db)) + next.added)
  {
    match step.node
    case SearchSpotifyPlaylists =>
      next := SearchSpotifyPlaylistsRun(st, spotify, env);
    case MatchQueryWithSpotifyPlaylist(found) =>
      var matched;
      next, matched := MatchQueryWithSpotifyPlaylistRun(st, spotify, env, found);
    case SearchAndVerifyYoutubeAndSave(tracks) =>
      var playlist;
      next, playlist := SearchAndVerifyYoutubeAndSaveRun(st, db, env, sid, tracks);
  }

  /** `curate(sid)`: the pipeline for one subscriber. */
  method Curate(db: Dao.Store, spotify: Spotify.SpotifyService, env: Env, sid: int)
    returns (r: Result<int, Fault>, agentCalls: nat, ghost trace: seq<Step>)
    requires db.Valid() && spotify.Valid() && EnvValid(env)
    modifies db, spotify
    ensures db.Valid() && spotify.Valid()
    ensures agentCalls <= MAX_RETRIES
    ensures Path(trace) && !trace[|trace| - 1].Next? && r == OutcomeOf(trace[|trace| - 1])
    ensures r == Failure(MaxRetriesExceeded) ==> agentCalls == MAX_RETRIES
    ensures r.Success? ==> r.value >= 0
    ensures Written(db) >= old(Written(db)) && (r.Success? ==> Written(db) >= old(Written(db)) + r.value)
  {
    var st := new GraphState();
    r, agentCalls, trace := RunGraph(st, db, spotify, env, sid);
  }
}
