/**
 * The dashboard's playback store (ui/src/stores/dashboard/dashboard-store.tsx): the
 * queue of suggestions, the current suggestion and the player flags. Each action
 * computes a partial state that the store merges into its state; `next` and `play`
 * also call `setCurrentSuggestionId` from inside their own update, and `next` shifts
 * the queue array in place before doing so.
 */
module DashboardStore {
  import opened Wrappers

  datatype Suggestion = Suggestion(
    suggestionId: string,
    id: int,
    title: string,
    artist: string,
    explicit: bool,
    duration: string,
    image: string,
    uri: string)

  datatype DashboardState = DashboardState(
    queue: seq<Suggestion>,
    isMuted: bool,
    isPlaying: bool,
    currentSuggestionId: Option<string>,
    currentSuggestion: Option<Suggestion>,
    lastFetchTimestamp: int)

  /** `defaultInitState`. */
  const DEFAULT_INIT_STATE: DashboardState := DashboardState([], false, false, None, None, 0)

  /** A partial state returned by an action: only the present fields are merged. */
  datatype Patch = Patch(
    queue: Option<seq<Suggestion>>,
    isMuted: Option<bool>,
    isPlaying: Option<bool>,
    currentSuggestionId: Option<Option<string>>,
    currentSuggestion: Option<Option<Suggestion>>,
    lastFetchTimestamp: Option<int>)

  const EMPTY_PATCH: Patch := Patch(None, None, None, None, None, None)

  /** zustand's shallow merge of a partial state. */
  function Merge(s: DashboardState, p: Patch): (r: DashboardState)
    ensures p == EMPTY_PATCH ==> r == s
    ensures r.queue == p.queue.GetOr(s.queue) && r.isMuted == p.isMuted.GetOr(s.isMuted)
    ensures r.isPlaying == p.isPlaying.GetOr(s.isPlaying)
    ensures r.currentSuggestionId == p.currentSuggestionId.GetOr(s.currentSuggestionId)
    ensures r.currentSuggestion == p.currentSuggestion.GetOr(s.currentSuggestion)
    ensures r.lastFetchTimestamp == p.lastFetchTimestamp.GetOr(s.lastFetchTimestamp)
  {
    DashboardState(
      p.queue.GetOr(s.queue), p.isMuted.GetOr(s.isMuted), p.isPlaying.GetOr(s.isPlaying),
      p.currentSuggestionId.GetOr(s.currentSuggestionId),
      p.currentSuggestion.GetOr(s.currentSuggestion),
      p.lastFetchTimestamp.GetOr(s.lastFetchTimestamp))
  }

  // ---------------------------------------------------------------- queue helpers

  /** JavaScript `findIndex` by suggestion id: the first index holding `id`, or -1. */
  function FindIndex(q: seq<Suggestion>, id: Option<string>): (r: int)
    ensures -1 <= r < |q|
    ensures r >= 0 ==> id == Some(q[r].suggestionId) && forall j :: 0 <= j < r ==> id != Some(q[j].suggestionId)
    ensures r == -1 ==> forall j :: 0 <= j < |q| ==> id != Some(q[j].suggestionId)
  {
    if q == [] then -1
    else if id == Some(q[0].suggestionId) then 0
    else var k := FindIndex(q[1..], id); if k < 0 then -1 else k + 1
  }

  /** JavaScript `find` by suggestion id; an `undefined` result is None. */
  function Find(q: seq<Suggestion>, id: string): (r: Option<Suggestion>)
    ensures r.Some? <==> FindIndex(q, Some(id)) >= 0
    ensures r.Some? ==> r.value == q[FindIndex(q, Some(id))]
  {
    var i := FindIndex(q, Some(id));
    if i >= 0 then Some(q[i]) else None
  }

  /** The incoming suggestions whose id is not in `existing`, in order (`filter`). */
  function FilterNew(existing: set<string>, tracks: seq<Suggestion>): (r: seq<Suggestion>)
    ensures |r| <= |tracks|
    ensures forall x :: x in r <==> x in tracks && x.suggestionId !in existing
  {
    if tracks == [] then []
    else if tracks[0].suggestionId in existing then FilterNew(existing, tracks[1..])
    else [tracks[0]] + FilterNew(existing, tracks[1..])
  }

  /** Filtering keeps the incoming order: it distributes over concatenation. */
  lemma {:induction false} FilterNewConcat(existing: set<string>, a: seq<Suggestion>, b: seq<Suggestion>)
    ensures FilterNew(existing, a + b) == FilterNew(existing, a) + FilterNew(existing, b)
  {
    if a != [] {
      assert (a + b)[0] == a[0] && (a + b)[1..] == a[1..] + b;
      FilterNewConcat(existing, a[1..], b);
      if a[0].suggestionId !in existing {
        assert FilterNew(existing, a + b) == [a[0]] + FilterNew(existing, a[1..] + b);
        assert FilterNew(existing, a) == [a[0]] + FilterNew(existing, a[1..]);
      }
    } else {
      assert a + b == b;
    }
  }

  /** No two entries share a suggestion id. */
  predicate DistinctIds(q: seq<Suggestion>) {
    forall i, j :: 0 <= i < j < |q| ==> q[i].suggestionId != q[j].suggestionId
  }

  function IdSet(q: seq<Suggestion>): (ids: set<string>)
    ensures forall id :: id in ids <==> exists i :: 0 <= i < |q| && q[i].suggestionId == id
  {
    set i | 0 <= i < |q| :: q[i].suggestionId
  }

  // ---------------------------------------------------------------- actions

  /** `toggleMuted`: flips `isMuted` and nothing else. */
  function ToggleMuted(s: DashboardState): (p: Patch)
    ensures Merge(s, p) == s.(isMuted := !s.isMuted)
  {
    EMPTY_PATCH.(isMuted := Some(!s.isMuted))
  }

  /** `pause`: stops playback and changes nothing else. */
  function Pause(s: DashboardState): (p: Patch)
    ensures Merge(s, p) == s.(isPlaying := false)
  {
    EMPTY_PATCH.(isPlaying := Some(false))
  }

  /** `updateLastFetchTimestamp` with the clock reading `now`. */
  function UpdateLastFetchTimestamp(s: DashboardState, now: int): (p: Patch)
    ensures Merge(s, p) == s.(lastFetchTimestamp := now)
  {
    EMPTY_PATCH.(lastFetchTimestamp := Some(now))
  }

  /** The head of a list, `tracks[0] ?? null`. */
  function Head(tracks: seq<Suggestion>): Option<Suggestion> {
    if tracks == [] then None else Some(tracks[0])
  }

  function HeadId(tracks: seq<Suggestion>): Option<string> {
    if tracks == [] then None else Some(tracks[0].suggestionId)
  }

  /**
   * `setQueue(tracks)` at time `now`: the queue is replaced and stamped; from an empty
   * queue the current suggestion becomes the new head; otherwise a current one is kept.
   */
  function SetQueue(s: DashboardState, tracks: seq<Suggestion>, now: int): (p: Patch)
    ensures var r := Merge(s, p);
            r.queue == tracks && r.lastFetchTimestamp == now
            && r.isMuted == s.isMuted && r.isPlaying == s.isPlaying
            && (s.queue == [] ==> r.currentSuggestionId == HeadId(tracks) && r.currentSuggestion == Head(tracks))
            && (s.queue != [] && s.currentSuggestionId.Some? ==> r.currentSuggestionId == s.currentSuggestionId)
            && (s.queue != [] && s.currentSuggestionId.None? ==> r.currentSuggestionId == HeadId(tracks))
            && (s.queue != [] && s.currentSuggestion.Some? ==> r.currentSuggestion == s.currentSuggestion)
            && (s.queue != [] && s.currentSuggestion.None? ==> r.currentSuggestion == Head(tracks))
  {
    if |s.queue| == 0 then
      Patch(Some(tracks), None, None, Some(HeadId(tracks)), Some(Head(tracks)), Some(now))
    else
      Patch(Some(tracks), None, None,
            Some(if s.currentSuggestionId.Some? then s.currentSuggestionId else HeadId(tracks)),
            Some(if s.currentSuggestion.Some? then s.currentSuggestion else Head(tracks)),
            Some(now))
  }

  /**
   * `addToQueue(newTracks)`: the incoming suggestions whose id is not yet queued are
   * appended; with none the state is unchanged. A missing current suggestion becomes
   * the head of the grown queue (its `-1` fallback cannot be reached: the grown queue
   * is never empty).
   */
  function AddToQueue(s: DashboardState, newTracks: seq<Suggestion>): (p: Patch)
    ensures var added := FilterNew(IdSet(s.queue), newTracks);
            added == [] ==> p == EMPTY_PATCH
    ensures var added := FilterNew(IdSet(s.queue), newTracks);
            var r := Merge(s, p);
            added != [] ==>
              r.queue == s.queue + added
              && r.isMuted == s.isMuted && r.isPlaying == s.isPlaying
              && r.lastFetchTimestamp == s.lastFetchTimestamp
              && r.currentSuggestionId == (if s.currentSuggestionId.Some? then s.currentSuggestionId
                                           else Some(r.queue[0].suggestionId))
              && r.currentSuggestion == (if s.currentSuggestion.Some? then s.currentSuggestion
                                         else Some(r.queue[0]))
  {
    var added := FilterNew(IdSet(s.queue), newTracks);
    if |added| == 0 then EMPTY_PATCH
    else
      var updated := s.queue + added;
      Patch(Some(updated), None, None,
            Some(if s.currentSuggestionId.Some? then s.currentSuggestionId else Some(updated[0].suggestionId)),
            Some(if s.currentSuggestion.Some? then s.currentSuggestion else Some(updated[0])),
            None)
  }

  /**
   * `setCurrentSuggestionId(id)`: the queue skips ahead to `id` when it lies after the
   * current suggestion and is kept otherwise; the current id becomes `id` and the
   * current suggestion the queued entry holding it, if any.
   */
  function SetCurrentSuggestionId(s: DashboardState, id: string): (p: Patch)
    ensures var r := Merge(s, p);
            var cur := FindIndex(s.queue, s.currentSuggestionId);
            var target := FindIndex(s.queue, Some(id));
            (target > cur ==> r.queue == s.queue[target..])
            && (target <= cur ==> r.queue == s.queue)
            && r.currentSuggestionId == Some(id)
            && r.currentSuggestion == Find(s.queue, id)
            && r.isMuted == s.isMuted && r.isPlaying == s.isPlaying
            && r.lastFetchTimestamp == s.lastFetchTimestamp
  {
    var cur := FindIndex(s.queue, s.currentSuggestionId);
    var target := FindIndex(s.queue, Some(id));
    Patch(Some(if target > cur then s.queue[target..] else s.queue), None, None,
          Some(Some(id)), Some(Find(s.queue, id)), None)
  }

  // ---------------------------------------------------------------- properties

  /** Adding the same batch twice adds nothing the second time. */
  lemma AddToQueueIdempotent(s: DashboardState, newTracks: seq<Suggestion>)
    ensures var s1 := Merge(s, AddToQueue(s, newTracks));
            AddToQueue(s1, newTracks) == EMPTY_PATCH
  {
    var s1 := Merge(s, AddToQueue(s, newTracks));
    var added := FilterNew(IdSet(s.queue), newTracks);
    if added != [] {
      forall j | 0 <= j < |newTracks| ensures newTracks[j].suggestionId in IdSet(s1.queue) {
        var x := newTracks[j];
        if x.suggestionId !in IdSet(s.queue) {
          assert x in added;
          var k :| 0 <= k < |added| && added[k] == x;
          assert s1.queue[|s.queue| + k] == x;
        } else {
          var i :| 0 <= i < |s.queue| && s.queue[i].suggestionId == x.suggestionId;
          assert s1.queue[i] == s.queue[i];
        }
      }
      FilterNewNone(IdSet(s1.queue), newTracks);
    }
  }

  /** Nothing passes the filter when every incoming id is already queued. */
  lemma {:induction false} FilterNewNone(existing: set<string>, tracks: seq<Suggestion>)
    requires forall j :: 0 <= j < |tracks| ==> tracks[j].suggestionId in existing
    ensures FilterNew(existing, tracks) == []
    decreases |tracks|
  {
    if tracks != [] {
      FilterNewNone(existing, tracks[1..]);
    }
  }

  /** A batch free of repeated ids keeps a queue free of repeated ids. */
  lemma AddToQueueKeepsDistinct(s: DashboardState, newTracks: seq<Suggestion>)
    requires DistinctIds(s.queue) && DistinctIds(newTracks)
    ensures DistinctIds(Merge(s, AddToQueue(s, newTracks)).queue)
  {
    var added := FilterNew(IdSet(s.queue), newTracks);
    FilterNewDistinct(IdSet(s.queue), newTracks);
    if added != [] {
      var q := s.queue + added;
      forall i, j | 0 <= i < j < |q| ensures q[i].suggestionId != q[j].suggestionId {
        if j >= |s.queue| {
          assert q[j] == added[j - |s.queue|] && q[j] in added;
          if i < |s.queue| {
            assert q[i].suggestionId in IdSet(s.queue);
          }
        }
      }
    }
  }

  lemma {:induction false} FilterNewDistinct(existing: set<string>, tracks: seq<Suggestion>)
    requires DistinctIds(tracks)
    ensures DistinctIds(FilterNew(existing, tracks))
  {
    if tracks != [] {
      assert DistinctIds(tracks[1..]) by {
        forall i, j | 0 <= i < j < |tracks[1..]|
          ensures tracks[1..][i].suggestionId != tracks[1..][j].suggestionId
        {
          assert tracks[1..][i] == tracks[i + 1] && tracks[1..][j] == tracks[j + 1];
        }
      }
      FilterNewDistinct(existing, tracks[1..]);
      var rest := FilterNew(existing, tracks[1..]);
      if tracks[0].suggestionId !in existing {
        var r := [tracks[0]] + rest;
        forall i, j | 0 <= i < j < |r| ensures r[i].suggestionId != r[j].suggestionId {
          if i == 0 {
            assert r[j] in rest;
            var k :| 0 <= k < |tracks[1..]| && tracks[1..][k] == r[j];
            assert tracks[k + 1] == r[j];
          } else {
            assert r[i] == rest[i - 1] && r[j] == rest[j - 1];
          }
        }
      }
    }
  }

  /** A batch that repeats an id is not deduplicated: both copies are queued. */
  lemma BatchNotDeduplicated(s: DashboardState, x: Suggestion)
    requires x.suggestionId !in IdSet(s.queue)
    ensures Merge(s, AddToQueue(s, [x, x])).queue == s.queue + [x, x]
  {
    assert [x, x][1..] == [x];
    assert FilterNew(IdSet(s.queue), [x]) == [x];
  }

  /** After `setCurrentSuggestionId` the queue is a suffix of the old one. */
  lemma SetCurrentKeepsSuffix(s: DashboardState, id: string)
    ensures var q := Merge(s, SetCurrentSuggestionId(s, id)).queue;
            |q| <= |s.queue| && q == s.queue[|s.queue| - |q|..]
  {
  }

  /** Skipping ahead to a queued id puts its entry at the head of the queue. */
  lemma SkipAheadToTarget(s: DashboardState, id: string)
    requires FindIndex(s.queue, Some(id)) > FindIndex(s.queue, s.currentSuggestionId)
    ensures var r := Merge(s, SetCurrentSuggestionId(s, id));
            r.queue != [] && r.queue[0].suggestionId == id && r.currentSuggestion == Some(r.queue[0])
  {
  }

  /** The default state: nothing queued, not playing, not muted, nothing current, never fetched. */
  lemma DefaultState()
    ensures DEFAULT_INIT_STATE.queue == [] && !DEFAULT_INIT_STATE.isPlaying && !DEFAULT_INIT_STATE.isMuted
    ensures DEFAULT_INIT_STATE.currentSuggestionId.None? && DEFAULT_INIT_STATE.currentSuggestion.None?
    ensures DEFAULT_INIT_STATE.lastFetchTimestamp == 0
  {
  }

  // ---------------------------------------------------------------- the store

  /** The store created by `createDashboardStore`; `set` merges a patch into `state`. */
  class Store {
    var state: DashboardState

    constructor(initState: DashboardState := DEFAULT_INIT_STATE)
      ensures state == initState
    {
      state := initState;
    }

    method Set(p: Patch)
      modifies this
      ensures state == Merge(old(state), p)
    {
      state := Merge(state, p);
    }

    method ToggleMutedAction()
      modifies this
      ensures state == old(state).(isMuted := !old(state).isMuted)
    {
      Set(ToggleMuted(state));
    }

    method PauseAction()
      modifies this
      ensures state == old(state).(isPlaying := false)
    {
      Set(Pause(state));
    }

    method UpdateLastFetchTimestampAction(now: int)
      modifies this
      ensures state == old(state).(lastFetchTimestamp := now)
    {
      Set(UpdateLastFetchTimestamp(state, now));
    }

    method SetQueueAction(tracks: seq<Suggestion>, now: int)
      modifies this
      ensures state == Merge(old(state), SetQueue(old(state), tracks, now))
    {
      Set(SetQueue(state, tracks, now));
    }

    method AddToQueueAction(newTracks: seq<Suggestion>)
      modifies this
      ensures state == Merge(old(state), AddToQueue(old(state), newTracks))
    {
      Set(AddToQueue(state, newTracks));
    }

    method SetCurrentSuggestionIdAction(id: string)
      modifies this
      ensures state == Merge(old(state), SetCurrentSuggestionId(old(state), id))
    {
      Set(SetCurrentSuggestionId(state, id));
    }

    /**
     * `next`: the queue array is shifted in place, the current suggestion moves to the
     * new head through a nested `setCurrentSuggestionId`, and playback continues iff
     * something is left. With nothing left the current suggestion is kept.
     */
    method Next()
      modifies this
      ensures var tail := if old(state).queue == [] then [] else old(state).queue[1..];
              state.queue == tail && state.isPlaying == (tail != [])
              && state.isMuted == old(state).isMuted
              && state.lastFetchTimestamp == old(state).lastFetchTimestamp
              && (tail != [] ==> state.currentSuggestionId == Some(tail[0].suggestionId)
                                 && state.currentSuggestion == Some(tail[0]))
              && (tail == [] ==> state.currentSuggestionId == old(state).currentSuggestionId
                                 && state.currentSuggestion == old(state).currentSuggestion)
    {
      // queue.shift() mutates the array the current state holds
      var queue := if |state.queue| == 0 then [] else state.queue[1..];
      state := state.(queue := queue);
      if |queue| != 0 {
        SetCurrentSuggestionIdAction(queue[0].suggestionId);
        assert FindIndex(queue, Some(queue[0].suggestionId)) == 0;
      }
      Set(EMPTY_PATCH.(queue := Some(queue), isPlaying := Some(|queue| != 0)));
    }

    /**
     * `play`: playback starts iff the queue is not empty; the current suggestion
     * becomes the head of the queue, whose contents do not change.
     */
    method Play()
      modifies this
      ensures state.queue == old(state).queue
      ensures state.isPlaying == (old(state).queue != [])
      ensures state.isMuted == old(state).isMuted && state.lastFetchTimestamp == old(state).lastFetchTimestamp
      ensures old(state).queue != [] ==>
                state.currentSuggestionId == Some(old(state).queue[0].suggestionId)
                && state.currentSuggestion == Some(old(state).queue[0])
      ensures old(state).queue == [] ==> state == old(state).(isPlaying := false)
    {
      var queue := state.queue;
      if |queue| != 0 {
        assert FindIndex(queue, Some(queue[0].suggestionId)) == 0;
        SetCurrentSuggestionIdAction(queue[0].suggestionId);
      }
      Set(EMPTY_PATCH.(isPlaying := Some(|queue| != 0)));
    }
  }
}
