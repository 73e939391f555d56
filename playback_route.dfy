/**
 * The playback route of the dashboard (ui/src/app/api/update-last-played/route.ts):
 * `GET` records the suggestion a subscriber last played, in the playback table keyed
 * by subscriber id.
 */
module PlaybackRoute {
  import opened Wrappers
  import opened Schema

  /** Why a request ends without a response (the route throws). */
  datatype RouteError =
    | MissingCookie        // `lck` absent: the query is given `undefined`
    | MalformedLicense     // `lck` is not uuid text, so the cast in the query raises
    | UnknownLicense       // no subscriber row, so `results[0].id` throws
    | MalformedSuggestion  // `sid` is not uuid text, so the UPDATE or INSERT raises
    | UnknownSuggestion    // playback_suggestion_id_fkey violated

  datatype Reply = Reply(status: int, body: Option<string>)

  /**
   * What the route writes to `suggestion_id` for the query parameter `sid`: null when it
   * is absent, its uuid when it reads as one, and None (the write raises) otherwise.
   */
  function SuggestionParam(sid: Option<string>): (v: Option<Option<string>>)
    ensures sid.None? ==> v == Some(None)
    ensures sid.Some? ==> (v.Some? <==> ParseUuid(sid.value).Some?)
    ensures v.Some? && v.value.Some? ==> UuidValue(v.value.value)
  {
    if sid.None? then Some(None)
    else if ParseUuid(sid.value).None? then None
    else Some(ParseUuid(sid.value))
  }

  /** The tables the route touches; uuids are held as their 32 lower-case digits. */
  class PlaybackTables {
    var subscribers: seq<Subscriber>
    var suggestionIds: set<string>
    /** subscriber_id -> suggestion_id; the primary key makes it one row per subscriber. */
    var playback: map<int, Option<string>>

    /** Every playback row refers to a subscriber and, when set, to a suggestion. */
    predicate Valid()
      reads this
    {
      (forall id :: id in playback ==> exists s :: s in subscribers && s.id == id)
      && (forall id :: id in playback && playback[id].Some? ==> playback[id].value in suggestionIds)
    }

    constructor(subscribers: seq<Subscriber>, suggestionIds: set<string>)
      ensures this.subscribers == subscribers && this.suggestionIds == suggestionIds
      ensures playback == map[]
      ensures Valid()
    {
      this.subscribers := subscribers;
      this.suggestionIds := suggestionIds;
      playback := map[];
    }

    /**
     * `GET` with the `lck` cookie and the `sid` query parameter: the subscriber of the
     * first row holding that license gets `sid` (or null) as its playback suggestion,
     * by update when it has a row and by insert otherwise; other rows are unchanged.
     * The license comparison casts the cookie to a uuid, and the write casts `sid`; either
     * raises on other text.
     */
    method Get(cookie: Option<string>, sid: Option<string>) returns (r: Result<Reply, RouteError>)
      requires Valid()
      modifies this
      ensures Valid()
      ensures subscribers == old(subscribers) && suggestionIds == old(suggestionIds)
      ensures cookie.None? ==> r == Failure(MissingCookie) && playback == old(playback)
      ensures cookie.Some? && ParseUuid(cookie.value).None? ==>
                r == Failure(MalformedLicense) && playback == old(playback)
      ensures cookie.Some? && ParseUuid(cookie.value).Some? && SelectByLicense(subscribers, cookie.value) == [] ==>
                r == Failure(UnknownLicense) && playback == old(playback)
      ensures cookie.Some? && SelectByLicense(subscribers, cookie.value) != []
              && sid.Some? && ParseUuid(sid.value).None? ==>
                r == Failure(MalformedSuggestion) && playback == old(playback)
      ensures cookie.Some? && SelectByLicense(subscribers, cookie.value) != []
              && sid.Some? && ParseUuid(sid.value).Some? && ParseUuid(sid.value).value !in suggestionIds ==>
                r == Failure(UnknownSuggestion) && playback == old(playback)
      ensures r.Success? <==> cookie.Some? && SelectByLicense(subscribers, cookie.value) != []
                              && (sid.Some? ==> ParseUuid(sid.value).Some? && ParseUuid(sid.value).value in suggestionIds)
      ensures r.Success? ==>
                r.value == Reply(200, None) && SuggestionParam(sid).Some?
                && playback == old(playback)[SelectByLicense(subscribers, cookie.value)[0].id := SuggestionParam(sid).value]
    {
      if cookie.None? {
        return Failure(MissingCookie);
      }
      if ParseUuid(cookie.value).None? {
        return Failure(MalformedLicense);
      }
      var results := SelectByLicense(subscribers, cookie.value);
      if |results| == 0 {
        return Failure(UnknownLicense);
      }
      var subscriberId := results[0].id;
      assert results[0] in subscribers;
      var suggestionId := SuggestionParam(sid);
      if suggestionId.None? {
        return Failure(MalformedSuggestion);
      }
      if suggestionId.value.Some? && suggestionId.value.value !in suggestionIds {
        return Failure(UnknownSuggestion);
      }
      // An existing row is updated in place and a missing one inserted; on a table
      // keyed by subscriber id both come to the same assignment.
      playback := playback[subscriberId := suggestionId.value];
      r := Success(Reply(200, None));
    }
  }

  /** Two plays in a row leave only the second suggestion recorded, still one row per subscriber. */
  method PlayTwice(t: PlaybackTables, cookie: string, first: string, second: string)
    returns (last: Option<string>)
    requires t.Valid() && SelectByLicense(t.subscribers, cookie) != []
    requires ParseUuid(first).Some? && ParseUuid(first).value in t.suggestionIds
    requires ParseUuid(second).Some? && ParseUuid(second).value in t.suggestionIds
    modifies t
    ensures last == ParseUuid(second)
  {
    var id := SelectByLicense(t.subscribers, cookie)[0].id;
    var r1 := t.Get(Some(cookie), Some(first));
    var r2 := t.Get(Some(cookie), Some(second));
    last := t.playback[id];
  }
}
