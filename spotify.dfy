/**
 * The Spotify Web API client (acura/internal/services/spotify.py). The service object
 * caches a bearer token with its expiry and an optional refresh token; every API method
 * first renews an expired token, by the client-credentials grant (section 4.4 of RFC 6749)
 * or, when a refresh token is held, by the refresh grant (section 6 of RFC 6749).
 * The token endpoint and the API are oracles, and the clock reading is the parameter `now`.
 */
module Spotify {
  import opened Wrappers

  /** A JSON object field: absent, present with the value null, or present with a value. */
  datatype Field<+T> = Absent | Null | Present(value: T)

  /** A catalog track as the pipeline reads it. */
  datatype Image = Image(url: Option<string>)
  /** `images` holds None for an entry that is JSON null. */
  datatype Album = Album(images: Field<seq<Option<Image>>>)
  datatype SpotifyTrack = SpotifyTrack(
    name: string,
    artists: seq<string>,
    durationMs: int,
    explicit: bool,
    album: Field<Album>)

  datatype SpotifyPlaylist = SpotifyPlaylist(id: string, name: string, description: string)

  /** A `next` link after `urllib.parse.urlparse`: its path and its query string. */
  datatype Url = Url(path: string, query: string)

  datatype SpotifyFault =
    | ArgumentError            // the ValueError of `search_playlists`
    | TokenHttpError(code: int)
    | ApiHttpError(code: int)
    | MissingKey               // a KeyError on the decoded body

  /** The form sent to the token endpoint. */
  datatype TokenRequest = ClientCredentials | RefreshGrant(refreshToken: string, scope: string)

  /**
   * The token endpoint's answer. `refreshToken` is None when the field is absent and
   * Some(None) when it is JSON null.
   */
  datatype TokenResponse =
    | Granted(accessToken: string, expiresIn: int, refreshToken: Option<Option<string>>)
    | TokenRejected(code: int)

  /** The service's token fields: the bearer token, its expiry and the refresh token. */
  datatype TokenState = TokenState(bearer: Option<string>, expiration: Option<int>, refresh: Option<string>)

  /**
   * The token fields after the endpoint grants `g` to the form `sent` at `now`. The access
   * token and its expiry are always replaced. A client-credentials grant takes the refresh
   * token from the answer, or none when the field is absent. A refresh grant keeps the held
   * one unless the field is present.
   */
  function Renewed(t: TokenState, now: int, sent: TokenRequest, g: TokenResponse): (u: TokenState)
    requires g.Granted?
    ensures u.bearer.Some? && u.expiration.Some?
  {
    TokenState(Some(g.accessToken), Some(now + g.expiresIn),
               if g.refreshToken.Some? then g.refreshToken.value
               else if sent.RefreshGrant? then t.refresh
               else None)
  }

  /** One page of playlist items: its `item["track"]` values and its `next` link. */
  datatype PageReply = Page(tracks: seq<Option<SpotifyTrack>>, next: Option<Url>) | PageHttpError(code: int)

  /** The playlist search request: a fresh query, or a `next` link to follow. */
  datatype SearchCall = Search(q: string, kind: string, limit: int) | FollowLink(path: string, query: string)
  datatype SearchReply =
    | SearchPage(items: seq<Option<SpotifyPlaylist>>, next: Option<Url>)
    | SearchHttpError(code: int)

  /** The `/v1/tracks/{id}` reply: an error status, or a body that may lack "tracks". */
  datatype TrackReply = TrackBody(tracks: Option<seq<SpotifyTrack>>) | TrackHttpError(code: int)

  /** What `get_track_by_id` makes of the reply once authorized: `raise_for_status`, then `["tracks"]`. */
  function TrackResult(reply: TrackReply): Result<seq<SpotifyTrack>, SpotifyFault> {
    match reply
    case TrackHttpError(code) => Failure(ApiHttpError(code))
    case TrackBody(None) => Failure(MissingKey)
    case TrackBody(Some(ts)) => Success(ts)
  }

  const REFRESH_SCOPE: string := "playlist-read-private"
  const SEARCH_KIND: string := "playlist"
  const DEFAULT_SEARCH_LIMIT: int := 10

  /** The request target for a `next` link: its path, then '?' and the query when there is one. */
  function NextTarget(u: Url): string {
    if u.query != "" then u.path + "?" + u.query else u.path
  }

  function PlaylistTracksTarget(id: string): string {
    "/v1/playlists/" + id + "/tracks"
  }

  /** The items a page contributes when `found` items are already collected. */
  function Taken(tracks: seq<Option<SpotifyTrack>>, totalLimit: Option<int>, found: nat): seq<Option<SpotifyTrack>> {
    if totalLimit.Some? && totalLimit.value != 0 then
      var room := totalLimit.value - found;
      if room < 0 then [] else if room < |tracks| then tracks[..room] else tracks
    else tracks
  }

  /** The loop of `get_playlist_tracks` entered with `found` collected, `pages` answering the next requests. */
  function Collect(pages: seq<PageReply>, totalLimit: Option<int>, found: seq<Option<SpotifyTrack>>): Result<seq<Option<SpotifyTrack>>, SpotifyFault>
    decreases |pages|
  {
    if totalLimit.Some? && |found| >= totalLimit.value then Success(found)
    else if |pages| == 0 then Success(found)
    else match pages[0]
      case PageHttpError(code) => Failure(ApiHttpError(code))
      case Page(tracks, next) =>
        var more := found + Taken(tracks, totalLimit, |found|);
        if next.Some? && (totalLimit.None? || |more| < totalLimit.value) then Collect(pages[1..], totalLimit, more)
        else Success(more)
  }

  /** All track values of the pages, in order. */
  function Concat(pages: seq<PageReply>): seq<Option<SpotifyTrack>> {
    if |pages| == 0 then []
    else (if pages[0].Page? then pages[0].tracks else []) + Concat(pages[1..])
  }

  /** The page answering the last request stops the loop: an error, or no `next` link. */
  predicate Terminal(pages: seq<PageReply>) {
    |pages| > 0 && (pages[|pages| - 1].PageHttpError? || pages[|pages| - 1].next.None?)
  }

  /** A page sequence following its `next` links to the end. */
  predicate LinkedPages(pages: seq<PageReply>) {
    |pages| > 0
    && (forall i :: 0 <= i < |pages| ==> pages[i].Page?)
    && (forall i :: 0 <= i < |pages| - 1 ==> pages[i].next.Some?)
    && pages[|pages| - 1].next.None?
  }

  /** The collected tracks extend `found` by a prefix of the remaining pages' tracks. */
  lemma {:induction false} CollectIsPrefix(pages: seq<PageReply>, totalLimit: Option<int>, found: seq<Option<SpotifyTrack>>)
    requires Collect(pages, totalLimit, found).Success?
    ensures var r := Collect(pages, totalLimit, found).value;
            |found| <= |r| <= |found| + |Concat(pages)| && r == (found + Concat(pages))[..|r|]
    decreases |pages|
  {
    var r := Collect(pages, totalLimit, found).value;
    if totalLimit.Some? && |found| >= totalLimit.value {
    } else if |pages| == 0 {
    } else {
      var tracks := pages[0].tracks;
      var taken := Taken(tracks, totalLimit, |found|);
      var more := found + taken;
      assert taken == tracks[..|taken|];
      assert Concat(pages) == tracks + Concat(pages[1..]);
      assert found + Concat(pages) == more + (tracks[|taken|..] + Concat(pages[1..]));
      if pages[0].next.Some? && (totalLimit.None? || |more| < totalLimit.value) {
        CollectIsPrefix(pages[1..], totalLimit, more);
        assert taken == tracks;
        assert found + Concat(pages) == more + Concat(pages[1..]);
      } else {
        assert r == more;
        assert (found + Concat(pages))[..|r|] == more;
      }
    }
  }

  /** With a positive limit, never more than `totalLimit` tracks are collected. */
  lemma {:induction false} CollectWithinLimit(pages: seq<PageReply>, limit: int, found: seq<Option<SpotifyTrack>>)
    requires limit > 0 && |found| <= limit
    requires Collect(pages, Some(limit), found).Success?
    ensures |Collect(pages, Some(limit), found).value| <= limit
    decreases |pages|
  {
    if |found| < limit && |pages| > 0 {
      var more := found + Taken(pages[0].tracks, Some(limit), |found|);
      if pages[0].next.Some? && |more| < limit {
        CollectWithinLimit(pages[1..], limit, more);
      }
    }
  }

  /** Without a limit, following the links to the end yields every page's tracks in order. */
  lemma {:induction false} CollectAll(pages: seq<PageReply>, found: seq<Option<SpotifyTrack>>)
    requires LinkedPages(pages)
    ensures Collect(pages, None, found) == Success(found + Concat(pages))
    decreases |pages|
  {
    var more := found + pages[0].tracks;
    assert Taken(pages[0].tracks, None, |found|) == pages[0].tracks;
    if |pages| == 1 {
      assert pages[0].Page? && pages[0].next.None?;
      assert pages[1..] == [];
      assert Concat(pages) == pages[0].tracks + Concat(pages[1..]);
      assert Concat(pages[1..]) == [];
      assert found + Concat(pages) == more;
      assert Collect(pages, None, found) == Success(more);
    } else {
      assert LinkedPages(pages[1..]);
      CollectAll(pages[1..], more);
      assert found + Concat(pages) == more + Concat(pages[1..]);
    }
  }

  /** The k-th path `get_playlist_tracks` requests: the tracks path, then the `next` link of page k - 1. */
  predicate TargetOk(id: string, pages: seq<PageReply>, k: int, target: string) {
    if k == 0 then target == PlaylistTracksTarget(id)
    else 0 < k <= |pages| && pages[k - 1].Page? && pages[k - 1].next.Some? && target == NextTarget(pages[k - 1].next.value)
  }

  /** Every requested path is the one the paging prescribes. */
  predicate TrailOk(id: string, pages: seq<PageReply>, targets: seq<string>) {
    forall i :: 0 <= i < |targets| ==> TargetOk(id, pages, i, targets[i])
  }

  lemma TrailSnoc(id: string, pages: seq<PageReply>, targets: seq<string>, target: string)
    requires TrailOk(id, pages, targets) && TargetOk(id, pages, |targets|, target)
    ensures TrailOk(id, pages, targets + [target])
  {
    var t := targets + [target];
    forall i | 0 <= i < |t| ensures TargetOk(id, pages, i, t[i]) {
      if i < |targets| {
        assert t[i] == targets[i];
      }
    }
  }

  /** What a prescribed trail of paths says link by link. */
  lemma TrailLinks(id: string, pages: seq<PageReply>, targets: seq<string>)
    requires |targets| <= |pages| && TrailOk(id, pages, targets)
    ensures |targets| > 0 ==> targets[0] == PlaylistTracksTarget(id)
    ensures forall i :: 0 <= i < |targets| - 1 ==>
              pages[i].Page? && pages[i].next.Some? && targets[i + 1] == NextTarget(pages[i].next.value)
  {
    forall i | 0 <= i < |targets| - 1
      ensures pages[i].Page? && pages[i].next.Some? && targets[i + 1] == NextTarget(pages[i].next.value)
    {
      assert TargetOk(id, pages, i + 1, targets[i + 1]);
    }
    if |targets| > 0 {
      assert TargetOk(id, pages, 0, targets[0]);
    }
  }

  /**
   * The paging loop of `get_playlist_tracks` once the token is valid: requests the
   * playlist's tracks path, then each `next` link, until the limit is met or no link is left.
   */
  method FetchPages(id: string, totalLimit: Option<int>, pages: seq<PageReply>)
    returns (r: Result<seq<Option<SpotifyTrack>>, SpotifyFault>, targets: seq<string>)
    requires Terminal(pages)
    ensures r == Collect(pages, totalLimit, [])
    ensures r.Failure? ==> r.error.ApiHttpError?
    ensures |targets| <= |pages| && TrailOk(id, pages, targets)
  {
    targets := [];
    var target := PlaylistTracksTarget(id);
    var found: seq<Option<SpotifyTrack>> := [];
    var k := 0;
    while totalLimit.None? || |found| < totalLimit.value
      invariant 0 <= k < |pages| && |targets| == k
      invariant TargetOk(id, pages, k, target) && TrailOk(id, pages, targets)
      invariant Collect(pages[k..], totalLimit, found) == Collect(pages, totalLimit, [])
      decreases |pages| - k
    {
      TrailSnoc(id, pages, targets, target);
      targets := targets + [target];
      var reply := pages[k];
      if reply.PageHttpError? {
        return Failure(ApiHttpError(reply.code)), targets;
      }
      found := found + Taken(reply.tracks, totalLimit, |found|);
      if reply.next.Some? && (totalLimit.None? || |found| < totalLimit.value) {
        assert pages[k..][1..] == pages[k + 1..];
        target := NextTarget(reply.next.value);
        k := k + 1;
      } else {
        break;
      }
    }
    return Success(found), targets;
  }

  class SpotifyService {
    var bearerToken: Option<string>
    var refreshToken: Option<string>
    var tokenExpiration: Option<int>

    ghost predicate Valid()
      reads this
    {
      bearerToken.Some? ==> tokenExpiration.Some?
    }

    constructor()
      ensures Valid() && bearerToken.None? && refreshToken.None? && tokenExpiration.None?
    {
      bearerToken := None;
      refreshToken := None;
      tokenExpiration := None;
    }

    /** `__token_expired`: no token is held, or `now` has reached its expiry. */
    predicate TokenExpired(now: int)
      requires Valid()
      reads this
    {
      bearerToken.None? || now >= tokenExpiration.value
    }

    /** The token fields as a value. */
    function State(): TokenState
      reads this
    {
      TokenState(bearerToken, tokenExpiration, refreshToken)
    }

    /**
     * The token fields after the expiry check every API method makes: kept while the token
     * is live or when the endpoint rejects the form sent, renewed by the answer otherwise.
     */
    function AfterAuth(now: int, endpoint: TokenRequest -> TokenResponse): TokenState
      requires Valid()
      reads this
    {
      if !TokenExpired(now) || endpoint(TokenSent()).TokenRejected? then State()
      else Renewed(State(), now, TokenSent(), endpoint(TokenSent()))
    }

    /** Whether `__set_token` takes the refresh flow: a non-empty refresh token is held. */
    predicate RefreshHeld()
      reads this
    {
      refreshToken.Some? && refreshToken.value != ""
    }

    /** The form `__set_token` sends in the current state. */
    function TokenSent(): TokenRequest
      reads this
    {
      if RefreshHeld() then RefreshGrant(refreshToken.value, REFRESH_SCOPE) else ClientCredentials
    }

    /** An API call gets past the token check: the token is live, or the endpoint grants what is sent. */
    predicate AuthOk(now: int, endpoint: TokenRequest -> TokenResponse)
      requires Valid()
      reads this
    {
      !TokenExpired(now) || endpoint(TokenSent()).Granted?
    }

    /** `__request_new_token`: the client-credentials grant; the refresh token is taken from the answer. */
    method RequestNewToken(now: int, endpoint: TokenRequest -> TokenResponse) returns (r: Result<(), SpotifyFault>)
      requires Valid()
      modifies this
      ensures Valid()
      ensures endpoint(ClientCredentials).TokenRejected? ==>
                r == Failure(TokenHttpError(endpoint(ClientCredentials).code)) && unchanged(this)
      ensures endpoint(ClientCredentials).Granted? ==>
                var g := endpoint(ClientCredentials);
                r == Success(()) && bearerToken == Some(g.accessToken)
                && tokenExpiration == Some(now + g.expiresIn)
                && refreshToken == (if g.refreshToken.Some? then g.refreshToken.value else None)
      ensures endpoint(ClientCredentials).Granted? ==>
                State() == Renewed(old(State()), now, ClientCredentials, endpoint(ClientCredentials))
    {
      var answer := endpoint(ClientCredentials);
      if answer.TokenRejected? {
        return Failure(TokenHttpError(answer.code));
      }
      bearerToken := Some(answer.accessToken);
      tokenExpiration := Some(now + answer.expiresIn);
      refreshToken := if answer.refreshToken.Some? then answer.refreshToken.value else None;
      return Success(());
    }

    /** `__refresh_access_token`: the refresh grant; the old refresh token stays unless a new field is sent. */
    method RefreshAccessToken(now: int, endpoint: TokenRequest -> TokenResponse) returns (r: Result<(), SpotifyFault>)
      requires Valid() && refreshToken.Some?
      modifies this
      ensures Valid()
      ensures var sent := RefreshGrant(old(refreshToken.value), REFRESH_SCOPE);
              (endpoint(sent).TokenRejected? ==> r == Failure(TokenHttpError(endpoint(sent).code)) && unchanged(this))
              && (endpoint(sent).Granted? ==>
                    r == Success(()) && bearerToken == Some(endpoint(sent).accessToken)
                    && tokenExpiration == Some(now + endpoint(sent).expiresIn)
                    && refreshToken == (if endpoint(sent).refreshToken.Some? then endpoint(sent).refreshToken.value
                                        else old(refreshToken)))
      ensures var sent := RefreshGrant(old(refreshToken.value), REFRESH_SCOPE);
              endpoint(sent).Granted? ==> State() == Renewed(old(State()), now, sent, endpoint(sent))
    {
      var answer := endpoint(RefreshGrant(refreshToken.value, REFRESH_SCOPE));
      if answer.TokenRejected? {
        return Failure(TokenHttpError(answer.code));
      }
      bearerToken := Some(answer.accessToken);
      tokenExpiration := Some(now + answer.expiresIn);
      if answer.refreshToken.Some? {
        refreshToken := answer.refreshToken.value;
      }
      return Success(());
    }

    /** `__set_token`: the refresh flow exactly when a non-empty refresh token is held. */
    method SetToken(now: int, endpoint: TokenRequest -> TokenResponse) returns (r: Result<(), SpotifyFault>, sent: TokenRequest)
      requires Valid()
      modifies this
      ensures Valid()
      ensures sent == old(TokenSent())
      ensures endpoint(sent).TokenRejected? ==> r == Failure(TokenHttpError(endpoint(sent).code)) && unchanged(this)
      ensures endpoint(sent).Granted? ==>
                r.Success? && bearerToken == Some(endpoint(sent).accessToken)
                && tokenExpiration == Some(now + endpoint(sent).expiresIn)
      ensures endpoint(sent).Granted? && endpoint(sent).expiresIn > 0 ==> !TokenExpired(now)
      ensures endpoint(sent).Granted? ==> State() == Renewed(old(State()), now, sent, endpoint(sent))
      ensures endpoint(sent).Granted? && endpoint(sent).refreshToken.None? ==>
                refreshToken == (if sent.RefreshGrant? then old(refreshToken) else None)
      ensures endpoint(sent).Granted? && endpoint(sent).refreshToken.Some? ==>
                refreshToken == endpoint(sent).refreshToken.value
    {
      if RefreshHeld() {
        sent := RefreshGrant(refreshToken.value, REFRESH_SCOPE);
        r := RefreshAccessToken(now, endpoint);
      } else {
        sent := ClientCredentials;
        r := RequestNewToken(now, endpoint);
      }
    }

    /** The check every API method makes first: renew the token if it has expired. */
    method Authorize(now: int, endpoint: TokenRequest -> TokenResponse) returns (r: Result<(), SpotifyFault>)
      requires Valid()
      modifies this
      ensures Valid()
      ensures !old(TokenExpired(now)) ==> r == Success(()) && unchanged(this)
      ensures r.Success? <==> old(AuthOk(now, endpoint))
      ensures old(TokenExpired(now)) && r.Success? ==>
                bearerToken == Some(endpoint(old(TokenSent())).accessToken)
                && tokenExpiration == Some(now + endpoint(old(TokenSent())).expiresIn)
      ensures r.Failure? ==> r == Failure(TokenHttpError(endpoint(old(TokenSent())).code)) && unchanged(this)
      ensures State() == old(AfterAuth(now, endpoint))
    {
      if TokenExpired(now) {
        var sent;
        r, sent := SetToken(now, endpoint);
      } else {
        r := Success(());
      }
    }

    /** `get_track_by_id`: the reply's "tracks" field. */
    method GetTrackById(id: string, now: int, endpoint: TokenRequest -> TokenResponse, api: string -> TrackReply)
      returns (r: Result<seq<SpotifyTrack>, SpotifyFault>)
      requires Valid()
      modifies this
      ensures Valid()
      ensures !old(TokenExpired(now)) ==> unchanged(this)
      ensures old(AuthOk(now, endpoint)) ==> r == TrackResult(api("/v1/tracks/" + id))
      ensures !old(AuthOk(now, endpoint)) ==> r.Failure? && r.error.TokenHttpError?
      ensures r.Success? ==> api("/v1/tracks/" + id) == TrackBody(Some(r.value))
      ensures State() == old(AfterAuth(now, endpoint))
    {
      var auth := Authorize(now, endpoint);
      if auth.Failure? {
        return Failure(auth.error);
      }
      var reply := api("/v1/tracks/" + id);
      if reply.TrackHttpError? {
        return Failure(ApiHttpError(reply.code));
      }
      if reply.tracks.None? {
        return Failure(MissingKey);
      }
      return Success(reply.tracks.value);
    }

    /**
     * `get_playlist_tracks`: `pages[k]` answers the k-th page request, the last of them
     * ending the paging. `targets` are the requested paths: the playlist's tracks path,
     * then the rebuilt target of each followed `next` link.
     */
    method GetPlaylistTracks(id: string, totalLimit: Option<int>, now: int, endpoint: TokenRequest -> TokenResponse, pages: seq<PageReply>)
      returns (r: Result<seq<Option<SpotifyTrack>>, SpotifyFault>, targets: seq<string>)
      requires Valid() && Terminal(pages)
      modifies this
      ensures Valid()
      ensures !old(TokenExpired(now)) ==> unchanged(this)
      ensures old(AuthOk(now, endpoint)) ==> r == Collect(pages, totalLimit, [])
      ensures !old(AuthOk(now, endpoint)) ==> r.Failure? && r.error.TokenHttpError? && targets == []
      ensures State() == old(AfterAuth(now, endpoint))
      ensures |targets| <= |pages|
      ensures |targets| > 0 ==> targets[0] == PlaylistTracksTarget(id)
      ensures forall i :: 0 <= i < |targets| - 1 ==>
                pages[i].Page? && pages[i].next.Some? && targets[i + 1] == NextTarget(pages[i].next.value)
    {
      targets := [];
      var auth := Authorize(now, endpoint);
      if auth.Failure? {
        return Failure(auth.error), targets;
      }
      r, targets := FetchPages(id, totalLimit, pages);
      TrailLinks(id, pages, targets);
    }

    /** `search_playlists`: a ValueError, before any token renewal, when neither argument is given. */
    method SearchPlaylists(query: Option<string>, nextUrl: Option<Url>, now: int, endpoint: TokenRequest -> TokenResponse,
                           api: SearchCall -> SearchReply, limit: int := DEFAULT_SEARCH_LIMIT)
      returns (r: Result<(seq<Option<SpotifyPlaylist>>, Option<Url>), SpotifyFault>, call: Option<SearchCall>)
      requires Valid()
      modifies this
      ensures Valid()
      ensures query.None? && nextUrl.None? ==> r == Failure(ArgumentError) && call.None? && unchanged(this)
      ensures !old(TokenExpired(now)) ==> unchanged(this)
      ensures query.Some? || nextUrl.Some? ==> State() == old(AfterAuth(now, endpoint))
      ensures call.Some? && nextUrl.Some? ==> call.value == FollowLink(nextUrl.value.path, nextUrl.value.query)
      ensures call.Some? && nextUrl.None? ==> call.value == Search(query.value, SEARCH_KIND, limit)
      ensures query.Some? || nextUrl.Some? ==> (call.Some? <==> old(AuthOk(now, endpoint)))
      ensures call.None? && (query.Some? || nextUrl.Some?) ==> r.Failure? && r.error.TokenHttpError?
      ensures r.Success? ==> call.Some? && api(call.value) == SearchPage(r.value.0, r.value.1)
      ensures call.Some? && api(call.value).SearchPage? ==> r.Success?
      ensures call.Some? && api(call.value).SearchHttpError? ==> r == Failure(ApiHttpError(api(call.value).code))
    {
      if query.None? && nextUrl.None? {
        return Failure(ArgumentError), None;
      }
      var auth := Authorize(now, endpoint);
      if auth.Failure? {
        return Failure(auth.error), None;
      }
      if nextUrl.Some? {
        call := Some(FollowLink(nextUrl.value.path, nextUrl.value.query));
      } else {
        call := Some(Search(query.value, SEARCH_KIND, limit));
      }
      var reply := api(call.value);
      if reply.SearchHttpError? {
        return Failure(ApiHttpError(reply.code)), call;
      }
      return Success((reply.items, reply.next)), call;
    }
  }
}
