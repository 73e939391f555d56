/**
 * The URI conversion done by the dashboard's video player before it asks the
 * Spotify embed controller to load a track (video-player.tsx, track-loading effect):
 * embed and open.spotify.com web links become `spotify:<kind>:<id>` URIs; anything
 * else is handed to the controller unchanged.
 */
module VideoPlayer {
  import opened Text

  const OPEN_SPOTIFY_PREFIX: string := "https://open.spotify.com/"
  const EMBED_MARKER: string := "/embed"

  /** The uri actually loaded for a track uri. */
  function ToSpotifyUri(uri: string): (r: string)
    ensures !Contains(uri, EMBED_MARKER) && !StartsWith(uri, OPEN_SPOTIFY_PREFIX) ==> r == uri
    ensures Contains(uri, EMBED_MARKER) || StartsWith(uri, OPEN_SPOTIFY_PREFIX) ==>
              StartsWith(r, "spotify:")
  {
    if Contains(uri, EMBED_MARKER) then
      // uri.split("/embed")[1].split("/"), then segments 1 and 2
      var parts := Split(Part(Split(uri, EMBED_MARKER), 1), "/");
      "spotify:" + Part(parts, 1) + ":" + Part(parts, 2)
    else if StartsWith(uri, OPEN_SPOTIFY_PREFIX) then
      // uri.replace(prefix, "").split("/"), then segments 0 and 1
      var parts := Split(ReplaceFirst(uri, OPEN_SPOTIFY_PREFIX, ""), "/");
      "spotify:" + Part(parts, 0) + ":" + Part(parts, 1)
    else
      uri
  }

  predicate NoSlash(s: string) {
    forall i :: 0 <= i < |s| ==> s[i] != '/'
  }

  /** `kind` and `id` are path segments, and the path after the host does not contain "/embed". */
  predicate Segments(kind: string, id: string) {
    NoSlash(kind) && NoSlash(id) && !Contains("/" + kind + "/" + id, EMBED_MARKER)
  }

  lemma SegmentsSplit(kind: string, id: string)
    requires NoSlash(kind) && NoSlash(id)
    ensures Split("/" + kind + "/" + id, "/") == ["", kind, id]
    ensures Split(kind + "/" + id, "/") == [kind, id]
  {
    PairSplit(kind, id);
    var rel := kind + "/" + id;
    assert "" + ['/'] + rel == "/" + kind + "/" + id;
    SplitAfterFree("", '/', rel);
    assert Split("" + ['/'] + rel, ['/']) == [""] + [kind, id];
  }

  /** Two slash-free segments joined by one slash split back into the two. */
  lemma PairSplit(kind: string, id: string)
    requires NoSlash(kind) && NoSlash(id)
    ensures Split(kind + "/" + id, "/") == [kind, id]
  {
    SplitAfterFree(kind, '/', id);
    FreeNotContains(id, '/');
    SplitWithoutSeparator(id, "/");
    assert kind + ['/'] + id == kind + "/" + id;
  }

  /** Before the path, neither kind of link has an occurrence of "/embed". */
  lemma HostHasNoEmbed(u: string, j: int)
    requires StartsWith(u, OPEN_SPOTIFY_PREFIX)
    requires 0 <= j < 24
    ensures !OccursAt(u, EMBED_MARKER, j)
  {
    assert u[..25] == OPEN_SPOTIFY_PREFIX;
    assert u[j] == OPEN_SPOTIFY_PREFIX[j] && u[j + 1] == OPEN_SPOTIFY_PREFIX[j + 1];
    assert !(OPEN_SPOTIFY_PREFIX[j] == '/' && OPEN_SPOTIFY_PREFIX[j + 1] == 'e');
  }

  /** https://open.spotify.com/embed/<kind>/<id> loads as spotify:<kind>:<id>. */
  lemma EmbedLink(kind: string, id: string)
    requires Segments(kind, id)
    ensures ToSpotifyUri("https://open.spotify.com/embed/" + kind + "/" + id) == "spotify:" + kind + ":" + id
  {
    var host := "https://open.spotify.com";
    var rest := "/" + kind + "/" + id;
    var u := "https://open.spotify.com/embed/" + kind + "/" + id;
    assert u == host + EMBED_MARKER + rest;
    assert StartsWith(u, OPEN_SPOTIFY_PREFIX);
    assert OccursAt(u, EMBED_MARKER, 24);
    forall j | 0 <= j < 24 ensures !OccursAt(u, EMBED_MARKER, j) {
      HostHasNoEmbed(u, j);
    }
    assert IndexOf(u, EMBED_MARKER) == 24;
    assert u[..24] == host && u[30..] == rest;
    SplitWithoutSeparator(rest, EMBED_MARKER);
    assert Split(u, EMBED_MARKER) == [host, rest];
    SegmentsSplit(kind, id);
  }

  /** A web link whose path does not contain "/embed" does not contain it at all. */
  lemma WebLinkHasNoEmbed(path: string)
    requires !Contains("/" + path, EMBED_MARKER)
    ensures !Contains(OPEN_SPOTIFY_PREFIX + path, EMBED_MARKER)
  {
    var host := "https://open.spotify.com";
    var u := OPEN_SPOTIFY_PREFIX + path;
    assert u == host + ("/" + path);
    assert StartsWith(u, OPEN_SPOTIFY_PREFIX);
    forall j | 0 <= j <= |u| ensures !OccursAt(u, EMBED_MARKER, j) {
      if j < 24 {
        HostHasNoEmbed(u, j);
      } else if OccursAt(u, EMBED_MARKER, j) {
        OccursInSuffix(host, "/" + path, EMBED_MARKER, j);
        ContainsWitness("/" + path, EMBED_MARKER, j - 24);
      }
    }
  }

  /** https://open.spotify.com/<kind>/<id> loads as spotify:<kind>:<id>. */
  lemma OpenLink(kind: string, id: string)
    requires Segments(kind, id)
    ensures ToSpotifyUri("https://open.spotify.com/" + kind + "/" + id) == "spotify:" + kind + ":" + id
  {
    var path := kind + "/" + id;
    var u := "https://open.spotify.com/" + kind + "/" + id;
    assert u == OPEN_SPOTIFY_PREFIX + path;
    assert "/" + path == "/" + kind + "/" + id;
    WebLinkHasNoEmbed(path);
    assert StartsWith(u, OPEN_SPOTIFY_PREFIX);
    ReplaceFirstOfPrefix(u, OPEN_SPOTIFY_PREFIX, "");
    assert u[|OPEN_SPOTIFY_PREFIX|..] == path;
    var stripped := ReplaceFirst(u, OPEN_SPOTIFY_PREFIX, "");
    assert stripped == path;
    SegmentsSplit(kind, id);
    var parts := Split(stripped, "/");
    assert parts == [kind, id];
    assert Part(parts, 0) == kind && Part(parts, 1) == id;
    assert ToSpotifyUri(u) == "spotify:" + Part(parts, 0) + ":" + Part(parts, 1);
  }

  /** The embed and the web link of one track load the same uri; the embed test is tried first. */
  lemma EmbedAndOpenAgree(kind: string, id: string)
    requires Segments(kind, id)
    ensures ToSpotifyUri("https://open.spotify.com/embed/" + kind + "/" + id)
         == ToSpotifyUri("https://open.spotify.com/" + kind + "/" + id)
  {
    EmbedLink(kind, id);
    OpenLink(kind, id);
  }

  /** A web link with a single path segment formats the missing segment as "undefined". */
  lemma MissingSegment(kind: string)
    requires NoSlash(kind) && !Contains("/" + kind, EMBED_MARKER)
    ensures ToSpotifyUri("https://open.spotify.com/" + kind) == "spotify:" + kind + ":undefined"
  {
    var u := "https://open.spotify.com/" + kind;
    WebLinkHasNoEmbed(kind);
    assert StartsWith(u, OPEN_SPOTIFY_PREFIX);
    ReplaceFirstOfPrefix(u, OPEN_SPOTIFY_PREFIX, "");
    assert u[|OPEN_SPOTIFY_PREFIX|..] == kind;
    FreeNotContains(kind, '/');
    SplitWithoutSeparator(kind, "/");
  }
}
