/**
 * The older data access package (acura/internal/models/dao/__init__.py). Its
 * subscriber lookup, prompt query, playlist create-or-fetch, track creation and
 * suggestion insert behave exactly as those of dao.py and are modelled once, by
 * `Dao.Store`; only `add_track_to_playlist` differs: it returns nothing.
 */
module LegacyDao {
  import opened Wrappers
  import opened Schema
  import opened Dao

  /**
   * `add_track_to_playlist` of the older package: links the track only when it was
   * created, and returns None either way (a failed link still raises).
   */
  method AddTrackToPlaylist(db: Store, playlistId: int, data: TrackData, now: Timestamp) returns (r: Result<(), DaoError>)
    requires db.Valid()
    modifies db
    ensures db.Valid()
    ensures db.subscribers == old(db.subscribers) && db.prompts == old(db.prompts) && db.playlists == old(db.playlists)
    ensures db.playlistSeq == old(db.playlistSeq) && db.trackSeq == old(db.trackSeq) + 1
    ensures TitleArtistTaken(old(db.tracks), data.title, data.artist) ==>
              r == Success(()) && db.tracks == old(db.tracks) && db.suggestions == old(db.suggestions)
              && db.uuidSeq == old(db.uuidSeq)
    ensures !TitleArtistTaken(old(db.tracks), data.title, data.artist) ==>
              db.tracks == old(db.tracks)[old(db.trackSeq) := NewTrack(old(db.trackSeq), data)]
              && db.uuidSeq == old(db.uuidSeq) + 1
    ensures !TitleArtistTaken(old(db.tracks), data.title, data.artist) && playlistId in db.playlists ==>
              r == Success(())
              && db.suggestions == old(db.suggestions) + [Suggestion(playlistId, old(db.trackSeq), old(db.uuidSeq), Some(now))]
    ensures !TitleArtistTaken(old(db.tracks), data.title, data.artist) && playlistId !in db.playlists ==>
              r == Failure(ForeignKeyViolation) && db.suggestions == old(db.suggestions)
  {
    var track := db.CreateTrack(data);
    if track.Some? {
      var link := db.AddTrackToSuggestions(playlistId, track.value.id, now);
      if link.Failure? {
        return Failure(link.error);
      }
    }
    return Success(());
  }
}
