/** The remote music platform as the tools see it through `spotify-web-api-node`:
    the response objects they read, the calls they make, and an opaque responder.
    Every tool reports the calls it made, in order, as an append-only log. */
module Spotify {
  import opened Wrappers
  import opened Js

  datatype Image = Image(url: string, height: Maybe<int>, width: Maybe<int>)
  datatype ArtistObject = ArtistObject(id: string, name: string, uri: string)
  datatype AlbumObject = AlbumObject(id: string, name: string, images: seq<Image>, releaseDate: string, albumType: string)
  datatype TrackObject = TrackObject(
    id: string, uri: string, name: string, artists: seq<ArtistObject>, album: AlbumObject,
    durationMs: int, explicit: bool, popularity: int, previewUrl: Maybe<string>, trackNumber: int)
  datatype UserObject = UserObject(id: string, displayName: Maybe<string>)
  datatype PlaylistObject = PlaylistObject(id: string, name: string, owner: UserObject, snapshotId: string)

  /** One entry of a playlist; `track` is null for entries the platform can no longer resolve. */
  datatype PlaylistTrackObject = PlaylistTrackObject(addedAt: string, addedBy: Maybe<UserObject>, track: Maybe<TrackObject>)

  /** Response bodies; each field the tools read may be missing. */
  datatype PlaylistsPage = PlaylistsPage(items: Maybe<seq<Maybe<PlaylistObject>>>, total: Maybe<int>)
  datatype PlaylistTracksPage = PlaylistTracksPage(items: Maybe<seq<PlaylistTrackObject>>, total: Maybe<int>)
  datatype TracksPage = TracksPage(items: Maybe<seq<TrackObject>>, total: Maybe<int>)
  datatype SearchBody = SearchBody(tracks: Maybe<TracksPage>)

  /** A rejected remote call (a non-success status or a transport failure). */
  datatype RemoteError = RemoteError(statusCode: int, message: string)

  type Reply<+T> = Result<T, RemoteError>

  /** One call to the platform, with the bearer token the client was given. */
  datatype RemoteCall =
    | GetUserPlaylistsCall(token: string, limit: int, offset: int)
    | GetPlaylistTracksCall(token: string, playlistId: string, limit: int, offset: int)
    | SearchTracksCall(token: string, query: string, limit: int, offset: int, market: Option<string>)
    | RemoveTracksCall(token: string, playlistId: string, uris: seq<string>)
    | AddTracksCall(token: string, playlistId: string, uris: seq<string>)
  {
    /** Whether the call changes playlist state on the platform. */
    predicate IsMutation() {
      RemoveTracksCall? || AddTracksCall?
    }
  }

  /** The platform's answers, as arbitrary total functions of the call.
      A body (`Maybe`) may be absent where the tools use `response.body?.`;
      a mutation answers with the new snapshot identifier. */
  datatype Platform = Platform(
    userPlaylists: RemoteCall -> Reply<Maybe<PlaylistsPage>>,
    playlistTracks: RemoteCall -> Reply<Maybe<PlaylistTracksPage>>,
    search: RemoteCall -> Reply<SearchBody>,
    mutate: RemoteCall -> Reply<string>)
}
