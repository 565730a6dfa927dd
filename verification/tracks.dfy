/** The track record both search and playlist reads return: a projection of the
    platform's full track object (`mapTrack` in both tools). */
module Tracks {
  import opened Wrappers
  import opened Js
  import opened Spotify

  datatype ArtistRef = ArtistRef(id: string, name: string)
  datatype AlbumRef = AlbumRef(id: string, name: string, images: seq<Image>)

  /** `previewUrl` is `None` where the tools emit `null`. */
  datatype Track = Track(
    id: string, uri: string, name: string, artists: seq<ArtistRef>, album: AlbumRef,
    durationMs: int, explicit: bool, popularity: int, previewUrl: Option<string>, releaseDate: string)

  /** `artists.map((a) => ({ id: a.id, name: a.name }))` */
  function ArtistRefs(artists: seq<ArtistObject>): (refs: seq<ArtistRef>)
    ensures |refs| == |artists|
    ensures forall i :: 0 <= i < |artists| ==> refs[i].id == artists[i].id && refs[i].name == artists[i].name
  {
    if artists == [] then [] else [ArtistRef(artists[0].id, artists[0].name)] + ArtistRefs(artists[1..])
  }

  function MapTrack(t: TrackObject): (r: Track)
    ensures r.id == t.id && r.uri == t.uri && r.name == t.name
    ensures r.album.id == t.album.id && r.album.name == t.album.name
    ensures r.durationMs == t.durationMs && r.explicit == t.explicit && r.popularity == t.popularity
    ensures |r.artists| == |t.artists|
    ensures forall i :: 0 <= i < |t.artists| ==> r.artists[i].id == t.artists[i].id && r.artists[i].name == t.artists[i].name
    ensures r.previewUrl.None? <==> !t.previewUrl.Defined?
    ensures t.previewUrl.Defined? ==> r.previewUrl == Some(t.previewUrl.value)
    ensures r.releaseDate == t.album.releaseDate && r.album.images == t.album.images
  {
    Track(
      t.id, t.uri, t.name, ArtistRefs(t.artists), AlbumRef(t.album.id, t.album.name, t.album.images),
      t.durationMs, t.explicit, t.popularity,
      OrNull(t.previewUrl),
      t.album.releaseDate)
  }

  /** `items.map(mapTrack)`: one track per item, in the same order. */
  function MapTracks(items: seq<TrackObject>): (r: seq<Track>)
    ensures |r| == |items|
    ensures forall i :: 0 <= i < |items| ==> r[i] == MapTrack(items[i])
  {
    if items == [] then [] else [MapTrack(items[0])] + MapTracks(items[1..])
  }
}
