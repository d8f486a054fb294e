/** The track shape the client works with (`SimplifiedTrack` in
    src/types/track.ts). Durations are in seconds. */
module Tracks {
  datatype Image = Image(url: string, width: int, height: int)
  datatype ArtistRef = ArtistRef(id: string, name: string)
  datatype AlbumRef = AlbumRef(id: string, name: string)

  datatype Track = Track(
    id: string,
    images: seq<Image>,
    name: string,
    artists: seq<ArtistRef>,
    album: AlbumRef,
    duration: real)

  /** Queue ids are pairwise distinct. */
  predicate DistinctIds(q: seq<Track>) {
    forall i, j :: 0 <= i < j < |q| ==> q[i].id != q[j].id
  }
}
