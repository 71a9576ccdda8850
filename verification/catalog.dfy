/** The records the remote artists endpoint returns. */
module Catalog {

  /** One performer or band, as decoded from the artists endpoint. */
  datatype Artist = Artist(
    id: int,
    name: string,
    image: string,
    firstAlbum: string,
    members: seq<string>)

  /** The zero value of the record: what the lookup variable holds before a match. */
  const ZeroArtist := Artist(0, "", "", "", [])
}
