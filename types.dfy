/** The record model of the app: one song of the list. */
module Types {
  import opened Wrappers

  /** A song as the app declares it; `duration` and `genre` are optional. */
  datatype Song = Song(
    id: string,
    title: string,
    artist: string,
    duration: Option<string>,
    genre: Option<string>,
    createdAt: string)
}
