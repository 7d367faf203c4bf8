/** Small shared vocabulary: the optional value of a JavaScript property that may be
    `undefined`, and the Steam identity both the lobby registry and the leaderboard API use. */
module Common {

  /** `undefined` (or a falsy property) is `None`. */
  datatype Option<T> = None | Some(value: T)

  /** A Steam account id, as the string the source keys its dictionaries with. */
  type SteamId = string
}
