/** The JSON values the core exchanges: the list encodings of units, flowers and hives. */
module Json {
  import opened Hiveminder

  /** One element of an encoded list. A unit's list also holds a reference to the
      game-parameter object, which `Params` stands for. */
  datatype Value = Int(i: int) | Str(s: string) | Null | Params(p: GameParams)
}
