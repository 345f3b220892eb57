/** The optional value used for the source's nullable and optional fields. */
module Options {

  /** `None` stands for both `null` and `undefined`: the engine only ever tests such
      values with the loose `!=` and with `??`, which do not tell the two apart. */
  datatype Option<+T> = None | Some(value: T)
}
