/** The optional value used wherever the engine may pass no value. */
module Optional {

  /** `None` is an absent value, `Some(v)` a present one; each use says which JavaScript
      values count as absent there (an omitted `undefined` argument, a falsy texture,
      a `null` location). */
  datatype Option<+T> = None | Some(value: T)
}
