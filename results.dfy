/** Optional values and the one JavaScript exception the model keeps. */
module Results {

  datatype Option<T> = None | Some(value: T)

  /** The result of a JavaScript expression that either yields a value or
      throws a TypeError (spreading a non-iterable, calling `filter` on
      something that is not an array, writing a property of a primitive). */
  datatype Outcome<T> = Ok(value: T) | TypeError
}
