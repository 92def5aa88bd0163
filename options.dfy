/** Optional values: the model of JavaScript's `T | null` and of an absent
    optional property (`x?: T`). */
module Options {

  datatype Option<+T> = None | Some(value: T) {

    /** The value if present, otherwise `default` (the `??` of the source). */
    function GetOr(default: T): T {
      if Some? then value else default
    }

    /** This option if present, otherwise `other`: how a spread of a partial
        record over an optional field behaves when the key may be absent. */
    function OrElse(other: Option<T>): Option<T> {
      if Some? then this else other
    }
  }
}
