/** The optional value used for every field the source may leave as `None`. */
module Wrappers {

  datatype Option<+T> = None | Some(value: T) {

    /** The zero- or one-element sequence holding this option's value. */
    function ToSeq(): (s: seq<T>)
      ensures |s| <= 1
      ensures None? ==> s == []
      ensures Some? ==> s == [value]
    {
      match this
      case None => []
      case Some(v) => [v]
    }
  }
}
