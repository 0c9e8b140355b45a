/** The nullable values of the Kotlin source (`String?`) are modelled as `Option`. */
module Wrappers {

  datatype Option<+T> = None | Some(value: T) {

    /** The value as a sequence of zero or one elements. */
    function ToSeq(): (s: seq<T>)
      ensures |s| <= 1
      ensures s == [] <==> None?
      ensures Some? ==> s == [value]
    {
      match this
      case Some(v) => [v]
      case None => []
    }
  }
}
