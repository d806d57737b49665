/** The optional value used for "this node produced a diagnostic, or it did not". */
module Wrappers {

  datatype Option<+T> = None | Some(value: T) {

    /** The option as a sequence of zero or one elements. */
    function ToSeq(): (s: seq<T>)
      ensures |s| <= 1
      ensures Some? <==> |s| == 1
      ensures Some? ==> s[0] == value
    {
      match this
      case Some(v) => [v]
      case None => []
    }
  }
}
