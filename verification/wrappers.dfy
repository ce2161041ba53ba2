/** The optional value used for `char?` results and for the optional barcode
    a key press may emit. */
module Wrappers {

  datatype Option<+T> = None | Some(value: T) {

    /** The value as a sequence of at most one element: `[]` for None. */
    function ToSeq(): (r: seq<T>)
      ensures |r| <= 1
      ensures Some? <==> |r| == 1
      ensures Some? ==> r[0] == value
    {
      match this
      case None => []
      case Some(v) => [v]
    }
  }
}
