/** The optional-value type the model uses for java.util.Optional and for
    references that may be null. Its member functions mirror the Optional
    methods the modelled code chains together. */
module Wrappers {

  datatype Option<+T> = None | Some(value: T) {

    /** Optional.filter: keeps the value only when it satisfies `keep`. */
    function Filter(keep: T -> bool): (r: Option<T>)
      ensures r.Some? <==> Some? && keep(value)
      ensures r.Some? ==> r.value == value
    {
      match this
      case Some(v) => if keep(v) then Some(v) else None
      case None => None
    }

    /** Optional.map: applies `f` to the value, if there is one. */
    function MapValue<U>(f: T -> U): (r: Option<U>)
      ensures r.Some? <==> Some?
      ensures r.Some? ==> r.value == f(value)
    {
      match this
      case Some(v) => Some(f(v))
      case None => None
    }

    /** Optional.orElse: the value, or `default` when there is none. */
    function OrElse(default: T): (r: T)
      ensures Some? ==> r == value
      ensures None? ==> r == default
    {
      match this
      case Some(v) => v
      case None => default
    }

    /** The list holding the value, or the empty list. */
    function ToSeq(): (r: seq<T>)
      ensures |r| == (if Some? then 1 else 0)
      ensures Some? ==> r[0] == value
    {
      match this
      case Some(v) => [v]
      case None => []
    }
  }
}
