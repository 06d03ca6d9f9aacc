/** Shared by every part of the model. */
module Common {
  datatype Option<+T> = None | Some(value: T) {
    function GetOr(default: T): T {
      match this
      case Some(v) => v
      case None => default
    }
  }

  method Pick(s: set<int>) returns (x: int)
    requires s != {}
    ensures x in s
  {
    assert (forall y: int :: y !in s) ==> s == {};
    x :| x in s;
  }
}
