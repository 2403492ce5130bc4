/** Small shared vocabulary: the optional value used across the model. */
module Base {

  datatype Option<+T> = None | Some(value: T) {

    /** The value, or `default` when there is none (Rust's `unwrap_or`). */
    function GetOr(default: T): T {
      match this
      case Some(v) => v
      case None => default
    }

    /** This value if present, otherwise `other` (Rust's `Option::or`). */
    function Or(other: Option<T>): Option<T> {
      if Some? then this else other
    }
  }

  /** A non-empty sequence is its first element followed by the rest. */
  lemma HeadTail<T>(s: seq<T>)
    requires |s| > 0
    ensures s == [s[0]] + s[1..]
  {
  }

  /** Regrouping a concatenation, stated on names so that callers need not unfold what they stand for. */
  lemma ConcatRegroup<T>(whole: seq<T>, left: seq<T>, head: seq<T>, x: seq<T>, y: seq<T>)
    requires whole == head + (x + y) && left == head + x
    ensures whole == left + y
  {
  }
}
