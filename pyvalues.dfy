/** Python values as far as the channel-model classes look at them: keyword
    arguments, `isinstance(x, str)`, `str.lower()`, and the argument lists a
    constructor forwards to its base class. */
module PyValues {

  datatype Option<+T> = None | Some(value: T)

  /** A Python value passed to a constructor. Only whether it is a `str` (and
      which one) matters to the core; everything else is carried unchanged. */
  datatype Value =
    | Str(s: string)
    | Bool(b: bool)
    | Int(i: int)
    | Obj(repr: string)  // any other object (a Quantity, a DataObject, ...)

  /** The positional and keyword arguments a constructor passes to its base
      class constructor, which this model records but does not interpret. */
  datatype BaseCall = BaseCall(positional: seq<Value>, keywords: map<string, Value>)

  predicate IsUpper(ch: char) {
    'A' <= ch <= 'Z'
  }

  /** `str.lower()` on one character (ASCII letters only). */
  function LowerChar(ch: char): (r: char)
    ensures !IsUpper(r)
    ensures IsUpper(ch) <==> r != ch
    ensures IsUpper(ch) ==> r as int == ch as int + 32
  {
    if IsUpper(ch) then (ch as int + 32) as char else ch
  }

  /** `str.lower()`: every character is lower-cased independently, so the
      result has the same length, no upper-case letter, and every other
      character where it was. */
  function Lower(s: string): (r: string)
    ensures |r| == |s| && NoUpper(r)
    ensures forall i :: 0 <= i < |s| && !IsUpper(s[i]) ==> r[i] == s[i]
    ensures forall i :: 0 <= i < |s| && IsUpper(s[i]) ==> r[i] as int == s[i] as int + 32
  {
    seq(|s|, i requires 0 <= i < |s| => LowerChar(s[i]))
  }

  predicate NoUpper(s: string) {
    forall i :: 0 <= i < |s| ==> !IsUpper(s[i])
  }

  /** A string without upper-case letters is its own lower-case form. */
  lemma LowerFixesNoUpper(s: string)
    requires NoUpper(s)
    ensures Lower(s) == s
  {
  }

  /** `lower()` is idempotent. */
  lemma LowerIdempotent(s: string)
    ensures Lower(Lower(s)) == Lower(s)
  {
    LowerFixesNoUpper(Lower(s));
  }

  /** A string that starts with an upper-case letter is never what `lower()`
      returns. */
  lemma LowerNeverStartsUpper(s: string, t: string)
    requires |t| > 0 && IsUpper(t[0])
    ensures Lower(s) != t
  {
    if |s| == |t| {
      assert !IsUpper(Lower(s)[0]);
    }
  }
}
