/** Values shared by every part of the model: optional values, the
    exceptions the modelled Python code can raise, and string joining. */
module Base {

  /** Python's `None` or a value. */
  datatype Option<+T> = None | Some(value: T)

  /** The exceptions that the composition core lets escape to its caller. */
  datatype Error =
    | IndexError   // a subscript outside the list
    | TypeError    // subscripting `None`
    | KeyError     // a dictionary lookup of a missing key

  /** The result of a Python call: it returns a value or raises. */
  datatype Outcome<+T> = Return(value: T) | Raise(error: Error)

  /** `u''.join(parts)`: the concatenation of all parts, in order. */
  function Join(parts: seq<string>): string
  {
    if parts == [] then "" else Join(parts[..|parts| - 1]) + parts[|parts| - 1]
  }

  /** Joining distributes over concatenation of the part lists. */
  lemma {:induction false} JoinAppend(a: seq<string>, b: seq<string>)
    ensures Join(a + b) == Join(a) + Join(b)
  {
    if b == [] {
      assert a + b == a;
    } else {
      var ab, front := a + b, b[..|b| - 1];
      assert ab[..|ab| - 1] == a + front;
      assert ab[|ab| - 1] == b[|b| - 1];
      assert Join(ab) == Join(a + front) + b[|b| - 1];
      JoinAppend(a, front);
    }
  }

  /** The joined string splits around any one part: what precedes it,
      the part itself, and what follows it. */
  lemma {:induction false} JoinAround(parts: seq<string>, k: nat)
    requires k < |parts|
    ensures Join(parts) == Join(parts[..k]) + parts[k] + Join(parts[k + 1..])
  {
    var before, after := parts[..k], parts[k + 1..];
    var upTo := before + [parts[k]];
    assert parts == upTo + after;
    assert upTo[..|upTo| - 1] == before;
    assert Join(upTo) == Join(before) + parts[k];
    JoinAppend(upTo, after);
  }

  /** Python accepts a list subscript `i` when `-n <= i < n`. */
  predicate InBounds(n: nat, i: int)
  {
    -(n as int) <= i < n
  }

  /** The position a Python subscript denotes: negative ones count from the end. */
  function Wrap(n: nat, i: int): (k: nat)
    requires InBounds(n, i)
    ensures k < n
    ensures 0 <= i ==> k == i
    ensures i < 0 ==> k == n + i
  {
    if i < 0 then n + i else i
  }
}
