/** Small datatypes shared by every module. */
module Base {

  datatype Option<+T> = None | Some(value: T)

  /** The result of a call that may raise. */
  datatype Outcome<+T> = Ok(value: T) | Raised(message: string)

  /** Python truth value of an optional string: `None` and the empty string are false. */
  predicate Truthy(s: Option<string>) {
    s.Some? && s.value != ""
  }

  predicate IsNumeric(c: char) {
    '0' <= c <= '9' || c == '.' || c == '-' || c == '+' || c == 'e'
  }

  /** The text of a number; its digits are not interpreted here. */
  type Token = s: string | s != [] && forall c | c in s :: IsNumeric(c) witness ['0']

  /** The sequence without position `p`. */
  function Drop<T>(xs: seq<T>, p: nat): seq<T>
    requires p < |xs|
  {
    xs[..p] + xs[p + 1..]
  }

  /** Code-point order of strings. */
  predicate Precedes(a: string, b: string) {
    if b == [] then false
    else if a == [] then true
    else a[0] < b[0] || (a[0] == b[0] && Precedes(a[1..], b[1..]))
  }

  lemma {:induction false} PrecedesIsTotal(a: string, b: string)
    ensures a == b || Precedes(a, b) || Precedes(b, a)
    ensures !(Precedes(a, b) && Precedes(b, a)) && !Precedes(a, a)
    decreases |a|
  {
    if a != [] {
      PrecedesIsTotal(a[1..], a[1..]);
      if b != [] {
        PrecedesIsTotal(a[1..], b[1..]);
        assert a == [a[0]] + a[1..] && b == [b[0]] + b[1..];
      }
    }
  }

  lemma {:induction false} PrecedesIsTransitive(a: string, b: string, c: string)
    requires Precedes(a, b) && Precedes(b, c)
    ensures Precedes(a, c)
    decreases |a|
  {
    if a != [] && a[0] == b[0] == c[0] {
      PrecedesIsTransitive(a[1..], b[1..], c[1..]);
    }
  }
}
