/**
 * Python's ordering of `str` values (lexicographic on code points) and `sorted(keys)`,
 * which the letter generator uses to list the letters it has images for.
 */
module StrOrder {

  /** `a < b` on Python strings. */
  predicate Less(a: string, b: string) {
    if a == [] then b != []
    else if b == [] then false
    else if a[0] != b[0] then a[0] < b[0]
    else Less(a[1..], b[1..])
  }

  lemma {:induction false} LessIrreflexive(a: string)
    ensures !Less(a, a)
  {
    if a != [] {
      LessIrreflexive(a[1..]);
    }
  }

  lemma {:induction false} LessTransitive(a: string, b: string, c: string)
    requires Less(a, b) && Less(b, c)
    ensures Less(a, c)
  {
    if a != [] && b != [] && c != [] && a[0] == b[0] && b[0] == c[0] {
      LessTransitive(a[1..], b[1..], c[1..]);
    }
  }

  lemma {:induction false} LessTotal(a: string, b: string)
    requires a != b
    ensures Less(a, b) || Less(b, a)
  {
    if a != [] && b != [] && a[0] == b[0] {
      assert a == [a[0]] + a[1..] && b == [b[0]] + b[1..];
      LessTotal(a[1..], b[1..]);
    }
  }

  predicate StrictlySorted(s: seq<string>) {
    forall i, j | 0 <= i < j < |s| :: Less(s[i], s[j])
  }

  /** A strictly sorted list holds each string once. */
  lemma StrictlySortedDistinct(s: seq<string>)
    requires StrictlySorted(s)
    ensures forall i, j | 0 <= i < j < |s| :: s[i] != s[j]
  {
    forall i, j | 0 <= i < j < |s| ensures s[i] != s[j] {
      LessIrreflexive(s[i]);
    }
  }

  /** Every finite non-empty set of strings has a least element. */
  lemma {:induction false} LeastExists(s: set<string>)
    requires s != {}
    ensures exists m :: m in s && forall x | x in s && x != m :: Less(m, x)
    decreases |s|
  {
    var y :| y in s;
    var rest := s - {y};
    if rest == {} {
      assert forall x | x in s && x != y :: x in rest;
    } else {
      LeastExists(rest);
      var m :| m in rest && forall x | x in rest && x != m :: Less(m, x);
      LessTotal(m, y);
      if Less(y, m) {
        forall x | x in s && x != y ensures Less(y, x) {
          if x != m {
            LessTransitive(y, m, x);
          }
        }
      } else {
        assert forall x | x in s && x != m :: Less(m, x);
      }
    }
  }

  /** `sorted(keys)`: the strings of `keys`, each once, in ascending order. */
  method SortedStrings(keys: set<string>) returns (r: seq<string>)
    ensures StrictlySorted(r)
    ensures forall x :: x in r <==> x in keys
    ensures |r| == |keys|
    ensures forall i, j | 0 <= i < j < |r| :: r[i] != r[j]
  {
    var rest := keys;
    r := [];
    while rest != {}
      invariant rest <= keys
      invariant forall x :: x in r <==> x in keys && x !in rest
      invariant StrictlySorted(r)
      invariant forall i, y | 0 <= i < |r| && y in rest :: Less(r[i], y)
      invariant |r| + |rest| == |keys|
      decreases |rest|
    {
      LeastExists(rest);
      var m :| m in rest && forall x | x in rest && x != m :: Less(m, x);
      r := r + [m];
      rest := rest - {m};
    }
    StrictlySortedDistinct(r);
  }
}
