/** The byte-wise order of text identities, which fixes the iteration order of the source's maps. */
module Names {
  import opened Model

  predicate Before(a: Name, b: Name)
    decreases |a|
  {
    b != [] && (a == [] || a[0] < b[0] || (a[0] == b[0] && Before(a[1..], b[1..])))
  }

  lemma {:induction false} BeforeIrreflexive(a: Name)
    ensures !Before(a, a)
    decreases |a|
  {
    if a != [] { BeforeIrreflexive(a[1..]); }
  }

  lemma {:induction false} BeforeTotal(a: Name, b: Name)
    ensures Before(a, b) || Before(b, a) || a == b
    decreases |a|
  {
    if a != [] && b != [] && a[0] == b[0] {
      BeforeTotal(a[1..], b[1..]);
      assert a == [a[0]] + a[1..] && b == [b[0]] + b[1..];
    }
  }

  lemma {:induction false} BeforeTransitive(a: Name, b: Name, c: Name)
    requires Before(a, b) && Before(b, c)
    ensures Before(a, c)
    decreases |a|
  {
    if a != [] && a[0] == b[0] && b[0] == c[0] {
      BeforeTransitive(a[1..], b[1..], c[1..]);
    }
  }

  /** The first element of a nonempty set of names. */
  lemma {:induction false} HasFirst(s: set<Name>) returns (m: Name)
    requires s != {}
    ensures m in s && forall x <- s :: x == m || Before(m, x)
    decreases |s|
  {
    var x :| x in s;
    var rest := s - {x};
    if rest == {} {
      m := x;
      assert s == {x};
    } else {
      var n := HasFirst(rest);
      BeforeTotal(x, n);
      if Before(x, n) {
        m := x;
        forall y | y in s ensures y == m || Before(m, y) {
          if y != x && y != n { BeforeTransitive(x, n, y); }
        }
      } else {
        m := n;
      }
    }
  }

  predicate Ascending(keys: seq<Name>) {
    forall i, j | 0 <= i < j < |keys| :: Before(keys[i], keys[j])
  }

  /** The keys of a map in the order the source iterates over them. */
  ghost function SortedNames(s: set<Name>): (keys: seq<Name>)
    ensures Ascending(keys)
    ensures forall x :: x in keys <==> x in s
    ensures |keys| == |s|
    decreases |s|
  {
    if s == {} then []
    else
      var m := FirstName(s);
      var rest := SortedNames(s - {m});
      assert forall i | 0 <= i < |rest| :: rest[i] in s - {m};
      [m] + rest
  }

  ghost function FirstName(s: set<Name>): (m: Name)
    requires s != {}
    ensures m in s && forall x <- s :: x == m || Before(m, x)
  {
    assert exists m :: m in s && forall x <- s :: x == m || Before(m, x) by { var m := HasFirst(s); }
    var m :| m in s && forall x <- s :: x == m || Before(m, x);
    m
  }
}
