/**
 * Go's ordering of strings (`<` on strings, the order `sort.Strings` produces) and the
 * ascending key list of a map, which is what the line-protocol writers iterate over.
 *
 * Go compares strings byte by byte in UTF-8. Here strings are sequences of Unicode
 * characters compared by code point, which orders every pair of strings the same way,
 * since UTF-8 preserves code-point order.
 */
module Keys {

  /** `a < b` on Go strings: lexicographic, with a proper prefix before its extensions. */
  predicate Less(a: string, b: string)
    decreases |a|
  {
    if |a| == 0 then |b| > 0
    else if |b| == 0 then false
    else if a[0] == b[0] then Less(a[1..], b[1..])
    else a[0] < b[0]
  }

  lemma {:induction false} LessIrreflexive(a: string)
    ensures !Less(a, a)
    decreases |a|
  {
    if |a| > 0 {
      LessIrreflexive(a[1..]);
    }
  }

  lemma {:induction false} LessTransitive(a: string, b: string, c: string)
    requires Less(a, b) && Less(b, c)
    ensures Less(a, c)
    decreases |a|
  {
    if |a| > 0 && a[0] == b[0] && b[0] == c[0] {
      LessTransitive(a[1..], b[1..], c[1..]);
    }
  }

  lemma {:induction false} LessTotal(a: string, b: string)
    requires a != b
    ensures Less(a, b) || Less(b, a)
    decreases |a|
  {
    if |a| > 0 && |b| > 0 && a[0] == b[0] {
      assert a == [a[0]] + a[1..] && b == [b[0]] + b[1..];
      LessTotal(a[1..], b[1..]);
    }
  }

  lemma {:induction false} LessAsymmetric(a: string, b: string)
    requires Less(a, b)
    ensures !Less(b, a)
  {
    if Less(b, a) {
      LessTransitive(a, b, a);
      LessIrreflexive(a);
    }
  }

  /** Strictly ascending, hence also free of duplicates. */
  predicate StrictlySorted(s: seq<string>) {
    forall i, j :: 0 <= i < j < |s| ==> Less(s[i], s[j])
  }

  /** The least string of a non-empty finite set. */
  ghost function Least(s: set<string>): (m: string)
    requires s != {}
    ensures m in s
    ensures forall x :: x in s && x != m ==> Less(m, x)
    decreases s
  {
    var x :| x in s;
    if s == {x} then x
    else
      var rest := Least(s - {x});
      if Less(x, rest) then
        (forall y | y in s && y != x ensures Less(x, y) {
          if y != rest { LessTransitive(x, rest, y); }
        }
        x)
      else
        (LessTotal(x, rest);
        rest)
  }

  /** The keys of a set in ascending order, as `sort.Strings` leaves them. */
  ghost function SortedKeys(s: set<string>): (r: seq<string>)
    ensures StrictlySorted(r)
    ensures forall k :: k in r <==> k in s
    decreases s
  {
    if s == {} then []
    else
      var m := Least(s);
      var rest := SortedKeys(s - {m});
      [m] + rest
  }

  /**
   * A set has exactly one strictly ascending listing: any two such listings of the same
   * elements are equal. So the sorted key order does not depend on how it was produced.
   */
  lemma {:induction false} SortedUnique(a: seq<string>, b: seq<string>)
    requires StrictlySorted(a) && StrictlySorted(b)
    requires forall k :: k in a <==> k in b
    ensures a == b
    decreases |a|
  {
    if |a| > 0 {
      assert a[0] in a;
    }
    if |b| > 0 {
      assert b[0] in b;
    }
    if |a| > 0 && |b| > 0 {
      assert a[0] in b && b[0] in a;
      assert a[0] == b[0] by {
        if a[0] != b[0] {
          TailMembers(b, a[0]);
          TailMembers(a, b[0]);
          LessAsymmetric(b[0], a[0]);
        }
      }
      forall k ensures k in a[1..] <==> k in b[1..] {
        TailMembers(a, k);
        TailMembers(b, k);
      }
      SortedUnique(a[1..], b[1..]);
      assert a == [a[0]] + a[1..] && b == [b[0]] + b[1..];
    }
  }

  /**
   * In a strictly ascending list, the elements after the first are all the others, and
   * each of them is above the first.
   */
  lemma TailMembers(s: seq<string>, k: string)
    requires StrictlySorted(s) && |s| > 0
    ensures k in s[1..] <==> k in s && k != s[0]
    ensures k in s && k != s[0] ==> Less(s[0], k)
  {
    if k in s[1..] {
      var i :| 0 <= i < |s[1..]| && s[1..][i] == k;
      assert Less(s[0], s[i + 1]);
      LessIrreflexive(s[0]);
    }
    if k in s && k != s[0] {
      var i :| 0 <= i < |s| && s[i] == k;
      assert s[1..][i - 1] == k;
    }
  }

  /** Insertion of a new key into its place in an ascending list. */
  function Insert(s: seq<string>, k: string): (r: seq<string>)
    requires StrictlySorted(s) && k !in s
    ensures StrictlySorted(r)
    ensures forall x :: x in r <==> x in s || x == k
    ensures |r| == |s| + 1
  {
    if |s| == 0 then [k]
    else if Less(k, s[0]) then
      (forall j | 0 < j < |s| ensures Less(k, s[j]) { LessTransitive(k, s[0], s[j]); }
      [k] + s)
    else
      (LessTotal(k, s[0]);
      assert forall x :: x in s[1..] ==> x in s;
      var tail := Insert(s[1..], k);
      forall x | x in tail ensures Less(s[0], x) {
        if x != k {
          var j :| 0 <= j < |s[1..]| && s[1..][j] == x;
          assert s[j + 1] == x;
        }
      }
      [s[0]] + tail)
  }

  /** The listing of a one-key set. */
  lemma SortedKeysOne(a: string)
    ensures SortedKeys({a}) == [a]
  {
    SortedUnique([a], SortedKeys({a}));
  }

  /** The listing of a two-key set: the lesser key first. */
  lemma SortedKeysTwo(a: string, b: string)
    requires Less(a, b)
    ensures SortedKeys({a, b}) == [a, b]
  {
    SortedUnique([a, b], SortedKeys({a, b}));
  }
}
