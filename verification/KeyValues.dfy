/** Key-value lists, their order by key, and the lines that grouping makes of them. */
module KeyValues {

  datatype KeyValue = KeyValue(key: string, value: string)

  /** One line of output: a key and what reduce made of its values. */
  datatype Line = Line(key: string, output: string)

  type Reducer = (string, seq<string>) -> string

  // ----- the order of keys

  predicate KeyLess(a: string, b: string) {
    b != [] && (a == [] || a[0] < b[0] || (a[0] == b[0] && KeyLess(a[1..], b[1..])))
  }

  /** a and b agree before k, and there a ends or has the smaller character. */
  ghost predicate LessAt(a: string, b: string, k: nat) {
    k <= |a| && k < |b| && a[..k] == b[..k] && (k == |a| || a[k] < b[k])
  }

  /** The order is the lexicographic one. */
  lemma {:induction false} LessIsLexicographic(a: string, b: string)
    ensures KeyLess(a, b) <==> exists k: nat :: LessAt(a, b, k)
  {
    if a != [] && b != [] && a[0] == b[0] {
      LessIsLexicographic(a[1..], b[1..]);
      if KeyLess(a, b) {
        var k: nat :| LessAt(a[1..], b[1..], k);
        assert a[..k + 1] == [a[0]] + a[1..][..k] && b[..k + 1] == [b[0]] + b[1..][..k];
        assert LessAt(a, b, k + 1);
      }
      if k: nat :| LessAt(a, b, k) {
        assert k > 0;
        assert a[1..][..k - 1] == a[..k][1..] && b[1..][..k - 1] == b[..k][1..];
        assert LessAt(a[1..], b[1..], k - 1);
      }
    } else {
      if KeyLess(a, b) { assert LessAt(a, b, 0); }
      if k: nat :| LessAt(a, b, k) {
        if k > 0 { assert a[..k][0] == b[..k][0]; }
      }
    }
  }

  lemma {:induction false} LessIsTransitive(a: string, b: string, c: string)
    requires KeyLess(a, b) && KeyLess(b, c)
    ensures KeyLess(a, c)
  {
    if a != [] && a[0] == b[0] && b[0] == c[0] { LessIsTransitive(a[1..], b[1..], c[1..]); }
  }

  lemma {:induction false} LessIsTotal(a: string, b: string)
    ensures KeyLess(a, b) || a == b || KeyLess(b, a)
  {
    if a != [] && b != [] && a[0] == b[0] {
      LessIsTotal(a[1..], b[1..]);
      assert a == [a[0]] + a[1..] && b == [b[0]] + b[1..];
    }
  }

  ghost predicate Sorted(s: seq<KeyValue>) {
    forall i, j :: 0 <= i < j < |s| ==> !KeyLess(s[j].key, s[i].key)
  }

  /** What sort.IsSorted(ByKey) tests. */
  ghost predicate NeighboursSorted(s: seq<KeyValue>) {
    forall i :: 0 <= i < |s| - 1 ==> !KeyLess(s[i + 1].key, s[i].key)
  }

  lemma {:induction false} SortedUpTo(s: seq<KeyValue>, i: nat, j: nat)
    requires NeighboursSorted(s) && i < j < |s|
    ensures !KeyLess(s[j].key, s[i].key)
    decreases j
  {
    if i + 1 < j {
      SortedUpTo(s, i, j - 1);
      assert !KeyLess(s[j - 1 + 1].key, s[j - 1].key);
      LessIsTotal(s[i].key, s[j - 1].key);
      if KeyLess(s[j].key, s[i].key) && KeyLess(s[i].key, s[j - 1].key) {
        LessIsTransitive(s[j].key, s[i].key, s[j - 1].key);
      }
    } else {
      assert !KeyLess(s[i + 1].key, s[i].key);
    }
  }

  /** Comparing neighbours is enough: the order of keys is total and transitive. */
  lemma SortedByNeighbours(s: seq<KeyValue>)
    ensures Sorted(s) <==> NeighboursSorted(s)
  {
    if NeighboursSorted(s) {
      forall i, j | 0 <= i < j < |s| ensures !KeyLess(s[j].key, s[i].key) { SortedUpTo(s, i, j); }
    }
  }

  /** What sort.Sort(ByKey) may leave: any permutation in key order. The sort is not stable. */
  ghost predicate SortOf(given: seq<KeyValue>, out: seq<KeyValue>) {
    Sorted(out) && multiset(out) == multiset(given)
  }

  // ----- values of a key

  function ValuesOf(s: seq<KeyValue>, k: string): seq<string> {
    if s == [] then []
    else ValuesOf(s[..|s| - 1], k) + (if s[|s| - 1].key == k then [s[|s| - 1].value] else [])
  }

  lemma {:induction false} ValuesOfConcat(a: seq<KeyValue>, b: seq<KeyValue>, k: string)
    ensures ValuesOf(a + b, k) == ValuesOf(a, k) + ValuesOf(b, k)
  {
    if b == [] {
      assert a + b == a;
    } else {
      var last := |b| - 1;
      assert (a + b)[..|a + b| - 1] == a + b[..last];
      ValuesOfConcat(a, b[..last], k);
    }
  }

  lemma ValuesOfSplit(s: seq<KeyValue>, j: nat, k: string)
    requires j <= |s|
    ensures ValuesOf(s, k) == ValuesOf(s[..j], k) + ValuesOf(s[j..], k)
  {
    ValuesOfConcat(s[..j], s[j..], k);
    assert s == s[..j] + s[j..];
  }

  lemma {:induction false} ValuesCount(s: seq<KeyValue>, k: string, v: string)
    ensures multiset(ValuesOf(s, k))[v] == multiset(s)[KeyValue(k, v)]
  {
    if s != [] {
      var last := |s| - 1;
      assert s == s[..last] + [s[last]];
      ValuesCount(s[..last], k, v);
    }
  }

  /** Lists with the same elements give a key the same values, in some order. */
  lemma SameValues(s: seq<KeyValue>, t: seq<KeyValue>, k: string)
    requires forall v :: multiset(s)[KeyValue(k, v)] == multiset(t)[KeyValue(k, v)]
    ensures multiset(ValuesOf(s, k)) == multiset(ValuesOf(t, k))
  {
    forall v: string ensures multiset(ValuesOf(s, k))[v] == multiset(ValuesOf(t, k))[v] {
      ValuesCount(s, k, v);
      ValuesCount(t, k, v);
    }
  }

  ghost predicate HasKey(s: seq<KeyValue>, k: string) {
    exists i :: 0 <= i < |s| && s[i].key == k
  }

  // ----- grouping

  /** How many elements at the front share the first one's key. */
  function RunLength(s: seq<KeyValue>): (j: nat)
    requires s != []
    ensures 1 <= j <= |s|
    ensures forall i :: 0 <= i < j ==> s[i].key == s[0].key
    ensures j < |s| ==> s[j].key != s[0].key
  {
    if |s| == 1 || s[1].key != s[0].key then 1
    else
      var r := RunLength(s[1..]);
      assert forall i :: 1 <= i < r + 1 ==> s[i] == s[1..][i - 1];
      r + 1
  }

  function Groups(s: seq<KeyValue>, reducef: Reducer): seq<Line>
    decreases |s|
  {
    if s == [] then []
    else
      var j := RunLength(s);
      [Line(s[0].key, reducef(s[0].key, Values(s[..j])))] + Groups(s[j..], reducef)
  }

  function Values(s: seq<KeyValue>): (vs: seq<string>)
    ensures |vs| == |s| && forall i :: 0 <= i < |s| ==> vs[i] == s[i].value
  {
    seq(|s|, i requires 0 <= i < |s| => s[i].value)
  }

  lemma {:induction false} ValuesOfRun(s: seq<KeyValue>, k: string)
    requires forall i :: 0 <= i < |s| ==> s[i].key == k
    ensures ValuesOf(s, k) == Values(s)
  {
    if s != [] {
      var last := |s| - 1;
      ValuesOfRun(s[..last], k);
      assert Values(s) == Values(s[..last]) + [s[last].value];
    }
  }

  lemma {:induction false} NoValues(s: seq<KeyValue>, k: string)
    requires !HasKey(s, k)
    ensures ValuesOf(s, k) == []
  {
    if s != [] {
      var last := |s| - 1;
      assert s[last].key != k;
      assert forall i :: 0 <= i < last ==> s[..last][i] == s[i];
      NoValues(s[..last], k);
    }
  }

  /** The lines of s: one for each key of s and no other, holding the reduction of that key's values. */
  ghost predicate LinesOf(lines: seq<Line>, s: seq<KeyValue>, reducef: Reducer) {
    && (forall i :: 0 <= i < |lines| ==> LineOf(lines[i], s, reducef))
    && (forall x :: 0 <= x < |s| ==> Covered(lines, s[x].key))
    && DistinctKeys(lines)
  }

  ghost predicate LineOf(line: Line, s: seq<KeyValue>, reducef: Reducer) {
    HasKey(s, line.key) && line.output == reducef(line.key, ValuesOf(s, line.key))
  }

  ghost predicate Covered(lines: seq<Line>, k: string) {
    exists i :: 0 <= i < |lines| && lines[i].key == k
  }

  ghost predicate DistinctKeys(lines: seq<Line>) {
    forall i, j :: 0 <= i < j < |lines| ==> lines[i].key != lines[j].key
  }

  /** In a sorted list everything after the first run has a greater key. */
  lemma RestIsGreater(s: seq<KeyValue>)
    requires s != [] && Sorted(s)
    ensures Sorted(s[RunLength(s)..])
    ensures !HasKey(s[RunLength(s)..], s[0].key)
  {
    TailIsGreater(s, RunLength(s));
  }

  lemma TailIsGreater(s: seq<KeyValue>, j: nat)
    requires Sorted(s) && 0 < j <= |s| && (j < |s| ==> s[j].key != s[0].key)
    ensures Sorted(s[j..]) && !HasKey(s[j..], s[0].key)
  {
    var rest := s[j..];
    assert forall i :: 0 <= i < |rest| ==> rest[i] == s[j + i];
    if HasKey(rest, s[0].key) {
      var i :| 0 <= i < |rest| && rest[i].key == s[0].key;
      LessIsTotal(s[j].key, s[0].key);
      assert false;
    }
  }

  lemma {:induction false} GroupsOfSorted(s: seq<KeyValue>, reducef: Reducer)
    requires Sorted(s)
    ensures LinesOf(Groups(s, reducef), s, reducef)
    decreases |s|
  {
    if s != [] {
      var j := RunLength(s);
      RestIsGreater(s);
      GroupsOfSorted(s[j..], reducef);
      GroupsStep(s, Groups(s[j..], reducef), reducef);
    }
  }

  /** Lines in strictly ascending order of their keys. */
  ghost predicate Ascending(lines: seq<Line>) {
    forall i, j :: 0 <= i < j < |lines| ==> KeyLess(lines[i].key, lines[j].key)
  }

  lemma {:induction false} GroupsAscend(s: seq<KeyValue>, reducef: Reducer)
    requires Sorted(s)
    ensures Ascending(Groups(s, reducef))
    decreases |s|
  {
    if s != [] {
      var rest := s[RunLength(s)..];
      RestIsGreater(s);
      GroupsAscend(rest, reducef);
      GroupsOfSorted(rest, reducef);
      var more := Groups(rest, reducef);
      forall j | 0 <= j < |more| ensures KeyLess(s[0].key, more[j].key) {
        assert LineOf(more[j], rest, reducef);
        LaterKeyIsGreater(s, RunLength(s), more[j].key);
      }
    }
  }

  lemma LaterKeyIsGreater(s: seq<KeyValue>, j: nat, k: string)
    requires Sorted(s) && 0 < j <= |s| && HasKey(s[j..], k) && !HasKey(s[j..], s[0].key)
    ensures KeyLess(s[0].key, k)
  {
    var i :| 0 <= i < |s[j..]| && s[j..][i].key == k;
    assert s[j..][i] == s[j + i];
    LessIsTotal(s[0].key, k);
  }

  /** The first run holds all values of the first key, when the rest has none. */
  lemma FirstRun(s: seq<KeyValue>)
    requires s != [] && !HasKey(s[RunLength(s)..], s[0].key)
    ensures ValuesOf(s, s[0].key) == Values(s[..RunLength(s)])
  {
    var j, k := RunLength(s), s[0].key;
    ValuesOfSplit(s, j, k);
    ValuesOfRun(s[..j], k);
    NoValues(s[j..], k);
  }

  /** Every other key has its values in the rest. */
  lemma LaterRuns(s: seq<KeyValue>, k: string)
    requires s != [] && k != s[0].key && HasKey(s[RunLength(s)..], k)
    ensures HasKey(s, k) && ValuesOf(s, k) == ValuesOf(s[RunLength(s)..], k)
  {
    var j := RunLength(s);
    ValuesOfSplit(s, j, k);
    var x :| 0 <= x < |s[j..]| && s[j..][x].key == k;
    assert s[j + x].key == k;
    NoValues(s[..j], k);
  }

  lemma {:induction false} GroupsStep(s: seq<KeyValue>, rest: seq<Line>, reducef: Reducer)
    requires s != [] && LinesOf(rest, s[RunLength(s)..], reducef) && !HasKey(s[RunLength(s)..], s[0].key)
    ensures LinesOf([Line(s[0].key, reducef(s[0].key, Values(s[..RunLength(s)])))] + rest, s, reducef)
  {
    var j, k0 := RunLength(s), s[0].key;
    var first := Line(k0, reducef(k0, Values(s[..j])));
    FirstRun(s);
    assert HasKey(s, k0);
    forall i | 0 <= i < |rest| ensures LineOf(rest[i], s, reducef) && rest[i].key != k0 {
      assert LineOf(rest[i], s[j..], reducef);
      LaterRuns(s, rest[i].key);
    }
    forall x | 0 <= x < |s| ensures Covered([first] + rest, s[x].key) {
      assert x >= j ==> s[j..][x - j] == s[x];
      StillCovered(s, rest, first, x);
    }
    OneMoreLine(first, rest, s, reducef);
  }

  lemma OneMoreLine(first: Line, rest: seq<Line>, s: seq<KeyValue>, reducef: Reducer)
    requires LineOf(first, s, reducef) && DistinctKeys(rest)
    requires forall i :: 0 <= i < |rest| ==> LineOf(rest[i], s, reducef) && rest[i].key != first.key
    requires forall x :: 0 <= x < |s| ==> Covered([first] + rest, s[x].key)
    ensures LinesOf([first] + rest, s, reducef)
  {
  }

  lemma StillCovered(s: seq<KeyValue>, rest: seq<Line>, first: Line, x: nat)
    requires x < |s| && first.key == s[0].key && (x >= RunLength(s) ==> Covered(rest, s[x].key))
    ensures Covered([first] + rest, s[x].key)
  {
    var lines := [first] + rest;
    if x < RunLength(s) {
      assert lines[0].key == s[x].key;
    } else {
      var i :| 0 <= i < |rest| && rest[i].key == s[x].key;
      assert lines[i + 1].key == s[x].key;
    }
  }

  // ----- lists of lists

  function Flatten<T>(xs: seq<seq<T>>): seq<T> {
    if xs == [] then [] else Flatten(xs[..|xs| - 1]) + xs[|xs| - 1]
  }

  lemma {:induction false} FlattenHas<T>(xs: seq<seq<T>>, x: T)
    ensures x in Flatten(xs) <==> exists t :: 0 <= t < |xs| && x in xs[t]
  {
    if xs != [] {
      var last := |xs| - 1;
      FlattenHas(xs[..last], x);
      if x in Flatten(xs[..last]) {
        var t :| 0 <= t < last && x in xs[..last][t];
        assert x in xs[t];
      }
      if t :| 0 <= t < |xs| && x in xs[t] {
        if t < last { assert x in xs[..last][t]; }
      }
    }
  }

  /** Two lists of lists that count x equally often at every place count it equally often in all. */
  lemma {:induction false} FlattenCount<T>(xs: seq<seq<T>>, ys: seq<seq<T>>, x: T)
    requires |xs| == |ys|
    requires forall t :: 0 <= t < |xs| ==> multiset(xs[t])[x] == multiset(ys[t])[x]
    ensures multiset(Flatten(xs))[x] == multiset(Flatten(ys))[x]
  {
    if xs != [] {
      var last := |xs| - 1;
      assert forall t :: 0 <= t < last ==> xs[..last][t] == xs[t] && ys[..last][t] == ys[t];
      FlattenCount(xs[..last], ys[..last], x);
    }
  }

  /** Lists of lines with distinct keys and the same elements are permutations of one another. */
  lemma {:induction false} DistinctCount(lines: seq<Line>, x: Line)
    requires DistinctKeys(lines)
    ensures multiset(lines)[x] == if x in lines then 1 else 0
  {
    if lines != [] {
      var last := |lines| - 1;
      assert lines == lines[..last] + [lines[last]];
      DistinctCount(lines[..last], x);
      assert x in lines[..last] ==> x != lines[last];
    }
  }

  lemma SameLines(a: seq<Line>, b: seq<Line>)
    requires DistinctKeys(a) && DistinctKeys(b)
    requires forall x :: x in a <==> x in b
    ensures multiset(a) == multiset(b)
  {
    forall x: Line ensures multiset(a)[x] == multiset(b)[x] {
      DistinctCount(a, x);
      DistinctCount(b, x);
    }
  }
}
