/** The worker's map and reduce steps, the sequential program, and why they print the same lines. */
module MapReduce {
  import opened KeyValues

  type Hash = string -> nat

  function Bucket(s: seq<KeyValue>, hash: Hash, n: nat, i: nat): seq<KeyValue>
    requires n >= 1
  {
    if s == [] then []
    else
      var last := s[|s| - 1];
      Bucket(s[..|s| - 1], hash, n, i) + (if hash(last.key) % n == i then [last] else [])
  }

  /** `content` is bucket i of the pairs `mapped`, in some order. */
  ghost predicate IsBucket(content: seq<KeyValue>, mapped: seq<KeyValue>, hash: Hash, n: nat, i: nat)
    requires n >= 1
  {
    forall kv :: multiset(content)[kv] == if hash(kv.key) % n == i then multiset(mapped)[kv] else 0
  }

  lemma {:induction false} BucketCount(s: seq<KeyValue>, hash: Hash, n: nat, i: nat, kv: KeyValue)
    requires n >= 1
    ensures multiset(Bucket(s, hash, n, i))[kv] == if hash(kv.key) % n == i then multiset(s)[kv] else 0
  {
    if s != [] {
      var last := |s| - 1;
      assert s == s[..last] + [s[last]];
      BucketCount(s[..last], hash, n, i, kv);
    }
  }

  // ----- worker

  /** doMap after mapf: `sorted` is what sort.Sort made of `mapped`; the pairs are dealt out to the buckets. */
  method DoMap(ghost mapped: seq<KeyValue>, sorted: seq<KeyValue>, hash: Hash, n: nat)
    returns (reduces: seq<seq<KeyValue>>)
    requires n >= 1 && SortOf(mapped, sorted)
    ensures |reduces| == n
    ensures forall i :: 0 <= i < n ==> reduces[i] == Bucket(sorted, hash, n, i)
    ensures forall i :: 0 <= i < n ==> IsBucket(reduces[i], mapped, hash, n, i)
    ensures forall i, kv: KeyValue :: 0 <= i < n && kv in reduces[i] ==> hash(kv.key) % n == i
    ensures forall kv: KeyValue :: multiset(reduces[hash(kv.key) % n])[kv] == multiset(mapped)[kv]
  {
    reduces := seq(n, _ => []);
    for k := 0 to |sorted|
      invariant |reduces| == n
      invariant forall i :: 0 <= i < n ==> reduces[i] == Bucket(sorted[..k], hash, n, i)
    {
      assert sorted[..k + 1][..k] == sorted[..k];
      var idx := hash(sorted[k].key) % n;
      reduces := reduces[idx := reduces[idx] + [sorted[k]]];
    }
    assert sorted[..|sorted|] == sorted;
    forall i | 0 <= i < n ensures IsBucket(reduces[i], mapped, hash, n, i) {
      forall kv: KeyValue {
        BucketCount(sorted, hash, n, i, kv);
      }
    }
    forall i, kv | 0 <= i < n && kv in reduces[i] ensures hash(kv.key) % n == i {
      assert multiset(reduces[i])[kv] > 0;
    }
  }

  /** The innermost of the grouping loops. */
  method CollectValues(intermediate: seq<KeyValue>, i: nat, j: nat) returns (values: seq<string>)
    requires i <= j <= |intermediate|
    ensures values == Values(intermediate[i..j])
  {
    values := [];
    for k := i to j
      invariant |values| == k - i
      invariant forall x :: 0 <= x < k - i ==> values[x] == intermediate[i + x].value
    {
      values := values + [intermediate[k].value];
    }
  }

  /** The grouping loops, in doReduce and in the sequential program alike. */
  method EmitGroups(intermediate: seq<KeyValue>, reducef: Reducer) returns (lines: seq<Line>)
    ensures lines == Groups(intermediate, reducef)
  {
    lines := [];
    var i := 0;
    while i < |intermediate|
      invariant 0 <= i <= |intermediate|
      invariant lines + Groups(intermediate[i..], reducef) == Groups(intermediate, reducef)
    {
      var j := i + 1;
      while j < |intermediate| && intermediate[j].key == intermediate[i].key
        invariant i < j <= |intermediate|
        invariant forall x :: i <= x < j ==> intermediate[x].key == intermediate[i].key
      {
        j := j + 1;
      }
      var values := CollectValues(intermediate, i, j);
      var output := reducef(intermediate[i].key, values);
      OneGroup(intermediate, i, j, reducef);
      GroupsAppend(lines, Line(intermediate[i].key, output), Groups(intermediate[j..], reducef));
      lines := lines + [Line(intermediate[i].key, output)];
      i := j;
    }
  }

  lemma GroupsAppend(a: seq<Line>, x: Line, b: seq<Line>)
    ensures a + ([x] + b) == (a + [x]) + b
  {
  }

  /** What the loops find between i and j is the first group of the rest. */
  lemma OneGroup(s: seq<KeyValue>, i: nat, j: nat, reducef: Reducer)
    requires i < j <= |s| && (j < |s| ==> s[j].key != s[i].key)
    requires forall x :: i <= x < j ==> s[x].key == s[i].key
    ensures Groups(s[i..], reducef) ==
            [Line(s[i].key, reducef(s[i].key, Values(s[i..j])))] + Groups(s[j..], reducef)
  {
    var rest := s[i..];
    var r := RunLength(rest);
    assert forall x :: 0 <= x < |rest| ==> rest[x] == s[i + x];
    assert j - i < |rest| ==> rest[j - i].key != rest[0].key;
    assert r == j - i;
    assert rest[..r] == s[i..j] && rest[r..] == s[j..];
  }

  /** doReduce: merge the files of one bucket, sort (to `sorted`), group. */
  method DoReduce(files: seq<seq<KeyValue>>, sorted: seq<KeyValue>, reducef: Reducer) returns (lines: seq<Line>)
    requires SortOf(Flatten(files), sorted)
    ensures lines == Groups(sorted, reducef) && LinesOf(lines, sorted, reducef) && Ascending(lines)
  {
    var intermediate := [];
    for t := 0 to |files|
      invariant intermediate == Flatten(files[..t])
    {
      assert files[..t + 1][..t] == files[..t];
      intermediate := intermediate + files[t];
    }
    assert files[..|files|] == files;
    assert SortOf(intermediate, sorted);
    lines := EmitGroups(sorted, reducef);
    GroupsOfSorted(sorted, reducef);
    GroupsAscend(sorted, reducef);
  }

  // ----- the sequential program

  /** mrsequential: all map output in one place, sorted (to `sorted`), grouped. */
  method Sequential(mapped: seq<seq<KeyValue>>, sorted: seq<KeyValue>, reducef: Reducer) returns (lines: seq<Line>)
    requires SortOf(Flatten(mapped), sorted)
    ensures lines == Groups(sorted, reducef) && LinesOf(lines, sorted, reducef) && Ascending(lines)
  {
    lines := DoReduce(mapped, sorted, reducef);
  }

  // ----- equivalence

  /** reducef does not care in which order a key's values come. */
  ghost predicate OrderFree(reducef: Reducer) {
    forall k, a, b :: multiset(a) == multiset(b) ==> reducef(k, a) == reducef(k, b)
  }

  lemma HasKeyCount(s: seq<KeyValue>, k: string)
    ensures HasKey(s, k) <==> exists v :: multiset(s)[KeyValue(k, v)] > 0
  {
    if HasKey(s, k) {
      var i :| 0 <= i < |s| && s[i].key == k;
      assert s[i] in multiset(s) && s[i] == KeyValue(k, s[i].value);
    }
    if v :| multiset(s)[KeyValue(k, v)] > 0 {
      assert KeyValue(k, v) in s;
    }
  }

  /** A key of a bucket: only there, and with the same values as in the whole. */
  lemma BucketHasKey(part: seq<KeyValue>, whole: seq<KeyValue>, hash: Hash, n: nat, i: nat, k: string)
    requires n >= 1 && IsBucket(part, whole, hash, n, i)
    ensures HasKey(part, k) <==> HasKey(whole, k) && hash(k) % n == i
    ensures hash(k) % n == i ==> multiset(ValuesOf(part, k)) == multiset(ValuesOf(whole, k))
  {
    HasKeyCount(part, k);
    HasKeyCount(whole, k);
    if HasKey(whole, k) && hash(k) % n == i {
      var v :| multiset(whole)[KeyValue(k, v)] > 0;
      assert multiset(part)[KeyValue(k, v)] > 0;
    }
    if hash(k) % n == i { SameValues(part, whole, k); }
  }

  lemma LineExists(lines: seq<Line>, s: seq<KeyValue>, reducef: Reducer, k: string)
    requires LinesOf(lines, s, reducef) && HasKey(s, k)
    ensures Line(k, reducef(k, ValuesOf(s, k))) in lines
  {
    var x :| 0 <= x < |s| && s[x].key == k;
    assert Covered(lines, s[x].key);
    var i :| 0 <= i < |lines| && lines[i].key == k;
    assert LineOf(lines[i], s, reducef);
  }

  /** The lines of a bucket are the lines of the whole for the keys of that bucket. */
  lemma BucketLines(part: seq<KeyValue>, whole: seq<KeyValue>, hash: Hash, n: nat, i: nat, reducef: Reducer, x: Line)
    requires n >= 1 && IsBucket(part, whole, hash, n, i) && Sorted(part) && Sorted(whole) && OrderFree(reducef)
    ensures x in Groups(part, reducef) <==> x in Groups(whole, reducef) && hash(x.key) % n == i
  {
    GroupsOfSorted(part, reducef);
    GroupsOfSorted(whole, reducef);
    BucketHasKey(part, whole, hash, n, i, x.key);
    if x in Groups(part, reducef) {
      assert LineOf(x, part, reducef);
      LineExists(Groups(whole, reducef), whole, reducef, x.key);
    }
    if x in Groups(whole, reducef) && hash(x.key) % n == i {
      assert LineOf(x, whole, reducef);
      LineExists(Groups(part, reducef), part, reducef, x.key);
    }
  }

  /** outs[i] holds the lines of bucket i of `whole`. */
  ghost predicate BucketsReduced(outs: seq<seq<Line>>, parts: seq<seq<KeyValue>>, whole: seq<KeyValue>,
                                 hash: Hash, n: nat, reducef: Reducer)
    requires n >= 1
  {
    && |outs| == |parts| == n
    && forall i :: 0 <= i < n ==>
                     IsBucket(parts[i], whole, hash, n, i) && Sorted(parts[i]) && outs[i] == Groups(parts[i], reducef)
  }

  lemma {:induction false} FlattenDistinct(outs: seq<seq<Line>>, hash: Hash, n: nat)
    requires n >= 1
    requires forall i :: 0 <= i < |outs| ==> DistinctKeys(outs[i])
    requires forall i, x :: 0 <= i < |outs| && x in outs[i] ==> hash(x.key) % n == i
    ensures DistinctKeys(Flatten(outs))
  {
    if outs != [] {
      var last := |outs| - 1;
      assert forall i :: 0 <= i < last ==> outs[..last][i] == outs[i];
      FlattenDistinct(outs[..last], hash, n);
      var a, b := Flatten(outs[..last]), outs[last];
      forall i, j | 0 <= i < |a| && 0 <= j < |b| ensures a[i].key != b[j].key {
        FlattenHas(outs[..last], a[i]);
        assert a[i] in a;
        var t :| 0 <= t < last && a[i] in outs[..last][t];
        assert a[i] in outs[t] && b[j] in outs[last];
      }
    }
  }

  /** The buckets' lines together are the sequential program's lines, each key in one bucket once. */
  lemma BucketsEquivalent(outs: seq<seq<Line>>, parts: seq<seq<KeyValue>>, whole: seq<KeyValue>,
                          hash: Hash, n: nat, reducef: Reducer)
    requires n >= 1 && Sorted(whole) && OrderFree(reducef) && BucketsReduced(outs, parts, whole, hash, n, reducef)
    ensures multiset(Flatten(outs)) == multiset(Groups(whole, reducef))
    ensures DistinctKeys(Flatten(outs))
    ensures forall i, x: Line :: 0 <= i < n && x in outs[i] ==> hash(x.key) % n == i
    ensures forall i :: 0 <= i < n ==> Ascending(outs[i])
  {
    forall i | 0 <= i < n ensures Ascending(outs[i]) { GroupsAscend(parts[i], reducef); }
    forall i | 0 <= i < n ensures DistinctKeys(outs[i]) { GroupsOfSorted(parts[i], reducef); }
    forall i, x | 0 <= i < n && x in outs[i] ensures hash(x.key) % n == i {
      BucketLines(parts[i], whole, hash, n, i, reducef, x);
    }
    FlattenDistinct(outs, hash, n);
    GroupsOfSorted(whole, reducef);
    forall x ensures x in Flatten(outs) <==> x in Groups(whole, reducef) {
      FlattenHas(outs, x);
      if x in Flatten(outs) {
        var i :| 0 <= i < |outs| && x in outs[i];
        BucketLines(parts[i], whole, hash, n, i, reducef, x);
      }
      if x in Groups(whole, reducef) {
        var i := hash(x.key) % n;
        BucketLines(parts[i], whole, hash, n, i, reducef, x);
        assert x in outs[i];
      }
    }
    SameLines(Flatten(outs), Groups(whole, reducef));
  }

  // ----- merging

  lemma {:induction false} FlattenBucket(
    files: seq<seq<KeyValue>>, mapped: seq<seq<KeyValue>>, hash: Hash, n: nat, i: nat)
    requires n >= 1 && |files| == |mapped|
    requires forall t :: 0 <= t < |files| ==> IsBucket(files[t], mapped[t], hash, n, i)
    ensures IsBucket(Flatten(files), Flatten(mapped), hash, n, i)
  {
    forall kv: KeyValue
      ensures multiset(Flatten(files))[kv] ==
              if hash(kv.key) % n == i then multiset(Flatten(mapped))[kv] else 0
    {
      if hash(kv.key) % n == i {
        FlattenCount(files, mapped, kv);
      } else {
        var none := seq(|files|, _ => []);
        FlattenCount(files, none, kv);
        FlattenNone(none);
      }
    }
  }

  lemma {:induction false} FlattenNone(xs: seq<seq<KeyValue>>)
    requires forall t :: 0 <= t < |xs| ==> xs[t] == []
    ensures Flatten(xs) == []
  {
    if xs != [] {
      assert forall t :: 0 <= t < |xs| - 1 ==> xs[..|xs| - 1][t] == xs[t];
      FlattenNone(xs[..|xs| - 1]);
    }
  }

  lemma {:induction false} FlattenConcat<T>(a: seq<seq<T>>, b: seq<seq<T>>)
    ensures Flatten(a + b) == Flatten(a) + Flatten(b)
  {
    if b == [] {
      assert a + b == a;
    } else {
      assert (a + b)[..|a + b| - 1] == a + b[..|b| - 1];
      FlattenConcat(a, b[..|b| - 1]);
    }
  }

  /** The order in which the files of a bucket are found does not matter. */
  lemma {:induction false} FlattenAnyOrder(a: seq<seq<KeyValue>>, b: seq<seq<KeyValue>>)
    requires multiset(a) == multiset(b)
    ensures multiset(Flatten(a)) == multiset(Flatten(b))
    decreases |a|
  {
    if a == [] {
      assert |b| == |multiset(b)| == 0;
      assert b == [];
    } else {
      assert a[0] in multiset(b);
      var k :| 0 <= k < |b| && b[k] == a[0];
      var x, a', b' := a[0], a[..0] + a[1..], b[..k] + b[k + 1..];
      FlattenAround(a, 0, x, a');
      FlattenAround(b, k, x, b');
      SameRest(multiset(a'), multiset(b'), x);
      FlattenAnyOrder(a', b');
      SameSum(Flatten(a), Flatten(a'), Flatten(b), Flatten(b'), x);
    }
  }

  lemma SameSum<T>(a: seq<T>, a': seq<T>, b: seq<T>, b': seq<T>, x: seq<T>)
    requires multiset(a) == multiset(a') + multiset(x) && multiset(b) == multiset(b') + multiset(x)
    requires multiset(a') == multiset(b')
    ensures multiset(a) == multiset(b)
  {
  }

  lemma FlattenAround(b: seq<seq<KeyValue>>, k: nat, at: seq<KeyValue>, rest: seq<seq<KeyValue>>)
    requires k < |b| && at == b[k] && rest == b[..k] + b[k + 1..]
    ensures multiset(b) == multiset(rest) + multiset{at}
    ensures multiset(Flatten(b)) == multiset(Flatten(rest)) + multiset(at)
  {
    var x, y := b[..k], b[k + 1..];
    assert b == x + ([at] + y);
    FlattenConcat(x, y);
    FlattenConcat(x, [at] + y);
    FlattenConcat([at], y);
    FlattenOne(at);
  }

  lemma FlattenOne<T>(x: seq<T>)
    ensures Flatten([x]) == x
  {
    var one := [x];
    assert one[..0] == [];
    assert Flatten(one) == Flatten(one[..0]) + x;
  }

  lemma SameRest<T>(a: multiset<T>, b: multiset<T>, x: T)
    requires a + multiset{x} == b + multiset{x}
    ensures a == b
  {
    assert a == (a + multiset{x}) - multiset{x};
    assert b == (b + multiset{x}) - multiset{x};
  }
}
