/** Counting occurrences the way the statistics code fills a `Map<string, number>` or a
    `Record<string, number>` with `counts[k] = (counts[k] ?? 0) + 1`: one entry per distinct
    key, in the order the keys were first seen. Also the integer form of
    `Math.round(part / whole * 100)`. */
module Counting {
  import opened Wrappers
  import opened Seqs

  /** One key of a counting map and its count. */
  datatype Entry = Entry(key: string, count: nat)

  /** The keys of a counting map, in iteration order. */
  function Keys(t: seq<Entry>): (ks: seq<string>)
    ensures |ks| == |t|
    ensures forall i :: 0 <= i < |t| ==> ks[i] == t[i].key
  {
    seq(|t|, i requires 0 <= i < |t| => t[i].key)
  }

  /** `counts.get(k) ?? 0`: the count stored under `k`, or 0 when `k` is not a key. */
  function CountOf(t: seq<Entry>, k: string): nat {
    if t == [] then 0
    else if t[0].key == k then t[0].count
    else CountOf(t[1..], k)
  }

  /** The sum of all counts. */
  function Total(t: seq<Entry>): nat {
    if t == [] then 0 else t[0].count + Total(t[1..])
  }

  /** `counts.set(x, (counts.get(x) ?? 0) + 1)`: an existing key is incremented where it
      stands; a new key is appended with count 1. */
  function Bump(t: seq<Entry>, x: string): (r: seq<Entry>)
    ensures |r| == if x in Keys(t) then |t| else |t| + 1
  {
    if t == [] then [Entry(x, 1)]
    else if t[0].key == x then [Entry(x, t[0].count + 1)] + t[1..]
    else
      assert Keys(t) == [t[0].key] + Keys(t[1..]);
      [t[0]] + Bump(t[1..], x)
  }

  /** Bumping `x` adds one to the count of `x` and leaves every other count alone. */
  lemma {:induction false} BumpCount(t: seq<Entry>, x: string, k: string)
    requires NoDup(Keys(t))
    ensures CountOf(Bump(t, x), k) == CountOf(t, k) + (if k == x then 1 else 0)
  {
    if t != [] && t[0].key != x {
      assert Keys(t) == [t[0].key] + Keys(t[1..]);
      assert NoDup(Keys(t[1..])) by {
        forall i, j | 0 <= i < j < |Keys(t[1..])| ensures Keys(t[1..])[i] != Keys(t[1..])[j] {
          assert Keys(t)[i + 1] != Keys(t)[j + 1];
        }
      }
      BumpCount(t[1..], x, k);
      assert Bump(t, x)[1..] == Bump(t[1..], x);
    } else if t != [] && t[0].key == x && k != x {
      assert Bump(t, x)[1..] == t[1..];
    }
  }

  /** Bumping keeps the key order: an existing key stays where it is and a new key goes last. */
  lemma {:induction false} BumpKeys(t: seq<Entry>, x: string)
    ensures Keys(Bump(t, x)) == if x in Keys(t) then Keys(t) else Keys(t) + [x]
  {
    if t != [] {
      assert Keys(t) == [t[0].key] + Keys(t[1..]);
      if t[0].key == x {
        assert Keys(Bump(t, x)) == [x] + Keys(t[1..]);
      } else {
        BumpKeys(t[1..], x);
        KeysCons(t[0], Bump(t[1..], x));
        assert x in Keys(t) <==> x in Keys(t[1..]);
      }
    }
  }

  /** The keys of a map with one more entry in front. */
  lemma KeysCons(e: Entry, t: seq<Entry>)
    ensures Keys([e] + t) == [e.key] + Keys(t)
  {
  }

  /** Every bump adds exactly one to the total. */
  lemma {:induction false} BumpTotal(t: seq<Entry>, x: string)
    ensures Total(Bump(t, x)) == Total(t) + 1
  {
    if t != [] {
      if t[0].key == x {
        assert Bump(t, x)[1..] == t[1..];
      } else {
        BumpTotal(t[1..], x);
        assert Bump(t, x)[1..] == Bump(t[1..], x);
      }
    }
  }

  /** The counting map after bumping each element of `xs` in turn, starting from an empty map. */
  function Tally(xs: seq<string>): seq<Entry> {
    if xs == [] then [] else Bump(Tally(xs[..|xs| - 1]), xs[|xs| - 1])
  }

  /** Counting one more element is one more bump. */
  lemma TallySnoc(xs: seq<string>, x: string)
    ensures Tally(xs + [x]) == Bump(Tally(xs), x)
  {
    assert (xs + [x])[..|xs|] == xs;
  }

  /** Bumps each element of `xs` in turn into the map that counted `counted`, leaving the map
      that counts both. */
  method BumpAll(t: seq<Entry>, ghost counted: seq<string>, xs: seq<string>) returns (r: seq<Entry>)
    requires t == Tally(counted)
    ensures r == Tally(counted + xs)
  {
    r := t;
    var j := 0;
    ghost var done := counted;
    while j < |xs|
      invariant 0 <= j <= |xs|
      invariant done == counted + xs[..j]
      invariant r == Tally(done)
    {
      TallySnoc(done, xs[j]);
      r := Bump(r, xs[j]);
      SnocSlice(counted, xs, j);
      done := done + [xs[j]];
      j := j + 1;
    }
    assert xs[..j] == xs;
  }

  /** One bump into the map that counted `counted`, leaving the map that counts one more. */
  function BumpStep(t: seq<Entry>, ghost counted: seq<string>, x: string): (r: seq<Entry>)
    requires t == Tally(counted)
    ensures r == Tally(counted + [x])
  {
    TallySnoc(counted, x);
    Bump(t, x)
  }

  /** Extending a prefix of `xs` by its next element. */
  lemma SnocSlice(counted: seq<string>, xs: seq<string>, j: nat)
    requires j < |xs|
    ensures counted + xs[..j] + [xs[j]] == counted + xs[..j + 1]
  {
    assert xs[..j + 1] == xs[..j] + [xs[j]];
  }

  /** The keys are exactly the distinct elements counted, each once. */
  lemma {:induction false} TallyKeys(xs: seq<string>)
    ensures NoDup(Keys(Tally(xs)))
    ensures forall k :: k in Keys(Tally(xs)) <==> k in xs
  {
    if xs != [] {
      var p, x := xs[..|xs| - 1], xs[|xs| - 1];
      assert xs == p + [x];
      TallyKeys(p);
      BumpKeys(Tally(p), x);
      if x !in Keys(Tally(p)) {
        AppendNoDup(Keys(Tally(p)), x);
      }
    }
  }

  /** The count under each key is the number of times the key occurs. */
  lemma {:induction false} TallyCounts(xs: seq<string>, k: string)
    ensures CountOf(Tally(xs), k) == multiset(xs)[k]
  {
    if xs != [] {
      var p, x := xs[..|xs| - 1], xs[|xs| - 1];
      assert xs == p + [x];
      TallyKeys(p);
      TallyCounts(p, k);
      BumpCount(Tally(p), x, k);
    }
  }

  /** The counts add up to the number of elements counted. */
  lemma {:induction false} TallyTotal(xs: seq<string>)
    ensures Total(Tally(xs)) == |xs|
  {
    if xs != [] {
      TallyTotal(xs[..|xs| - 1]);
      BumpTotal(Tally(xs[..|xs| - 1]), xs[|xs| - 1]);
    }
  }

  /** The position of the first occurrence of `x`, or the length when `x` does not occur. */
  function FirstIndex(xs: seq<string>, x: string): (k: nat)
    ensures k <= |xs|
    ensures k < |xs| <==> x in xs
    ensures k < |xs| ==> xs[k] == x
    ensures x !in xs[..k]
  {
    if xs == [] then 0
    else if xs[0] == x then 0
    else
      var k := FirstIndex(xs[1..], x);
      assert xs[..k + 1] == [xs[0]] + xs[1..][..k];
      k + 1
  }

  /** The first occurrence is the one with no earlier occurrence. */
  lemma FirstIndexAt(xs: seq<string>, x: string, k: nat)
    requires k < |xs| && xs[k] == x && x !in xs[..k]
    ensures FirstIndex(xs, x) == k
  {
  }

  /** Keys are listed in the order of their first occurrence. */
  lemma {:induction false} TallyFirstSeen(xs: seq<string>)
    ensures forall i, j :: 0 <= i < j < |Keys(Tally(xs))| ==>
      FirstIndex(xs, Keys(Tally(xs))[i]) < FirstIndex(xs, Keys(Tally(xs))[j])
  {
    if xs != [] {
      var p, x := xs[..|xs| - 1], xs[|xs| - 1];
      assert xs == p + [x];
      TallyFirstSeen(p);
      TallyKeys(p);
      BumpKeys(Tally(p), x);
      var old_ks, ks := Keys(Tally(p)), Keys(Tally(xs));
      forall y | y in p ensures FirstIndex(xs, y) == FirstIndex(p, y) {
        var k := FirstIndex(p, y);
        assert xs[k] == y && xs[..k] == p[..k];
        FirstIndexAt(xs, y, k);
      }
      forall i, j | 0 <= i < j < |ks| ensures FirstIndex(xs, ks[i]) < FirstIndex(xs, ks[j]) {
        assert ks[i] == old_ks[i] && ks[i] in p;
        if j < |old_ks| {
          assert ks[j] == old_ks[j] && ks[j] in p;
        } else {
          assert ks[j] == x && x !in p;
          FirstIndexAt(xs, x, |p|);
        }
      }
    }
  }

  /** With distinct keys, looking a key up finds its own entry. */
  lemma {:induction false} CountOfAt(t: seq<Entry>, i: nat)
    requires NoDup(Keys(t)) && i < |t|
    ensures CountOf(t, t[i].key) == t[i].count
  {
    if i > 0 {
      assert Keys(t)[0] != Keys(t)[i];
      assert NoDup(Keys(t[1..])) by {
        forall a, b | 0 <= a < b < |Keys(t[1..])| ensures Keys(t[1..])[a] != Keys(t[1..])[b] {
          assert Keys(t)[a + 1] != Keys(t)[b + 1];
        }
      }
      CountOfAt(t[1..], i - 1);
    }
  }

  /** The entry a scan with a strict `count > best` comparison keeps: the first entry with the
      largest positive count, none when every count is zero. */
  function Leader(t: seq<Entry>): (r: Option<nat>)
    ensures r.None? <==> forall j :: 0 <= j < |t| ==> t[j].count == 0
    ensures r.Some? ==> (r.value < |t| && t[r.value].count > 0
      && (forall j :: 0 <= j < |t| ==> t[j].count <= t[r.value].count)
      && (forall j :: 0 <= j < r.value ==> t[j].count < t[r.value].count))
  {
    if t == [] then None
    else
      var p := Leader(t[..|t| - 1]);
      var best := if p.Some? then t[p.value].count else 0;
      assert forall j :: 0 <= j < |t| - 1 ==> t[..|t| - 1][j] == t[j];
      if t[|t| - 1].count > best then Some(|t| - 1) else p
  }

  /** The running-maximum scan over a counting map: the key and count of its leader, or none
      and 0. */
  method TopEntry(t: seq<Entry>) returns (top: Option<string>, topCount: nat)
    ensures Leader(t).None? ==> top.None? && topCount == 0
    ensures Leader(t).Some? ==> top == Some(t[Leader(t).value].key) && topCount == t[Leader(t).value].count
  {
    top, topCount := None, 0;
    var i := 0;
    while i < |t|
      invariant 0 <= i <= |t|
      invariant Leader(t[..i]).None? ==> top.None? && topCount == 0
      invariant Leader(t[..i]).Some? ==>
        Leader(t[..i]).value < i && top == Some(t[Leader(t[..i]).value].key) && topCount == t[Leader(t[..i]).value].count
    {
      assert t[..i + 1][..i] == t[..i];
      if t[i].count > topCount {
        top, topCount := Some(t[i].key), t[i].count;
      }
      i := i + 1;
    }
    assert t[..|t|] == t;
  }

  /** In the counting map of `xs`, the leader is an element that occurs most often, and of all
      the elements occurring that often it occurs first; there is one unless `xs` is empty. */
  lemma MostCommonFirstSeen(xs: seq<string>)
    ensures Leader(Tally(xs)).None? <==> xs == []
    ensures Leader(Tally(xs)).Some? ==>
      var w := Tally(xs)[Leader(Tally(xs)).value].key;
      && w in xs
      && Tally(xs)[Leader(Tally(xs)).value].count == multiset(xs)[w]
      && (forall y :: y in xs ==> multiset(xs)[y] <= multiset(xs)[w])
      && (forall y :: y in xs && y != w && multiset(xs)[y] == multiset(xs)[w] ==> FirstIndex(xs, w) < FirstIndex(xs, y))
  {
    var t := Tally(xs);
    TallyKeys(xs);
    TallyCountsAll(xs);
    if xs != [] {
      assert xs[0] in Keys(t);
      var i0 :| 0 <= i0 < |t| && t[i0].key == xs[0];
      assert t[i0].count > 0;
    }
    var r := Leader(t);
    if r.Some? {
      assert Keys(t)[r.value] == t[r.value].key;
      forall y | y in xs ensures multiset(xs)[y] <= multiset(xs)[t[r.value].key]
        && (y != t[r.value].key && multiset(xs)[y] == multiset(xs)[t[r.value].key] ==>
          FirstIndex(xs, t[r.value].key) < FirstIndex(xs, y))
      {
        LeaderBeats(xs, y);
      }
    }
  }

  /** Every entry of the counting map of `xs` holds its key's number of occurrences. */
  lemma TallyCountsAll(xs: seq<string>)
    ensures forall i :: 0 <= i < |Tally(xs)| ==> Tally(xs)[i].count == multiset(xs)[Tally(xs)[i].key]
  {
    var t := Tally(xs);
    TallyKeys(xs);
    forall i | 0 <= i < |t| ensures t[i].count == multiset(xs)[t[i].key] {
      CountOfAt(t, i);
      TallyCounts(xs, t[i].key);
    }
  }

  /** No element of `xs` occurs more often than the leader of its counting map, nor as often
      with an earlier first occurrence. */
  lemma LeaderBeats(xs: seq<string>, y: string)
    requires Leader(Tally(xs)).Some? && y in xs
    ensures var w := Tally(xs)[Leader(Tally(xs)).value].key;
      && multiset(xs)[y] <= multiset(xs)[w]
      && (y != w && multiset(xs)[y] == multiset(xs)[w] ==> FirstIndex(xs, w) < FirstIndex(xs, y))
  {
    var t := Tally(xs);
    var L := Leader(t).value;
    TallyKeys(xs);
    TallyCountsAll(xs);
    TallyFirstSeen(xs);
    assert y in Keys(t);
    var j :| 0 <= j < |t| && t[j].key == y;
    assert Keys(t)[j] == y && Keys(t)[L] == t[L].key;
  }

  /** A counting map has one entry per distinct element. */
  lemma DistinctKeys(xs: seq<string>)
    ensures |Tally(xs)| == |Elements(xs)|
  {
    TallyKeys(xs);
    NoDupCard(Keys(Tally(xs)));
    assert Elements(Keys(Tally(xs))) == Elements(xs);
  }

  /** The total of a map with one entry taken out. */
  lemma {:induction false} TotalSplit(t: seq<Entry>, k: nat)
    requires k < |t|
    ensures Total(t) == t[k].count + Total(t[..k] + t[k + 1..])
  {
    if k > 0 {
      TotalSplit(t[1..], k - 1);
      var u := t[..k] + t[k + 1..];
      assert u[0] == t[0] && t[1..][k - 1] == t[k];
      assert Total(t) == t[0].count + Total(t[1..]);
      assert t[1..][..k - 1] + t[1..][k..] == u[1..];
      assert Total(u) == u[0].count + Total(u[1..]);
    } else {
      assert t[..0] + t[1..] == t[1..];
    }
  }

  /** Reordering the entries keeps the total. */
  lemma {:induction false} TotalPermutation(a: seq<Entry>, b: seq<Entry>)
    requires multiset(a) == multiset(b)
    ensures Total(a) == Total(b)
    decreases |a|
  {
    if a != [] {
      MultisetHead(a);
      var k :| 0 <= k < |b| && b[k] == a[0];
      MultisetRemoveAt(b, k);
      TotalPermutation(a[1..], b[..k] + b[k + 1..]);
      TotalSplit(b, k);
    } else {
      assert |b| == |multiset(b)| == 0;
    }
  }

  /** Reordering a map with distinct keys keeps its keys distinct. */
  lemma PermutationNoDupKeys(a: seq<Entry>, b: seq<Entry>)
    requires multiset(a) == multiset(b) && NoDup(Keys(a))
    ensures NoDup(Keys(b))
  {
    forall i, j | 0 <= i < j < |b| ensures b[i].key != b[j].key {
      if b[i].key == b[j].key {
        assert b[i] in multiset(a) && b[j] in multiset(a);
        var p :| 0 <= p < |a| && a[p] == b[i];
        var q :| 0 <= q < |a| && a[q] == b[j];
        assert Keys(a)[p] == Keys(a)[q];
        if b[i] == b[j] {
          MultisetTwice(b, i, j);
          OnceIfDistinctKeys(a, p);
        }
      }
    }
  }

  /** In a map with distinct keys every entry occurs once. */
  lemma {:induction false} OnceIfDistinctKeys(a: seq<Entry>, p: nat)
    requires NoDup(Keys(a)) && p < |a|
    ensures multiset(a)[a[p]] == 1
  {
    if p > 0 {
      assert Keys(a)[0] != Keys(a)[p];
      assert NoDup(Keys(a[1..])) by {
        forall x, y | 0 <= x < y < |Keys(a[1..])| ensures Keys(a[1..])[x] != Keys(a[1..])[y] {
          assert Keys(a)[x + 1] != Keys(a)[y + 1];
        }
      }
      OnceIfDistinctKeys(a[1..], p - 1);
      assert a == [a[0]] + a[1..];
    } else {
      assert a == [a[0]] + a[1..];
      forall x | 0 <= x < |a[1..]| ensures a[1..][x] != a[0] {
        assert Keys(a)[x + 1] != Keys(a)[0];
      }
      assert a[0] !in a[1..];
    }
  }

  /** An entry found in a reordering of the counting map of `xs` holds an element of `xs`
      and its number of occurrences. */
  lemma PermutedTallyEntry(xs: seq<string>, es: seq<Entry>, i: nat)
    requires multiset(es) == multiset(Tally(xs)) && i < |es|
    ensures es[i].key in xs && es[i].count == multiset(xs)[es[i].key]
  {
    var t := Tally(xs);
    TallyKeys(xs);
    assert es[i] in multiset(t);
    var k :| 0 <= k < |t| && t[k] == es[i];
    assert Keys(t)[k] == es[i].key;
    CountOfAt(t, k);
    TallyCounts(xs, t[k].key);
  }

  /** A reordering of the counting map of `xs` has one entry per distinct element of `xs`,
      each with its number of occurrences, and its counts add up to the length of `xs`. */
  lemma PermutedTally(xs: seq<string>, es: seq<Entry>)
    requires multiset(es) == multiset(Tally(xs))
    ensures NoDup(Keys(es))
    ensures forall m :: m in Keys(es) <==> m in xs
    ensures forall i :: 0 <= i < |es| ==> es[i].count == multiset(xs)[es[i].key]
    ensures Total(es) == |xs|
  {
    var t := Tally(xs);
    TallyKeys(xs);
    TallyTotal(xs);
    PermutationNoDupKeys(t, es);
    TotalPermutation(es, t);
    forall i | 0 <= i < |es| ensures es[i].key in xs && es[i].count == multiset(xs)[es[i].key] {
      PermutedTallyEntry(xs, es, i);
    }
    forall m | m in xs ensures m in Keys(es) {
      PermutedTallyHas(xs, es, m);
    }
  }

  /** Every element of `xs` has an entry in a reordering of its counting map. */
  lemma PermutedTallyHas(xs: seq<string>, es: seq<Entry>, m: string)
    requires multiset(es) == multiset(Tally(xs)) && m in xs
    ensures m in Keys(es)
  {
    var t := Tally(xs);
    TallyKeys(xs);
    assert m in Keys(t);
    var k :| 0 <= k < |t| && t[k].key == m;
    assert t[k] in multiset(es);
    var j :| 0 <= j < |es| && es[j] == t[k];
    assert Keys(es)[j] == m;
  }

  /** `Math.round(part / whole * 100)` on exact rationals: the nearest integer to
      `100 * part / whole`, halves rounded up. */
  function RoundPercent(part: nat, whole: nat): (r: nat)
    requires whole > 0
    ensures part <= whole ==> r <= 100
    ensures part == 0 ==> r == 0
  {
    DivBounds(200 * part + whole, 2 * whole);
    PercentRange(part, whole, (200 * part + whole) / (2 * whole));
    (200 * part + whole) / (2 * whole)
  }

  /** The rounded percentage is the nearest integer to `100 * part / whole`, halves going
      up. */
  lemma RoundPercentNearest(part: nat, whole: nat)
    requires whole > 0
    ensures var r := RoundPercent(part, whole);
      2 * whole * r <= 200 * part + whole < 2 * whole * (r + 1)
  {
    DivBounds(200 * part + whole, 2 * whole);
  }

  /** Euclidean division brackets the dividend between two consecutive multiples. */
  lemma DivBounds(n: nat, m: nat)
    requires m > 0
    ensures m * (n / m) <= n < m * (n / m + 1)
  {
    var q := n / m;
    assert n == m * q + n % m;
    assert m * (q + 1) == m * q + m;
  }

  /** A quotient so bracketed is at most 100 for a part of the whole, and 0 for no part. */
  lemma PercentRange(part: nat, whole: nat, r: nat)
    requires whole > 0
    requires 2 * whole * r <= 200 * part + whole
    ensures part <= whole ==> r <= 100
    ensures part == 0 ==> r == 0
  {
    if part <= whole && r > 100 {
      MulMonotone(2 * whole, 101, r);
    }
    if part == 0 && r > 0 {
      MulMonotone(2 * whole, 1, r);
    }
  }

  /** Multiplying by a natural number keeps the order. */
  lemma MulMonotone(m: nat, a: nat, b: nat)
    requires a <= b
    ensures m * a <= m * b
  {
    assert m * b == m * a + m * (b - a);
  }
}
