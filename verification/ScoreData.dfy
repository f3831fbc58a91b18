/** The best-scores list: append, sort by descending score, keep ten
    (shared/ScoreData.cpp). */
module ScoreData {
  import opened Common

  const MAX_SCORES: nat := 10

  datatype ScoreEntry = ScoreEntry(playerName: string, score: u32, timestamp: u64)

  predicate SortedDescending(s: seq<ScoreEntry>) {
    forall i, j :: 0 <= i < j < |s| ==> s[i].score >= s[j].score
  }

  /** All that `std::sort` with `operator>` promises: the same entries, by descending
      score. Entries with equal scores may come out in any order. */
  ghost predicate SortOutcome(s: seq<ScoreEntry>, t: seq<ScoreEntry>) {
    multiset(t) == multiset(s) && SortedDescending(t)
  }

  function Truncate(s: seq<ScoreEntry>): seq<ScoreEntry> {
    if |s| > MAX_SCORES then s[..MAX_SCORES] else s
  }

  /** One `add_and_sort` may take list `before` to list `after`. */
  ghost predicate AddStep(before: seq<ScoreEntry>, e: ScoreEntry, after: seq<ScoreEntry>) {
    exists t :: SortOutcome(before + [e], t) && after == Truncate(t)
  }

  /** `list` holds the ten best (or all, when there are fewer) of the entries in `all`. */
  ghost predicate IsTop(list: seq<ScoreEntry>, all: seq<ScoreEntry>) {
    && SortedDescending(list)
    && |list| == (if |all| < MAX_SCORES then |all| else MAX_SCORES)
    && exists rest :: LeavesOut(list, all, rest)
  }

  ghost predicate LeavesOut(list: seq<ScoreEntry>, all: seq<ScoreEntry>, rest: seq<ScoreEntry>) {
    && multiset(all) == multiset(list + rest)
    && forall i, j :: 0 <= i < |list| && 0 <= j < |rest| ==> rest[j].score <= list[i].score
  }

  class ScoreboardData {
    var soloScores: seq<ScoreEntry>
    var multiScores: seq<ScoreEntry>

    constructor ()
      ensures soloScores == [] && multiScores == []
    {
      soloScores, multiScores := [], [];
    }

    method AddSoloScore(name: string, score: u32, timestamp: u64)
      modifies this
      ensures AddStep(old(soloScores), ScoreEntry(name, score, timestamp), soloScores)
      ensures multiScores == old(multiScores)
    {
      soloScores := AddAndSort(soloScores, ScoreEntry(name, score, timestamp));
    }

    method AddMultiScore(name: string, score: u32, timestamp: u64)
      modifies this
      ensures AddStep(old(multiScores), ScoreEntry(name, score, timestamp), multiScores)
      ensures soloScores == old(soloScores)
    {
      multiScores := AddAndSort(multiScores, ScoreEntry(name, score, timestamp));
    }

    static method AddAndSort(scores: seq<ScoreEntry>, e: ScoreEntry) returns (r: seq<ScoreEntry>)
      ensures AddStep(scores, e, r)
    {
      var t := Sort(scores + [e]);
      r := t;
      if |r| > MAX_SCORES {
        r := r[..MAX_SCORES];
      }
    }

    /** Stands for `std::sort`; the results below use no more than `SortOutcome`. */
    static method Sort(s: seq<ScoreEntry>) returns (t: seq<ScoreEntry>)
      ensures SortOutcome(s, t)
    {
      t := [];
      for n := 0 to |s|
        invariant SortOutcome(s[..n], t)
      {
        assert s[..n + 1] == s[..n] + [s[n]];
        t := Insert(t, s[n]);
      }
      assert s[..|s|] == s;
    }

    static method Insert(t: seq<ScoreEntry>, e: ScoreEntry) returns (r: seq<ScoreEntry>)
      requires SortedDescending(t)
      ensures SortedDescending(r) && multiset(r) == multiset(t) + multiset{e}
    {
      var k := 0;
      while k < |t| && t[k].score >= e.score
        invariant 0 <= k <= |t|
        invariant forall i :: 0 <= i < k ==> t[i].score >= e.score
      {
        k := k + 1;
      }
      InsertKeepsEntries(t, e, k);
      r := t[..k] + [e] + t[k..];
    }
  }

  // Permutations of sequences.

  lemma InsertKeepsEntries<T>(t: seq<T>, e: T, k: nat)
    requires k <= |t|
    ensures multiset(t[..k] + [e] + t[k..]) == multiset(t) + multiset{e}
  {
    assert t == t[..k] + t[k..];
  }

  lemma RemoveEntry<T>(t: seq<T>, k: nat)
    requires k < |t|
    ensures multiset(t[..k] + t[k + 1..]) == multiset(t) - multiset{t[k]}
    ensures multiset(t) == multiset(t[..k] + t[k + 1..]) + multiset{t[k]}
  {
    assert t == t[..k] + [t[k]] + t[k + 1..];
  }

  lemma TwoPlaces<T>(t: seq<T>, i: nat, j: nat)
    requires i < j < |t| && t[i] == t[j]
    ensures multiset(t)[t[i]] >= 2
  {
    RemoveEntry(t, j);
    assert (t[..j] + t[j + 1..])[i] == t[i];
    assert t[i] in multiset(t[..j] + t[j + 1..]);
  }

  lemma SameLength<T>(s: seq<T>, t: seq<T>)
    requires multiset(s) == multiset(t)
    ensures |s| == |t|
  {
    assert |multiset(s)| == |s| && |multiset(t)| == |t|;
  }

  lemma InPermutation<T>(s: seq<T>, t: seq<T>, k: nat)
    requires multiset(s) == multiset(t) && k < |t|
    ensures t[k] in s
  {
    assert t[k] in multiset(t);
  }

  lemma OnlyOnce<T>(list: seq<T>, e: T, t: seq<T>)
    requires multiset(t) == multiset(list + [e]) && e !in list
    ensures multiset(t)[e] == 1
  {
    assert multiset(list + [e]) == multiset(list) + multiset{e};
  }

  /** `all` is `list` and `rest`; `list` and `e` are `kept` and `cut`. Then `all` and `e` are
      `kept`, `cut` and `rest`. */
  lemma Regroup<T>(all: seq<T>, list: seq<T>, rest: seq<T>, e: T, kept: seq<T>, cut: seq<T>)
    requires multiset(all) == multiset(list + rest)
    requires multiset(list + [e]) == multiset(kept + cut)
    ensures multiset(all + [e]) == multiset(kept + (cut + rest))
  {
    assert multiset(all + [e]) == multiset(all) + multiset{e};
    assert multiset(list + [e]) == multiset(list) + multiset{e};
    assert multiset(kept + (cut + rest)) == multiset(kept + cut) + multiset(rest);
  }

  /** Everything left out so far stays below the list when one more entry is added: only
      the new entry could be smaller, and then it is the one cut off. */
  lemma AddKeepsRestBelow(list: seq<ScoreEntry>, e: ScoreEntry, u: seq<ScoreEntry>, y: nat, k: nat)
    requires SortOutcome(list + [e], u) && |list| == MAX_SCORES && k < MAX_SCORES < |u|
    requires forall i :: 0 <= i < |list| ==> y <= list[i].score
    ensures y <= u[k].score
  {
    if u[k].score < y {
      InPermutation(list + [e], u, k);
      InPermutation(list + [e], u, MAX_SCORES);
      assert u[k] == e && u[MAX_SCORES] == e;
      TwoPlaces(u, k, MAX_SCORES);
      OnlyOnce(list, e, u);
    }
  }

  /** What a list leaves out after one more add: what it left out before and what the cut
      removes. */
  lemma AddKeepsLeavesOut(list: seq<ScoreEntry>, all: seq<ScoreEntry>, e: ScoreEntry, u: seq<ScoreEntry>,
                          rest: seq<ScoreEntry>)
    requires LeavesOut(list, all, rest) && SortOutcome(list + [e], u) && |u| == |list| + 1
    requires |list| == MAX_SCORES || (|list| < MAX_SCORES && rest == [])
    ensures LeavesOut(Truncate(u), all + [e], u[|Truncate(u)|..] + rest)
  {
    var kept := Truncate(u);
    var cut := u[|kept|..];
    assert u == kept + cut;
    Regroup(all, list, rest, e, kept, cut);
    forall i, j | 0 <= i < |kept| && 0 <= j < |cut + rest|
      ensures (cut + rest)[j].score <= kept[i].score
    {
      if j >= |cut| {
        AddKeepsRestBelow(list, e, u, rest[j - |cut|].score, i);
      }
    }
  }

  lemma SameSize(list: seq<ScoreEntry>, all: seq<ScoreEntry>, rest: seq<ScoreEntry>)
    requires LeavesOut(list, all, rest)
    ensures |all| == |list| + |rest|
  {
    SameLength(all, list + rest);
  }

  /** One add to a list that already holds the best of `all` gives the best of `all + [e]`. */
  lemma AddKeepsTop(list: seq<ScoreEntry>, all: seq<ScoreEntry>, e: ScoreEntry, after: seq<ScoreEntry>)
    requires IsTop(list, all) && AddStep(list, e, after)
    ensures IsTop(after, all + [e])
  {
    var rest :| LeavesOut(list, all, rest);
    var u :| SortOutcome(list + [e], u) && after == Truncate(u);
    TruncateIsTop(list, all, e, u, rest);
  }

  lemma TruncateIsTop(list: seq<ScoreEntry>, all: seq<ScoreEntry>, e: ScoreEntry, u: seq<ScoreEntry>,
                      rest: seq<ScoreEntry>)
    requires LeavesOut(list, all, rest) && SortOutcome(list + [e], u)
    requires |list| == (if |all| < MAX_SCORES then |all| else MAX_SCORES)
    ensures IsTop(Truncate(u), all + [e])
  {
    SameLength(list + [e], u);
    SameSize(list, all, rest);
    AddKeepsLeavesOut(list, all, e, u, rest);
  }

  /** The first add sorts and cuts whatever list was loaded before. */
  lemma FirstAdd(start: seq<ScoreEntry>, e: ScoreEntry, after: seq<ScoreEntry>)
    requires AddStep(start, e, after)
    ensures IsTop(after, start + [e])
  {
    var t :| SortOutcome(start + [e], t) && after == Truncate(t);
    SameLength(start + [e], t);
    var cut := t[|after|..];
    assert t == after + cut;
    assert LeavesOut(after, start + [e], cut);
  }

  /** A run of adds: every list follows from the one before by one `add_and_sort`. */
  ghost predicate AddRun(lists: seq<seq<ScoreEntry>>, adds: seq<ScoreEntry>) {
    && |lists| == |adds| + 1
    && forall i :: 0 <= i < |adds| ==> AddStep(lists[i], adds[i], lists[i + 1])
  }

  lemma {:induction false} RunIsTop(lists: seq<seq<ScoreEntry>>, adds: seq<ScoreEntry>, n: nat)
    requires AddRun(lists, adds) && 1 <= n <= |adds|
    ensures IsTop(lists[n], lists[0] + adds[..n])
  {
    var k := n - 1;
    assert AddStep(lists[k], adds[k], lists[n]);
    assert lists[0] + adds[..n] == lists[0] + adds[..k] + [adds[k]];
    if n == 1 {
      assert lists[0] + adds[..k] == lists[0];
      FirstAdd(lists[0], adds[0], lists[1]);
    } else {
      RunIsTop(lists, adds, k);
      AddKeepsTop(lists[k], lists[0] + adds[..k], adds[k], lists[n]);
    }
  }

  /** Streaming top ten: whatever list one starts from and however ties are broken, after
      any number `n >= 1` of adds the list is the ten best of everything ever seen. */
  lemma StreamingTopTen(lists: seq<seq<ScoreEntry>>, adds: seq<ScoreEntry>, n: nat)
    requires AddRun(lists, adds) && 1 <= n <= |adds|
    ensures IsTop(lists[n], lists[0] + adds[..n])
    ensures |lists[n]| == if |lists[0]| + n < 10 then |lists[0]| + n else 10
    ensures forall i, j :: 0 <= i < j < |lists[n]| ==> lists[n][i].score >= lists[n][j].score
    ensures forall x, i :: LeftOut(x, lists[n], lists[0] + adds[..n]) && 0 <= i < |lists[n]| ==>
      x.score <= lists[n][i].score
  {
    RunIsTop(lists, adds, n);
    SameSums(lists[0], adds, n);
    forall x, i | LeftOut(x, lists[n], lists[0] + adds[..n]) && 0 <= i < |lists[n]|
      ensures x.score <= lists[n][i].score
    {
      LeftOutIsBelow(x, lists[n], lists[0] + adds[..n], i);
    }
  }

  lemma SameSums(first: seq<ScoreEntry>, adds: seq<ScoreEntry>, n: nat)
    requires n <= |adds|
    ensures |first + adds[..n]| == |first| + n
  {
  }

  /** Some copy of the entry is not in the list. */
  predicate LeftOut(x: ScoreEntry, list: seq<ScoreEntry>, all: seq<ScoreEntry>) {
    multiset(all)[x] > multiset(list)[x]
  }

  lemma LeftOutIsBelow(x: ScoreEntry, list: seq<ScoreEntry>, all: seq<ScoreEntry>, i: nat)
    requires IsTop(list, all) && LeftOut(x, list, all) && i < |list|
    ensures x.score <= list[i].score
  {
    var rest :| LeavesOut(list, all, rest);
    assert multiset(list + rest) == multiset(list) + multiset(rest);
    assert x in multiset(rest);
    var j :| 0 <= j < |rest| && rest[j] == x;
  }

  // `IsTop` leaves no freedom in the scores themselves.

  function AtLeast(s: seq<ScoreEntry>, v: nat): nat {
    if s == [] then 0 else (if s[0].score >= v then 1 else 0) + AtLeast(s[1..], v)
  }

  lemma {:induction false} AtLeastConcat(a: seq<ScoreEntry>, b: seq<ScoreEntry>, v: nat)
    ensures AtLeast(a + b, v) == AtLeast(a, v) + AtLeast(b, v)
    decreases |a|
  {
    if a == [] {
      assert a + b == b;
    } else {
      assert (a + b)[1..] == a[1..] + b;
      AtLeastConcat(a[1..], b, v);
    }
  }

  lemma AtLeastWithout(t: seq<ScoreEntry>, k: nat, v: nat)
    requires k < |t|
    ensures AtLeast(t, v) == (if t[k].score >= v then 1 else 0) + AtLeast(t[..k] + t[k + 1..], v)
  {
    assert t == t[..k] + t[k..];
    AtLeastConcat(t[..k], t[k..], v);
    AtLeastConcat(t[..k], t[k + 1..], v);
  }

  lemma SameWithout<T>(s: seq<T>, t: seq<T>) returns (k: nat)
    requires s != [] && multiset(s) == multiset(t)
    ensures k < |t| && t[k] == s[0] && multiset(s[1..]) == multiset(t[..k] + t[k + 1..])
  {
    InPermutation(t, s, 0);
    k :| 0 <= k < |t| && t[k] == s[0];
    RemoveEntry(t, k);
    RemoveFirst(s);
  }

  lemma RemoveFirst<T>(s: seq<T>)
    requires s != []
    ensures multiset(s[1..]) == multiset(s) - multiset{s[0]}
  {
    assert s == [s[0]] + s[1..];
  }

  lemma {:induction false} AtLeastPermutation(s: seq<ScoreEntry>, t: seq<ScoreEntry>, v: nat)
    requires multiset(s) == multiset(t)
    ensures AtLeast(s, v) == AtLeast(t, v)
  {
    if s == [] {
      SameLength(s, t);
    } else {
      var k := SameWithout(s, t);
      AtLeastPermutation(s[1..], t[..k] + t[k + 1..], v);
      AtLeastWithout(t, k, v);
    }
  }

  lemma {:induction false} AtLeastAll(s: seq<ScoreEntry>, v: nat)
    requires forall i :: 0 <= i < |s| ==> s[i].score >= v
    ensures AtLeast(s, v) == |s|
  {
    if s != [] {
      AtLeastAll(s[1..], v);
    }
  }

  lemma {:induction false} AtLeastNone(s: seq<ScoreEntry>, v: nat)
    requires forall i :: 0 <= i < |s| ==> s[i].score < v
    ensures AtLeast(s, v) == 0
  {
    if s != [] {
      AtLeastNone(s[1..], v);
    }
  }

  /** Whatever ties did, two lists of the best ten of the same entries show the same scores. */
  lemma TopScoresUnique(a: seq<ScoreEntry>, b: seq<ScoreEntry>, all: seq<ScoreEntry>, k: nat)
    requires IsTop(a, all) && IsTop(b, all) && k < |a|
    ensures |a| == |b| && a[k].score == b[k].score
  {
    TopNotBelow(a, b, all, k);
    TopNotBelow(b, a, all, k);
  }

  lemma AtLeastSplit(a: seq<ScoreEntry>, rest: seq<ScoreEntry>, k: nat, v: nat)
    requires k <= |a|
    ensures AtLeast(a + rest, v) == AtLeast(a[..k], v) + AtLeast(a[k..], v) + AtLeast(rest, v)
  {
    assert a == a[..k] + a[k..];
    AtLeastConcat(a, rest, v);
    AtLeastConcat(a[..k], a[k..], v);
  }

  /** How many entries reach `v` in everything, told from one list of the best. */
  lemma ManyReach(a: seq<ScoreEntry>, rest: seq<ScoreEntry>, k: nat, v: nat)
    requires SortedDescending(a) && k < |a| && v <= a[k].score
    ensures AtLeast(a + rest, v) >= k + 1
  {
    AtLeastSplit(a, rest, k + 1, v);
    AtLeastAll(a[..k + 1], v);
  }

  lemma FewReach(a: seq<ScoreEntry>, rest: seq<ScoreEntry>, k: nat, v: nat)
    requires SortedDescending(a) && k < |a| && a[k].score < v
    requires forall i :: 0 <= i < |rest| ==> rest[i].score < v
    ensures AtLeast(a + rest, v) <= k
  {
    AtLeastSplit(a, rest, k, v);
    AtLeastNone(a[k..], v);
    AtLeastBound(a[..k], v);
    AtLeastNone(rest, v);
  }

  lemma TopNotBelow(a: seq<ScoreEntry>, b: seq<ScoreEntry>, all: seq<ScoreEntry>, k: nat)
    requires IsTop(a, all) && IsTop(b, all) && k < |a|
    ensures b[k].score >= a[k].score
  {
    var ra :| LeavesOut(a, all, ra);
    var rb :| LeavesOut(b, all, rb);
    var v := a[k].score;
    if b[k].score < v {
      ManyReach(a, ra, k, v);
      FewReach(b, rb, k, v);
      AtLeastPermutation(a + ra, b + rb, v);
    }
  }

  lemma {:induction false} AtLeastBound(s: seq<ScoreEntry>, v: nat)
    ensures AtLeast(s, v) <= |s|
    decreases |s|
  {
    if s != [] {
      AtLeastBound(s[1..], v);
    }
  }
}
