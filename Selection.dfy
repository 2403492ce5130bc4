/**
 * Choosing the transcript file to follow: `find_latest_file` keeps the
 * first candidate seen with the greatest modification time, and
 * `find_latest_files` orders candidates newest first (a stable sort) and
 * keeps at most `limit` of them. Directory walking and the candidate filter
 * are outside the model: the candidates arrive as a sequence in walk order.
 */
module Selection {
  import opened Base

  /** A candidate file and its modification time in milliseconds. */
  datatype Candidate = Candidate(path: string, mtimeMs: int)

  /** `i` holds the greatest modification time, and no earlier candidate has it. */
  ghost predicate IsFirstNewest(files: seq<Candidate>, i: int) {
    && 0 <= i < |files|
    && (forall j :: 0 <= j < |files| ==> files[j].mtimeMs <= files[i].mtimeMs)
    && (forall j :: 0 <= j < i ==> files[j].mtimeMs < files[i].mtimeMs)
  }

  /** At most one position is the first newest. */
  lemma FirstNewestUnique(files: seq<Candidate>, i: int, k: int)
    requires IsFirstNewest(files, i) && IsFirstNewest(files, k)
    ensures i == k
  {
    var a, b := files[i].mtimeMs, files[k].mtimeMs;
    assert a <= b && b <= a;
  }

  /** `find_latest_file`: a later candidate replaces the current one only when strictly newer. */
  method LatestFile(files: seq<Candidate>) returns (r: Option<string>)
    ensures r.None? <==> files == []
    ensures r.Some? ==> exists i :: IsFirstNewest(files, i) && r.value == files[i].path
  {
    var latest: Option<Candidate> := None;
    ghost var at := 0;
    for k := 0 to |files|
      invariant latest.None? <==> k == 0
      invariant k > 0 ==> IsFirstNewest(files[..k], at) && latest == Some(files[at])
    {
      if latest.None? || files[k].mtimeMs > latest.value.mtimeMs {
        latest := Some(files[k]);
        at := k;
      }
    }
    assert files[..|files|] == files;
    if latest.Some? {
      r := Some(latest.value.path);
    } else {
      r := None;
    }
  }

  /** Inserts `c` before the first entry that is not newer, so earlier equals stay first. */
  function Insert(c: Candidate, sorted: seq<Candidate>): (r: seq<Candidate>)
    ensures |r| == |sorted| + 1
    ensures multiset(r) == multiset(sorted) + multiset{c}
  {
    if sorted == [] || c.mtimeMs >= sorted[0].mtimeMs then [c] + sorted
    else
      assert sorted == [sorted[0]] + sorted[1..];
      [sorted[0]] + Insert(c, sorted[1..])
  }

  /** Newest first; candidates with equal times keep their walk order. */
  function SortNewestFirst(files: seq<Candidate>): (r: seq<Candidate>)
    ensures |r| == |files|
  {
    if files == [] then [] else Insert(files[0], SortNewestFirst(files[1..]))
  }

  predicate NewestFirst(s: seq<Candidate>) {
    forall i, j :: 0 <= i < j < |s| ==> s[i].mtimeMs >= s[j].mtimeMs
  }

  lemma {:induction false} InsertKeepsOrder(c: Candidate, sorted: seq<Candidate>)
    requires NewestFirst(sorted)
    ensures NewestFirst(Insert(c, sorted))
    ensures Insert(c, sorted)[0] == if sorted == [] || c.mtimeMs >= sorted[0].mtimeMs then c else sorted[0]
  {
    if sorted == [] || c.mtimeMs >= sorted[0].mtimeMs {
      PrependNewest(c, sorted);
    } else {
      var head, tail := sorted[0], sorted[1..];
      var rest := Insert(c, tail);
      InsertKeepsOrder(c, tail);
      forall x | x in tail ensures x.mtimeMs <= head.mtimeMs {
        var k :| 0 <= k < |tail| && tail[k] == x;
        assert sorted[k + 1] == x;
      }
      BoundedPermutation(head.mtimeMs, c, tail, rest);
      PrependNewest(head, rest);
    }
  }

  /** A permutation of `tail` plus `c` is bounded by whatever bounds `tail` and `c`. */
  lemma BoundedPermutation(top: int, c: Candidate, tail: seq<Candidate>, rest: seq<Candidate>)
    requires multiset(rest) == multiset(tail) + multiset{c}
    requires c.mtimeMs <= top && forall x :: x in tail ==> x.mtimeMs <= top
    ensures forall k :: 0 <= k < |rest| ==> rest[k].mtimeMs <= top
  {
    forall k | 0 <= k < |rest| ensures rest[k].mtimeMs <= top {
      assert rest[k] in multiset(rest);
      if rest[k] != c {
        assert rest[k] in multiset(tail);
      }
    }
  }

  /** Putting in front an entry at least as new as every other keeps the order. */
  lemma PrependNewest(head: Candidate, rest: seq<Candidate>)
    requires NewestFirst(rest)
    requires forall k :: 0 <= k < |rest| ==> rest[k].mtimeMs <= head.mtimeMs
    ensures NewestFirst([head] + rest)
  {
    var s := [head] + rest;
    forall i, j | 0 <= i < j < |s| ensures s[i].mtimeMs >= s[j].mtimeMs {
      assert s[j] == rest[j - 1];
      if i > 0 {
        assert s[i] == rest[i - 1];
      }
    }
  }

  /** The candidates with modification time `t`, in their order in `s`. */
  function WithTime(s: seq<Candidate>, t: int): (r: seq<Candidate>)
    ensures forall k :: 0 <= k < |r| ==> r[k].mtimeMs == t
  {
    if s == [] then [] else (if s[0].mtimeMs == t then [s[0]] else []) + WithTime(s[1..], t)
  }

  lemma WithTimeCons(x: Candidate, s: seq<Candidate>, t: int)
    ensures WithTime([x] + s, t) == (if x.mtimeMs == t then [x] else []) + WithTime(s, t)
  {
    assert ([x] + s)[0] == x && ([x] + s)[1..] == s;
  }

  lemma NewestFirstTail(s: seq<Candidate>)
    requires NewestFirst(s) && s != []
    ensures NewestFirst(s[1..])
  {
    forall i, j | 0 <= i < j < |s[1..]| ensures s[1..][i].mtimeMs >= s[1..][j].mtimeMs {
      assert s[1..][i] == s[i + 1] && s[1..][j] == s[j + 1];
    }
  }

  /** Two pieces of which one is empty can trade places. */
  lemma SwapAroundEmpty(whole: seq<Candidate>, h: seq<Candidate>, c: seq<Candidate>, w: seq<Candidate>)
    requires whole == h + (c + w) && (h == [] || c == [])
    ensures whole == c + (h + w)
  {
    if h == [] {
      assert h + (c + w) == c + w && h + w == w;
    } else {
      assert c + w == w && c + (h + w) == h + w;
    }
  }

  /** Inserting `c` puts it ahead of every entry with its own time, and moves no other entry of a given time. */
  lemma {:induction false} InsertWithTime(c: Candidate, sorted: seq<Candidate>, t: int)
    requires NewestFirst(sorted)
    ensures WithTime(Insert(c, sorted), t) == (if c.mtimeMs == t then [c] else []) + WithTime(sorted, t)
  {
    if sorted == [] || c.mtimeMs >= sorted[0].mtimeMs {
      WithTimeCons(c, sorted, t);
    } else {
      var head, tail := sorted[0], sorted[1..];
      NewestFirstTail(sorted);
      InsertWithTime(c, tail, t);
      WithTimeCons(head, Insert(c, tail), t);
      WithTimeCons(head, tail, t);
      assert sorted == [head] + tail;
      SwapAroundEmpty(WithTime(Insert(c, sorted), t), if head.mtimeMs == t then [head] else [],
                      if c.mtimeMs == t then [c] else [], WithTime(tail, t));
    }
  }

  /**
   * The sort is stable: for every time, the candidates with that time come
   * out in the order they went in.
   */
  lemma {:induction false} SortIsStable(files: seq<Candidate>, t: int)
    ensures WithTime(SortNewestFirst(files), t) == WithTime(files, t)
  {
    if files != [] {
      var tail := files[1..];
      SortIsOrderedPermutation(tail);
      SortIsStable(tail, t);
      InsertWithTime(files[0], SortNewestFirst(tail), t);
      WithTimeCons(files[0], tail, t);
      assert files == [files[0]] + tail;
    }
  }

  /** The sort orders newest first and is a permutation of its input. */
  lemma {:induction false} SortIsOrderedPermutation(files: seq<Candidate>)
    ensures NewestFirst(SortNewestFirst(files))
    ensures multiset(SortNewestFirst(files)) == multiset(files)
  {
    if files != [] {
      var tail := files[1..];
      var sortedTail := SortNewestFirst(tail);
      SortIsOrderedPermutation(tail);
      InsertKeepsOrder(files[0], sortedTail);
      assert SortNewestFirst(files) == Insert(files[0], sortedTail);
      assert files == [files[0]] + tail;
      assert multiset(files) == multiset{files[0]} + multiset(tail);
    }
  }

  lemma NewestStaysFirst(files: seq<Candidate>, i: int)
    requires |files| > 1 && IsFirstNewest(files[1..], i) && files[0].mtimeMs >= files[1..][i].mtimeMs
    ensures IsFirstNewest(files, 0)
  {
    forall j | 1 <= j < |files| ensures files[j].mtimeMs <= files[0].mtimeMs {
      assert files[j] == files[1..][j - 1];
    }
  }

  lemma NewerLaterWins(files: seq<Candidate>, i: int)
    requires |files| > 1 && IsFirstNewest(files[1..], i) && files[0].mtimeMs < files[1..][i].mtimeMs
    ensures IsFirstNewest(files, i + 1)
  {
    forall j | 1 <= j < |files| ensures files[j].mtimeMs <= files[i + 1].mtimeMs {
      assert files[j] == files[1..][j - 1];
    }
    forall j | 1 <= j < i + 1 ensures files[j].mtimeMs < files[i + 1].mtimeMs {
      assert files[j] == files[1..][j - 1];
    }
  }

  /** The head of the sorted list is the same file `find_latest_file` picks. */
  lemma {:induction false} SortedHeadIsFirstNewest(files: seq<Candidate>)
    requires files != []
    ensures exists i :: IsFirstNewest(files, i) && SortNewestFirst(files)[0] == files[i]
  {
    var tail := files[1..];
    if tail == [] {
      assert IsFirstNewest(files, 0);
    } else {
      SortedHeadIsFirstNewest(tail);
      var i :| IsFirstNewest(tail, i) && SortNewestFirst(tail)[0] == tail[i];
      SortIsOrderedPermutation(tail);
      InsertKeepsOrder(files[0], SortNewestFirst(tail));
      if files[0].mtimeMs >= tail[i].mtimeMs {
        NewestStaysFirst(files, i);
      } else {
        NewerLaterWins(files, i);
        assert files[i + 1] == tail[i];
      }
    }
  }

  /** `find_latest_files`: the paths of the `limit` newest candidates. */
  function LatestFiles(files: seq<Candidate>, limit: nat): (r: seq<string>)
    ensures |r| == if limit < |files| then limit else |files|
    ensures forall i :: 0 <= i < |r| ==> r[i] == SortNewestFirst(files)[i].path
  {
    var sorted := SortNewestFirst(files);
    var kept := if limit < |sorted| then sorted[..limit] else sorted;
    seq(|kept|, i requires 0 <= i < |kept| => kept[i].path)
  }

  /** Every kept path is newer than or as new as every dropped candidate, and a single pick is the first newest. */
  lemma LatestFilesKeepsNewest(files: seq<Candidate>, limit: nat)
    ensures var sorted := SortNewestFirst(files);
            forall i, j :: 0 <= i < limit && i < j < |sorted| ==> sorted[i].mtimeMs >= sorted[j].mtimeMs
    ensures limit >= 1 && files != [] ==>
              exists i :: IsFirstNewest(files, i) && LatestFiles(files, limit)[0] == files[i].path
  {
    SortIsOrderedPermutation(files);
    if limit >= 1 && files != [] {
      SortedHeadIsFirstNewest(files);
    }
  }

  /**
   * The kept candidates are drawn from the input, come newest first, and
   * none of the candidates left out is newer than any kept one.
   */
  lemma LatestFilesAreNewest(files: seq<Candidate>, limit: nat)
    ensures var n := |LatestFiles(files, limit)|;
            var kept := SortNewestFirst(files)[..n];
            && multiset(kept) <= multiset(files)
            && NewestFirst(kept)
            && forall c, i :: c in multiset(files) - multiset(kept) && 0 <= i < n ==> kept[i].mtimeMs >= c.mtimeMs
  {
    SortIsOrderedPermutation(files);
    PrefixOfNewestFirst(SortNewestFirst(files), |LatestFiles(files, limit)|);
  }

  /** A prefix of a newest-first list is newest first and holds every entry at least as new as the rest. */
  lemma PrefixOfNewestFirst(sorted: seq<Candidate>, n: nat)
    requires NewestFirst(sorted) && n <= |sorted|
    ensures multiset(sorted[..n]) <= multiset(sorted)
    ensures NewestFirst(sorted[..n])
    ensures forall c, i :: c in multiset(sorted) - multiset(sorted[..n]) && 0 <= i < n ==> sorted[..n][i].mtimeMs >= c.mtimeMs
  {
    var kept, dropped := sorted[..n], sorted[n..];
    assert sorted == kept + dropped;
    assert multiset(sorted) == multiset(kept) + multiset(dropped);
    forall c, i | c in multiset(sorted) - multiset(kept) && 0 <= i < n
      ensures kept[i].mtimeMs >= c.mtimeMs
    {
      assert c in multiset(dropped);
      var j :| 0 <= j < |dropped| && dropped[j] == c;
      assert sorted[n + j] == c;
      assert kept[i] == sorted[i];
    }
  }
}
