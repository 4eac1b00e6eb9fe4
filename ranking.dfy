/**
  Leaderboard entries and their order, shared by the game's local
  leaderboard and the leaderboard server: score descending, ties broken by
  level descending. The comparator is a consistent total preorder and
  `Array.prototype.sort` is stable, so the sorted list is unique: it is the
  stable insertion sort `SortByRank`.
*/
module Ranking {
  import opened Rules

  datatype Entry = Entry(name: string, score: int, level: int, date: string)

  /** `a` belongs strictly before `b`: a higher score, or the same score and a higher level. */
  predicate Outranks(a: Entry, b: Entry)
  {
    a.score > b.score || (a.score == b.score && a.level > b.level)
  }

  predicate SortedByRank(s: seq<Entry>)
  {
    forall i, j :: 0 <= i < j < |s| ==> !Outranks(s[j], s[i])
  }

  /** Places `x` after every entry it does not outrank, scanning from the back. */
  function Insert(s: seq<Entry>, x: Entry): (r: seq<Entry>)
    ensures |r| == |s| + 1
  {
    if s == [] || !Outranks(x, s[|s| - 1]) then s + [x]
    else Insert(s[..|s| - 1], x) + [s[|s| - 1]]
  }

  /** The stable sort of `s` by rank. */
  function SortByRank(s: seq<Entry>): (r: seq<Entry>)
    ensures |r| == |s|
  {
    if s == [] then [] else Insert(SortByRank(s[..|s| - 1]), s[|s| - 1])
  }

  lemma {:induction false} InsertPermutes(s: seq<Entry>, x: Entry)
    ensures multiset(Insert(s, x)) == multiset(s) + multiset{x}
  {
    if s != [] && Outranks(x, s[|s| - 1]) {
      var init := s[..|s| - 1];
      InsertPermutes(init, x);
      assert s == init + [s[|s| - 1]];
    }
  }

  lemma {:induction false} InsertSorted(s: seq<Entry>, x: Entry)
    requires SortedByRank(s)
    ensures SortedByRank(Insert(s, x))
  {
    if s != [] && Outranks(x, s[|s| - 1]) {
      var init, last := s[..|s| - 1], s[|s| - 1];
      InsertSorted(init, x);
      InsertPermutes(init, x);
      var r := Insert(init, x);
      forall k | 0 <= k < |r| ensures !Outranks(last, r[k]) {
        assert r[k] in multiset(r);
        if r[k] != x {
          assert r[k] in multiset(init);
          var m :| 0 <= m < |init| && init[m] == r[k];
          assert s[m] == r[k];
        }
      }
    }
  }

  /** Sorting yields a permutation of the input. */
  lemma {:induction false} SortByRankPermutes(s: seq<Entry>)
    ensures multiset(SortByRank(s)) == multiset(s)
  {
    if s != [] {
      var init := s[..|s| - 1];
      SortByRankPermutes(init);
      InsertPermutes(SortByRank(init), s[|s| - 1]);
      assert s == init + [s[|s| - 1]];
    }
  }

  /** Sorting yields a list ordered by score, then level, both descending. */
  lemma {:induction false} SortByRankSorted(s: seq<Entry>)
    ensures SortedByRank(SortByRank(s))
  {
    if s != [] {
      SortByRankSorted(s[..|s| - 1]);
      InsertSorted(SortByRank(s[..|s| - 1]), s[|s| - 1]);
    }
  }

  /** A list already in rank order is left exactly as it is. */
  lemma {:induction false} SortByRankKeepsSorted(s: seq<Entry>)
    requires SortedByRank(s)
    ensures SortByRank(s) == s
  {
    if s != [] {
      var init := s[..|s| - 1];
      SortByRankKeepsSorted(init);
      assert s == init + [s[|s| - 1]];
    }
  }

  /** The entries of `s` with the given score and level, in their order in `s`. */
  function Ties(s: seq<Entry>, score: int, level: int): (r: seq<Entry>)
    ensures |r| <= |s|
    ensures forall e :: e in r ==> e in s && e.score == score && e.level == level
  {
    if s == [] then []
    else
      var last := s[|s| - 1];
      Ties(s[..|s| - 1], score, level) + (if last.score == score && last.level == level then [last] else [])
  }

  lemma TiesAppend(s: seq<Entry>, x: Entry, score: int, level: int)
    ensures Ties(s + [x], score, level)
         == Ties(s, score, level) + (if x.score == score && x.level == level then [x] else [])
  {
    assert (s + [x])[..|s|] == s;
  }

  /**
    Inserting keeps the order among equal entries: `x` comes after every
    entry of `s` with the same score and level.
  */
  lemma {:induction false} InsertKeepsTies(s: seq<Entry>, x: Entry, score: int, level: int)
    ensures Ties(Insert(s, x), score, level)
         == Ties(s, score, level) + (if x.score == score && x.level == level then [x] else [])
  {
    if s == [] || !Outranks(x, s[|s| - 1]) {
      assert Insert(s, x) == s + [x];
      TiesAppend(s, x, score, level);
    } else {
      var init, last := s[..|s| - 1], s[|s| - 1];
      assert s == init + [last];
      assert Insert(s, x) == Insert(init, x) + [last];
      InsertKeepsTies(init, x, score, level);
      TiesPassOver(Insert(init, x), init, last, x, score, level);
    }
  }

  /** Appending an entry that `x` outranks keeps `x`'s place among its ties. */
  lemma TiesPassOver(a: seq<Entry>, b: seq<Entry>, last: Entry, x: Entry, score: int, level: int)
    requires Outranks(x, last)
    requires Ties(a, score, level) == Ties(b, score, level) + (if x.score == score && x.level == level then [x] else [])
    ensures Ties(a + [last], score, level)
         == Ties(b + [last], score, level) + (if x.score == score && x.level == level then [x] else [])
  {
    TiesAppend(a, last, score, level);
    TiesAppend(b, last, score, level);
  }

  /**
    The sort is stable: for every score and level, the entries holding them
    appear in the sorted list in the same order as in the input.
  */
  lemma {:induction false} SortByRankStable(s: seq<Entry>, score: int, level: int)
    ensures Ties(SortByRank(s), score, level) == Ties(s, score, level)
  {
    if s != [] {
      var init, last := s[..|s| - 1], s[|s| - 1];
      var tail := if last.score == score && last.level == level then [last] else [];
      assert SortByRank(s) == Insert(SortByRank(init), last);
      InsertKeepsTies(SortByRank(init), last, score, level);
      SortByRankStable(init, score, level);
      assert Ties(SortByRank(s), score, level) == Ties(init, score, level) + tail;
      TiesAppend(init, last, score, level);
      assert s == init + [last];
    }
  }

  /**
    The first `n` elements, or all of them when there are fewer: the
    array's `slice(0, n)`, and a name's `substring(0, n)`.
  */
  function Take<T>(s: seq<T>, n: nat): (r: seq<T>)
    ensures |r| <= n && |r| <= |s|
    ensures |s| <= n ==> r == s
    ensures r == s[..|r|]
  {
    if |s| <= n then s else s[..n]
  }

  /** A prefix of a ranked list is ranked, and holds only entries of that list. */
  lemma TakeSorted(s: seq<Entry>, n: nat)
    requires SortedByRank(s)
    ensures SortedByRank(Take(s, n))
    ensures multiset(Take(s, n)) <= multiset(s)
  {
    var r := Take(s, n);
    assert s == r + s[|r|..];
  }

  /**
    `findIndex(e => e.name === name)`: the position of the first entry with
    that name, or -1 when there is none.
  */
  function FindByName(s: seq<Entry>, name: string): (k: int)
    ensures -1 <= k < |s|
    ensures k >= 0 ==> s[k].name == name && forall m :: 0 <= m < k ==> s[m].name != name
    ensures k == -1 <==> forall m :: 0 <= m < |s| ==> s[m].name != name
  {
    if s == [] then -1
    else if s[0].name == name then 0
    else
      var k := FindByName(s[1..], name);
      if k < 0 then -1 else k + 1
  }

  /**
    The game's local upsert: the player's first entry, or a new one at the
    end, takes the higher of the stored and the submitted score and level
    (a new entry is compared with 0) and the date of this submission.
  */
  function MergeBest(board: seq<Entry>, name: string, score: int, level: int, date: string): (r: seq<Entry>)
    ensures |board| <= |r| <= |board| + 1
  {
    var k := FindByName(board, name);
    var e := Entry(name, Max(score, if k >= 0 then board[k].score else 0),
                   Max(level, if k >= 0 then board[k].level else 0), date);
    if k >= 0 then board[k := e] else board + [e]
  }

  /**
    After the upsert the player's first entry holds at least the submitted
    score and level and at least what it held before; every other entry is
    kept, and the list grows only when the name was absent.
  */
  lemma MergeBestKeepsBest(board: seq<Entry>, name: string, score: int, level: int, date: string)
    ensures var k, r := FindByName(board, name), MergeBest(board, name, score, level, date);
      var j := FindByName(r, name);
      && 0 <= j < |r|
      && r[j].score >= score && r[j].level >= level
      && (k >= 0 ==> j == k && |r| == |board| && r[j].score >= board[k].score && r[j].level >= board[k].level)
      && (k >= 0 ==> forall m :: 0 <= m < |r| && m != k ==> r[m] == board[m])
      && (k < 0 ==> j == |board| && r == board + [r[j]])
  {
    var k, r := FindByName(board, name), MergeBest(board, name, score, level, date);
    var j := FindByName(r, name);
    var at := if k >= 0 then k else |board|;
    assert forall m :: 0 <= m < at ==> r[m] == board[m];
    assert r[at].name == name;
    assert j == at;
  }

  /**
    What the local submission leaves: at most ten entries in rank order,
    all taken from the merged list; and when the merged list has at most
    ten entries, the player's merged entry, with at least the submitted
    score and level, is among them.
  */
  lemma {:induction false} LocalBoardKeepsBest(board: seq<Entry>, name: string, score: int, level: int, date: string)
    ensures var merged := MergeBest(board, name, score, level, date);
      var r := Take(SortByRank(merged), 10);
      && |r| <= 10 && SortedByRank(r) && multiset(r) <= multiset(merged)
      && (|merged| <= 10 ==> exists e :: e in r && e.name == name && e.score >= score && e.level >= level)
  {
    var merged := MergeBest(board, name, score, level, date);
    TopTenOfMerged(merged);
    if |merged| <= 10 {
      var e := MergedHoldsPlayer(board, name, score, level, date);
      assert e in Take(SortByRank(merged), 10);
    }
  }

  /** The merged list holds an entry for the player with at least the submitted score and level. */
  lemma MergedHoldsPlayer(board: seq<Entry>, name: string, score: int, level: int, date: string) returns (e: Entry)
    ensures e in MergeBest(board, name, score, level, date)
    ensures e.name == name && e.score >= score && e.level >= level
  {
    MergeBestKeepsBest(board, name, score, level, date);
    var merged := MergeBest(board, name, score, level, date);
    e := merged[FindByName(merged, name)];
  }

  /**
    The ten best of a list, in rank order, are ranked entries of that list;
    a list of at most ten keeps all its entries.
  */
  lemma TopTenOfMerged(merged: seq<Entry>)
    ensures var r := Take(SortByRank(merged), 10);
      && |r| <= 10 && SortedByRank(r) && multiset(r) <= multiset(merged)
      && (|merged| <= 10 ==> forall e :: e in merged ==> e in r)
  {
    var sorted := SortByRank(merged);
    SortByRankSorted(merged);
    SortByRankPermutes(merged);
    TakeSorted(sorted, 10);
    if |merged| <= 10 {
      forall e | e in merged
        ensures e in Take(sorted, 10)
      {
        assert e in multiset(sorted);
      }
    }
  }

  /**
    Sorts the array in place, as `sort` with the rank comparator does: the
    result is the stable rank order of the original contents.
  */
  method SortLeaderboard(a: array<Entry>)
    modifies a
    ensures a[..] == SortByRank(old(a[..]))
  {
    ghost var input := a[..];
    var i := 0;
    while i < a.Length
      invariant 0 <= i <= a.Length
      invariant a[..i] == SortByRank(input[..i])
      invariant a[i..] == input[i..]
    {
      InsertAt(a, i);
      assert input[..i + 1][..i] == input[..i];
      i := i + 1;
    }
    assert input[..a.Length] == input;
  }

  /** Moves `a[i]` back into the ranked prefix `a[..i]`, one swap at a time. */
  method InsertAt(a: array<Entry>, i: nat)
    requires i < a.Length
    modifies a
    ensures a[..i + 1] == Insert(old(a[..i]), old(a[i]))
    ensures a[i + 1..] == old(a[i + 1..])
  {
    ghost var sorted, rest := a[..i], a[i + 1..];
    var x := a[i];
    var j := i;
    assert a[..] == Placed(sorted, x, j, rest);
    assert sorted[..j] == sorted && sorted[j..] == [];
    while j > 0 && Outranks(x, a[j - 1])
      invariant 0 <= j <= i
      invariant a[..] == Placed(sorted, x, j, rest)
      invariant Insert(sorted, x) == Insert(sorted[..j], x) + sorted[j..]
    {
      InsertShiftsBack(sorted, x, j);
      PlacedSwap(sorted, x, j, rest);
      a[j], a[j - 1] := a[j - 1], x;
      j := j - 1;
    }
    InsertStops(sorted, x, j);
    PlacedParts(sorted, x, j, rest);
  }

  /** The array while `x` travels back: `sorted` with `x` put in at `j`, then the untouched tail. */
  ghost function Placed(sorted: seq<Entry>, x: Entry, j: nat, rest: seq<Entry>): seq<Entry>
    requires j <= |sorted|
  {
    sorted[..j] + [x] + sorted[j..] + rest
  }

  lemma PlacedSwap(sorted: seq<Entry>, x: Entry, j: nat, rest: seq<Entry>)
    requires 0 < j <= |sorted|
    ensures var p := Placed(sorted, x, j, rest);
      p[j := p[j - 1]][j - 1 := x] == Placed(sorted, x, j - 1, rest)
  {
    var p, q := Placed(sorted, x, j, rest), Placed(sorted, x, j - 1, rest);
    assert forall k :: 0 <= k < |q| ==> p[j := p[j - 1]][j - 1 := x][k] == q[k];
  }

  lemma PlacedParts(sorted: seq<Entry>, x: Entry, j: nat, rest: seq<Entry>)
    requires j <= |sorted|
    ensures var p := Placed(sorted, x, j, rest);
      p[..|sorted| + 1] == sorted[..j] + [x] + sorted[j..] && p[|sorted| + 1..] == rest
  {
  }
  /** One swap: `x` passing `s[j - 1]` moves the split point back by one. */
  lemma InsertShiftsBack(s: seq<Entry>, x: Entry, j: nat)
    requires 0 < j <= |s| && Outranks(x, s[j - 1])
    ensures Insert(s[..j], x) + s[j..] == Insert(s[..j - 1], x) + s[j - 1..]
  {
    assert s[..j][..j - 1] == s[..j - 1];
    assert s[j - 1..] == [s[j - 1]] + s[j..];
  }

  /** The scan stops at the front or behind an entry `x` does not outrank. */
  lemma InsertStops(s: seq<Entry>, x: Entry, j: nat)
    requires j <= |s| && (j == 0 || !Outranks(x, s[j - 1]))
    ensures Insert(s[..j], x) + s[j..] == s[..j] + [x] + s[j..]
  {
  }
}
