/**
  The leaderboard server: the stored list is a JSON file of entries, a POST
  validates a submission, merges it into the stored list, ranks the list and
  keeps the best fifty, and two GET requests read the ten best entries and
  the best score and level.
*/
module Server {
  import opened Rules
  import opened Text
  import opened Ranking

  /**
    A field of the request body as the JSON parser delivers it: a string, a
    number, or anything else (absent, null, a boolean, an array, an object).
  */
  datatype Value = Str(s: string) | Num(n: int) | Other

  datatype Request = Request(name: Value, score: Value, level: Value)

  /** A request that passed validation. */
  datatype Submission = Submission(name: string, score: int, level: int)

  /** Why a request failed; `Message` gives the text the handler answers with. */
  datatype Fault = NameRequired | ScoreRequired | LevelRequired | SaveFailed

  function Message(f: Fault): string
  {
    match f
    case NameRequired => "Name is required"
    case ScoreRequired => "Valid score is required"
    case LevelRequired => "Valid level is required"
    case SaveFailed => "Failed to save score"
  }

  datatype Checked = Accepted(sub: Submission) | Refused(fault: Fault)

  datatype Response =
    | Failure(status: int, fault: Fault)
    | Success(entry: Entry, rank: int)

  /** The result of merging a submission: the new list and the entry reported back. */
  datatype Merged = Merged(board: seq<Entry>, entry: Entry)

  /**
    The three checks in order: a name that is a string and not blank once
    trimmed, a score that is a number at least 0, a level that is a number
    at least 1. The first failing check decides the error message.
  */
  function Validate(req: Request): (r: Checked)
    ensures r.Accepted? <==>
      && req.name.Str? && !AllSpace(req.name.s)
      && req.score.Num? && req.score.n >= 0
      && req.level.Num? && req.level.n >= 1
    ensures r.Accepted? ==> r.sub == Submission(req.name.s, req.score.n, req.level.n)
    ensures r.Refused? ==> r.fault != SaveFailed
    ensures r == Refused(NameRequired) <==> !req.name.Str? || AllSpace(req.name.s)
    ensures r == Refused(ScoreRequired) <==>
      req.name.Str? && !AllSpace(req.name.s) && (!req.score.Num? || req.score.n < 0)
  {
    if !req.name.Str? then Refused(NameRequired)
    else
      TrimEmptyIffAllSpace(req.name.s);
      if Trim(req.name.s) == [] then Refused(NameRequired)
      else if !req.score.Num? || req.score.n < 0 then Refused(ScoreRequired)
      else if !req.level.Num? || req.level.n < 1 then Refused(LevelRequired)
      else Accepted(Submission(req.name.s, req.score.n, req.level.n))
  }

  /** A submission beats a stored record: a higher score, or the same score and a higher level. */
  predicate Improves(score: int, level: int, stored: Entry)
  {
    score > stored.score || (score == stored.score && level > stored.level)
  }

  /**
    The upsert of the POST handler. The stored record with the trimmed name
    is replaced only by a better result, and then by one holding the larger
    score and the larger level; otherwise the list is unchanged and the
    reported entry carries the stored score and level. An unknown name is
    appended. The new or reported entry is named by the trimmed name cut to
    20 characters.
  */
  function Merge(board: seq<Entry>, sub: Submission, date: string): (r: Merged)
    ensures var k := FindByName(board, Trim(sub.name));
      && r.entry.name == Take(Trim(sub.name), 20) && r.entry.date == date
      && (k < 0 ==> r.board == board + [r.entry]
                    && r.entry.score == Max(sub.score, 0) && r.entry.level == Max(sub.level, 0))
      && (k >= 0 && Improves(sub.score, sub.level, board[k]) ==>
            r.board == board[k := r.entry]
            && r.entry.score == sub.score && r.entry.level == Max(sub.level, board[k].level))
      && (k >= 0 && !Improves(sub.score, sub.level, board[k]) ==>
            r.board == board && r.entry.score == board[k].score && r.entry.level == board[k].level)
  {
    var k := FindByName(board, Trim(sub.name));
    var entry := Entry(Take(Trim(sub.name), 20),
                       Max(sub.score, if k >= 0 then board[k].score else 0),
                       Max(sub.level, if k >= 0 then board[k].level else 0),
                       date);
    if k < 0 then Merged(board + [entry], entry)
    else if Improves(sub.score, sub.level, board[k]) then Merged(board[k := entry], entry)
    else Merged(board, entry.(score := board[k].score, level := board[k].level))
  }

  /**
    Only the record with the trimmed name can change, and only for a
    better result; afterwards it holds the larger of the two scores and at
    least its old level.
  */
  lemma MergeChangesOnlyForBetter(board: seq<Entry>, sub: Submission, date: string)
    ensures var k, r := FindByName(board, Trim(sub.name)), Merge(board, sub, date);
      && (forall m :: 0 <= m < |board| && r.board[m] != board[m] ==>
            m == k && Improves(sub.score, sub.level, board[k]))
      && (k >= 0 ==> |r.board| == |board|
                     && r.board[k].score == Max(sub.score, board[k].score)
                     && r.board[k].level >= board[k].level)
      && (k < 0 ==> |r.board| == |board| + 1)
  {
  }

  /** Every name in the merged list is at most 20 characters when every stored one was. */
  lemma MergeKeepsNamesShort(board: seq<Entry>, sub: Submission, date: string)
    requires forall e :: e in board ==> |e.name| <= 20
    ensures var r := Merge(board, sub, date);
      |r.entry.name| <= 20 && forall e :: e in r.board ==> |e.name| <= 20
  {
  }

  /**
    While stored names are at most 20 characters, a trimmed name longer
    than 20 never finds its earlier record: every such submission appends
    another entry.
  */
  lemma LongNamesAlwaysAppend(board: seq<Entry>, sub: Submission, date: string)
    requires forall e :: e in board ==> |e.name| <= 20
    requires |Trim(sub.name)| > 20
    ensures FindByName(board, Trim(sub.name)) == -1
    ensures Merge(board, sub, date).board == board + [Merge(board, sub, date).entry]
  {
  }

  /**
    The reported entry's name is found in the ranked merged list, so the
    rank (one plus its first index) lies between 1 and the list's length.
  */
  lemma RankInRange(board: seq<Entry>, sub: Submission, date: string)
    requires forall e :: e in board ==> |e.name| <= 20
    ensures var m := Merge(board, sub, date); var sorted := SortByRank(m.board);
      1 <= FindByName(sorted, m.entry.name) + 1 <= |sorted|
  {
    var k, m := FindByName(board, Trim(sub.name)), Merge(board, sub, date);
    var sorted := SortByRank(m.board);
    var holder: Entry;
    if k < 0 || Improves(sub.score, sub.level, board[k]) {
      holder := m.entry;
      assert holder in m.board;
    } else {
      holder := board[k];
      assert holder in board;
      assert |Trim(sub.name)| <= 20;
      assert holder.name == m.entry.name;
    }
    SortByRankPermutes(m.board);
    assert holder in multiset(sorted);
    assert holder in sorted;
  }

  /**
    A rank beyond 50 is reported for an entry that the kept top 50 does not
    hold: no entry of that name survives the cut.
  */
  lemma RankBeyondFiftyIsDropped(sorted: seq<Entry>, name: string)
    requires FindByName(sorted, name) >= 50
    ensures forall e :: e in Take(sorted, 50) ==> e.name != name
  {
  }

  /** The head of a ranked list has the best score, and the best level among that score. */
  lemma HeadIsBest(s: seq<Entry>)
    requires SortedByRank(s) && s != []
    ensures forall e :: e in s ==> e.score <= s[0].score && (e.score == s[0].score ==> e.level <= s[0].level)
  {
    forall e | e in s
      ensures e.score <= s[0].score && (e.score == s[0].score ==> e.level <= s[0].level)
    {
      var j :| 0 <= j < |s| && s[j] == e;
      if j > 0 {
        assert !Outranks(s[j], s[0]);
      }
    }
  }

  /** The leaderboard file and the request handlers that read and write it. */
  class LeaderboardStore {
    /** The entries held in the leaderboard file. */
    var file: seq<Entry>

    /** What the handlers keep true of the file: ranked, at most 50 entries, names of at most 20 characters. */
    ghost predicate Valid()
      reads this
    {
      ValidFile(file)
    }

    /** A missing leaderboard file is created holding an empty list. */
    constructor ()
      ensures file == [] && Valid()
    {
      file := [];
    }

    /** The file's entries in rank order. */
    method ReadSorted() returns (sorted: seq<Entry>)
      ensures sorted == SortByRank(file)
    {
      sorted := Ranked(file);
    }

    /**
      POST /api/leaderboard. A refused request answers 400 and leaves the
      file alone. An accepted one is merged, the merged list ranked and its
      best fifty written; when the write succeeds the answer carries the
      entry and its rank in the whole ranked list, otherwise it is 500 and
      the file is as it was.
    */
    method Post(req: Request, date: string, saved: bool) returns (resp: Response)
      modifies this
      ensures Validate(req).Refused? ==>
        resp == Failure(400, Validate(req).fault) && file == old(file)
      ensures Validate(req).Accepted? ==>
        var m := Merge(old(file), Validate(req).sub, date);
        var sorted := SortByRank(m.board);
        && (saved ==> file == Take(sorted, 50) && resp == Success(m.entry, FindByName(sorted, m.entry.name) + 1))
        && (!saved ==> file == old(file) && resp == Failure(500, SaveFailed))
      ensures old(Valid()) ==> Valid()
      ensures old(Valid()) && resp.Success? ==> 1 <= resp.rank <= |old(file)| + 1
    {
      var checked := Validate(req);
      if checked.Refused? {
        return Failure(400, checked.fault);
      }
      var stored, entry, rank := Submit(file, checked.sub, date);
      if saved {
        file := stored;
        resp := Success(entry, rank);
      } else {
        resp := Failure(500, SaveFailed);
      }
    }

    /** GET /api/leaderboard: the ten best entries and the number stored. */
    method GetLeaderboard() returns (top: seq<Entry>, total: nat)
      ensures top == Take(SortByRank(file), 10) && total == |file|
      ensures |top| <= 10 && SortedByRank(top) && multiset(top) <= multiset(file)
      ensures Valid() ==> top == Take(file, 10)
    {
      var sorted := ReadSorted();
      top, total := Take(sorted, 10), |file|;
      SortByRankSorted(file);
      SortByRankPermutes(file);
      TakeSorted(sorted, 10);
      if Valid() {
        SortByRankKeepsSorted(file);
      }
    }

    /**
      GET /api/leaderboard/top: score 0 and level 1 for an empty file,
      otherwise the best score and the best level among that score.
    */
    method GetTop() returns (topScore: int, topLevel: int)
      ensures file == [] ==> topScore == 0 && topLevel == 1
      ensures file != [] ==> exists e :: e in file && e.score == topScore && e.level == topLevel
      ensures forall e :: e in file ==> e.score <= topScore && (e.score == topScore ==> e.level <= topLevel)
    {
      var sorted := ReadSorted();
      if sorted == [] {
        return 0, 1;
      }
      topScore, topLevel := sorted[0].score, sorted[0].level;
      SortByRankSorted(file);
      SortByRankPermutes(file);
      HeadIsBest(sorted);
      assert sorted[0] in multiset(file);
      forall e | e in file
        ensures e.score <= topScore && (e.score == topScore ==> e.level <= topLevel)
      {
        assert e in multiset(sorted);
      }
    }
  }

  /** A list in rank order, sorted in place in an array as the handlers sort what they read. */
  method Ranked(s: seq<Entry>) returns (sorted: seq<Entry>)
    ensures sorted == SortByRank(s)
  {
    var a := new Entry[|s|](i requires 0 <= i < |s| => s[i]);
    assert a[..] == s;
    SortLeaderboard(a);
    sorted := a[..];
  }

  /**
    The accepted path of a POST: the upsert, then the list ranked; its best
    fifty are what gets written, and the rank is taken in the whole ranked
    list.
  */
  method Submit(board: seq<Entry>, sub: Submission, date: string) returns (stored: seq<Entry>, entry: Entry, rank: int)
    ensures var m := Merge(board, sub, date); var sorted := SortByRank(m.board);
      stored == Take(sorted, 50) && entry == m.entry && rank == FindByName(sorted, m.entry.name) + 1
    ensures ValidFile(board) ==> ValidFile(stored) && 1 <= rank <= |Merge(board, sub, date).board|
  {
    var merged;
    merged, entry := Upsert(board, sub, date);
    var sorted := Ranked(merged);
    stored, rank := Take(sorted, 50), FindByName(sorted, entry.name) + 1;
    if ValidFile(board) {
      StoredListValid(board, sub, date);
      RankInRange(board, sub, date);
    }
  }

  /**
    The upsert on the list read from the file: the stored record with the
    trimmed name is overwritten by a better result, or else the reported
    entry takes over the stored score and level; an unknown name is pushed.
  */
  method Upsert(board: seq<Entry>, sub: Submission, date: string) returns (merged: seq<Entry>, entry: Entry)
    ensures Merged(merged, entry) == Merge(board, sub, date)
  {
    var k := FindByName(board, Trim(sub.name));
    entry := Entry(Take(Trim(sub.name), 20),
                   Max(sub.score, if k >= 0 then board[k].score else 0),
                   Max(sub.level, if k >= 0 then board[k].level else 0),
                   date);
    merged := board;
    if k >= 0 {
      if Improves(sub.score, sub.level, board[k]) {
        merged := merged[k := entry];
      } else {
        entry := entry.(score := board[k].score, level := board[k].level);
      }
    } else {
      merged := merged + [entry];
    }
  }

  /** What the handlers keep true of the file: ranked, at most 50 entries, names of at most 20 characters. */
  ghost predicate ValidFile(s: seq<Entry>)
  {
    SortedByRank(s) && |s| <= 50 && forall e :: e in s ==> |e.name| <= 20
  }

  /** The best fifty of a merged valid list form a valid file again. */
  lemma StoredListValid(board: seq<Entry>, sub: Submission, date: string)
    requires forall e :: e in board ==> |e.name| <= 20
    ensures var r := Take(SortByRank(Merge(board, sub, date).board), 50);
      SortedByRank(r) && |r| <= 50 && forall e :: e in r ==> |e.name| <= 20
  {
    var merged := Merge(board, sub, date).board;
    var sorted := SortByRank(merged);
    MergeKeepsNamesShort(board, sub, date);
    SortByRankSorted(merged);
    SortByRankPermutes(merged);
    TakeSorted(sorted, 50);
    forall e | e in Take(sorted, 50)
      ensures |e.name| <= 20
    {
      assert e in multiset(sorted);
      assert e in multiset(merged);
    }
  }
}
