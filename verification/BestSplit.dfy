/** The diagnostic best split (evaluation/deep_dive.py, `_diagnostic_cutoff`), over the reals. */
module BestSplit {

  import opened Wrappers

  datatype Row = Row(score: Option<real>, answerable: bool)

  datatype Split = Split(cutoff: real, accuracy: real, falseAbstentions: nat, unsupportedPasses: nat)

  /** The three ways `_diagnostic_cutoff` raises: no first score, a comparison with None, a division by zero. */
  datatype SplitError = NoScores | MissingScore | OneClass

  const MARGIN := 0.000000001

  // ---------- counting ----------

  predicate Scored(rows: seq<Row>) {
    forall row | row in rows :: row.score.Some?
  }

  function Answerable(rows: seq<Row>): nat {
    if rows == [] then 0 else (if rows[0].answerable then 1 else 0) + Answerable(rows[1..])
  }

  function Unanswerable(rows: seq<Row>): nat {
    if rows == [] then 0 else (if rows[0].answerable then 0 else 1) + Unanswerable(rows[1..])
  }

  function FalseAbstentions(rows: seq<Row>, cutoff: real): nat
    requires Scored(rows)
  {
    if rows == [] then 0
    else
      assert rows[0] in rows;
      (if rows[0].answerable && rows[0].score.value < cutoff then 1 else 0) + FalseAbstentions(rows[1..], cutoff)
  }

  function UnsupportedPasses(rows: seq<Row>, cutoff: real): nat
    requires Scored(rows)
  {
    if rows == [] then 0
    else
      assert rows[0] in rows;
      (if !rows[0].answerable && rows[0].score.value >= cutoff then 1 else 0) + UnsupportedPasses(rows[1..], cutoff)
  }

  function Accuracy(rows: seq<Row>, cutoff: real): real
    requires Scored(rows) && Answerable(rows) > 0 && Unanswerable(rows) > 0
  {
    var tpr := 1.0 - FalseAbstentions(rows, cutoff) as real / Answerable(rows) as real;
    var tnr := 1.0 - UnsupportedPasses(rows, cutoff) as real / Unanswerable(rows) as real;
    (tpr + tnr) / 2.0
  }

  // ---------- scores and candidates ----------

  predicate Ascending(s: seq<real>) {
    |s| < 2 || (s[0] < s[1] && Ascending(s[1..]))
  }

  lemma {:induction false} AscendingAt(s: seq<real>, i: nat, j: nat)
    requires Ascending(s) && i < j < |s|
    ensures s[i] < s[j]
  {
    if i > 0 { AscendingAt(s[1..], i - 1, j - 1); }
    else if j > 1 { AscendingAt(s[1..], 0, j - 1); }
  }

  function Insert(x: real, s: seq<real>): seq<real> {
    if s == [] || x < s[0] then [x] + s
    else if x == s[0] then s
    else [s[0]] + Insert(x, s[1..])
  }

  /** The different scores, ascending. */
  function Scores(rows: seq<Row>): seq<real> {
    if rows == [] then []
    else if rows[0].score.Some? then Insert(rows[0].score.value, Scores(rows[1..]))
    else Scores(rows[1..])
  }

  function Midpoints(s: seq<real>): (m: seq<real>)
    ensures |m| == if |s| == 0 then 0 else |s| - 1
    ensures forall i | 0 <= i < |m| :: m[i] == (s[i] + s[i + 1]) / 2.0
  {
    if |s| < 2 then [] else [(s[0] + s[1]) / 2.0] + Midpoints(s[1..])
  }

  function Candidates(s: seq<real>): seq<real>
    requires s != []
  {
    [s[0] - MARGIN] + Midpoints(s) + [s[|s| - 1] + MARGIN]
  }

  ghost predicate Has(s: seq<real>, x: real) {
    exists i :: 0 <= i < |s| && s[i] == x
  }

  lemma HasFirst(s: seq<real>, y: real)
    requires s != []
    ensures Has(s, y) <==> s[0] == y || Has(s[1..], y)
  {
    if i :| 0 < i < |s| && s[i] == y { assert s[1..][i - 1] == y; }
    if i :| 0 <= i < |s[1..]| && s[1..][i] == y { assert s[i + 1] == y; }
  }

  lemma {:induction false} InsertHas(x: real, s: seq<real>, y: real)
    ensures Has(Insert(x, s), y) <==> y == x || Has(s, y)
  {
    if s == [] || x < s[0] {
      HasFirst([x] + s, y);
      assert ([x] + s)[1..] == s;
    } else {
      HasFirst(s, y);
      if x > s[0] {
        InsertHas(x, s[1..], y);
        HasFirst([s[0]] + Insert(x, s[1..]), y);
        assert ([s[0]] + Insert(x, s[1..]))[1..] == Insert(x, s[1..]);
      }
    }
  }

  lemma {:induction false} InsertAscends(x: real, s: seq<real>)
    requires Ascending(s)
    ensures Ascending(Insert(x, s)) && Insert(x, s) != []
    ensures Insert(x, s)[0] == if s == [] || x < s[0] then x else s[0]
  {
    if s != [] && x > s[0] { InsertAscends(x, s[1..]); }
  }

  lemma {:induction false} ScoresAscend(rows: seq<Row>)
    ensures Ascending(Scores(rows))
  {
    if rows != [] {
      ScoresAscend(rows[1..]);
      if rows[0].score.Some? { InsertAscends(rows[0].score.value, Scores(rows[1..])); }
    }
  }

  lemma {:induction false} ScoresHave(rows: seq<Row>, row: Row)
    requires row in rows && row.score.Some?
    ensures Has(Scores(rows), row.score.value)
  {
    if row in rows[1..] { ScoresHave(rows[1..], row); }
    if rows[0].score.Some? { InsertHas(rows[0].score.value, Scores(rows[1..]), row.score.value); }
  }

  // ---------- why midpoints are enough ----------

  /** Two cutoffs no score lies between split the rows alike. */
  ghost predicate SameSide(rows: seq<Row>, a: real, b: real) {
    forall row | row in rows && row.score.Some? :: row.score.value < a <==> row.score.value < b
  }

  lemma {:induction false} SameCounts(rows: seq<Row>, a: real, b: real)
    requires Scored(rows) && SameSide(rows, a, b)
    ensures FalseAbstentions(rows, a) == FalseAbstentions(rows, b)
    ensures UnsupportedPasses(rows, a) == UnsupportedPasses(rows, b)
  {
    if rows != [] {
      assert rows[0] in rows;
      SameCounts(rows[1..], a, b);
    }
  }

  /** Every cutoff splits the scores as some candidate does. */
  lemma CandidateFor(s: seq<real>, cutoff: real) returns (k: nat)
    requires s != [] && Ascending(s)
    ensures k < |Candidates(s)|
    ensures forall j | 0 <= j < |s| :: s[j] < cutoff <==> s[j] < Candidates(s)[k]
  {
    forall i, j | 0 <= i < j < |s| ensures s[i] < s[j] { AscendingAt(s, i, j); }
    hide Ascending;
    var n := |s|;
    if cutoff <= s[0] {
      k := 0;
    } else if cutoff > s[n - 1] {
      k := n;
      assert Candidates(s)[n] == s[n - 1] + MARGIN;
    } else {
      var i := 0;
      while s[i + 1] < cutoff
        invariant 0 <= i < n - 1 && s[i] < cutoff
        decreases n - i
      {
        i := i + 1;
      }
      k := i + 1;
      assert Candidates(s)[k] == (s[i] + s[i + 1]) / 2.0;
      forall j | 0 <= j < n ensures s[j] < cutoff <==> s[j] < Candidates(s)[k] {
        assert j <= i ==> s[j] <= s[i];
        assert j > i ==> s[j] >= s[i + 1];
      }
    }
  }

  lemma CandidateAsGood(rows: seq<Row>, cutoff: real) returns (k: nat)
    requires Scored(rows) && Answerable(rows) > 0 && Unanswerable(rows) > 0
    ensures Scores(rows) != [] && k < |Candidates(Scores(rows))|
    ensures Accuracy(rows, Candidates(Scores(rows))[k]) == Accuracy(rows, cutoff)
  {
    ScoresAscend(rows);
    assert rows[0] in rows;
    ScoresHave(rows, rows[0]);
    k := CandidateFor(Scores(rows), cutoff);
    var c := Candidates(Scores(rows))[k];
    forall row | row in rows && row.score.Some? ensures row.score.value < c <==> row.score.value < cutoff {
      ScoresHave(rows, row);
    }
    SameCounts(rows, c, cutoff);
  }

  // ---------- the search ----------

  /** The split is the first of the best candidates, and no real cutoff is better. It fails exactly when a score is
      missing, or one of the classes is empty. */
  method DiagnosticCutoff(rows: seq<Row>) returns (result: Result<Split, SplitError>)
    ensures result.Err? <==> !Scored(rows) || Answerable(rows) == 0 || Unanswerable(rows) == 0
    ensures result.Ok? ==> IsBest(rows, result.value)
  {
    hide FalseAbstentions, UnsupportedPasses, Answerable, Unanswerable, Scored, Scores, Candidates, Accuracy, IsBest;
    var scores := Scores(rows);
    if scores == [] {
      NoScoresMeans(rows);
      return Err(NoScores);
    }
    MissingScoreMeans(rows);
    if exists row | row in rows :: row.score.None? {
      return Err(MissingScore);
    }
    if Answerable(rows) == 0 || Unanswerable(rows) == 0 {
      return Err(OneClass);
    }
    var candidates := Candidates(scores);
    var best: Option<Split> := None;
    ghost var at := 0;
    for i := 0 to |candidates|
      invariant best.None? <==> i == 0
      invariant best.Some? ==> IsSplit(rows, best.value) && 0 <= at < i && candidates[at] == best.value.cutoff
      invariant best.Some? ==> forall j | 0 <= j < i :: Accuracy(rows, candidates[j]) <= best.value.accuracy
      invariant best.Some? ==> forall j | 0 <= j < at :: Accuracy(rows, candidates[j]) < best.value.accuracy
    {
      var cutoff := candidates[i];
      var candidate := Split(cutoff, Accuracy(rows, cutoff), FalseAbstentions(rows, cutoff), UnsupportedPasses(rows, cutoff));
      if best.None? || candidate.accuracy > best.value.accuracy {
        best := Some(candidate);
        at := i;
      }
    }
    SomeCandidate(scores);
    BestOfAll(rows, best.value, at);
    result := Ok(best.value);
  }

  lemma MissingScoreMeans(rows: seq<Row>)
    ensures Scored(rows) <==> !exists row :: row in rows && row.score.None?
  {
  }

  lemma SomeCandidate(s: seq<real>)
    requires s != []
    ensures |Candidates(s)| > 0
  {
  }

  /** No real cutoff is better, and no earlier candidate is as good. */
  ghost predicate IsBest(rows: seq<Row>, best: Split)
    requires Scored(rows) && Answerable(rows) > 0 && Unanswerable(rows) > 0
  {
    && IsSplit(rows, best)
    && (forall cutoff: real :: Accuracy(rows, cutoff) <= best.accuracy)
    && Scores(rows) != []
    && exists k :: 0 <= k < |Candidates(Scores(rows))| && Candidates(Scores(rows))[k] == best.cutoff
         && forall j | 0 <= j < k :: Accuracy(rows, Candidates(Scores(rows))[j]) < best.accuracy
  }

  lemma BestOfAll(rows: seq<Row>, best: Split, at: nat)
    requires Scored(rows) && Answerable(rows) > 0 && Unanswerable(rows) > 0 && IsSplit(rows, best) && Scores(rows) != []
    requires at < |Candidates(Scores(rows))| && Candidates(Scores(rows))[at] == best.cutoff
    requires forall j | 0 <= j < |Candidates(Scores(rows))| :: Accuracy(rows, Candidates(Scores(rows))[j]) <= best.accuracy
    requires forall j | 0 <= j < at :: Accuracy(rows, Candidates(Scores(rows))[j]) < best.accuracy
    ensures IsBest(rows, best)
  {
    hide FalseAbstentions, UnsupportedPasses, Answerable, Unanswerable, Scored, Scores, Candidates, Accuracy;
    forall cutoff: real ensures Accuracy(rows, cutoff) <= best.accuracy {
      var k := CandidateAsGood(rows, cutoff);
    }
  }

  ghost predicate IsSplit(rows: seq<Row>, split: Split)
    requires Scored(rows) && Answerable(rows) > 0 && Unanswerable(rows) > 0
  {
    && split.falseAbstentions == FalseAbstentions(rows, split.cutoff)
    && split.unsupportedPasses == UnsupportedPasses(rows, split.cutoff)
    && split.accuracy == Accuracy(rows, split.cutoff)
  }

  lemma NoScoresMeans(rows: seq<Row>)
    requires Scores(rows) == []
    ensures !Scored(rows) || Answerable(rows) == 0
  {
    if rows != [] && rows[0].score.Some? { ScoresHave(rows, rows[0]); }
  }
}
