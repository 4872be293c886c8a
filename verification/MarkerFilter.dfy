/** The streaming status-marker filter and its whole-text counterpart (app/generation/answerability.py).

    Upper-casing is per character and keeps the length (ASCII letters). */
module MarkerFilter {

  const START := "[STATUS"

  function Upper(c: char): char {
    if 'a' <= c <= 'z' then ((c as int) - 32) as char else c
  }

  // ---------- where a marker starts ----------

  /** `data` and START agree at `k` as far as `data` goes. */
  predicate Candidate(data: string, k: nat)
    requires k <= |data|
  {
    forall i | 0 <= i < |START| && k + i < |data| :: Upper(data[k + i]) == START[i]
  }

  /** A whole START at `k`. */
  predicate StartsAt(data: string, k: nat) {
    k + |START| <= |data| && forall i | 0 <= i < |START| :: Upper(data[k + i]) == START[i]
  }

  /** The first position that is or may become a START; |data| if none. */
  function FirstCandidate(data: string, from: nat): (k: nat)
    requires from <= |data|
    ensures from <= k <= |data|
    ensures k < |data| ==> Candidate(data, k)
    ensures forall j | from <= j < k :: !Candidate(data, j)
    decreases |data| - from
  {
    if from == |data| || Candidate(data, from) then from else FirstCandidate(data, from + 1)
  }

  /** The first closing bracket from `from` on; |data| if none. */
  function FirstClose(data: string, from: nat): (k: nat)
    requires from <= |data|
    ensures from <= k <= |data|
    ensures k < |data| ==> data[k] == ']'
    ensures forall j | from <= j < k :: data[j] != ']'
    decreases |data| - from
  {
    if from == |data| || data[from] == ']' then from else FirstClose(data, from + 1)
  }

  datatype Fed = Fed(output: string, pending: string)

  /** One `feed` as a function of the text it works on: everything before the first candidate goes out; a closed
      marker is dropped and the rest filtered; anything else from the candidate on is kept back. */
  function Filter(data: string): Fed
    decreases |data|
  {
    var k := FirstCandidate(data, 0);
    var close := FirstClose(data, k);
    if k < |data| && StartsAt(data, k) && close < |data| then
      var rest := Filter(data[close + 1..]);
      Fed(data[..k] + rest.output, rest.pending)
    else
      Fed(data[..k], data[k..])
  }

  /** What `finish` adds for what was kept back. */
  function Flush(pending: string): string {
    if StartsAt(pending, 0) then "" else pending
  }

  lemma FilterEmpty()
    ensures Filter("") == Fed("", "")
  {
  }

  /** A marker starts first: dropped when closed, kept back when not. */
  lemma FilterMarker(data: string, start: nat)
    requires start < |data| && FirstCandidate(data, 0) == start && StartsAt(data, start)
    ensures var close := FirstClose(data, start);
      Filter(data) ==
        if close < |data| then Fed(data[..start] + Filter(data[close + 1..]).output, Filter(data[close + 1..]).pending)
        else Fed(data[..start], data[start..])
  {
    hide StartsAt, Candidate, FirstClose, FirstCandidate;
  }

  lemma FilterPlain(data: string, k: nat)
    requires k <= |data| && FirstCandidate(data, 0) == k && (k < |data| ==> !StartsAt(data, k))
    ensures Filter(data) == Fed(data[..k], data[k..])
  {
  }

  // ---------- the class ----------

  class StreamingMarkerFilter {
    var pending: string

    constructor ()
      ensures pending == ""
    {
      pending := "";
    }

    /** `upper.find(START)`. */
    static method Find(data: string) returns (start: int)
      ensures -1 <= start < |data|
      ensures start >= 0 ==> StartsAt(data, start) && forall j | 0 <= j < start :: !StartsAt(data, j)
      ensures start < 0 ==> forall j | 0 <= j < |data| :: !StartsAt(data, j)
    {
      start := 0;
      while start < |data|
        invariant 0 <= start <= |data|
        invariant forall j | 0 <= j < start :: !StartsAt(data, j)
      {
        if StartsAt(data, start) {
          return;
        }
        start := start + 1;
      }
      start := -1;
    }

    /** `data.find("]", start)`. */
    static method FindClose(data: string, start: nat) returns (end: int)
      requires start <= |data|
      ensures end == if FirstClose(data, start) < |data| then FirstClose(data, start) else -1
    {
      end := start;
      while end < |data|
        invariant start <= end <= |data|
        invariant FirstClose(data, start) == FirstClose(data, end)
      {
        if data[end] == ']' {
          return;
        }
        end := end + 1;
      }
      end := -1;
    }

    /** The longest suffix shorter than START that START begins with. */
    static method Retained(data: string) returns (retained: nat)
      ensures retained <= |data| && retained < |START|
      ensures Candidate(data, |data| - retained)
      ensures forall p | 0 <= p < |data| - retained && |data| < p + |START| :: !Candidate(data, p)
    {
      var length := if |data| < |START| - 1 then |data| else |START| - 1;
      while length > 0
        invariant 0 <= length <= |data| && length < |START|
        invariant forall p | 0 <= p < |data| - length && |data| < p + |START| :: !Candidate(data, p)
      {
        if Candidate(data, |data| - length) {
          return length;
        }
        length := length - 1;
      }
      retained := 0;
    }

    method Feed(value: string) returns (out: string)
      modifies this
      ensures out == Filter(old(pending) + value).output
      ensures pending == Filter(old(pending) + value).pending
    {
      hide Filter, StartsAt, Candidate;
      var data := pending + value;
      ghost var whole := Filter(data);
      FilterEmpty();
      pending := "";
      out := "";
      while data != ""
        invariant out + Filter(data).output == whole.output
        invariant Filter(data).pending == whole.pending
        invariant pending == ""
        decreases |data|
      {
        var start := Find(data);
        if start >= 0 {
          FirstStart(data, start);
          FilterMarker(data, start);
          out := out + data[..start];
          var end := FindClose(data, start);
          if end < 0 {
            pending := data[start..];
            return;
          }
          data := data[end + 1..];
        } else {
          var retained := Retained(data);
          FirstPartial(data, retained);
          FilterPlain(data, |data| - retained);
          out := out + data[..|data| - retained];
          pending := data[|data| - retained..];
          return;
        }
      }
    }

    method Finish() returns (out: string)
      modifies this
      ensures out == Flush(old(pending)) && pending == ""
    {
      out := if StartsAt(pending, 0) then "" else pending;
      pending := "";
    }
  }

  lemma FirstIs(data: string, k: nat)
    requires k <= |data| && (k < |data| ==> Candidate(data, k)) && forall j | 0 <= j < k :: !Candidate(data, j)
    ensures FirstCandidate(data, 0) == k
  {
  }

  lemma WholeCandidate(data: string, k: nat)
    requires k + |START| <= |data|
    ensures Candidate(data, k) <==> StartsAt(data, k)
  {
    if Candidate(data, k) {
      assert forall i | 0 <= i < |START| :: k + i < |data| && Upper(data[k + i]) == START[i];
    }
  }

  /** A whole START is also the first candidate: a shorter agreement can only be at the end. */
  lemma FirstStart(data: string, start: nat)
    requires start < |data| && StartsAt(data, start) && forall j | 0 <= j < start :: !StartsAt(data, j)
    ensures FirstCandidate(data, 0) == start
  {
    forall j | 0 <= j <= start ensures Candidate(data, j) <==> StartsAt(data, j) {
      WholeCandidate(data, j);
    }
    FirstIs(data, start);
  }

  lemma FirstPartial(data: string, retained: nat)
    requires retained <= |data| && retained < |START| && Candidate(data, |data| - retained)
    requires forall p | 0 <= p < |data| - retained && |data| < p + |START| :: !Candidate(data, p)
    requires forall j | 0 <= j < |data| :: !StartsAt(data, j)
    ensures FirstCandidate(data, 0) == |data| - retained
    ensures retained > 0 ==> !StartsAt(data, |data| - retained)
  {
    forall j | 0 <= j < |data| - retained ensures !Candidate(data, j) {
      if j + |START| <= |data| { WholeCandidate(data, j); }
    }
    FirstIs(data, |data| - retained);
  }

  // ---------- chunk invariance ----------

  lemma CandidateShift(x: string, data: string, k: nat)
    requires k <= |data|
    ensures Candidate(x + data, |x| + k) <==> Candidate(data, k)
    ensures StartsAt(x + data, |x| + k) <==> StartsAt(data, k)
  {
    assert forall m | 0 <= m < |data| :: (x + data)[|x| + m] == data[m];
    if Candidate(x + data, |x| + k) {
      forall i | 0 <= i < |START| && k + i < |data| ensures Upper(data[k + i]) == START[i] {
        assert Upper((x + data)[|x| + k + i]) == START[i];
      }
    }
    if StartsAt(x + data, |x| + k) {
      forall i | 0 <= i < |START| ensures Upper(data[k + i]) == START[i] {
        assert Upper((x + data)[|x| + k + i]) == START[i];
      }
    }
  }

  lemma CloseIs(data: string, from: nat, k: nat)
    requires from <= k <= |data| && (k < |data| ==> data[k] == ']') && forall j | from <= j < k :: data[j] != ']'
    ensures FirstClose(data, from) == k
  {
  }

  lemma Assoc(x: string, y: string, z: string)
    ensures x + (y + z) == (x + y) + z
  {
  }

  lemma CloseShift(x: string, data: string, k: nat)
    requires k <= |data|
    ensures FirstClose(x + data, |x| + k) == |x| + FirstClose(data, k)
  {
    hide FirstClose;
    CloseIs(x + data, |x| + k, |x| + FirstClose(data, k));
  }

  /** Where the first candidate, and the bracket that closes it, are after more text in front. */
  lemma ShiftedPlaces(x: string, data: string)
    requires forall k | 0 <= k < |x| :: !Candidate(x + data, k)
    ensures var k := FirstCandidate(data, 0);
      && FirstCandidate(x + data, 0) == |x| + k
      && (StartsAt(x + data, |x| + k) <==> StartsAt(data, k))
      && FirstClose(x + data, |x| + k) == |x| + FirstClose(data, k)
  {
    hide Candidate, StartsAt, FirstCandidate, FirstClose;
    var k := FirstCandidate(data, 0);
    forall j | 0 <= j < |x| + k ensures !Candidate(x + data, j) {
      if j >= |x| { CandidateShift(x, data, j - |x|); }
    }
    CandidateShift(x, data, k);
    FirstIs(x + data, |x| + k);
    CloseShift(x, data, k);
  }

  lemma Slices(x: string, data: string, k: nat)
    requires k <= |data|
    ensures (x + data)[..|x| + k] == x + data[..k] && (x + data)[|x| + k..] == data[k..]
  {
  }

  lemma PassMarker(x: string, data: string, whole: string, k: nat)
    requires FirstCandidate(data, 0) == k < |data| && StartsAt(data, k)
    requires FirstCandidate(whole, 0) == |x| + k < |whole| && StartsAt(whole, |x| + k) && |whole| == |x| + |data|
    requires FirstClose(whole, |x| + k) == |x| + FirstClose(data, k)
    requires whole[..|x| + k] == x + data[..k] && whole[|x| + k..] == data[k..]
    requires var close := FirstClose(data, k); close < |data| ==> whole[|x| + close + 1..] == data[close + 1..]
    ensures Filter(whole) == Fed(x + Filter(data).output, Filter(data).pending)
  {
    hide Filter, Candidate, FirstCandidate, StartsAt, FirstClose;
    FilterMarker(data, k);
    FilterMarker(whole, |x| + k);
    var close := FirstClose(data, k);
    if close < |data| { Assoc(x, data[..k], Filter(data[close + 1..]).output); }
  }

  lemma PassPlain(x: string, data: string, whole: string, k: nat)
    requires FirstCandidate(data, 0) == k <= |data| && (k < |data| ==> !StartsAt(data, k))
    requires FirstCandidate(whole, 0) == |x| + k <= |whole| && (|x| + k < |whole| ==> !StartsAt(whole, |x| + k))
    requires whole[..|x| + k] == x + data[..k] && whole[|x| + k..] == data[k..]
    ensures Filter(whole) == Fed(x + Filter(data).output, Filter(data).pending)
  {
    hide Filter, Candidate, FirstCandidate, StartsAt;
    FilterPlain(data, k);
    FilterPlain(whole, |x| + k);
  }

  /** Text in which no position is a candidate passes straight through. */
  lemma PassThrough(x: string, data: string)
    requires forall k | 0 <= k < |x| :: !Candidate(x + data, k)
    ensures Filter(x + data) == Fed(x + Filter(data).output, Filter(data).pending)
  {
    hide Filter, Candidate, FirstCandidate, StartsAt, FirstClose;
    ShiftedPlaces(x, data);
    var k := FirstCandidate(data, 0);
    Slices(x, data, k);
    if k < |data| && StartsAt(data, k) {
      if FirstClose(data, k) < |data| { Slices(x, data, FirstClose(data, k) + 1); }
      PassMarker(x, data, x + data, k);
    } else {
      PassPlain(x, data, x + data, k);
    }
  }

  /** A candidate of a longer text that lies inside the shorter one is one there too. */
  lemma CandidatePrefix(a: string, b: string, k: nat)
    requires k <= |a| && Candidate(a + b, k)
    ensures Candidate(a, k)
  {
    assert forall m | 0 <= m < |a| :: (a + b)[m] == a[m];
  }

  /** Filtering in two parts: what the first part keeps back is all the second part needs. */
  lemma {:induction false} FilterConcat(a: string, b: string)
    ensures Concats(a, b)
    decreases |a|
  {
    hide Filter, Candidate, StartsAt, FirstCandidate, FirstClose, Concats;
    var k := FirstCandidate(a, 0);
    forall j | 0 <= j < k ensures !Candidate(a + b, j) {
      if Candidate(a + b, j) { CandidatePrefix(a, b, j); }
    }
    if k < |a| && StartsAt(a, k) && FirstClose(a, k) < |a| {
      StartStays(a, b, k);
      FirstIs(a + b, k);
      CloseIs(a + b, k, FirstClose(a, k));
      FilterConcat(a[FirstClose(a, k) + 1..], b);
      ConcatMarker(a, b, k, FirstClose(a, k));
    } else {
      ConcatKept(a, b, k);
    }
  }

  lemma ConcatKept(a: string, b: string, k: nat)
    requires k <= |a| && FirstCandidate(a, 0) == k && forall j | 0 <= j < k :: !Candidate(a + b, j)
    requires k < |a| && StartsAt(a, k) ==> FirstClose(a, k) == |a|
    ensures Concats(a, b)
  {
    hide Filter, Candidate, StartsAt, FirstCandidate, FirstClose;
    if k < |a| && StartsAt(a, k) { FilterMarker(a, k); } else { FilterPlain(a, k); }
    assert a[..k] + (a[k..] + b) == a + b;
    PassThrough(a[..k], a[k..] + b);
  }

  ghost predicate Concats(a: string, b: string) {
    var one := Filter(a);
    var two := Filter(one.pending + b);
    Filter(a + b) == Fed(one.output + two.output, two.pending)
  }

  lemma ConcatMarker(a: string, b: string, k: nat, close: nat)
    requires k <= close < |a| && FirstCandidate(a, 0) == k && StartsAt(a, k) && FirstClose(a, k) == close
    requires FirstCandidate(a + b, 0) == k && StartsAt(a + b, k) && FirstClose(a + b, k) == close
    requires Concats(a[close + 1..], b)
    ensures Concats(a, b)
  {
    hide Filter, Candidate, StartsAt, FirstCandidate, FirstClose;
    var rest := a[close + 1..];
    FilterMarker(a + b, k);
    FilterMarker(a, k);
    assert (a + b)[..k] == a[..k] && (a + b)[close + 1..] == rest + b;
    Assoc(a[..k], Filter(rest).output, Filter(Filter(rest).pending + b).output);
  }

  lemma StartStays(a: string, b: string, k: nat)
    requires k < |a| && StartsAt(a, k)
    ensures StartsAt(a + b, k) && Candidate(a + b, k)
  {
    assert forall m | 0 <= m < |a| :: (a + b)[m] == a[m];
  }

  /** A run of `feed` over chunks, from a given pending buffer. */
  function FeedAll(pending: string, chunks: seq<string>): Fed
    decreases |chunks|
  {
    if chunks == [] then
      Fed("", pending)
    else
      var first := Filter(pending + chunks[0]);
      var rest := FeedAll(first.pending, chunks[1..]);
      Fed(first.output + rest.output, rest.pending)
  }

  function Joined(chunks: seq<string>): string {
    if chunks == [] then "" else chunks[0] + Joined(chunks[1..])
  }

  /** A pending buffer is a fixed point: filtering it again keeps all of it back. */
  lemma {:induction false} PendingStable(data: string)
    ensures Filter(Filter(data).pending) == Fed("", Filter(data).pending)
    decreases |data|
  {
    var k := FirstCandidate(data, 0);
    var close := FirstClose(data, k);
    if k < |data| && StartsAt(data, k) && close < |data| {
      FilterMarker(data, k);
      PendingStable(data[close + 1..]);
    } else {
      var tail := data[k..];
      assert data == data[..k] + tail;
      CandidateShift(data[..k], tail, 0);
      FirstIs(tail, 0);
      if close == |data| { CloseIs(tail, 0, |tail|); }
      assert tail[..0] == "" && tail[0..] == tail;
    }
  }

  lemma {:induction false} FeedAllFrom(pending: string, chunks: seq<string>)
    requires Filter(pending) == Fed("", pending)
    ensures FeedAll(pending, chunks) == Filter(pending + Joined(chunks))
    decreases |chunks|
  {
    hide Filter;
    if chunks == [] {
      assert pending + Joined(chunks) == pending;
    } else {
      var first := Filter(pending + chunks[0]);
      PendingStable(pending + chunks[0]);
      FeedAllFrom(first.pending, chunks[1..]);
      FilterConcat(pending + chunks[0], Joined(chunks[1..]));
      assert pending + chunks[0] + Joined(chunks[1..]) == pending + Joined(chunks);
    }
  }

  /** Chunk invariance: however a text is cut up, the output so far and the pending buffer are those of the
      unsplit text, and so is what `finish` adds. */
  lemma ChunkInvariance(chunks: seq<string>)
    ensures FeedAll("", chunks) == Filter(Joined(chunks))
  {
    FilterEmpty();
    FeedAllFrom("", chunks);
    assert "" + Joined(chunks) == Joined(chunks);
  }

  // ---------- the whole-text deletion ----------

  predicate Stops(c: char) {
    c == ']' || c == '\r' || c == '\n'
  }

  /** The first closing bracket or line end from `from` on; |data| if none. */
  function FirstStop(data: string, from: nat): (k: nat)
    requires from <= |data|
    ensures from <= k <= |data|
    ensures k < |data| ==> Stops(data[k])
    ensures forall j | from <= j < k :: !Stops(data[j])
    decreases |data| - from
  {
    if from == |data| || Stops(data[from]) then from else FirstStop(data, from + 1)
  }

  /** `\[STATUS[^\]\r\n]*\]` matches at `k`, ignoring case: START, and a bracket before the line ends. */
  predicate MatchesAt(data: string, k: nat) {
    StartsAt(data, k) && FirstStop(data, k) < |data| && data[FirstStop(data, k)] == ']'
  }

  function FirstMatch(data: string, from: nat): (k: nat)
    requires from <= |data|
    ensures from <= k <= |data|
    ensures k < |data| ==> MatchesAt(data, k)
    ensures forall j | from <= j < k :: !MatchesAt(data, j)
    decreases |data| - from
  {
    if from == |data| || MatchesAt(data, from) then from else FirstMatch(data, from + 1)
  }

  /** The text behind the match at `k`. */
  function Behind(data: string, k: nat): (rest: string)
    requires k < |data| && MatchesAt(data, k)
    ensures |rest| < |data|
  {
    data[FirstStop(data, k) + 1..]
  }

  /** What is left of the text around a match. */
  function Glued(front: string, rest: string): string {
    front + rest
  }

  /** `re.sub(pattern, "", data)`: leftmost matches, each search resuming behind the last one. */
  function Deleted(data: string): string
    decreases |data|
  {
    var k := FirstMatch(data, 0);
    if k == |data| then data else Glued(data[..k], Deleted(Behind(data, k)))
  }

  /** What a consumer of the stream has seen after `finish`. */
  function Streamed(data: string): string {
    Filter(data).output + Flush(Filter(data).pending)
  }

  /** Every START is closed on its own line: a plain scan of the text. */
  ghost predicate WellClosed(data: string) {
    forall k: nat | k < |data| && StartsAt(data, k) :: MatchesAt(data, k)
  }

  lemma StopIs(data: string, from: nat, k: nat)
    requires from <= k <= |data| && (k < |data| ==> Stops(data[k])) && forall j | from <= j < k :: !Stops(data[j])
    ensures FirstStop(data, from) == k
  {
  }

  lemma MatchIs(data: string, k: nat)
    requires k <= |data| && (k < |data| ==> MatchesAt(data, k)) && forall j | 0 <= j < k :: !MatchesAt(data, j)
    ensures FirstMatch(data, 0) == k
  {
  }

  /** Matching looks only to the right. */
  lemma MatchShift(x: string, data: string, k: nat)
    requires k < |data|
    ensures FirstStop(x + data, |x| + k) == |x| + FirstStop(data, k)
    ensures MatchesAt(x + data, |x| + k) <==> MatchesAt(data, k)
  {
    assert forall m | 0 <= m < |data| :: (x + data)[|x| + m] == data[m];
    var stop := FirstStop(data, k);
    forall j | |x| + k <= j < |x| + stop ensures !Stops((x + data)[j]) {
      assert (x + data)[|x| + (j - |x|)] == data[j - |x|];
    }
    StopIs(x + data, |x| + k, |x| + stop);
    CandidateShift(x, data, k);
  }

  lemma StartIsOpen(data: string, k: nat)
    requires k < |data| && StartsAt(data, k)
    ensures !Stops(data[k]) && FirstStop(data, k) > k && FirstClose(data, k) > k
  {
    assert Upper(data[k]) == START[0];
  }

  /** Inside a closed marker every START is closed by the same bracket. */
  lemma NestedMatch(data: string, k: nat, p: nat)
    requires k < |data| && MatchesAt(data, k) && k <= p <= FirstStop(data, k) && StartsAt(data, p)
    ensures p < FirstStop(data, k) && MatchesAt(data, p)
  {
    StartIsOpen(data, p);
    StopIs(data, p, FirstStop(data, k));
  }

  /** The bracket that closes a marker on its line is the next bracket. */
  lemma MatchCloses(data: string, k: nat)
    requires k < |data| && MatchesAt(data, k)
    ensures FirstClose(data, k) == FirstStop(data, k)
  {
    CloseIs(data, k, FirstStop(data, k));
  }

  /** A text without a START is untouched by both. */
  lemma NoStartStreamed(data: string)
    requires forall k: nat | k < |data| :: !StartsAt(data, k)
    ensures Streamed(data) == data
  {
    hide Filter, FirstCandidate, Candidate, StartsAt;
    var k := FirstCandidate(data, 0);
    FilterPlain(data, k);
    assert data[..k] + data[k..] == data;
    if k < |data| { CandidateShift(data[..k], data[k..], 0); } else { ShortStart(data[k..]); }
  }

  lemma ShortStart(data: string)
    requires data == ""
    ensures !StartsAt(data, 0)
  {
  }

  lemma NoStartDeleted(data: string)
    requires forall k: nat | k < |data| :: !StartsAt(data, k)
    ensures Deleted(data) == data && WellClosed(data)
  {
    hide StartsAt, FirstStop;
    assert forall j | 0 <= j < |data| :: !MatchesAt(data, j);
    MatchFound(data, |data|);
  }

  /** The first START of a text that has one. */
  lemma SomeStart(data: string) returns (k: nat)
    requires exists j: nat :: j < |data| && StartsAt(data, j)
    ensures k < |data| && StartsAt(data, k) && FirstCandidate(data, 0) == k
    ensures forall j | 0 <= j < k :: !StartsAt(data, j)
  {
    k := 0;
    while !StartsAt(data, k)
      invariant k < |data| && forall j | 0 <= j < k :: !StartsAt(data, j)
      decreases |data| - k
    {
      var w: nat :| w < |data| && StartsAt(data, w);
      assert k < w;
      k := k + 1;
    }
    FirstStart(data, k);
  }

  lemma StreamedMarker(data: string, k: nat)
    requires k < |data| && FirstCandidate(data, 0) == k && StartsAt(data, k)
    ensures var close := FirstClose(data, k);
      Streamed(data) == if close < |data| then data[..k] + Streamed(data[close + 1..]) else data[..k]
  {
    hide Filter, Candidate, StartsAt, FirstCandidate, FirstClose;
    FilterMarker(data, k);
    var close := FirstClose(data, k);
    if close == |data| {
      CandidateShift(data[..k], data[k..], 0);
      assert data[..k] + data[k..] == data;
    } else {
      Assoc(data[..k], Filter(data[close + 1..]).output, Flush(Filter(data[close + 1..]).pending));
    }
  }

  lemma SameBehind(data: string, cut: nat, p: nat)
    requires cut <= |data| && p < |data| - cut
    ensures StartsAt(data, cut + p) <==> StartsAt(data[cut..], p)
    ensures MatchesAt(data, cut + p) <==> MatchesAt(data[cut..], p)
  {
    hide StartsAt, MatchesAt, Candidate;
    assert data == data[..cut] + data[cut..];
    CandidateShift(data[..cut], data[cut..], p);
    MatchShift(data[..cut], data[cut..], p);
  }

  lemma ClosedBehind(data: string, cut: nat)
    requires cut <= |data| && WellClosed(data)
    ensures WellClosed(data[cut..])
  {
    hide StartsAt, MatchesAt;
    forall p: nat | p < |data| - cut && StartsAt(data[cut..], p) ensures MatchesAt(data[cut..], p) {
      SameBehind(data, cut, p);
    }
  }

  lemma ClosedBefore(data: string, k: nat, cut: nat)
    requires k < |data| && MatchesAt(data, k) && forall j | 0 <= j < k :: !StartsAt(data, j)
    requires cut == FirstStop(data, k) + 1 <= |data| && WellClosed(data[cut..])
    ensures WellClosed(data)
  {
    hide StartsAt, MatchesAt, FirstStop;
    forall p: nat | p < |data| && StartsAt(data, p) ensures MatchesAt(data, p) {
      if p >= cut { SameBehind(data, cut, p - cut); } else { NestedMatch(data, k, p); }
    }
  }

  /** Behind a matched marker the scan of the rest decides. */
  lemma ClosedRest(data: string, k: nat)
    requires k < |data| && MatchesAt(data, k) && forall j | 0 <= j < k :: !StartsAt(data, j)
    ensures WellClosed(data) <==> WellClosed(data[FirstStop(data, k) + 1..])
  {
    var cut := FirstStop(data, k) + 1;
    hide StartsAt, WellClosed;
    if WellClosed(data) { ClosedBehind(data, cut); }
    if WellClosed(data[cut..]) { ClosedBefore(data, k, cut); }
  }

  /** The first match of `x + rest`, when none begins in `x`, is the first match of `rest`. */
  lemma MatchBehind(x: string, rest: string)
    requires forall j | 0 <= j < |x| :: !MatchesAt(x + rest, j)
    ensures FirstMatch(x + rest, 0) == |x| + FirstMatch(rest, 0)
  {
    var m := FirstMatch(rest, 0);
    forall p | 0 <= p < |rest| ensures MatchesAt(x + rest, |x| + p) <==> MatchesAt(rest, p) {
      MatchShift(x, rest, p);
    }
    hide MatchesAt, FirstMatch;
    forall j | 0 <= j < |x| + m ensures !MatchesAt(x + rest, j) {
      if j >= |x| { assert !MatchesAt(rest, j - |x|); }
    }
    MatchFound(x + rest, |x| + m);
  }

  lemma MatchFound(data: string, k: nat)
    requires k <= |data| && (k < |data| ==> MatchesAt(data, k)) && forall j | 0 <= j < k :: !MatchesAt(data, j)
    ensures FirstMatch(data, 0) == k
  {
    hide MatchesAt;
  }

  /** If no match begins in `x`, the deletion keeps `x` and deletes what it would in the rest. */
  lemma DeletedBehind(x: string, rest: string)
    requires forall j | 0 <= j < |x| :: !MatchesAt(x + rest, j)
    ensures Deleted(x + rest) == x + Deleted(rest)
  {
    hide MatchesAt, FirstStop, FirstMatch, Deleted;
    var data, m := x + rest, FirstMatch(rest, 0);
    MatchBehind(x, rest);
    DeletedAt(rest, m);
    DeletedAt(data, |x| + m);
    if m < |rest| {
      MatchShift(x, rest, m);
      var next := FirstStop(rest, m) + 1;
      calc {
        Deleted(data);
        data[..|x| + m] + Deleted(data[|x| + next..]);
        { CutTwice(x, rest, m, next); }
        (x + rest[..m]) + Deleted(rest[next..]);
        { Assoc(x, rest[..m], Deleted(rest[next..])); }
        x + Deleted(rest);
      }
    }
  }

  lemma DeletedIs(data: string, k: nat)
    requires FirstMatch(data, 0) == k
    ensures k == |data| ==> Deleted(data) == data
    ensures k < |data| ==> Deleted(data) == Glued(data[..k], Deleted(Behind(data, k)))
  {
    hide FirstMatch, MatchesAt, Behind, Glued;
  }

  lemma DeletedAt(data: string, k: nat)
    requires FirstMatch(data, 0) == k
    ensures k == |data| ==> Deleted(data) == data
    ensures k < |data| ==>
      FirstStop(data, k) < |data| && Deleted(data) == data[..k] + Deleted(data[FirstStop(data, k) + 1..])
  {
    hide FirstMatch, FirstStop, MatchesAt, StartsAt, Stops, Deleted;
    DeletedIs(data, k);
    if k < |data| { MatchEnds(data, k); }
  }

  lemma MatchEnds(data: string, k: nat)
    requires k < |data| && MatchesAt(data, k)
    ensures FirstStop(data, k) < |data|
  {
    hide StartsAt, FirstStop;
  }

  lemma CutTwice(x: string, rest: string, m: nat, next: nat)
    requires m < next <= |rest|
    ensures (x + rest)[..|x| + m] == x + rest[..m] && (x + rest)[|x| + next..] == rest[next..]
  {
  }

  /** An unmatched START costs the deletion nothing up to the next bracket: it keeps more than the stream does. */
  lemma DeletionKeeps(data: string, k: nat)
    requires k < |data| && StartsAt(data, k) && forall j | 0 <= j <= k :: !MatchesAt(data, j)
    ensures var close := FirstClose(data, k);
      |Deleted(data)| >= k + 1 + if close < |data| then |Deleted(data[close + 1..])| else 0
  {
    hide StartsAt, MatchesAt, FirstMatch, FirstClose, FirstStop, Deleted;
    var m, close := FirstMatch(data, 0), FirstClose(data, k);
    if m == |data| {
      KeepsAll(data, k, close);
    } else if m <= close {
      KeepsToMatch(data, k, m);
    } else {
      KeepsToClose(data, k, m, close);
    }
  }

  lemma KeepsAll(data: string, k: nat, close: nat)
    requires k < |data| && FirstMatch(data, 0) == |data| && k <= close <= |data| && FirstClose(data, k) == close
    requires StartsAt(data, k)
    ensures |Deleted(data)| >= k + 1 + if close < |data| then |Deleted(data[close + 1..])| else 0
  {
    StartIsOpen(data, k);
    DeletedAt(data, |data|);
    hide StartsAt, FirstMatch, FirstClose, Deleted;
    if close < |data| { DeletedLength(data[close + 1..]); }
  }

  lemma {:induction false} DeletedLength(data: string)
    ensures |Deleted(data)| <= |data|
    decreases |data|
  {
    var k := FirstMatch(data, 0);
    DeletedAt(data, k);
    if k < |data| { DeletedLength(data[FirstStop(data, k) + 1..]); }
  }

  /** A match that begins before the next bracket ends at it. */
  lemma KeepsToMatch(data: string, k: nat, m: nat)
    requires k < m < |data| && FirstMatch(data, 0) == m && m <= FirstClose(data, k)
    ensures var close := FirstClose(data, k);
      |Deleted(data)| >= k + 1 + if close < |data| then |Deleted(data[close + 1..])| else 0
  {
    hide MatchesAt, FirstStop, FirstMatch, FirstClose, Deleted;
    MatchCloses(data, m);
    CloseIs(data, m, FirstClose(data, k));
    DeletedAt(data, m);
  }

  lemma KeepsToClose(data: string, k: nat, m: nat, close: nat)
    requires k <= close < m < |data| && FirstMatch(data, 0) == m && FirstClose(data, k) == close
    ensures |Deleted(data)| >= k + 1 + |Deleted(data[close + 1..])|
  {
    var x, rest := data[..close + 1], data[close + 1..];
    assert data == x + rest;
    hide MatchesAt, FirstMatch, FirstClose, Deleted;
    DeletedBehind(x, rest);
  }

  /** The stream is never longer than the deletion, and as long only on well-closed text, where they agree. */
  lemma {:induction false} StreamVersusDeletion(data: string)
    ensures if WellClosed(data) then Streamed(data) == Deleted(data) else |Streamed(data)| < |Deleted(data)|
    decreases |data|
  {
    hide Filter, Streamed, StartsAt, Candidate, FirstCandidate, MatchesAt, WellClosed, FirstStop, FirstClose, FirstMatch, Deleted;
    if forall k: nat | k < |data| :: !StartsAt(data, k) {
      NoStartStreamed(data);
      NoStartDeleted(data);
    } else {
      var k := SomeStart(data);
      StreamedMarker(data, k);
      if MatchesAt(data, k) {
        MatchCloses(data, k);
        ClosedRest(data, k);
        FirstStartMatches(data, k);
        DeletedAt(data, k);
        StreamVersusDeletion(data[FirstStop(data, k) + 1..]);
      } else {
        NotClosed(data, k);
        NoEarlierMatch(data, k);
        DeletionKeeps(data, k);
        if FirstClose(data, k) < |data| { StreamVersusDeletion(data[FirstClose(data, k) + 1..]); }
      }
    }
  }

  lemma NotClosed(data: string, k: nat)
    requires k < |data| && StartsAt(data, k) && !MatchesAt(data, k)
    ensures !WellClosed(data)
  {
  }

  lemma NoEarlierMatch(data: string, k: nat)
    requires k < |data| && forall j | 0 <= j < k :: !StartsAt(data, j)
    ensures forall j | 0 <= j < k :: !MatchesAt(data, j)
  {
  }

  lemma FirstStartMatches(data: string, k: nat)
    requires k < |data| && MatchesAt(data, k) && forall j | 0 <= j < k :: !StartsAt(data, j)
    ensures FirstMatch(data, 0) == k
  {
    MatchIs(data, k);
  }

  /** The streaming filter, fed the text in any pieces, deletes what the regular expression deletes exactly when
      every START in the text is closed before its line ends. */
  lemma StreamIsDeletion(chunks: seq<string>)
    ensures var streamed := FeedAll("", chunks);
      streamed.output + Flush(streamed.pending) == Deleted(Joined(chunks)) <==> WellClosed(Joined(chunks))
  {
    ChunkInvariance(chunks);
    StreamVersusDeletion(Joined(chunks));
  }
}
