/** Mood aggregation over the session's log of detected labels: per-label
    counts (Python's `list.count`), the dominant-mood summary shown once the
    log holds at least three entries, and the zero-filled counts the health
    dashboard plots. */
module Mood {
  import opened Wrappers
  import opened Emotion

  /** The summary is shown only from this many logged inputs on. */
  const SummaryThreshold: nat := 3

  /** The dashboard's list of emotions, in the order the source lists them. */
  const AllEmotions: seq<Label> := [Happiness, Neutral, Sadness, Anger, Stress]

  /** The dashboard's list names every label exactly once. */
  lemma AllEmotionsListed()
    ensures forall l :: l in AllEmotions
    ensures |AllEmotions| == 5
    ensures forall i, j :: 0 <= i < j < |AllEmotions| ==> AllEmotions[i] != AllEmotions[j]
  {
    forall l ensures l in AllEmotions {
      match l
      case Happiness => assert AllEmotions[0] == l;
      case Neutral => assert AllEmotions[1] == l;
      case Sadness => assert AllEmotions[2] == l;
      case Anger => assert AllEmotions[3] == l;
      case Stress => assert AllEmotions[4] == l;
    }
  }

  /** Number of occurrences of `l` in `log`. */
  function Count(log: seq<Label>, l: Label): (n: nat)
    ensures n <= |log|
    ensures n > 0 <==> l in log
  {
    if log == [] then 0
    else (if log[0] == l then 1 else 0) + Count(log[1..], l)
  }

  /** Appending one entry raises its label's count by one and no other count. */
  lemma {:induction false} CountAppend(log: seq<Label>, x: Label, l: Label)
    ensures Count(log + [x], l) == Count(log, l) + (if x == l then 1 else 0)
  {
    if log != [] {
      assert (log + [x])[1..] == log[1..] + [x];
      CountAppend(log[1..], x, l);
    }
  }

  /** Sum of the five per-label counts of a count table. */
  function Total(counts: map<Label, nat>): nat
    requires forall l :: l in counts
  {
    counts[Happiness] + counts[Neutral] + counts[Sadness] + counts[Anger] + counts[Stress]
  }

  /** The five per-label counts of a log add up to its length. */
  lemma {:induction false} CountsSumToLength(log: seq<Label>)
    ensures Count(log, Happiness) + Count(log, Neutral) + Count(log, Sadness)
          + Count(log, Anger) + Count(log, Stress) == |log|
  {
    if log != [] {
      CountsSumToLength(log[1..]);
    }
  }

  /** `{m: log.count(m) for m in set(log)}`: one entry per label present in the log. */
  function Counts(log: seq<Label>): (counts: map<Label, nat>)
    ensures forall l :: l in counts <==> l in log
    ensures forall l :: l in counts ==> counts[l] == Count(log, l) && counts[l] > 0
  {
    map l | l in log :: Count(log, l)
  }

  /** A label of `candidates` whose count in `log` is maximal among them; on a
      tie the earliest candidate wins, as Python's `max` keeps the first
      maximal key it meets. */
  function ArgMax(log: seq<Label>, candidates: seq<Label>): (best: Label)
    requires candidates != []
    ensures best in candidates
    ensures forall c :: c in candidates ==> Count(log, c) <= Count(log, best)
  {
    if |candidates| == 1 then candidates[0]
    else
      var rest := ArgMax(log, candidates[1..]);
      if Count(log, candidates[0]) >= Count(log, rest) then candidates[0] else rest
  }

  /** The labels of `order` that occur in `log`, kept in that order. */
  function PresentAmong(order: seq<Label>, log: seq<Label>): (ls: seq<Label>)
    ensures forall l :: l in ls <==> l in order && l in log
    ensures (forall i, j :: 0 <= i < j < |order| ==> order[i] != order[j]) ==>
      forall i, j :: 0 <= i < j < |ls| ==> ls[i] != ls[j]
  {
    if order == [] then []
    else if order[0] in log then [order[0]] + PresentAmong(order[1..], log)
    else PresentAmong(order[1..], log)
  }

  /** The distinct labels of `log`, in the dashboard's order (the source
      iterates a Python set here, whose order is unspecified). */
  function Present(log: seq<Label>): (ls: seq<Label>)
    ensures forall l :: l in ls <==> l in log
    ensures forall i, j :: 0 <= i < j < |ls| ==> ls[i] != ls[j]
  {
    AllEmotionsListed();
    PresentAmong(AllEmotions, log)
  }

  /** The dominant-mood summary: absent below the threshold, otherwise a
      label of the log whose count no other label exceeds. Which of several
      tied labels is reported is deliberately not promised. */
  function Dominant(log: seq<Label>): (r: Option<Label>)
    ensures r.Some? <==> |log| >= SummaryThreshold
    ensures r.Some? ==> r.value in log && forall l :: Count(log, l) <= Count(log, r.value)
  {
    if |log| < SummaryThreshold then None
    else
      assert log[0] in Present(log);
      Some(ArgMax(log, Present(log)))
  }

  /** A label that strictly out-counts every other label is the one reported,
      whatever the tie-break order. */
  lemma DominantStrictWinner(log: seq<Label>, l: Label)
    requires |log| >= SummaryThreshold
    requires forall k :: k != l ==> Count(log, k) < Count(log, l)
    ensures Dominant(log) == Some(l)
  {
  }

  /** The log [sadness, sadness, anger] counts two sadness and one anger and
      reports sadness. */
  lemma SadSadAngryExample(log: seq<Label>)
    requires log == [Sadness, Sadness, Anger]
    ensures Counts(log) == map[Sadness := 2, Anger := 1]
    ensures Dominant(log) == Some(Sadness)
  {
    assert log[1..] == [Sadness, Anger] && log[2..] == [Anger];
    assert Count(log, Sadness) == 2;
    assert Count(log, Anger) == 1;
    assert Counts(log).Keys == {Sadness, Anger};
    DominantStrictWinner(log, Sadness);
  }
}
