/**
 * The selection rule shared by every search of the analyser: candidates are visited in a
 * fixed order, a running best starts at a given state, and a candidate replaces it only
 * when its score is STRICTLY greater. The first candidate reaching the maximum therefore
 * wins every tie.
 */
module Selection {

  /** One step of a scan: skipped (no template, or the template does not fit) or scored. */
  datatype Candidate<T> = Skipped | Scored(score: real, item: T)

  /** The running state of a scan: the best score so far and its index (-1 when none). */
  datatype Best = Best(score: real, index: int)

  /** The start of every search of the analyser: score -1.0, nothing chosen. */
  const NoBest: Best := Best(-1.0, -1)

  /** The scan over `cs` starting from `start`, as a left fold with the strict `>` test. */
  function Scan<T>(cs: seq<Candidate<T>>, start: Best): Best
    decreases |cs|
  {
    if cs == [] then start
    else
      var b := Scan(cs[..|cs| - 1], start);
      var c := cs[|cs| - 1];
      if c.Scored? && c.score > b.score then Best(c.score, |cs| - 1) else b
  }

  /** Score of the scored candidates, used to state bounds over a list of candidates. */
  predicate AtMost<T>(c: Candidate<T>, bound: real) {
    c.Scored? ==> c.score <= bound
  }

  /**
   * `r` is what a strict-greater scan from `start` must return: every scored candidate is at
   * most `r.score`; and either nothing beat `start` (then `r == start`), or `r` names the
   * FIRST scored candidate reaching the maximum, which beats `start`.
   */
  ghost predicate IsFirstArgMax<T>(cs: seq<Candidate<T>>, start: Best, r: Best) {
    && (forall j :: 0 <= j < |cs| ==> AtMost(cs[j], r.score))
    && r.score >= start.score
    && (r == start
        || (&& 0 <= r.index < |cs|
            && cs[r.index].Scored?
            && cs[r.index].score == r.score
            && r.score > start.score
            && forall j :: 0 <= j < r.index && cs[j].Scored? ==> cs[j].score < r.score))
  }

  /** The scan computes the first strict maximum. */
  lemma {:induction false} ScanIsFirstArgMax<T>(cs: seq<Candidate<T>>, start: Best)
    ensures IsFirstArgMax(cs, start, Scan(cs, start))
  {
    if cs != [] {
      var init := cs[..|cs| - 1];
      ScanIsFirstArgMax(init, start);
      var b := Scan(init, start);
      var last := |cs| - 1;
      var c := cs[last];
      assert forall j :: 0 <= j < last ==> cs[j] == init[j];
      if c.Scored? && c.score > b.score {
        var r := Best(c.score, last);
        assert forall j :: 0 <= j < last ==> AtMost(cs[j], r.score);
        assert forall j :: 0 <= j < last && cs[j].Scored? ==> cs[j].score < r.score;
      }
    }
  }

  /** The specification above pins the result down: two scans agreeing with it are equal. */
  lemma FirstArgMaxIsUnique<T>(cs: seq<Candidate<T>>, start: Best, r1: Best, r2: Best)
    requires IsFirstArgMax(cs, start, r1) && IsFirstArgMax(cs, start, r2)
    ensures r1 == r2
  {
    if r1 != start {
      assert AtMost(cs[r1.index], r2.score);
    }
    if r2 != start {
      assert AtMost(cs[r2.index], r1.score);
    }
    assert r1.score == r2.score;
  }

  /** Extending the visited prefix by one candidate is one step of the scan (for loop invariants). */
  lemma ScanStep<T>(cs: seq<Candidate<T>>, i: nat, start: Best)
    requires i < |cs|
    ensures Scan(cs[..i + 1], start) ==
      (var b := Scan(cs[..i], start);
       if cs[i].Scored? && cs[i].score > b.score then Best(cs[i].score, i) else b)
  {
    assert cs[..i + 1][..i] == cs[..i];
  }
  /** Appending one candidate is one step of the scan. */
  lemma ScanSnoc<T>(cs: seq<Candidate<T>>, c: Candidate<T>, start: Best)
    ensures Scan(cs + [c], start) ==
      (var b := Scan(cs, start);
       if c.Scored? && c.score > b.score then Best(c.score, |cs|) else b)
  {
    assert (cs + [c])[..|cs|] == cs;
  }

  /** Candidate `j` scores the maximum, and every earlier scored candidate scores strictly less. */
  ghost predicate FirstMaxAt<T>(cs: seq<Candidate<T>>, j: int) {
    && 0 <= j < |cs|
    && cs[j].Scored?
    && (forall k :: 0 <= k < |cs| ==> AtMost(cs[k], cs[j].score))
    && (forall k :: 0 <= k < j && cs[k].Scored? ==> cs[k].score < cs[j].score)
  }

  /**
   * What a scan returns, case by case: a result above the start names the first maximum;
   * otherwise nothing beat the start and the start is returned unchanged.
   */
  lemma ScanOutcome<T>(cs: seq<Candidate<T>>, start: Best)
    ensures var b := Scan(cs, start);
      && (forall k :: 0 <= k < |cs| ==> AtMost(cs[k], b.score))
      && (b.score > start.score ==> FirstMaxAt(cs, b.index) && b.score == cs[b.index].score)
      && (b.score <= start.score ==> b == start)
  {
    ScanIsFirstArgMax(cs, start);
  }

  /**
   * The state of a scan loop after visiting `seen`: `best` is the scan so far, and when it names a
   * candidate, `item` is that candidate's item (the loop's copy of the winner's data).
   */
  ghost predicate RunningBest<T>(seen: seq<Candidate<T>>, start: Best, best: Best, item: T) {
    && Scan(seen, start) == best
    && (best.index == start.index || (0 <= best.index < |seen| && seen[best.index] == Scored(best.score, item)))
  }

  lemma RunningBestStart<T>(start: Best, item: T)
    ensures RunningBest([], start, start, item)
  {
  }

  /** One loop iteration: the candidate replaces the running best exactly when it scores strictly more. */
  lemma RunningBestStep<T>(seen: seq<Candidate<T>>, c: Candidate<T>, start: Best, best: Best, item: T)
    requires start.index < 0
    requires RunningBest(seen, start, best, item)
    ensures c.Scored? && c.score > best.score ==> RunningBest(seen + [c], start, Best(c.score, |seen|), c.item)
    ensures !(c.Scored? && c.score > best.score) ==> RunningBest(seen + [c], start, best, item)
  {
    ScanSnoc(seen, c, start);
    if best.index != start.index {
      assert (seen + [c])[best.index] == seen[best.index];
    }
  }

  /** RunningBestStep for a loop that walks the candidate list by index. */
  lemma RunningBestAt<T>(cs: seq<Candidate<T>>, i: nat, start: Best, best: Best, item: T)
    requires i < |cs| && start.index < 0
    requires RunningBest(cs[..i], start, best, item)
    ensures cs[i].Scored? && cs[i].score > best.score ==> RunningBest(cs[..i + 1], start, Best(cs[i].score, i), cs[i].item)
    ensures !(cs[i].Scored? && cs[i].score > best.score) ==> RunningBest(cs[..i + 1], start, best, item)
  {
    assert cs[..i + 1] == cs[..i] + [cs[i]];
    RunningBestStep(cs[..i], cs[i], start, best, item);
  }

  /** Extending a prefix of `s` by one element. */
  lemma AppendNext<T>(pre: seq<T>, s: seq<T>, k: nat)
    requires k < |s|
    ensures pre + s[..k + 1] == pre + s[..k] + [s[k]]
  {
    assert s[..k + 1] == s[..k] + [s[k]];
  }
}
