/** The final receipt of an exam (exam.py): seventeen task grades under fixed weights. */
module ExamAggregate {
  import opened Wrappers
  import opened Rounding
  import opened ExamSessions
  import LiveGrading

  // Half a hundredth below it, a total is rounded up to the pass mark.
  const PASS_SCORE: int := 67
  const TASK_WEIGHTS: seq<int> := [4, 4, 5, 5, 5, 5, 5, 5, 6, 6, 7, 7, 7, 7, 7, 7, 8]

  /** The frozen manifest: one positive weight per task, 100 together, and the two digests. */
  datatype Manifest = Manifest(weights: seq<int>, catalogSha: string, manifestSha: string)

  function Sum(weights: seq<int>): int {
    if weights == [] then 0 else Sum(weights[..|weights| - 1]) + weights[|weights| - 1]
  }

  predicate ValidManifest(m: Manifest) {
    |m.weights| == TASKS && Sum(m.weights) == 100 && forall i :: 0 <= i < TASKS ==> m.weights[i] >= 1
  }

  lemma TaskWeightsValid(catalogSha: string, manifestSha: string)
    ensures ValidManifest(Manifest(TASK_WEIGHTS, catalogSha, manifestSha))
  {
    hide Sum;
    var w := TASK_WEIGHTS;
    SumNothing(w);
    SumNext(w, 0); SumNext(w, 1); SumNext(w, 2); SumNext(w, 3); SumNext(w, 4); SumNext(w, 5);
    SumNext(w, 6); SumNext(w, 7); SumNext(w, 8); SumNext(w, 9); SumNext(w, 10); SumNext(w, 11);
    SumNext(w, 12); SumNext(w, 13); SumNext(w, 14); SumNext(w, 15); SumNext(w, 16);
    assert w[..17] == w;
  }

  lemma SumNothing(weights: seq<int>)
    ensures Sum(weights[..0]) == 0
  {
  }

  lemma SumNext(weights: seq<int>, i: nat)
    requires i < |weights|
    ensures Sum(weights[..i + 1]) == Sum(weights[..i]) + weights[i]
  {
    assert weights[..i + 1][..i] == weights[..i];
  }

  function Share(score: real, weight: int): real {
    score * weight as real / 100.0
  }

  /** The weighted total of the scores of the tasks. */
  function Total(weights: seq<int>, scores: seq<real>): real
    requires |weights| == |scores|
  {
    if weights == [] then 0.0
    else
      var n := |weights| - 1;
      Total(weights[..n], scores[..n]) + Share(scores[n], weights[n])
  }

  ghost predicate Scored(grades: map<int, LiveGrading.Grade>) {
    forall t :: t in grades <==> IsTask(t)
  }

  ghost function Scores(grades: map<int, LiveGrading.Grade>): (scores: seq<real>)
    requires Scored(grades)
    ensures |scores| == TASKS && forall i :: 0 <= i < TASKS ==> scores[i] == grades[i + 1].score
  {
    seq(TASKS, i requires 0 <= i < TASKS => grades[i + 1].score)
  }

  predicate AnyTampered(grades: map<int, LiveGrading.Grade>) {
    exists t :: t in grades && grades[t].status.LabTampered?
  }

  predicate AnyBroken(grades: map<int, LiveGrading.Grade>) {
    exists t :: t in grades && grades[t].status.LabBroken?
  }

  /** Add up the weighted scores, and remember the integrity statuses. */
  method Accumulate(weights: seq<int>, grades: map<int, LiveGrading.Grade>)
    returns (score: real, tampered: bool, broken: bool)
    requires |weights| == TASKS && Scored(grades)
    ensures score == Total(weights, Scores(grades))
    ensures tampered <==> AnyTampered(grades)
    ensures broken <==> AnyBroken(grades)
  {
    hide Scores;
    ghost var scores := Scores(grades);
    score, tampered, broken := 0.0, false, false;
    var i := 0;
    while i < TASKS
      invariant 0 <= i <= TASKS
      invariant score == Total(weights[..i], scores[..i])
      invariant tampered <==> exists t :: 1 <= t <= i && t in grades && grades[t].status.LabTampered?
      invariant broken <==> exists t :: 1 <= t <= i && t in grades && grades[t].status.LabBroken?
    {
      var grade := grades[i + 1];
      tampered := tampered || grade.status.LabTampered?;
      broken := broken || grade.status.LabBroken?;
      TotalNext(weights, scores, i);
      score := score + Share(grade.score, weights[i]);
      i := i + 1;
    }
    assert weights[..i] == weights && scores[..i] == scores;
  }

  lemma TotalNext(weights: seq<int>, scores: seq<real>, i: nat)
    requires i < |weights| == |scores|
    ensures Total(weights[..i + 1], scores[..i + 1])
         == Total(weights[..i], scores[..i]) + Share(scores[i], weights[i])
  {
    assert weights[..i + 1][..i] == weights[..i] && scores[..i + 1][..i] == scores[..i];
  }

  /** What a receipt says of the session and the grades that it was built from. */
  ghost predicate IsReceipt(r: Receipt, session: Session, manifest: Manifest, grades: map<int, LiveGrading.Grade>)
    requires ValidManifest(manifest) && Scored(grades)
  {
    var total := Total(manifest.weights, Scores(grades));
    && r.sessionId == session.sessionId && r.endReason == session.endReason
    && Hundredths(r.score, total * 100.0)
    // A pass needs an intact lab and a total that rounds to the pass mark.
    && (r.passed <==> !AnyTampered(grades) && !AnyBroken(grades) && total >= 66.995)
    && (r.passed <==> r.status.PassReceipt?)
    && (r.status.TamperedReceipt? <==> AnyTampered(grades))
    && (r.status.BrokenReceipt? <==> AnyBroken(grades) && !AnyTampered(grades))
  }

  /** Build the receipt of a submitting session from one grade per task. */
  method Aggregate(session: Session, manifest: Manifest, grades: map<int, LiveGrading.Grade>)
    returns (r: Result<Receipt>)
    requires ValidManifest(manifest)
    ensures !session.status.Submitting? ==> r == Err(Conflict)
    ensures r.Ok? <==> && session.status.Submitting? && Scored(grades)
                       && manifest.catalogSha == session.catalogSha && manifest.manifestSha == session.manifestSha
    ensures r.Ok? ==> IsReceipt(r.value, session, manifest, grades)
  {
    hide Round2, Hundredths, ValidManifest, Total, Scored, Scores, AnyTampered, AnyBroken;
    ManifestSize(manifest);
    if !session.status.Submitting? {
      return Err(Conflict);
    }
    if manifest.catalogSha != session.catalogSha || manifest.manifestSha != session.manifestSha {
      return Err(ExamState);
    }
    if grades.Keys != set t | t in Expected() {
      NotScored(grades);
      return Err(ExamState);
    }
    AllScored(grades);
    var score, tampered, broken := Accumulate(manifest.weights, grades);
    var rounded := Round2(score);
    RoundReaches(score, PASS_SCORE);
    RoundingExact(score, rounded);
    var passed := !tampered && !broken && rounded >= PASS_SCORE as real;
    var status := if tampered then TamperedReceipt else if broken then BrokenReceipt
                  else if passed then PassReceipt else FailReceipt;
    return Ok(Receipt(session.sessionId, session.endReason, rounded, passed, status));
  }

  /**
   * An exam that was started under a manifest can always be scored by it: whatever happened to its session
   * until it was submitting, one grade per task makes its receipt.
   */
  method AggregateStarted(first: Session, events: seq<Event>, manifest: Manifest, labId: string, sessionId: string,
                          mode: Mode, duration: int, attempts: seq<string>, grades: map<int, LiveGrading.Grade>)
    returns (r: Result<Receipt>)
    requires ValidManifest(manifest) && Scored(grades) && Inv(first)
    requires StartedAs(first, labId, sessionId, mode, manifest.catalogSha, manifest.manifestSha, duration, attempts)
    requires Run(first, events).status.Submitting?
    ensures r.Ok? && IsReceipt(r.value, Run(first, events), manifest, grades) && r.value.sessionId == sessionId
  {
    hide ValidManifest, Legal, Step, Run;
    assert [] + events == events;
    RunNothing(first);
    RunLater(first, [], events);
    r := Aggregate(Run(first, events), manifest, grades);
  }

  lemma RunNothing(s: Session)
    ensures Run(s, []) == s
  {
  }

  lemma ManifestSize(m: Manifest)
    requires ValidManifest(m)
    ensures |m.weights| == TASKS
  {
  }

  lemma AllScored(grades: map<int, LiveGrading.Grade>)
    requires grades.Keys == set t | t in Expected()
    ensures Scored(grades)
  {
    forall t ensures t in grades <==> IsTask(t) {
      assert t in grades <==> t in grades.Keys;
      if IsTask(t) {
        assert Expected()[t - 1] == t;
      }
    }
  }

  lemma NotScored(grades: map<int, LiveGrading.Grade>)
    requires grades.Keys != set t | t in Expected()
    ensures !Scored(grades)
  {
    if Scored(grades) {
      forall t ensures t in grades.Keys <==> t in Expected() {
        if IsTask(t) {
          assert Expected()[t - 1] == t;
        }
      }
    }
  }

  // ---------------------------------------------------------------------------------------------
  // The unrounded total

  predicate InRange(scores: seq<real>) {
    forall i :: 0 <= i < |scores| ==> 0.0 <= scores[i] <= 100.0
  }

  lemma {:induction false} TotalBounds(weights: seq<int>, scores: seq<real>)
    requires |weights| == |scores| && InRange(scores) && forall i :: 0 <= i < |weights| ==> weights[i] >= 1
    ensures 0.0 <= Total(weights, scores) <= Sum(weights) as real
    ensures Total(weights, scores) == Sum(weights) as real <==> forall i :: 0 <= i < |scores| ==> scores[i] == 100.0
  {
    hide Share;
    if weights != [] {
      var n := |weights| - 1;
      var init, rest, share := weights[..n], scores[..n], Share(scores[n], weights[n]);
      TotalBounds(init, rest);
      ShareBounds(scores[n], weights[n]);
      assert Total(weights, scores) == Total(init, rest) + share;
      assert Sum(weights) as real == Sum(init) as real + weights[n] as real;
      assert (forall i :: 0 <= i < |scores| ==> scores[i] == 100.0)
        <==> (forall i :: 0 <= i < n ==> rest[i] == 100.0) && scores[n] == 100.0;
    }
  }

  lemma ShareBounds(score: real, weight: int)
    requires 0.0 <= score <= 100.0 && weight >= 1
    ensures 0.0 <= Share(score, weight) <= weight as real
    ensures Share(score, weight) == weight as real <==> score == 100.0
  {
    var w := weight as real;
    assert score * w <= 100.0 * w;
    if score < 100.0 {
      assert score * w < 100.0 * w;
    }
  }

  lemma {:induction false} TotalMonotone(weights: seq<int>, few: seq<real>, many: seq<real>)
    requires |weights| == |few| == |many| && forall i :: 0 <= i < |weights| ==> weights[i] >= 1
    requires forall i :: 0 <= i < |few| ==> few[i] <= many[i]
    ensures Total(weights, few) <= Total(weights, many)
  {
    if weights != [] {
      var n := |weights| - 1;
      TotalMonotone(weights[..n], few[..n], many[..n]);
      assert few[n] * weights[n] as real <= many[n] * weights[n] as real;
    }
  }

  /** Each task adds its weight times its score in hundredths: from nothing, one score after another. */
  lemma {:induction false} TotalExact(weights: seq<int>, scores: seq<real>, i: nat, score: real)
    requires |weights| == |scores|
    ensures (forall k :: 0 <= k < |scores| ==> scores[k] == 0.0) ==> Total(weights, scores) == 0.0
    ensures i < |scores| ==>
              Total(weights, scores[i := score])
              == Total(weights, scores) + (score - scores[i]) * weights[i] as real / 100.0
  {
    if weights != [] {
      var n := |weights| - 1;
      TotalExact(weights[..n], scores[..n], i, score);
      if i < n {
        assert scores[i := score][..n] == scores[..n][i := score];
      } else if i == n {
        assert scores[i := score][..n] == scores[..n];
        assert (score - scores[n]) * weights[n] as real == score * weights[n] as real - scores[n] * weights[n] as real;
      }
    }
  }

  /**
   * The total lies from 0 to 100 and is 100 exactly when every task scores 100; the receipt's rounded
   * score reads 100 exactly from 99.995 on.
   */
  lemma AggregateExact(manifest: Manifest, scores: seq<real>)
    requires ValidManifest(manifest) && |scores| == TASKS && InRange(scores)
    ensures var total := Total(manifest.weights, scores);
            && 0.0 <= total <= 100.0
            && (total == 100.0 <==> forall i :: 0 <= i < TASKS ==> scores[i] == 100.0)
            && (Round2(total) == 100.0 <==> total >= 99.995)
            && 0.0 <= Round2(total) <= 100.0
  {
    var total := Total(manifest.weights, scores);
    TotalBounds(manifest.weights, scores);
    NearestInteger(0);
    NearestInteger(10000);
    RoundingFacts(0.0, total);
    RoundingFacts(total, 100.0);
    RoundReaches(total, 100);
  }

  /** The exact percentages of the tasks total 100 exactly when every task has everything it declared. */
  lemma FullMarksExact(manifest: Manifest, earned: seq<real>, possible: seq<real>)
    requires ValidManifest(manifest) && |earned| == |possible| == TASKS
    requires forall i :: 0 <= i < TASKS ==> possible[i] > 0.0 && 0.0 <= earned[i] <= possible[i]
    ensures var percents := seq(TASKS, i requires 0 <= i < TASKS => LiveGrading.Percent(earned[i], possible[i]));
            Total(manifest.weights, percents) == 100.0 <==> forall i :: 0 <= i < TASKS ==> earned[i] == possible[i]
  {
    hide LiveGrading.Percent;
    var percents := seq(TASKS, i requires 0 <= i < TASKS => LiveGrading.Percent(earned[i], possible[i]));
    forall i | 0 <= i < TASKS
      ensures 0.0 <= percents[i] <= 100.0 && (percents[i] == 100.0 <==> earned[i] == possible[i])
    {
      LiveGrading.PercentBounds(earned[i], possible[i]);
    }
    AggregateExact(manifest, percents);
  }

  function StatusRank(status: ReceiptStatus): nat {
    match status
    case TamperedReceipt => 0
    case BrokenReceipt => 1
    case FailReceipt => 2
    case PassReceipt => 3
  }

  /** Of two receipts, the one for better scores on a lab no less intact has no lower score, status or pass. */
  lemma AggregateMonotone(session: Session, manifest: Manifest, few: map<int, LiveGrading.Grade>,
                          many: map<int, LiveGrading.Grade>, a: Receipt, b: Receipt)
    requires ValidManifest(manifest) && Scored(few) && Scored(many)
    requires IsReceipt(a, session, manifest, few) && IsReceipt(b, session, manifest, many)
    requires forall t :: IsTask(t) ==> few[t].score <= many[t].score
    requires (AnyTampered(many) ==> AnyTampered(few)) && (AnyBroken(many) ==> AnyBroken(few))
    ensures a.score <= b.score && StatusRank(a.status) <= StatusRank(b.status) && (a.passed ==> b.passed)
  {
    hide Round2, Hundredths, Total, Sum, AnyTampered, AnyBroken;
    var low, high := Total(manifest.weights, Scores(few)), Total(manifest.weights, Scores(many));
    TotalMonotone(manifest.weights, Scores(few), Scores(many));
    RoundingFacts(low, high);
    RoundingExact(low, a.score);
    RoundingExact(high, b.score);
  }
}
