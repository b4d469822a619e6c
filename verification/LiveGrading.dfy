/** Trusted-evidence grading of one task (live_grading.py), over exact numbers. */
module LiveGrading {
  import opened Wrappers
  import opened Sequences
  import opened Rounding

  datatype TrustSource = Operator | CrossSource | Guest

  datatype Expected = Expected(id: string, title: string, weight: real)

  datatype Evidence = Evidence(
    id: string,
    title: string,
    weight: real,
    passed: bool,
    source: TrustSource,
    detail: string)

  datatype Signals = Signals(broken: bool, tampered: bool, detail: string)

  datatype GradeStatus = Pass | Partial | Fail | LabTampered | LabBroken

  datatype CriterionResult = CriterionResult(
    id: string,
    title: string,
    weight: real,
    passed: bool,
    source: Option<TrustSource>,
    detail: string,
    present: bool)

  datatype Grade = Grade(
    status: GradeStatus,
    score: real,
    earned: real,
    possible: real,
    denominator: nat,
    evidenceCount: nat,
    criteria: seq<CriterionResult>,
    signals: Signals)

  // ---------------------------------------------------------------------------------------------
  // The order of criterion identifiers

  /** Code point order, as sorting strings uses it. */
  predicate Less(a: string, b: string) {
    b != "" && (a == "" || a[0] < b[0] || (a[0] == b[0] && Less(a[1..], b[1..])))
  }

  lemma {:induction false} LessTotal(a: string, b: string)
    ensures Less(a, b) || Less(b, a) || a == b
    ensures !(Less(a, b) && Less(b, a)) && !Less(a, a)
  {
    if a != "" && b != "" {
      LessTotal(a[1..], b[1..]);
      assert a == [a[0]] + a[1..] && b == [b[0]] + b[1..];
    }
    if a != "" {
      LessTotal(a[1..], a[1..]);
    }
  }

  lemma {:induction false} LessTransitive(a: string, b: string, c: string)
    requires Less(a, b) && Less(b, c)
    ensures Less(a, c)
  {
    if a != "" && a[0] == b[0] == c[0] {
      LessTransitive(a[1..], b[1..], c[1..]);
    }
  }

  /** Less is what it is for sequences of code points: a proper prefix, or smaller where they first differ. */
  lemma {:induction false} LessExact(a: string, b: string)
    ensures Less(a, b) <==>
              exists k :: 0 <= k <= |a| && k <= |b| && a[..k] == b[..k] && k < |b| && (k == |a| || a[k] < b[k])
  {
    if a != "" && b != "" && a[0] == b[0] {
      LessExact(a[1..], b[1..]);
      if k :| 0 <= k <= |a[1..]| && k < |b[1..]| && a[1..][..k] == b[1..][..k]
              && (k == |a[1..]| || a[1..][k] < b[1..][k]) {
        assert a[..k + 1] == [a[0]] + a[1..][..k] && b[..k + 1] == [b[0]] + b[1..][..k];
      }
      if k :| 0 <= k <= |a| && k < |b| && a[..k] == b[..k] && (k == |a| || a[k] < b[k]) {
        assert k > 0;
        assert a[1..][..k - 1] == a[..k][1..] && b[1..][..k - 1] == b[..k][1..];
      }
    } else if b != "" {
      assert a[..0] == b[..0];
      if a != "" {
        if k :| 0 <= k <= |a| && k < |b| && a[..k] == b[..k] && (k == |a| || a[k] < b[k]) {
          assert k > 0 ==> a[..k][0] == b[..k][0];
        }
      }
    }
  }

  predicate Ascending(ids: seq<string>) {
    forall i, j :: 0 <= i < j < |ids| ==> Less(ids[i], ids[j])
  }

  function Insert(id: string, sorted: seq<string>): seq<string> {
    if sorted == [] || Less(id, sorted[0]) then [id] + sorted else [sorted[0]] + Insert(id, sorted[1..])
  }

  function Sort(ids: seq<string>): seq<string> {
    if ids == [] then [] else Insert(ids[0], Sort(ids[1..]))
  }

  lemma {:induction false} InsertSorted(id: string, sorted: seq<string>)
    requires Ascending(sorted) && id !in sorted
    ensures Ascending(Insert(id, sorted))
    ensures forall x :: x in Insert(id, sorted) <==> x == id || x in sorted
  {
    if sorted == [] {
    } else if Less(id, sorted[0]) {
      forall j | 0 <= j < |sorted| ensures Less(id, sorted[j]) {
        if j > 0 {
          LessTransitive(id, sorted[0], sorted[j]);
        }
      }
    } else {
      var rest := Insert(id, sorted[1..]);
      LessTotal(id, sorted[0]);
      InsertSorted(id, sorted[1..]);
      assert sorted == [sorted[0]] + sorted[1..];
      forall j | 0 <= j < |rest| ensures Less(sorted[0], rest[j]) {
        assert rest[j] in rest;
        if rest[j] != id {
          var k :| 0 <= k < |sorted[1..]| && sorted[1..][k] == rest[j];
          assert sorted[k + 1] == rest[j];
        }
      }
    }
  }

  lemma {:induction false} SortSorted(ids: seq<string>)
    requires NoDuplicates(ids)
    ensures Ascending(Sort(ids)) && forall x :: x in Sort(ids) <==> x in ids
  {
    if ids != [] {
      assert ids == [ids[0]] + ids[1..];
      SortSorted(ids[1..]);
      InsertSorted(ids[0], Sort(ids[1..]));
    }
  }

  /** An ascending sequence is determined by its elements. */
  lemma {:induction false} AscendingUnique(a: seq<string>, b: seq<string>)
    requires Ascending(a) && Ascending(b) && forall x :: x in a <==> x in b
    ensures a == b
  {
    Inhabited(a);
    Inhabited(b);
    if a != [] {
      FirstIsLeast(a, b);
      assert a == [a[0]] + a[1..] && b == [b[0]] + b[1..];
      FirstOnlyOnce(a);
      FirstOnlyOnce(b);
      AscendingUnique(a[1..], b[1..]);
    }
  }

  lemma Inhabited(s: seq<string>)
    ensures s != [] <==> exists x :: x in s
  {
    if s != [] {
      assert s[0] in s;
    }
  }

  lemma FirstIsLeast(a: seq<string>, b: seq<string>)
    requires a != [] && b != [] && Ascending(a) && Ascending(b) && forall x :: x in a <==> x in b
    ensures a[0] == b[0]
  {
    assert a[0] in a && b[0] in b;
    var i :| 0 <= i < |b| && b[i] == a[0];
    assert b[0] in a;
    var j :| 0 <= j < |a| && a[j] == b[0];
    LessTotal(a[0], b[0]);
  }

  lemma FirstOnlyOnce(a: seq<string>)
    requires a != [] && Ascending(a)
    ensures a[0] !in a[1..] && forall x :: x in a[1..] <==> x in a && x != a[0]
  {
    LessTotal(a[0], a[0]);
    assert a == [a[0]] + a[1..];
  }

  // ---------------------------------------------------------------------------------------------
  // The definition

  function ExpectedIds(expected: seq<Expected>): seq<string> {
    seq(|expected|, i requires 0 <= i < |expected| => expected[i].id)
  }

  function EvidenceIds(evidence: seq<Evidence>): seq<string> {
    seq(|evidence|, i requires 0 <= i < |evidence| => evidence[i].id)
  }

  /** The criteria of a denominator: at least one, each named once. */
  predicate Declared(expected: seq<Expected>) {
    expected != [] && NoDuplicates(ExpectedIds(expected))
  }

  predicate Agrees(e: Expected, v: Evidence) {
    e.id == v.id && e.title == v.title && e.weight == v.weight
  }

  predicate HasCriterion(expected: seq<Expected>, v: Evidence) {
    exists e :: e in expected && Agrees(e, v)
  }

  /** Evidence at most once per criterion, each piece for a declared criterion with its own metadata. */
  predicate Admissible(expected: seq<Expected>, evidence: seq<Evidence>) {
    && NoDuplicates(EvidenceIds(evidence))
    && forall v :: v in evidence ==> HasCriterion(expected, v)
  }

  /** The weights that the criterion constructor admits. */
  predicate Positive(expected: seq<Expected>) {
    forall e :: e in expected ==> e.weight > 0.0
  }

  function FindExpected(expected: seq<Expected>, id: string): Option<Expected> {
    if expected == [] then None
    else if expected[0].id == id then Some(expected[0])
    else FindExpected(expected[1..], id)
  }

  function FindEvidence(evidence: seq<Evidence>, id: string): Option<Evidence> {
    if evidence == [] then None
    else if evidence[0].id == id then Some(evidence[0])
    else FindEvidence(evidence[1..], id)
  }

  predicate Trusted(source: TrustSource) {
    source.Operator? || source.CrossSource?
  }

  function ResultFor(e: Expected, observed: Option<Evidence>, valid: bool): CriterionResult {
    match observed
    case None => CriterionResult(e.id, e.title, e.weight, false, None, "missing evidence", false)
    case Some(v) =>
      CriterionResult(e.id, e.title, e.weight, v.passed && Trusted(v.source) && valid, Some(v.source), v.detail, true)
  }

  function Results(ids: seq<string>, expected: seq<Expected>, evidence: seq<Evidence>, valid: bool)
    : seq<CriterionResult>
    requires forall id :: id in ids ==> FindExpected(expected, id).Some?
  {
    seq(|ids|, i requires 0 <= i < |ids| =>
      ResultFor(FindExpected(expected, ids[i]).value, FindEvidence(evidence, ids[i]), valid))
  }

  function Possible(criteria: seq<CriterionResult>): real {
    if criteria == [] then 0.0 else Possible(criteria[..|criteria| - 1]) + criteria[|criteria| - 1].weight
  }

  function Earned(criteria: seq<CriterionResult>): real {
    if criteria == [] then 0.0
    else
      var last := criteria[|criteria| - 1];
      Earned(criteria[..|criteria| - 1]) + if last.passed then last.weight else 0.0
  }

  function StatusFor(signals: Signals, earned: real, possible: real): GradeStatus {
    if signals.tampered then LabTampered
    else if signals.broken then LabBroken
    else if earned == possible then Pass
    else if earned > 0.0 then Partial
    else Fail
  }

  function Percent(earned: real, possible: real): real
    requires possible > 0.0
  {
    earned / possible * 100.0
  }

  /** The grade of admissible evidence. */
  function GradeOf(expected: seq<Expected>, evidence: seq<Evidence>, signals: Signals): Grade
    requires Declared(expected) && Positive(expected)
  {
    SortedIdsFound(expected);
    var criteria := Results(Sort(ExpectedIds(expected)), expected, evidence, !signals.tampered && !signals.broken);
    ResultWeights(expected, evidence, !signals.tampered && !signals.broken);
    var earned, possible := Earned(criteria), Possible(criteria);
    Grade(StatusFor(signals, earned, possible), Round2(Percent(earned, possible)), earned, possible, |criteria|,
          |evidence|, criteria, signals)
  }

  datatype AnyInputs = AnyInputs(expected: seq<Expected>, evidence: seq<Evidence>, signals: Signals)

  /** What a grader collects of one task. */
  type Inputs = i: AnyInputs | Positive(i.expected) witness AnyInputs([], [], Signals(false, false, ""))

  /** The grade that the collected inputs deserve. */
  function Judge(i: Inputs): Result<Grade> {
    Evaluate(i.expected, i.evidence, i.signals)
  }

  function Evaluate(expected: seq<Expected>, evidence: seq<Evidence>, signals: Signals): Result<Grade>
    requires Positive(expected)
  {
    if Declared(expected) && Admissible(expected, evidence) then Ok(GradeOf(expected, evidence, signals))
    else Err(Validation)
  }

  // ---------------------------------------------------------------------------------------------
  // Lookups

  lemma {:induction false} FindExpectedExact(expected: seq<Expected>, id: string)
    ensures FindExpected(expected, id).Some? <==> id in ExpectedIds(expected)
    ensures FindExpected(expected, id).Some? ==>
              FindExpected(expected, id).value in expected && FindExpected(expected, id).value.id == id
  {
    if expected != [] {
      FindExpectedExact(expected[1..], id);
      assert ExpectedIds(expected) == [expected[0].id] + ExpectedIds(expected[1..]);
    }
  }

  lemma {:induction false} FindEvidenceExact(evidence: seq<Evidence>, id: string)
    ensures FindEvidence(evidence, id).Some? <==> id in EvidenceIds(evidence)
    ensures FindEvidence(evidence, id).Some? ==>
              FindEvidence(evidence, id).value in evidence && FindEvidence(evidence, id).value.id == id
  {
    if evidence != [] {
      FindEvidenceExact(evidence[1..], id);
      assert EvidenceIds(evidence) == [evidence[0].id] + EvidenceIds(evidence[1..]);
    }
  }

  lemma SortedIdsFound(expected: seq<Expected>)
    requires Declared(expected)
    ensures forall id :: id in Sort(ExpectedIds(expected)) ==> FindExpected(expected, id).Some?
    ensures Sort(ExpectedIds(expected)) != []
  {
    SortSorted(ExpectedIds(expected));
    assert ExpectedIds(expected)[0] in Sort(ExpectedIds(expected));
    forall id | id in Sort(ExpectedIds(expected)) ensures FindExpected(expected, id).Some? {
      FindExpectedExact(expected, id);
    }
  }

  lemma {:induction false} PossiblePositive(criteria: seq<CriterionResult>)
    requires forall c :: c in criteria ==> c.weight > 0.0
    ensures Possible(criteria) >= 0.0 && (criteria != [] ==> Possible(criteria) > 0.0)
    ensures 0.0 <= Earned(criteria) <= Possible(criteria)
    ensures Earned(criteria) == Possible(criteria) <==> forall c :: c in criteria ==> c.passed
    ensures Earned(criteria) > 0.0 <==> exists c :: c in criteria && c.passed
  {
    if criteria != [] {
      var init, last := criteria[..|criteria| - 1], criteria[|criteria| - 1];
      assert criteria == init + [last];
      PossiblePositive(init);
      assert last in criteria;
      assert last.passed ==> exists c :: c in criteria && c.passed;
    }
  }

  lemma ResultWeights(expected: seq<Expected>, evidence: seq<Evidence>, valid: bool)
    requires Declared(expected) && Positive(expected)
    ensures forall id :: id in Sort(ExpectedIds(expected)) ==> FindExpected(expected, id).Some?
    ensures var criteria := Results(Sort(ExpectedIds(expected)), expected, evidence, valid);
            && (forall c :: c in criteria ==> c.weight > 0.0)
            && Possible(criteria) > 0.0 && 0.0 <= Earned(criteria) <= Possible(criteria)
  {
    SortedIdsFound(expected);
    var ids := Sort(ExpectedIds(expected));
    var criteria := Results(ids, expected, evidence, valid);
    forall c | c in criteria ensures c.weight > 0.0 {
      var i :| 0 <= i < |criteria| && criteria[i] == c;
      FindExpectedExact(expected, ids[i]);
    }
    PossiblePositive(criteria);
  }

  // ---------------------------------------------------------------------------------------------
  // The evaluator

  lemma IdsTake(expected: seq<Expected>, i: nat)
    requires i < |expected|
    ensures ExpectedIds(expected[..i + 1]) == ExpectedIds(expected[..i]) + [expected[i].id]
    ensures NoDuplicates(ExpectedIds(expected)) ==> expected[i].id !in ExpectedIds(expected[..i])
  {
    if NoDuplicates(ExpectedIds(expected)) {
      forall j | 0 <= j < i ensures ExpectedIds(expected[..i])[j] != expected[i].id {
        assert ExpectedIds(expected)[j] != ExpectedIds(expected)[i];
      }
    }
  }

  lemma EvidenceTake(evidence: seq<Evidence>, i: nat)
    requires i < |evidence|
    ensures EvidenceIds(evidence[..i + 1]) == EvidenceIds(evidence[..i]) + [evidence[i].id]
    ensures NoDuplicates(EvidenceIds(evidence)) ==> evidence[i].id !in EvidenceIds(evidence[..i])
  {
    if NoDuplicates(EvidenceIds(evidence)) {
      forall j | 0 <= j < i ensures EvidenceIds(evidence[..i])[j] != evidence[i].id {
        assert EvidenceIds(evidence)[j] != EvidenceIds(evidence)[i];
      }
    }
  }

  lemma NoDuplicatesAppend(ids: seq<string>, id: string)
    requires NoDuplicates(ids) && id !in ids
    ensures NoDuplicates(ids + [id])
  {
  }

  /** The dictionary of declared criteria, unless one is declared twice. */
  method IndexExpected(expected: seq<Expected>) returns (ok: bool, byId: map<string, Expected>)
    ensures ok <==> NoDuplicates(ExpectedIds(expected))
    ensures ok ==> IndexesExpected(byId, expected)
  {
    byId := map[];
    var i := 0;
    while i < |expected|
      invariant 0 <= i <= |expected|
      invariant NoDuplicates(ExpectedIds(expected[..i])) && IndexesExpected(byId, expected[..i])
    {
      var item := expected[i];
      IdsTake(expected, i);
      assert expected[..i + 1] == expected[..i] + [item];
      if item.id in byId {
        return false, byId;
      }
      NoDuplicatesAppend(ExpectedIds(expected[..i]), item.id);
      byId := byId[item.id := item];
      i := i + 1;
    }
    assert expected[..i] == expected;
    return true, byId;
  }

  ghost predicate IndexesExpected(byId: map<string, Expected>, expected: seq<Expected>) {
    && (forall id :: id in byId <==> id in ExpectedIds(expected))
    && (forall id :: id in byId ==> byId[id] in expected && byId[id].id == id)
  }

  ghost predicate IndexesEvidence(byId: map<string, Evidence>, evidence: seq<Evidence>) {
    && (forall id :: id in byId <==> id in EvidenceIds(evidence))
    && (forall id :: id in byId ==> byId[id] in evidence && byId[id].id == id)
    && |byId| == |evidence|
  }

  /** The dictionary of evidence, unless a piece is repeated, undeclared or at odds with its criterion. */
  method IndexEvidence(expected: seq<Expected>, declared: map<string, Expected>, evidence: seq<Evidence>)
    returns (ok: bool, byId: map<string, Evidence>)
    requires NoDuplicates(ExpectedIds(expected)) && IndexesExpected(declared, expected)
    ensures ok <==> Admissible(expected, evidence)
    ensures ok ==> IndexesEvidence(byId, evidence)
  {
    byId := map[];
    var i := 0;
    while i < |evidence|
      invariant 0 <= i <= |evidence|
      invariant Admissible(expected, evidence[..i]) && IndexesEvidence(byId, evidence[..i])
    {
      var item := evidence[i];
      EvidenceTake(evidence, i);
      assert evidence[..i + 1] == evidence[..i] + [item];
      assert item in evidence;
      if item.id in byId {
        return false, byId;
      }
      OnlyCriterion(expected, declared, item);
      if item.id !in declared {
        return false, byId;
      }
      if item.title != declared[item.id].title || item.weight != declared[item.id].weight {
        return false, byId;
      }
      NoDuplicatesAppend(EvidenceIds(evidence[..i]), item.id);
      byId := byId[item.id := item];
      i := i + 1;
    }
    assert evidence[..i] == evidence;
    return true, byId;
  }

  /** The declared criterion of a piece of evidence is the only one it can agree with. */
  lemma OnlyCriterion(expected: seq<Expected>, declared: map<string, Expected>, v: Evidence)
    requires NoDuplicates(ExpectedIds(expected)) && IndexesExpected(declared, expected)
    ensures HasCriterion(expected, v) <==> v.id in declared && Agrees(declared[v.id], v)
  {
    if e :| e in expected && Agrees(e, v) {
      var i :| 0 <= i < |expected| && expected[i] == e;
      assert ExpectedIds(expected)[i] == v.id;
      var j :| 0 <= j < |expected| && expected[j] == declared[v.id];
      assert ExpectedIds(expected)[j] == v.id;
    }
  }

  lemma IndexIsFind(expected: seq<Expected>, declared: map<string, Expected>, evidence: seq<Evidence>,
                    byId: map<string, Evidence>, id: string)
    requires NoDuplicates(ExpectedIds(expected)) && IndexesExpected(declared, expected)
    requires NoDuplicates(EvidenceIds(evidence)) && IndexesEvidence(byId, evidence)
    ensures FindExpected(expected, id) == if id in declared then Some(declared[id]) else None
    ensures FindEvidence(evidence, id) == if id in byId then Some(byId[id]) else None
  {
    FindExpectedExact(expected, id);
    FindEvidenceExact(evidence, id);
    if id in declared {
      SameExpected(expected, declared[id], FindExpected(expected, id).value);
    }
    if id in byId {
      SameEvidence(evidence, byId[id], FindEvidence(evidence, id).value);
    }
  }

  lemma SameExpected(expected: seq<Expected>, a: Expected, b: Expected)
    requires NoDuplicates(ExpectedIds(expected)) && a in expected && b in expected && a.id == b.id
    ensures a == b
  {
    var i :| 0 <= i < |expected| && expected[i] == a;
    var j :| 0 <= j < |expected| && expected[j] == b;
    assert ExpectedIds(expected)[i] == ExpectedIds(expected)[j];
  }

  lemma SameEvidence(evidence: seq<Evidence>, a: Evidence, b: Evidence)
    requires NoDuplicates(EvidenceIds(evidence)) && a in evidence && b in evidence && a.id == b.id
    ensures a == b
  {
    var i :| 0 <= i < |evidence| && evidence[i] == a;
    var j :| 0 <= j < |evidence| && evidence[j] == b;
    assert EvidenceIds(evidence)[i] == EvidenceIds(evidence)[j];
  }

  /** One result per sorted identifier, looked up in the two dictionaries. */
  method CollectResults(expected: seq<Expected>, declared: map<string, Expected>, evidence: seq<Evidence>,
                        byId: map<string, Evidence>, valid: bool) returns (results: seq<CriterionResult>)
    requires Declared(expected) && IndexesExpected(declared, expected)
    requires NoDuplicates(EvidenceIds(evidence)) && IndexesEvidence(byId, evidence)
    ensures forall id :: id in Sort(ExpectedIds(expected)) ==> FindExpected(expected, id).Some?
    ensures results == Results(Sort(ExpectedIds(expected)), expected, evidence, valid)
  {
    hide IndexesExpected, IndexesEvidence, Less, Sort, FindExpected, FindEvidence;
    var ids := Sort(ExpectedIds(expected));
    SortedIdsFound(expected);
    ghost var goal := Results(ids, expected, evidence, valid);
    results := [];
    var i := 0;
    while i < |ids|
      invariant 0 <= i <= |ids| && results == goal[..i]
    {
      var id := ids[i];
      IndexIsFind(expected, declared, evidence, byId, id);
      var observed := if id in byId then Some(byId[id]) else None;
      results := results + [ResultFor(declared[id], observed, valid)];
      i := i + 1;
    }
  }

  /** The evaluator, as the source computes it: two dictionaries, then the results and their sums. */
  method EvaluateLiveGrade(expected: seq<Expected>, evidence: seq<Evidence>, signals: Signals)
    returns (r: Result<Grade>)
    requires Positive(expected)
    ensures r == Evaluate(expected, evidence, signals)
    ensures r.Ok? ==> Weighed(r.value, expected, evidence, signals) && Listed(r.value, expected, evidence, signals)
  {
    hide Weighed, Listed, Admissible, IndexesExpected, IndexesEvidence, Less, Sort, Percent, Round2, Results, Earned,
      Possible, StatusFor, Positive;
    var distinct, declared := IndexExpected(expected);
    if !distinct {
      return Err(Validation);
    }
    if expected == [] {
      return Err(Validation);
    }
    var admitted, byId := IndexEvidence(expected, declared, evidence);
    if !admitted {
      return Err(Validation);
    }
    AdmittedDistinct(expected, evidence);
    var valid := !signals.tampered && !signals.broken;
    var results := CollectResults(expected, declared, evidence, byId, valid);
    ResultWeights(expected, evidence, valid);
    var earned, possible := Earned(results), Possible(results);
    GradeWeighed(expected, evidence, signals);
    GradeListed(expected, evidence, signals);
    return Ok(Grade(StatusFor(signals, earned, possible), Round2(Percent(earned, possible)), earned, possible,
                    |results|, |evidence|, results, signals));
  }

  lemma AdmittedDistinct(expected: seq<Expected>, evidence: seq<Evidence>)
    requires Admissible(expected, evidence)
    ensures NoDuplicates(EvidenceIds(evidence))
  {
  }

  // ---------------------------------------------------------------------------------------------
  // What a grade means

  /** A criterion is met by passing evidence of an operator or of several sources. */
  predicate Met(evidence: seq<Evidence>, id: string) {
    exists v :: v in evidence && v.id == id && v.passed && Trusted(v.source)
  }

  lemma ResultPassed(expected: seq<Expected>, evidence: seq<Evidence>, valid: bool, i: nat)
    requires Declared(expected) && Positive(expected) && NoDuplicates(EvidenceIds(evidence))
    requires i < |Sort(ExpectedIds(expected))|
    requires forall id :: id in Sort(ExpectedIds(expected)) ==> FindExpected(expected, id).Some?
    ensures var ids := Sort(ExpectedIds(expected));
            Results(ids, expected, evidence, valid)[i].passed <==> valid && Met(evidence, ids[i])
  {
    hide Less, Sort;
    var id := Sort(ExpectedIds(expected))[i];
    FindEvidenceExact(evidence, id);
    FindExpectedExact(expected, id);
    if Met(evidence, id) {
      var v :| v in evidence && v.id == id && v.passed && Trusted(v.source);
      var k :| 0 <= k < |evidence| && evidence[k] == v;
      assert EvidenceIds(evidence)[k] == id;
      SameEvidence(evidence, v, FindEvidence(evidence, id).value);
    }
  }

  /**
   * Without integrity signals, a task passes exactly when every declared criterion is met, and fails
   * exactly when none is; with a signal nothing is earned.
   */
  lemma StatusExact(expected: seq<Expected>, evidence: seq<Evidence>, signals: Signals)
    requires Positive(expected) && Evaluate(expected, evidence, signals).Ok?
    ensures var g := Evaluate(expected, evidence, signals).value;
            var valid := !signals.tampered && !signals.broken;
            && (g.status.Pass? <==> valid && forall e :: e in expected ==> Met(evidence, e.id))
            && (g.status.Fail? <==> valid && forall e :: e in expected ==> !Met(evidence, e.id))
            && (g.status.LabTampered? <==> signals.tampered)
            && (g.status.LabBroken? <==> signals.broken && !signals.tampered)
            && (!valid ==> g.earned == 0.0)
            && 0.0 <= g.earned <= g.possible && g.possible > 0.0
  {
    hide Less, Sort, Met, Round2, Percent;
    var valid := !signals.tampered && !signals.broken;
    var ids := Sort(ExpectedIds(expected));
    SortedIdsFound(expected);
    ResultWeights(expected, evidence, valid);
    var criteria := Results(ids, expected, evidence, valid);
    PossiblePositive(criteria);
    SortSorted(ExpectedIds(expected));
    AllPassed(expected, evidence, valid);
    assert criteria[0] in criteria;
  }

  // ---------------------------------------------------------------------------------------------
  // The numbers of a grade, in terms of what was declared

  function DeclaredWeight(expected: seq<Expected>): real {
    if expected == [] then 0.0 else expected[0].weight + DeclaredWeight(expected[1..])
  }

  ghost function MetWeight(expected: seq<Expected>, evidence: seq<Evidence>): real {
    if expected == [] then 0.0
    else (if Met(evidence, expected[0].id) then expected[0].weight else 0.0) + MetWeight(expected[1..], evidence)
  }

  /**
   * Everything declared is possible, everything met is earned unless the lab gave a signal, and the score is
   * the percentage to the nearest hundredth.
   */
  ghost predicate Weighed(g: Grade, expected: seq<Expected>, evidence: seq<Evidence>, signals: Signals) {
    && g.possible == DeclaredWeight(expected) && g.possible > 0.0
    && g.earned == (if signals.tampered || signals.broken then 0.0 else MetWeight(expected, evidence))
    && g.score - 0.005 <= 100.0 * g.earned / g.possible <= g.score + 0.005
    && Hundredths(g.score, 100.0 * g.earned / g.possible * 100.0)
  }

  function Sum(f: string -> real, ids: seq<string>): real {
    if ids == [] then 0.0 else f(ids[0]) + Sum(f, ids[1..])
  }

  lemma {:induction false} SumNext(f: string -> real, ids: seq<string>, id: string)
    ensures Sum(f, ids + [id]) == Sum(f, ids) + f(id)
  {
    if ids == [] {
      assert ids + [id] == [id];
    } else {
      SumNext(f, ids[1..], id);
      assert (ids + [id])[1..] == ids[1..] + [id];
    }
  }

  lemma {:induction false} SumInsert(f: string -> real, id: string, sorted: seq<string>)
    ensures Sum(f, Insert(id, sorted)) == f(id) + Sum(f, sorted) && |Insert(id, sorted)| == |sorted| + 1
  {
    hide Less;
    if sorted == [] || Less(id, sorted[0]) {
      assert ([id] + sorted)[1..] == sorted;
    } else {
      SumInsert(f, id, sorted[1..]);
      assert ([sorted[0]] + Insert(id, sorted[1..]))[1..] == Insert(id, sorted[1..]);
    }
  }

  /** Sorting identifiers keeps every sum over them. */
  lemma {:induction false} SumSort(f: string -> real, ids: seq<string>)
    ensures Sum(f, Sort(ids)) == Sum(f, ids) && |Sort(ids)| == |ids|
  {
    if ids != [] {
      SumSort(f, ids[1..]);
      SumInsert(f, ids[0], Sort(ids[1..]));
    }
  }

  /** The two totals of the results, as sums over their identifiers. */
  lemma {:induction false} ResultSums(criteria: seq<CriterionResult>, ids: seq<string>, weight: string -> real,
                                      met: string -> real)
    requires |criteria| == |ids|
    requires forall i :: 0 <= i < |ids| ==> criteria[i].weight == weight(ids[i])
    requires forall i :: 0 <= i < |ids| ==> met(ids[i]) == if criteria[i].passed then criteria[i].weight else 0.0
    ensures Possible(criteria) == Sum(weight, ids) && Earned(criteria) == Sum(met, ids)
  {
    if ids != [] {
      var n := |ids| - 1;
      ResultSums(criteria[..n], ids[..n], weight, met);
      assert ids == ids[..n] + [ids[n]];
      SumNext(weight, ids[..n], ids[n]);
      SumNext(met, ids[..n], ids[n]);
    }
  }

  lemma {:induction false} DeclaredSums(expected: seq<Expected>, evidence: seq<Evidence>, valid: bool,
                                        weight: string -> real, met: string -> real)
    requires forall e :: e in expected ==> weight(e.id) == e.weight
    requires forall e :: e in expected ==> met(e.id) == if valid && Met(evidence, e.id) then e.weight else 0.0
    ensures Sum(weight, ExpectedIds(expected)) == DeclaredWeight(expected)
    ensures Sum(met, ExpectedIds(expected)) == if valid then MetWeight(expected, evidence) else 0.0
  {
    hide Met;
    if expected != [] {
      assert ExpectedIds(expected)[1..] == ExpectedIds(expected[1..]);
      DeclaredSums(expected[1..], evidence, valid, weight, met);
    }
  }

  /** The grade of admissible evidence weighs exactly what was declared and met. */
  lemma GradeWeighed(expected: seq<Expected>, evidence: seq<Evidence>, signals: Signals)
    requires Positive(expected) && Evaluate(expected, evidence, signals).Ok?
    ensures Weighed(Evaluate(expected, evidence, signals).value, expected, evidence, signals)
  {
    hide Less, Sort, Met, Round2, FindEvidence, FindExpected, Results, Admissible, Sum, StatusFor, Hundredths;
    var valid := !signals.tampered && !signals.broken;
    var ids := Sort(ExpectedIds(expected));
    GradeSums(expected, evidence, valid);
    ResultWeights(expected, evidence, valid);
    var criteria := Results(ids, expected, evidence, valid);
    var percent := Percent(Earned(criteria), Possible(criteria));
    PercentIs(Earned(criteria), Possible(criteria));
    RoundingFacts(percent, percent);
    RoundingExact(percent, Round2(percent));
  }

  lemma PercentIs(earned: real, possible: real)
    requires possible > 0.0
    ensures Percent(earned, possible) == 100.0 * earned / possible
  {
  }

  lemma GradeSums(expected: seq<Expected>, evidence: seq<Evidence>, valid: bool)
    requires Declared(expected) && Positive(expected) && Admissible(expected, evidence)
    ensures forall id :: id in Sort(ExpectedIds(expected)) ==> FindExpected(expected, id).Some?
    ensures var criteria := Results(Sort(ExpectedIds(expected)), expected, evidence, valid);
            && Possible(criteria) == DeclaredWeight(expected)
            && Earned(criteria) == if valid then MetWeight(expected, evidence) else 0.0
  {
    hide Less, Sort, Met, FindEvidence, Admissible, Sum, Possible, Earned;
    var ids := Sort(ExpectedIds(expected));
    SortedIdsFound(expected);
    AdmittedDistinct(expected, evidence);
    var criteria := Results(ids, expected, evidence, valid);
    var found := (id: string) => FindExpected(expected, id);
    var weight := (id: string) => if found(id).Some? then found(id).value.weight else 0.0;
    ghost var met := (id: string) => if valid && Met(evidence, id) then weight(id) else 0.0;
    forall i | 0 <= i < |ids|
      ensures criteria[i].weight == weight(ids[i])
      ensures met(ids[i]) == if criteria[i].passed then criteria[i].weight else 0.0
    {
      ResultPassed(expected, evidence, valid, i);
    }
    ResultSums(criteria, ids, weight, met);
    SumSort(weight, ExpectedIds(expected));
    SumSort(met, ExpectedIds(expected));
    forall e | e in expected ensures weight(e.id) == e.weight {
      DeclaredFound(expected, e);
    }
    DeclaredSums(expected, evidence, valid, weight, met);
  }

  lemma DeclaredFound(expected: seq<Expected>, e: Expected)
    requires NoDuplicates(ExpectedIds(expected)) && e in expected
    ensures FindExpected(expected, e.id) == Some(e)
  {
    FindExpectedExact(expected, e.id);
    var k :| 0 <= k < |expected| && expected[k] == e;
    assert ExpectedIds(expected)[k] == e.id;
    SameExpected(expected, e, FindExpected(expected, e.id).value);
  }

  /** One line per declared criterion, in the order of the identifiers, with what was seen of it. */
  ghost predicate Listed(g: Grade, expected: seq<Expected>, evidence: seq<Evidence>, signals: Signals) {
    && |g.criteria| == g.denominator == |expected| && g.evidenceCount == |evidence| && g.signals == signals
    && (forall i, j :: 0 <= i < j < |g.criteria| ==> Less(g.criteria[i].id, g.criteria[j].id))
    && (forall c :: c in g.criteria ==>
          && Expected(c.id, c.title, c.weight) in expected
          && (c.passed <==> Met(evidence, c.id) && !signals.tampered && !signals.broken)
          && (c.present <==> c.id in EvidenceIds(evidence))
          && (!c.present ==> c.source.None? && c.detail == "missing evidence"))
    && (forall c, v :: c in g.criteria && v in evidence && v.id == c.id ==>
          c.source == Some(v.source) && c.detail == v.detail)
  }

  lemma GradeListed(expected: seq<Expected>, evidence: seq<Evidence>, signals: Signals)
    requires Positive(expected) && Evaluate(expected, evidence, signals).Ok?
    ensures Listed(Evaluate(expected, evidence, signals).value, expected, evidence, signals)
  {
    hide Less, Sort, Met, Round2, FindEvidence, FindExpected, Admissible, StatusFor, Percent, Possible, Earned;
    var valid := !signals.tampered && !signals.broken;
    var ids := Sort(ExpectedIds(expected));
    SortedIdsFound(expected);
    SortSorted(ExpectedIds(expected));
    SumSort(id => 0.0, ExpectedIds(expected));
    AdmittedDistinct(expected, evidence);
    ResultWeights(expected, evidence, valid);
    var criteria := Results(ids, expected, evidence, valid);
    assert Evaluate(expected, evidence, signals).value.criteria == criteria;
    forall i | 0 <= i < |ids|
      ensures criteria[i].id == ids[i]
      ensures criteria[i].passed <==> valid && Met(evidence, ids[i])
      ensures Expected(ids[i], criteria[i].title, criteria[i].weight) in expected
      ensures criteria[i].present <==> ids[i] in EvidenceIds(evidence)
      ensures !criteria[i].present ==> criteria[i].source.None? && criteria[i].detail == "missing evidence"
      ensures forall v :: v in evidence && v.id == ids[i] ==>
                criteria[i].source == Some(v.source) && criteria[i].detail == v.detail
    {
      ResultPassed(expected, evidence, valid, i);
      FindExpectedExact(expected, ids[i]);
      FindEvidenceExact(evidence, ids[i]);
      forall v | v in evidence && v.id == ids[i] ensures FindEvidence(evidence, ids[i]) == Some(v) {
        EvidenceFound(evidence, v);
      }
    }
  }

  lemma EvidenceFound(evidence: seq<Evidence>, v: Evidence)
    requires NoDuplicates(EvidenceIds(evidence)) && v in evidence
    ensures FindEvidence(evidence, v.id) == Some(v)
  {
    FindEvidenceExact(evidence, v.id);
    var k :| 0 <= k < |evidence| && evidence[k] == v;
    assert EvidenceIds(evidence)[k] == v.id;
    SameEvidence(evidence, v, FindEvidence(evidence, v.id).value);
  }

  lemma CriterionHasId(expected: seq<Expected>, e: Expected) returns (i: nat)
    requires Declared(expected) && e in expected
    ensures i < |Sort(ExpectedIds(expected))| && Sort(ExpectedIds(expected))[i] == e.id
  {
    hide Less, Sort;
    var k :| 0 <= k < |expected| && expected[k] == e;
    assert ExpectedIds(expected)[k] == e.id;
    SortSorted(ExpectedIds(expected));
    assert e.id in Sort(ExpectedIds(expected));
    i :| 0 <= i < |Sort(ExpectedIds(expected))| && Sort(ExpectedIds(expected))[i] == e.id;
  }

  lemma IdHasCriterion(expected: seq<Expected>, i: nat) returns (e: Expected)
    requires Declared(expected) && i < |Sort(ExpectedIds(expected))|
    ensures e in expected && e.id == Sort(ExpectedIds(expected))[i]
  {
    hide Less, Sort;
    SortedIdsFound(expected);
    FindExpectedExact(expected, Sort(ExpectedIds(expected))[i]);
    e := FindExpected(expected, Sort(ExpectedIds(expected))[i]).value;
  }

  /** The passed flags of the results, read off the evidence. */
  lemma AllPassed(expected: seq<Expected>, evidence: seq<Evidence>, valid: bool)
    requires Declared(expected) && Positive(expected) && Admissible(expected, evidence)
    requires forall id :: id in Sort(ExpectedIds(expected)) ==> FindExpected(expected, id).Some?
    ensures var criteria := Results(Sort(ExpectedIds(expected)), expected, evidence, valid);
            && ((forall c :: c in criteria ==> c.passed)
                  <==> valid && forall e :: e in expected ==> Met(evidence, e.id))
            && ((exists c :: c in criteria && c.passed) <==> valid && exists e :: e in expected && Met(evidence, e.id))
  {
    hide Less, Sort, Met, Admissible, Positive, FindExpected, Results;
    AdmittedDistinct(expected, evidence);
    SortedIdsFound(expected);
    var ids := Sort(ExpectedIds(expected));
    var criteria := Results(ids, expected, evidence, valid);
    ResultsLength(ids, expected, evidence, valid);
    forall i | 0 <= i < |criteria|
      ensures criteria[i].passed ==> valid && exists e :: e in expected && Met(evidence, e.id)
      ensures !criteria[i].passed ==> !valid || exists e :: e in expected && !Met(evidence, e.id)
    {
      ResultPassed(expected, evidence, valid, i);
      var e := IdHasCriterion(expected, i);
    }
    forall e | e in expected
      ensures Met(evidence, e.id) && valid ==> exists c :: c in criteria && c.passed
      ensures !Met(evidence, e.id) || !valid ==> exists c :: c in criteria && !c.passed
    {
      var i := CriterionHasId(expected, e);
      ResultPassed(expected, evidence, valid, i);
      assert criteria[i] in criteria;
    }
    assert expected[0] in expected;
  }

  lemma ResultsLength(ids: seq<string>, expected: seq<Expected>, evidence: seq<Evidence>, valid: bool)
    requires forall id :: id in ids ==> FindExpected(expected, id).Some?
    ensures |Results(ids, expected, evidence, valid)| == |ids|
  {
  }

  // ---------------------------------------------------------------------------------------------
  // Permutations

  lemma PermutedExpected(a: seq<Expected>, b: seq<Expected>)
    requires multiset(a) == multiset(b)
    ensures multiset(ExpectedIds(a)) == multiset(ExpectedIds(b))
    ensures Declared(a) ==> Declared(b)
  {
    var name := (e: Expected) => e.id;
    ImagePermutes(a, b, name);
    assert Image(a, name) == ExpectedIds(a) && Image(b, name) == ExpectedIds(b);
    SameMembers(a, b);
    if Declared(a) {
      PermutedNoDuplicates(ExpectedIds(a), ExpectedIds(b));
    }
  }

  lemma PermutedEvidence(expected: seq<Expected>, others: seq<Expected>, a: seq<Evidence>, b: seq<Evidence>)
    requires multiset(a) == multiset(b) && multiset(expected) == multiset(others)
    ensures Admissible(expected, a) ==> Admissible(others, b)
  {
    var name := (v: Evidence) => v.id;
    ImagePermutes(a, b, name);
    assert Image(a, name) == EvidenceIds(a) && Image(b, name) == EvidenceIds(b);
    SameMembers(a, b);
    SameMembers(expected, others);
    if Admissible(expected, a) {
      PermutedNoDuplicates(EvidenceIds(a), EvidenceIds(b));
    }
  }

  lemma PermutedFinds(expected: seq<Expected>, others: seq<Expected>, a: seq<Evidence>, b: seq<Evidence>, id: string)
    requires multiset(a) == multiset(b) && multiset(expected) == multiset(others)
    requires NoDuplicates(ExpectedIds(expected)) && NoDuplicates(EvidenceIds(a))
    ensures FindExpected(expected, id) == FindExpected(others, id)
    ensures FindEvidence(a, id) == FindEvidence(b, id)
  {
    SameMembers(expected, others);
    SameMembers(a, b);
    FindExpectedExact(expected, id);
    FindExpectedExact(others, id);
    FindEvidenceExact(a, id);
    FindEvidenceExact(b, id);
    PermutedExpected(expected, others);
    PermutedIds(expected, others, a, b);
    if FindExpected(expected, id).Some? {
      SameExpected(expected, FindExpected(expected, id).value, FindExpected(others, id).value);
    }
    if FindEvidence(a, id).Some? {
      SameEvidence(a, FindEvidence(a, id).value, FindEvidence(b, id).value);
    }
  }

  lemma PermutedIds(expected: seq<Expected>, others: seq<Expected>, a: seq<Evidence>, b: seq<Evidence>)
    requires multiset(a) == multiset(b) && multiset(expected) == multiset(others)
    ensures forall id :: id in ExpectedIds(expected) <==> id in ExpectedIds(others)
    ensures forall id :: id in EvidenceIds(a) <==> id in EvidenceIds(b)
  {
    PermutedExpected(expected, others);
    SameMembers(ExpectedIds(expected), ExpectedIds(others));
    var name := (v: Evidence) => v.id;
    ImagePermutes(a, b, name);
    assert Image(a, name) == EvidenceIds(a) && Image(b, name) == EvidenceIds(b);
    SameMembers(EvidenceIds(a), EvidenceIds(b));
  }

  /** The grade does not depend on the order in which criteria and evidence are supplied. */
  lemma EvaluatePermuted(expected: seq<Expected>, others: seq<Expected>, a: seq<Evidence>, b: seq<Evidence>,
                         signals: Signals)
    requires Positive(expected) && Positive(others)
    requires multiset(expected) == multiset(others) && multiset(a) == multiset(b)
    ensures Evaluate(expected, a, signals) == Evaluate(others, b, signals)
  {
    hide Less, Sort, Admissible, Declared, Percent, Round2, StatusFor, Positive, Earned, Possible, FindExpected,
      FindEvidence;
    PermutedExpected(expected, others);
    PermutedExpected(others, expected);
    PermutedEvidence(expected, others, a, b);
    PermutedEvidence(others, expected, b, a);
    if Declared(expected) && Admissible(expected, a) {
      AdmittedDistinct(expected, a);
      SortedTheSame(expected, others);
      SortedIdsFound(expected);
      SortedIdsFound(others);
      DeclaredDistinct(expected);
      var ids, valid := Sort(ExpectedIds(expected)), !signals.tampered && !signals.broken;
      forall id | id in ids
        ensures FindExpected(expected, id) == FindExpected(others, id) && FindEvidence(a, id) == FindEvidence(b, id)
      {
        PermutedFinds(expected, others, a, b, id);
      }
      assert Results(ids, expected, a, valid) == Results(ids, others, b, valid);
      SameMembers(a, b);
    }
  }

  lemma DeclaredDistinct(expected: seq<Expected>)
    requires Declared(expected)
    ensures NoDuplicates(ExpectedIds(expected))
  {
  }

  lemma SortedTheSame(a: seq<Expected>, b: seq<Expected>)
    requires Declared(a) && multiset(a) == multiset(b)
    ensures Sort(ExpectedIds(a)) == Sort(ExpectedIds(b))
  {
    hide Less, Sort;
    PermutedExpected(a, b);
    SortSorted(ExpectedIds(a));
    SortSorted(ExpectedIds(b));
    SameMembers(ExpectedIds(a), ExpectedIds(b));
    AscendingUnique(Sort(ExpectedIds(a)), Sort(ExpectedIds(b)));
  }

  // ---------------------------------------------------------------------------------------------
  // Trusted evidence only, and more of it

  /** The evidence with the verdict of every guest-only piece replaced. */
  function WithGuestVerdicts(evidence: seq<Evidence>, verdict: string -> bool): seq<Evidence> {
    seq(|evidence|, i requires 0 <= i < |evidence| =>
      if evidence[i].source.Guest? then evidence[i].(passed := verdict(evidence[i].id)) else evidence[i])
  }

  lemma {:induction false} GuestVerdictFind(evidence: seq<Evidence>, verdict: string -> bool, id: string)
    ensures var f, g := FindEvidence(evidence, id), FindEvidence(WithGuestVerdicts(evidence, verdict), id);
            if f.Some? && f.value.source.Guest? then g == Some(f.value.(passed := verdict(id))) else g == f
  {
    if evidence != [] {
      GuestVerdictFind(evidence[1..], verdict, id);
      assert WithGuestVerdicts(evidence, verdict)[1..] == WithGuestVerdicts(evidence[1..], verdict);
    }
  }

  /** What a guest says about its own success changes nothing in the grade. */
  lemma GuestVerdictsIgnored(expected: seq<Expected>, evidence: seq<Evidence>, signals: Signals,
                             verdict: string -> bool)
    requires Positive(expected)
    ensures Evaluate(expected, WithGuestVerdicts(evidence, verdict), signals) == Evaluate(expected, evidence, signals)
  {
    hide Less, Sort, Percent, Round2, StatusFor, Positive, Earned, Possible, FindExpected, FindEvidence;
    var others := WithGuestVerdicts(evidence, verdict);
    GuestVerdictsAdmissible(expected, evidence, verdict);
    if Declared(expected) && Admissible(expected, evidence) {
      SortedIdsFound(expected);
      var ids, valid := Sort(ExpectedIds(expected)), !signals.tampered && !signals.broken;
      forall i | 0 <= i < |ids|
        ensures ResultFor(FindExpected(expected, ids[i]).value, FindEvidence(evidence, ids[i]), valid)
             == ResultFor(FindExpected(expected, ids[i]).value, FindEvidence(others, ids[i]), valid)
      {
        GuestVerdictFind(evidence, verdict, ids[i]);
      }
      assert Results(ids, expected, evidence, valid) == Results(ids, expected, others, valid);
    }
  }

  lemma GuestVerdictsAdmissible(expected: seq<Expected>, evidence: seq<Evidence>, verdict: string -> bool)
    ensures Admissible(expected, WithGuestVerdicts(evidence, verdict)) <==> Admissible(expected, evidence)
  {
    hide HasCriterion;
    var others := WithGuestVerdicts(evidence, verdict);
    assert EvidenceIds(others) == EvidenceIds(evidence);
    forall i | 0 <= i < |evidence|
      ensures HasCriterion(expected, evidence[i]) <==> HasCriterion(expected, others[i])
    {
      SameCriterion(expected, evidence[i], others[i]);
    }
    assert forall i :: 0 <= i < |evidence| ==> evidence[i] in evidence && others[i] in others;
  }

  lemma SameCriterion(expected: seq<Expected>, v: Evidence, w: Evidence)
    requires v.id == w.id && v.title == w.title && v.weight == w.weight
    ensures HasCriterion(expected, v) <==> HasCriterion(expected, w)
  {
    assert forall e :: Agrees(e, v) <==> Agrees(e, w);
  }

  lemma {:induction false} EarnedMonotone(few: seq<CriterionResult>, many: seq<CriterionResult>)
    requires |few| == |many|
    requires forall i :: 0 <= i < |few| ==>
               few[i].weight == many[i].weight && few[i].weight > 0.0 && (few[i].passed ==> many[i].passed)
    ensures Earned(few) <= Earned(many) && Possible(few) == Possible(many)
  {
    if few != [] {
      EarnedMonotone(few[..|few| - 1], many[..|many| - 1]);
    }
  }

  function StatusRank(s: GradeStatus): int {
    match s
    case LabTampered => -2
    case LabBroken => -1
    case Fail => 0
    case Partial => 1
    case Pass => 2
  }

  /** Meeting more criteria never lowers what is earned, the score, or the status. */
  lemma GradeMonotone(expected: seq<Expected>, few: seq<Evidence>, many: seq<Evidence>, signals: Signals)
    requires Positive(expected)
    requires Evaluate(expected, few, signals).Ok? && Evaluate(expected, many, signals).Ok?
    requires forall e :: e in expected && Met(few, e.id) ==> Met(many, e.id)
    ensures var g, h := Evaluate(expected, few, signals).value, Evaluate(expected, many, signals).value;
            && g.earned <= h.earned && g.possible == h.possible && g.score <= h.score
            && StatusRank(g.status) <= StatusRank(h.status)
  {
    hide Less, Sort, Round2, Met, Admissible, FindEvidence;
    var ids, valid := Sort(ExpectedIds(expected)), !signals.tampered && !signals.broken;
    SortedIdsFound(expected);
    AdmittedDistinct(expected, few);
    AdmittedDistinct(expected, many);
    ResultWeights(expected, few, valid);
    ResultWeights(expected, many, valid);
    var a, b := Results(ids, expected, few, valid), Results(ids, expected, many, valid);
    forall i | 0 <= i < |ids| ensures a[i].weight == b[i].weight && a[i].weight > 0.0 && (a[i].passed ==> b[i].passed) {
      ResultPassed(expected, few, valid, i);
      ResultPassed(expected, many, valid, i);
      var e := IdHasCriterion(expected, i);
      assert a[i] in a;
    }
    EarnedMonotone(a, b);
    PercentMonotone(Earned(a), Earned(b), Possible(a));
    RoundingFacts(Percent(Earned(a), Possible(a)), Percent(Earned(b), Possible(b)));
  }

  lemma PercentMonotone(x: real, y: real, possible: real)
    requires possible > 0.0 && x <= y
    ensures Percent(x, possible) <= Percent(y, possible)
  {
    assert x / possible <= y / possible;
  }

  lemma PercentBounds(earned: real, possible: real)
    requires 0.0 <= earned <= possible && possible > 0.0
    ensures 0.0 <= Percent(earned, possible) <= 100.0
    ensures Percent(earned, possible) == 100.0 <==> earned == possible
    ensures Percent(earned, possible) == 0.0 <==> earned == 0.0
  {
    assert earned / possible <= 1.0;
    assert earned / possible * possible == earned;
  }

  /**
   * The score is the rounded percentage, from 0 to 100; it reads 100 exactly from 99.995 percent on, so
   * a score of 100 is weaker than passing.
   */
  lemma ScoreExact(expected: seq<Expected>, evidence: seq<Evidence>, signals: Signals)
    requires Positive(expected) && Evaluate(expected, evidence, signals).Ok?
    ensures var g := Evaluate(expected, evidence, signals).value;
            && g.possible > 0.0 && 0.0 <= g.score <= 100.0
            && (g.score == 100.0 <==> 100.0 * g.earned / g.possible >= 99.995)
            && (g.status.Pass? ==> g.score == 100.0)
  {
    hide Less, Sort, Results, Percent;
    var g := Evaluate(expected, evidence, signals).value;
    ResultWeights(expected, evidence, !signals.tampered && !signals.broken);
    PercentBounds(g.earned, g.possible);
    PercentIs(g.earned, g.possible);
    var x := Percent(g.earned, g.possible);
    NearestInteger(0);
    NearestInteger(10000);
    RoundingFacts(0.0, x);
    RoundingFacts(x, 100.0);
    RoundReaches(x, 100);
  }

  const NEARLY_ALL: seq<Expected> := [Expected("a", "A", 20000.0), Expected("b", "B", 1.0)]
  const ONE_MET: seq<Evidence> := [Evidence("a", "A", 20000.0, true, Operator, "")]

  lemma NearlyAllIds()
    ensures ExpectedIds(NEARLY_ALL) == ["a", "b"] && Declared(NEARLY_ALL) && Admissible(NEARLY_ALL, ONE_MET)
    ensures Sort(["a", "b"]) == ["a", "b"]
  {
    assert EvidenceIds(ONE_MET) == ["a"];
    assert NEARLY_ALL[0] in NEARLY_ALL && Agrees(NEARLY_ALL[0], ONE_MET[0]);
    assert ["a", "b"][1..] == ["b"] && ["b"][1..] == [];
    assert Sort(["b"]) == ["b"];
    assert Less("a", "b");
  }

  lemma NearlyAllSums()
    requires forall id :: id in ["a", "b"] ==> FindExpected(NEARLY_ALL, id).Some?
    ensures var criteria := Results(["a", "b"], NEARLY_ALL, ONE_MET, true);
            |criteria| == 2 && Earned(criteria) == 20000.0 && Possible(criteria) == 20001.0
  {
    var criteria := Results(["a", "b"], NEARLY_ALL, ONE_MET, true);
    assert FindExpected(NEARLY_ALL[1..], "b") == Some(NEARLY_ALL[1]);
    assert FindEvidence(ONE_MET[1..], "b") == None;
    assert criteria[..1][..0] == [];
    assert Earned(criteria[..1]) == 20000.0 && Possible(criteria[..1]) == 20000.0;
  }

  /** A concrete task that scores 100.0 without passing: its one unmet criterion weighs too little to show. */
  lemma FullScoreWithoutPass()
    ensures Positive(NEARLY_ALL)
    ensures var r := Evaluate(NEARLY_ALL, ONE_MET, Signals(false, false, ""));
            r.Ok? && r.value.score == 100.0 && r.value.status.Partial?
  {
    hide Sort, Less, FindExpected, FindEvidence, Results, Earned, Possible, Round2;
    NearlyAllIds();
    SortedIdsFound(NEARLY_ALL);
    NearlyAllSums();
    assert Percent(20000.0, 20001.0) >= 99.995;
    ScoreExact(NEARLY_ALL, ONE_MET, Signals(false, false, ""));
  }
}
