/** The prediction store: the ordered list of prediction records, the
    operations that add and evaluate records, and the facts about the IDs
    that a run of additions hands out. */
module Store {
  import opened Records
  import opened Ids
  import opened PendingView
  import opened Stats

  function IdsOf(ps: seq<Prediction>): (ids: seq<string>)
    ensures |ids| == |ps| && forall i :: 0 <= i < |ps| ==> ids[i] == ps[i].id
  {
    seq(|ps|, i requires 0 <= i < |ps| => ps[i].id)
  }

  // ---------------------------------------------------------------------
  // ID generation
  // ---------------------------------------------------------------------

  lemma IndexSetSnoc(ids: seq<string>, prefix: string)
    requires ids != []
    ensures var n := |ids| - 1;
      (set i | 0 <= i < |ids| && prefix <= ids[i])
        == (set i | 0 <= i < n && prefix <= ids[..n][i]) + (if prefix <= ids[n] then {n} else {})
  {
  }

  /** How many of the IDs start with the prefix, counted one ID at a time as
      the comprehension does. */
  function CountWithPrefix(ids: seq<string>, prefix: string): (c: nat)
    ensures c <= |ids|
    decreases |ids|
  {
    if ids == [] then 0
    else CountWithPrefix(ids[..|ids| - 1], prefix) + (if prefix <= ids[|ids| - 1] then 1 else 0)
  }

  /** The count is the number of positions whose ID starts with the prefix. */
  lemma {:induction false} CountWithPrefixIsCardinality(ids: seq<string>, prefix: string)
    ensures CountWithPrefix(ids, prefix) == |set i | 0 <= i < |ids| && prefix <= ids[i]|
    decreases |ids|
  {
    if ids != [] {
      var n := |ids| - 1;
      var before := set i | 0 <= i < n && prefix <= ids[..n][i];
      CountWithPrefixIsCardinality(ids[..n], prefix);
      IndexSetSnoc(ids, prefix);
      assert n !in before;
    }
  }

  lemma CountWithPrefixSnoc(ids: seq<string>, prefix: string, i: nat)
    requires i < |ids|
    ensures CountWithPrefix(ids[..i + 1], prefix)
      == CountWithPrefix(ids[..i], prefix) + (if prefix <= ids[i] then 1 else 0)
  {
    assert ids[..i + 1][..i] == ids[..i];
  }

  lemma {:induction false} CountWithPrefixMonotone(ids: seq<string>, prefix: string, k: nat, m: nat)
    requires k <= m <= |ids|
    ensures CountWithPrefix(ids[..k], prefix) <= CountWithPrefix(ids[..m], prefix)
    decreases m - k
  {
    if k < m {
      CountWithPrefixMonotone(ids, prefix, k, m - 1);
      CountWithPrefixSnoc(ids, prefix, m - 1);
    }
  }

  lemma {:induction false} CountWithPrefixAll(ids: seq<string>, prefix: string)
    requires forall i :: 0 <= i < |ids| ==> prefix <= ids[i]
    ensures CountWithPrefix(ids, prefix) == |ids|
    decreases |ids|
  {
    if ids != [] {
      CountWithPrefixAll(ids[..|ids| - 1], prefix);
    }
  }

  /** The ID a new record gets: _generate_id over the current IDs. */
  function GenerateId(ids: seq<string>, year: nat): (id: string)
  {
    FormatId(year, CountWithPrefix(ids, YearPrefix(year)) + 1)
  }

  /** The new ID carries one more than the number of existing IDs that start
      with "PRED-<year>", as "PRED-<year>-NNN". */
  lemma GenerateIdNumber(ids: seq<string>, year: nat)
    ensures GenerateId(ids, year) == FormatId(year, 1 + |set i | 0 <= i < |ids| && YearPrefix(year) <= ids[i]|)
  {
    CountWithPrefixIsCardinality(ids, YearPrefix(year));
  }

  /** The number is derived from the current IDs, not from a counter: once a
      record has been removed from the file by hand, the next ID can repeat a
      surviving one. With only "PRED-<year>-002" left, the next ID is
      "PRED-<year>-002" again. */
  lemma RemovedRecordGivesDuplicate(year: nat)
    ensures GenerateId([FormatId(year, 2)], year) == FormatId(year, 2)
  {
    FormatIdPrefix(year, 2);
    CountWithPrefixAll([FormatId(year, 2)], YearPrefix(year));
  }

  // ---------------------------------------------------------------------
  // Adding a record
  // ---------------------------------------------------------------------

  /** The arguments of one add_prediction call, with the clock read as the
      year and the day of the call. */
  datatype AddRequest = AddRequest(
    year: nat,
    today: Date,
    statement: string,
    domain: string,
    confidence: int,
    dueDays: int,
    verification: string,
    falsification: string,
    sources: Option<seq<string>>)

  /** `sources or []`: a missing list becomes the empty list. */
  function SourcesOrEmpty(sources: Option<seq<string>>): seq<string>
  {
    match sources
    case None => []
    case Some(s) => s
  }

  /** The list after one add: one record longer, every earlier record kept in
      place, and the new last record pending, unevaluated, with the generated
      ID, the due date `dueDays` after today and the caller's fields. */
  function Added(ps: seq<Prediction>, req: AddRequest): (r: seq<Prediction>)
    ensures |r| == |ps| + 1
    ensures r[..|ps|] == ps
    ensures r[|ps|].id == GenerateId(IdsOf(ps), req.year)
    ensures r[|ps|].outcome == Pending
    ensures r[|ps|].evaluatedDate == None && r[|ps|].outcomeNotes == None
    ensures req.sources.None? ==> r[|ps|].sources == []
    ensures req.sources.Some? ==> r[|ps|].sources == req.sources.value
    ensures r[|ps|].createdDate == req.today && r[|ps|].dueDate == req.today + req.dueDays
    ensures r[|ps|].statement == req.statement && r[|ps|].domain == req.domain
    ensures r[|ps|].confidence == req.confidence
    ensures r[|ps|].verification == req.verification && r[|ps|].falsification == req.falsification
  {
    var id := GenerateId(IdsOf(ps), req.year);
    var record := Prediction(id, req.statement, req.domain, req.confidence,
                             req.today, req.today + req.dueDays,
                             req.verification, req.falsification,
                             SourcesOrEmpty(req.sources), Pending, None, None);
    assert (ps + [record])[..|ps|] == ps;
    ps + [record]
  }

  /** The list after a run of adds, one request after another. */
  function Replay(ps: seq<Prediction>, reqs: seq<AddRequest>): (r: seq<Prediction>)
    ensures |r| == |ps| + |reqs|
    decreases |reqs|
  {
    if reqs == [] then ps else Added(Replay(ps, reqs[..|reqs| - 1]), reqs[|reqs| - 1])
  }

  /** Starting from an empty store, n adds in one year hand out
      PRED-<year>-001, PRED-<year>-002, ..., PRED-<year>-n in order, with no
      gap and no repeat. */
  lemma {:induction false} SequentialIds(reqs: seq<AddRequest>, year: nat)
    requires forall i :: 0 <= i < |reqs| ==> reqs[i].year == year
    ensures forall i :: 0 <= i < |reqs| ==> Replay([], reqs)[i].id == FormatId(year, i + 1)
    decreases |reqs|
  {
    if reqs != [] {
      var init, last := reqs[..|reqs| - 1], reqs[|reqs| - 1];
      var before := Replay([], init);
      SequentialIds(init, year);
      NextNumberedId(before, last, year);
    }
  }

  /** After IDs numbered 1..n in one year, the next ID of that year is n+1. */
  lemma NextAfterNumbered(ids: seq<string>, year: nat)
    requires forall i :: 0 <= i < |ids| ==> ids[i] == FormatId(year, i + 1)
    ensures GenerateId(ids, year) == FormatId(year, |ids| + 1)
  {
    forall i | 0 <= i < |ids|
      ensures YearPrefix(year) <= ids[i]
    {
      FormatIdPrefix(year, i + 1);
    }
    CountWithPrefixAll(ids, YearPrefix(year));
  }

  /** Adding keeps every earlier record where it was. */
  lemma AddedKeepsPrefix(ps: seq<Prediction>, req: AddRequest)
    ensures forall i :: 0 <= i < |ps| ==> Added(ps, req)[i] == ps[i]
  {
    var r := Added(ps, req);
    forall i | 0 <= i < |ps|
      ensures r[i] == ps[i]
    {
      assert r[i] == r[..|ps|][i];
    }
  }

  /** Adding to a list numbered 1..n of one year numbers the new record n+1. */
  lemma NextNumberedId(ps: seq<Prediction>, req: AddRequest, year: nat)
    requires forall i :: 0 <= i < |ps| ==> ps[i].id == FormatId(year, i + 1)
    requires req.year == year
    ensures var r := Added(ps, req);
      forall i :: 0 <= i < |r| ==> r[i].id == FormatId(year, i + 1)
  {
    NextAfterNumbered(IdsOf(ps), year);
    AddedKeepsPrefix(ps, req);
  }

  /** The same run never repeats an ID. */
  lemma SequentialIdsDistinct(reqs: seq<AddRequest>, year: nat)
    requires forall i :: 0 <= i < |reqs| ==> reqs[i].year == year
    ensures forall i, j :: 0 <= i < j < |reqs| ==> Replay([], reqs)[i].id != Replay([], reqs)[j].id
  {
    SequentialIds(reqs, year);
    NumberedIdsDistinct(Replay([], reqs), year);
  }

  lemma NumberedIdsDistinct(ps: seq<Prediction>, year: nat)
    requires forall i :: 0 <= i < |ps| ==> ps[i].id == FormatId(year, i + 1)
    ensures forall i, j :: 0 <= i < j < |ps| ==> ps[i].id != ps[j].id
  {
    forall i, j | 0 <= i < j < |ps|
      ensures ps[i].id != ps[j].id
    {
      if ps[i].id == ps[j].id {
        FormatIdInjective(year, i + 1, year, j + 1);
      }
    }
  }

  /** Every ID was generated, in the given year, from the IDs before it. */
  ghost predicate Generated(ids: seq<string>, years: seq<nat>)
  {
    |ids| == |years| && forall i :: 0 <= i < |ids| ==> ids[i] == GenerateId(ids[..i], years[i])
  }

  function YearsOf(reqs: seq<AddRequest>): seq<nat>
  {
    seq(|reqs|, i requires 0 <= i < |reqs| => reqs[i].year)
  }

  /** An add appends the generated ID to the list of IDs. */
  lemma AddedIds(ps: seq<Prediction>, req: AddRequest)
    ensures IdsOf(Added(ps, req)) == IdsOf(ps) + [GenerateId(IdsOf(ps), req.year)]
  {
    AddedKeepsPrefix(ps, req);
  }

  /** Appending a generated ID to a list of generated IDs keeps it one. */
  lemma GeneratedSnoc(ids: seq<string>, years: seq<nat>, year: nat)
    requires Generated(ids, years)
    ensures Generated(ids + [GenerateId(ids, year)], years + [year])
  {
    var next := ids + [GenerateId(ids, year)];
    assert next[..|ids|] == ids;
    forall i | 0 <= i < |next|
      ensures next[i] == GenerateId(next[..i], (years + [year])[i])
    {
      if i < |ids| {
        assert next[..i] == ids[..i];
      }
    }
  }

  lemma YearsOfSnoc(reqs: seq<AddRequest>)
    requires reqs != []
    ensures YearsOf(reqs) == YearsOf(reqs[..|reqs| - 1]) + [reqs[|reqs| - 1].year]
  {
  }

  /** A store built by adds alone, in any years, holds generated IDs only. */
  lemma {:induction false} ReplayGenerated(reqs: seq<AddRequest>)
    ensures Generated(IdsOf(Replay([], reqs)), YearsOf(reqs))
    decreases |reqs|
  {
    if reqs != [] {
      var init, last := reqs[..|reqs| - 1], reqs[|reqs| - 1];
      var before := Replay([], init);
      ReplayGenerated(init);
      AddedIds(before, last);
      YearsOfSnoc(reqs);
      GeneratedSnoc(IdsOf(before), YearsOf(init), last.year);
    }
  }

  /** Once an ID of a year is at position i, every ID generated for that
      year after position i has a higher number. */
  lemma LaterNumberHigher(ids: seq<string>, i: nat, j: nat, y: nat, ci: nat, cj: nat)
    requires i < j <= |ids|
    requires ids[i] == FormatId(y, ci + 1)
    requires ci == CountWithPrefix(ids[..i], YearPrefix(y))
    requires cj == CountWithPrefix(ids[..j], YearPrefix(y))
    ensures ci < cj
  {
    FormatIdPrefix(y, ci + 1);
    CountWithPrefixSnoc(ids, YearPrefix(y), i);
    CountWithPrefixMonotone(ids, YearPrefix(y), i + 1, j);
  }

  /** Of two generated IDs, the later one has a higher number than any
      earlier one of the same year, so the two differ. */
  lemma GeneratedPairDistinct(ids: seq<string>, years: seq<nat>, i: nat, j: nat)
    requires i < j < |ids| == |years|
    requires ids[i] == GenerateId(ids[..i], years[i])
    requires ids[j] == GenerateId(ids[..j], years[j])
    ensures ids[i] != ids[j]
  {
    var yi, yj := years[i], years[j];
    var ci := CountWithPrefix(ids[..i], YearPrefix(yi));
    var cj := CountWithPrefix(ids[..j], YearPrefix(yj));
    if yi == yj {
      LaterNumberHigher(ids, i, j, yi, ci, cj);
    }
    FormatIdDistinct(yi, ci + 1, yj, cj + 1);
  }

  /** Generated IDs are pairwise distinct. */
  lemma GeneratedDistinct(ids: seq<string>, years: seq<nat>)
    requires Generated(ids, years)
    ensures forall i, j :: 0 <= i < j < |ids| ==> ids[i] != ids[j]
  {
    forall i, j | 0 <= i < j < |ids|
      ensures ids[i] != ids[j]
    {
      GeneratedPairDistinct(ids, years, i, j);
    }
  }

  /** Whatever years the adds happen in, a store built by adds alone never
      holds two records with the same ID. */
  lemma AddsGiveDistinctIds(reqs: seq<AddRequest>)
    ensures var r := Replay([], reqs);
      forall i, j :: 0 <= i < j < |r| ==> r[i].id != r[j].id
  {
    var r := Replay([], reqs);
    ReplayGenerated(reqs);
    GeneratedDistinct(IdsOf(r), YearsOf(reqs));
  }

  // ---------------------------------------------------------------------
  // Evaluating a record
  // ---------------------------------------------------------------------

  /** The position of the first record with the ID, if there is one. */
  function FirstIndex(ps: seq<Prediction>, id: string): (r: Option<nat>)
    ensures r.None? <==> forall i :: 0 <= i < |ps| ==> ps[i].id != id
    ensures r.Some? ==> r.value < |ps| && ps[r.value].id == id
    ensures r.Some? ==> forall j :: 0 <= j < r.value ==> ps[j].id != id
    decreases |ps|
  {
    if ps == [] then None
    else if ps[0].id == id then Some(0)
    else
      match FirstIndex(ps[1..], id)
      case None => None
      case Some(k) => Some(k + 1)
  }

  /** Only the ID decides where the first match is. */
  lemma {:induction false} FirstIndexByIds(a: seq<Prediction>, b: seq<Prediction>, id: string)
    requires IdsOf(a) == IdsOf(b)
    ensures FirstIndex(a, id) == FirstIndex(b, id)
    decreases |a|
  {
    if a != [] {
      assert a[0].id == IdsOf(a)[0] == IdsOf(b)[0] == b[0].id;
      if a[0].id != id {
        IdsOfTail(a);
        IdsOfTail(b);
        FirstIndexByIds(a[1..], b[1..], id);
      }
    }
  }

  lemma IdsOfTail(ps: seq<Prediction>)
    requires ps != []
    ensures IdsOf(ps[1..]) == IdsOf(ps)[1..]
  {
  }

  /** The two records agree on every field that evaluation leaves alone. */
  predicate SameBesidesEvaluation(p: Prediction, q: Prediction)
  {
    && p.id == q.id && p.statement == q.statement && p.domain == q.domain
    && p.confidence == q.confidence && p.createdDate == q.createdDate
    && p.dueDate == q.dueDate && p.verification == q.verification
    && p.falsification == q.falsification && p.sources == q.sources
  }

  /** The list after evaluate_prediction: unchanged when no record has the
      ID; otherwise only the first record with it changes, and in it only the
      outcome, the evaluation date and the notes. */
  function Evaluated(ps: seq<Prediction>, id: string, outcome: Outcome, notes: Option<string>, today: Date): (r: seq<Prediction>)
    ensures |r| == |ps|
    ensures FirstIndex(ps, id).None? ==> r == ps
    ensures FirstIndex(ps, id).Some? ==>
      var k := FirstIndex(ps, id).value;
      && r[k].outcome == outcome && r[k].evaluatedDate == Some(today) && r[k].outcomeNotes == notes
      && SameBesidesEvaluation(r[k], ps[k])
      && forall j :: 0 <= j < |ps| && j != k ==> r[j] == ps[j]
    ensures IdsOf(r) == IdsOf(ps)
  {
    match FirstIndex(ps, id)
    case None => ps
    case Some(k) =>
      var r := ps[k := ps[k].(outcome := outcome, evaluatedDate := Some(today), outcomeNotes := notes)];
      assert IdsOf(r) == IdsOf(ps);
      r
  }

  /** Nothing stops a second evaluation: it overwrites the first one. */
  lemma ReevaluationOverwrites(ps: seq<Prediction>, id: string,
                               o1: Outcome, n1: Option<string>, t1: Date,
                               o2: Outcome, n2: Option<string>, t2: Date)
    ensures Evaluated(Evaluated(ps, id, o1, n1, t1), id, o2, n2, t2) == Evaluated(ps, id, o2, n2, t2)
  {
    var once := Evaluated(ps, id, o1, n1, t1);
    FirstIndexByIds(once, ps, id);
  }

  /** Evaluating a pending record as anything else moves it from the pending
      count to the evaluated count; the total stays. */
  lemma EvaluationMovesRecord(ps: seq<Prediction>, id: string, outcome: Outcome, notes: Option<string>, today: Date)
    requires FirstIndex(ps, id).Some? && ps[FirstIndex(ps, id).value].outcome == Pending
    requires outcome != Pending
    ensures var r := Evaluated(ps, id, outcome, notes, today);
      && |Filter(r, IsPending)| + 1 == |Filter(ps, IsPending)|
      && |Filter(r, IsEvaluated)| == |Filter(ps, IsEvaluated)| + 1
      && |r| == |ps|
  {
    var r := Evaluated(ps, id, outcome, notes, today);
    var k := FirstIndex(ps, id).value;
    assert r == ps[k := r[k]];
    FilterUpdate(ps, k, r[k], IsPending);
    FilterUpdate(ps, k, r[k], IsEvaluated);
  }

  // ---------------------------------------------------------------------
  // Runs of adds and evaluations
  // ---------------------------------------------------------------------

  /** One call that changes the list: an add_prediction or an
      evaluate_prediction, with the clock read as parameters. */
  datatype Step =
    | Add(req: AddRequest)
    | Eval(id: string, outcome: Outcome, notes: Option<string>, today: Date)

  /** The list after one step. */
  function Apply(ps: seq<Prediction>, step: Step): seq<Prediction>
  {
    match step
    case Add(req) => Added(ps, req)
    case Eval(id, outcome, notes, today) => Evaluated(ps, id, outcome, notes, today)
  }

  /** The list after a run of steps, one after another. */
  function Run(ps: seq<Prediction>, steps: seq<Step>): seq<Prediction>
    decreases |steps|
  {
    if steps == [] then ps else Apply(Run(ps, steps[..|steps| - 1]), steps[|steps| - 1])
  }

  /** The years of the adds of a run, in order. */
  function AddYears(steps: seq<Step>): seq<nat>
    decreases |steps|
  {
    if steps == [] then []
    else
      var last := steps[|steps| - 1];
      AddYears(steps[..|steps| - 1]) + (if last.Add? then [last.req.year] else [])
  }

  /** A store built from empty by any run of adds and evaluations holds
      generated IDs only: an evaluation never changes an ID. */
  lemma {:induction false} RunGenerated(steps: seq<Step>)
    ensures Generated(IdsOf(Run([], steps)), AddYears(steps))
    decreases |steps|
  {
    if steps != [] {
      var init, last := steps[..|steps| - 1], steps[|steps| - 1];
      var before := Run([], init);
      RunGenerated(init);
      match last
      case Add(req) =>
        AddedIds(before, req);
        GeneratedSnoc(IdsOf(before), AddYears(init), req.year);
      case Eval(id, outcome, notes, today) =>
        assert IdsOf(Run([], steps)) == IdsOf(before);
    }
  }

  /** As long as no record is removed, whatever is added or evaluated, in
      whatever years, the store never holds two records with the same ID. */
  lemma HistoryDistinct(steps: seq<Step>)
    ensures var r := Run([], steps);
      forall i, j :: 0 <= i < j < |r| ==> r[i].id != r[j].id
  {
    var r := Run([], steps);
    RunGenerated(steps);
    GeneratedDistinct(IdsOf(r), AddYears(steps));
  }

  // ---------------------------------------------------------------------
  // The store
  // ---------------------------------------------------------------------

  /** The in-memory store: the records in file order. */
  class PredictionSync {
    var predictions: seq<Prediction>

    /** The store as loaded: `loaded` is the parsed JSON array, or [] when
        there is no file yet. */
    constructor (loaded: seq<Prediction>)
      ensures predictions == loaded
    {
      predictions := loaded;
    }

    /** add_prediction: appends a pending record under a newly generated ID
        and returns that ID. */
    method AddPrediction(year: nat, today: Date, statement: string, domain: string,
                         confidence: int, dueDays: int, verification: string,
                         falsification: string, sources: Option<seq<string>>)
      returns (id: string)
      modifies this
      ensures predictions == Added(old(predictions),
        AddRequest(year, today, statement, domain, confidence, dueDays, verification, falsification, sources))
      ensures id == GenerateId(IdsOf(old(predictions)), year)
      ensures id == predictions[|predictions| - 1].id
    {
      id := GenerateId(IdsOf(predictions), year);
      var created := today;
      var due := today + dueDays;
      var record := Prediction(id, statement, domain, confidence, created, due,
                               verification, falsification, SourcesOrEmpty(sources),
                               Pending, None, None);
      predictions := predictions + [record];
    }

    /** evaluate_prediction: finds the first record with the ID and sets its
        outcome, evaluation date and notes; reports whether there was one. */
    method EvaluatePrediction(id: string, outcome: string, notes: Option<string>, today: Date)
      returns (found: bool)
      modifies this
      ensures found <==> exists i :: 0 <= i < |old(predictions)| && old(predictions)[i].id == id
      ensures predictions == Evaluated(old(predictions), id, ParseOutcome(outcome), notes, today)
      ensures !found ==> predictions == old(predictions)
    {
      var i := 0;
      while i < |predictions|
        invariant 0 <= i <= |predictions|
        invariant predictions == old(predictions)
        invariant forall j :: 0 <= j < i ==> predictions[j].id != id
      {
        if predictions[i].id == id {
          var p := predictions[i];
          predictions := predictions[i := p.(outcome := ParseOutcome(outcome),
                                             evaluatedDate := Some(today),
                                             outcomeNotes := notes)];
          return true;
        }
        i := i + 1;
      }
      return false;
    }

    /** list_pending: the pending records by due date, each with the tag its
        days-left count gives. `daysLeft` maps a due date to the whole days
        left until it. */
    method ListPending(daysLeft: Date -> int) returns (entries: seq<Entry>)
      ensures |entries| == |PendingByDue(predictions)|
      ensures forall i :: 0 <= i < |entries| ==> entries[i].record == PendingByDue(predictions)[i]
      ensures forall i :: 0 <= i < |entries| ==>
        entries[i].urgency == Classify(daysLeft(entries[i].record.dueDate))
      ensures Monotone(daysLeft) ==>
        forall i, j :: 0 <= i < j < |entries| ==> Rank(entries[i].urgency) <= Rank(entries[j].urgency)
    {
      var pending := PendingByDue(predictions);
      entries := [];
      for i := 0 to |pending|
        invariant |entries| == i
        invariant forall k :: 0 <= k < i ==> entries[k].record == pending[k]
        invariant forall k :: 0 <= k < i ==> entries[k].urgency == Classify(daysLeft(pending[k].dueDate))
      {
        var p := pending[i];
        var status := Classify(daysLeft(p.dueDate));
        entries := entries + [Entry(p, status)];
      }
      if Monotone(daysLeft) {
        ListingUrgencyOrdered(entries, daysLeft);
      }
    }

    /** show_stats: the counts by outcome, the accuracy and the Brier score. */
    method ShowStats() returns (s: Summary)
      ensures s.total == |predictions|
      ensures s.evaluated == |Filter(predictions, IsEvaluated)|
      ensures s.correct == |Filter(predictions, IsCorrect)|
      ensures s.incorrect == |Filter(predictions, IsIncorrect)|
      ensures s.pending == |Filter(predictions, IsPending)|
      ensures s.evaluated + s.pending == s.total
      ensures s.correct + s.incorrect <= s.evaluated
      ensures s.accuracy == Accuracy(s.correct, s.evaluated) && 0.0 <= s.accuracy <= 100.0
      ensures s.brier == Brier(predictions)
      ensures s.evaluated == 0 ==> s.accuracy == 0.0 && s.brier == 0.0
      ensures (forall p :: p in predictions ==> ConfidenceInRange(p)) ==> 0.0 <= s.brier <= 1.0
    {
      var evaluated := Filter(predictions, IsEvaluated);

      // The Brier loop comes first here so that its proof does not carry
      // the other comprehensions; all of them are side-effect free.
      var brier := 0.0;
      if |evaluated| > 0 {
        var i := 0;
        while i < |evaluated|
          invariant 0 <= i <= |evaluated|
          invariant brier == ErrorSum(evaluated[..i])
        {
          var p := evaluated[i];
          var outcomeValue := if p.outcome == Correct then 1.0 else 0.0;
          var conf := p.confidence as real / 100.0;
          ghost var before := brier;
          brier := brier + (conf - outcomeValue) * (conf - outcomeValue);
          SquaredErrorStep(p, conf, outcomeValue);
          ErrorSumSnoc(evaluated, i);
          assert brier == before + SquaredError(p);
          i := i + 1;
        }
        assert evaluated[..i] == evaluated;
        brier := brier / |evaluated| as real;
      }

      var total := |predictions|;
      var correct := Filter(predictions, IsCorrect);
      var incorrect := Filter(predictions, IsIncorrect);
      var pending := Filter(predictions, IsPending);
      EvaluatedPendingPartition(predictions);
      CorrectIncorrectWithinEvaluated(predictions);
      var accuracy := if |evaluated| > 0 then |correct| as real / |evaluated| as real * 100.0 else 0.0;
      s := Summary(total, |evaluated|, |correct|, |incorrect|, |pending|, accuracy, brier);
    }
  }
}
