/** The prediction record kept by the store, its outcome, and the list
    comprehensions that every view of the store is built from. */
module Records {

  datatype Option<+T> = None | Some(value: T)

  /** A calendar day, as a day number. The store keeps "YYYY-MM-DD" strings,
      whose lexicographic order is the chronological order of day numbers. */
  type Date = int

  /** An outcome string other than the three the store gives a meaning to. */
  type OtherLabel = s: string | s != "pending" && s != "correct" && s != "incorrect"
    witness "unknown"

  /** The "outcome" field. The store writes whatever string it is handed, so
      any other string is kept as Other. */
  datatype Outcome = Pending | Correct | Incorrect | Other(text: OtherLabel)

  /** The JSON string of an outcome. */
  function OutcomeText(o: Outcome): string
  {
    match o
    case Pending => "pending"
    case Correct => "correct"
    case Incorrect => "incorrect"
    case Other(text) => text
  }

  /** Reads an outcome string; no string is lost, as the round trip says. */
  function ParseOutcome(s: string): (o: Outcome)
    ensures OutcomeText(o) == s
    ensures o == Pending <==> s == "pending"
    ensures o == Correct <==> s == "correct"
    ensures o == Incorrect <==> s == "incorrect"
  {
    if s == "pending" then Pending
    else if s == "correct" then Correct
    else if s == "incorrect" then Incorrect
    else Other(s)
  }

  lemma ParseOutcomeText(o: Outcome)
    ensures ParseOutcome(OutcomeText(o)) == o
  {
  }

  /** One prediction record, field for field as the JSON object holds it.
      `statement` is the JSON key "prediction". */
  datatype Prediction = Prediction(
    id: string,
    statement: string,
    domain: string,
    confidence: int,
    createdDate: Date,
    dueDate: Date,
    verification: string,
    falsification: string,
    sources: seq<string>,
    outcome: Outcome,
    evaluatedDate: Option<Date>,
    outcomeNotes: Option<string>)

  predicate IsPending(p: Prediction) { p.outcome == Pending }

  predicate IsEvaluated(p: Prediction) { p.outcome != Pending }

  predicate IsCorrect(p: Prediction) { p.outcome == Correct }

  predicate IsIncorrect(p: Prediction) { p.outcome == Incorrect }

  /** The comprehension [p for p in ps if keep(p)]: the records that pass,
      in their original order. */
  function Filter(ps: seq<Prediction>, keep: Prediction -> bool): (r: seq<Prediction>)
    ensures |r| <= |ps|
    ensures forall p :: p in r ==> p in ps && keep(p)
    ensures forall p :: p in ps && keep(p) ==> p in r
    ensures multiset(r) <= multiset(ps)
    decreases |ps|
  {
    if ps == [] then []
    else
      var init := ps[..|ps| - 1];
      assert ps == init + [ps[|ps| - 1]];
      Filter(init, keep) + (if keep(ps[|ps| - 1]) then [ps[|ps| - 1]] else [])
  }

  lemma FilterSnoc(ps: seq<Prediction>, x: Prediction, keep: Prediction -> bool)
    ensures Filter(ps + [x], keep) == Filter(ps, keep) + (if keep(x) then [x] else [])
  {
    assert (ps + [x])[..|ps|] == ps;
  }

  function Bit(b: bool): nat { if b then 1 else 0 }

  lemma {:induction false} FilterConcat(a: seq<Prediction>, b: seq<Prediction>, keep: Prediction -> bool)
    ensures Filter(a + b, keep) == Filter(a, keep) + Filter(b, keep)
    decreases |b|
  {
    if b == [] {
      assert a + b == a;
    } else {
      var init, last := b[..|b| - 1], b[|b| - 1];
      var tail := if keep(last) then [last] else [];
      assert (a + b)[..|a + b| - 1] == a + init;
      assert (a + b)[|a + b| - 1] == last;
      FilterConcat(a, init, keep);
      calc {
        Filter(a + b, keep);
        Filter(a + init, keep) + tail;
        Filter(a, keep) + Filter(init, keep) + tail;
        Filter(a, keep) + (Filter(init, keep) + tail);
        Filter(a, keep) + Filter(b, keep);
      }
    }
  }

  /** Replacing one record changes a filter's size by what the old and the
      new record contribute. */
  lemma {:induction false} FilterUpdate(ps: seq<Prediction>, k: nat, x: Prediction, keep: Prediction -> bool)
    requires k < |ps|
    ensures |Filter(ps[k := x], keep)| + Bit(keep(ps[k])) == |Filter(ps, keep)| + Bit(keep(x))
  {
    var before, after := ps[..k], ps[k + 1..];
    assert ps == before + [ps[k]] + after;
    assert ps[k := x] == before + [x] + after;
    FilterConcat(before + [ps[k]], after, keep);
    FilterConcat(before, [ps[k]], keep);
    FilterConcat(before + [x], after, keep);
    FilterConcat(before, [x], keep);
    assert [ps[k]][..0] == [] && [x][..0] == [];
  }
}
