/** The pending view: the pending records sorted by due date with a stable
    sort, and the urgency tag derived from the days left until a due date. */
module PendingView {
  import opened Records

  predicate SortedByDue(s: seq<Prediction>)
  {
    forall i, j :: 0 <= i < j < |s| ==> s[i].dueDate <= s[j].dueDate
  }

  /** The records of s due on day d, in the order s holds them. */
  function DueOn(s: seq<Prediction>, d: Date): seq<Prediction>
    decreases |s|
  {
    if s == [] then []
    else DueOn(s[..|s| - 1], d) + (if s[|s| - 1].dueDate == d then [s[|s| - 1]] else [])
  }

  lemma DueOnSnoc(s: seq<Prediction>, x: Prediction, d: Date)
    ensures DueOn(s + [x], d) == DueOn(s, d) + (if x.dueDate == d then [x] else [])
  {
    assert (s + [x])[..|s|] == s;
  }

  lemma DueOnSnocAll(s: seq<Prediction>, x: Prediction)
    ensures forall d :: DueOn(s + [x], d) == DueOn(s, d) + (if x.dueDate == d then [x] else [])
  {
    forall d ensures DueOn(s + [x], d) == DueOn(s, d) + (if x.dueDate == d then [x] else []) {
      DueOnSnoc(s, x, d);
    }
  }

  /** Inserts x into a due-date-sorted list after every record due no later
      than x, so records due on the same day keep their order. */
  function InsertByDue(s: seq<Prediction>, x: Prediction): (r: seq<Prediction>)
    requires SortedByDue(s)
    ensures SortedByDue(r)
    ensures |r| == |s| + 1
    ensures multiset(r) == multiset(s) + multiset{x}
    ensures forall d :: DueOn(r, d) == DueOn(s, d) + (if x.dueDate == d then [x] else [])
    decreases |s|
  {
    if s == [] || s[|s| - 1].dueDate <= x.dueDate then
      DueOnSnocAll(s, x);
      s + [x]
    else
      var init, last := s[..|s| - 1], s[|s| - 1];
      assert s == init + [last];
      var t := InsertByDue(init, x);
      InsertBeforeLast(init, last, x, t);
      t + [last]
  }

  /** The step of the insertion when x goes before the last record: the
      insertion into the rest, followed by the last record, has every
      property the insertion promises. */
  lemma InsertBeforeLast(init: seq<Prediction>, last: Prediction, x: Prediction, t: seq<Prediction>)
    requires SortedByDue(init + [last]) && SortedByDue(t)
    requires multiset(t) == multiset(init) + multiset{x}
    requires forall d :: DueOn(t, d) == DueOn(init, d) + (if x.dueDate == d then [x] else [])
    requires x.dueDate < last.dueDate
    ensures SortedByDue(t + [last])
    ensures multiset(t + [last]) == multiset(init + [last]) + multiset{x}
    ensures forall d :: DueOn(t + [last], d) == DueOn(init + [last], d) + (if x.dueDate == d then [x] else [])
  {
    InsertedBelow(t, init, x, last);
    forall d
      ensures DueOn(t + [last], d) == DueOn(init + [last], d) + (if x.dueDate == d then [x] else [])
    {
      DueOnSnoc(t, last, d);
      DueOnSnoc(init, last, d);
    }
  }

  /** Appending a record due no earlier than everything before it keeps a
      list sorted. */
  lemma InsertedBelow(t: seq<Prediction>, init: seq<Prediction>, x: Prediction, last: Prediction)
    requires SortedByDue(t) && SortedByDue(init + [last])
    requires multiset(t) == multiset(init) + multiset{x}
    requires x.dueDate < last.dueDate
    ensures SortedByDue(t + [last])
  {
    forall i | 0 <= i < |t|
      ensures t[i].dueDate <= last.dueDate
    {
      assert t[i] in multiset(t);
      if t[i] != x {
        assert t[i] in multiset(init);
        var k :| 0 <= k < |init| && init[k] == t[i];
        assert (init + [last])[k] == t[i];
        assert (init + [last])[|init|] == last;
      }
    }
  }

  /** Python's list.sort with key due_date: ascending by due date, a
      permutation of its input, and stable, so that the records due on any
      one day appear in their input order. */
  function SortByDue(s: seq<Prediction>): (r: seq<Prediction>)
    ensures SortedByDue(r)
    ensures multiset(r) == multiset(s)
    ensures forall d :: DueOn(r, d) == DueOn(s, d)
    decreases |s|
  {
    if s == [] then []
    else
      var init, last := s[..|s| - 1], s[|s| - 1];
      assert s == init + [last];
      InsertByDue(SortByDue(init), last)
  }

  /** The pending list: exactly the pending records, sorted by due date, with
      the pending records due on the same day in insertion order. */
  function PendingByDue(ps: seq<Prediction>): (r: seq<Prediction>)
    ensures forall p :: p in r <==> p in ps && p.outcome == Pending
    ensures multiset(r) == multiset(Filter(ps, IsPending))
    ensures SortedByDue(r)
    ensures forall d :: DueOn(r, d) == DueOn(Filter(ps, IsPending), d)
  {
    var f := Filter(ps, IsPending);
    var r := SortByDue(f);
    assert forall p :: p in r <==> p in multiset(r);
    assert forall p :: p in f <==> p in multiset(f);
    r
  }

  /** The tag printed after a pending record's ID. */
  datatype Urgency = Overdue | DueToday | DueIn(days: int) | NoTag

  /** The if-chain on days_left: negative is overdue, zero is due today, one
      or two days is "due in d days", and anything later has no tag. */
  function Classify(daysLeft: int): (u: Urgency)
    ensures u == Overdue <==> daysLeft < 0
    ensures u == DueToday <==> daysLeft == 0
    ensures u == DueIn(daysLeft) <==> 1 <= daysLeft <= 2
    ensures u.DueIn? ==> u.days == daysLeft
    ensures u == NoTag <==> daysLeft > 2
  {
    if daysLeft < 0 then Overdue
    else if daysLeft == 0 then DueToday
    else if daysLeft <= 2 then DueIn(daysLeft)
    else NoTag
  }

  /** How pressing a tag is: overdue first, untagged last. */
  function Rank(u: Urgency): int
  {
    match u
    case Overdue => 0
    case DueToday => 1
    case DueIn(d) => 1 + d
    case NoTag => 4
  }

  /** The fewer the days left, the more pressing the tag. */
  lemma ClassifyMonotone(a: int, b: int)
    requires a <= b
    ensures Rank(Classify(a)) <= Rank(Classify(b))
  {
  }

  /** One line of the pending listing: a record and its tag. */
  datatype Entry = Entry(record: Prediction, urgency: Urgency)

  ghost predicate Monotone(daysLeft: Date -> int)
  {
    forall d1: Date, d2: Date :: d1 <= d2 ==> daysLeft(d1) <= daysLeft(d2)
  }

  /** In a listing sorted by due date, tags computed from a days-left count
      that grows with the due date never get more pressing further down:
      overdue records come first, untagged ones last. */
  lemma {:induction false} ListingUrgencyOrdered(entries: seq<Entry>, daysLeft: Date -> int)
    requires Monotone(daysLeft)
    requires forall i, j :: 0 <= i < j < |entries| ==> entries[i].record.dueDate <= entries[j].record.dueDate
    requires forall i :: 0 <= i < |entries| ==> entries[i].urgency == Classify(daysLeft(entries[i].record.dueDate))
    ensures forall i, j :: 0 <= i < j < |entries| ==> Rank(entries[i].urgency) <= Rank(entries[j].urgency)
  {
    forall i, j | 0 <= i < j < |entries|
      ensures Rank(entries[i].urgency) <= Rank(entries[j].urgency)
    {
      var di, dj := entries[i].record.dueDate, entries[j].record.dueDate;
      assert daysLeft(di) <= daysLeft(dj);
      ClassifyMonotone(daysLeft(di), daysLeft(dj));
    }
  }
}
