/**
 The table refuses a card whose due date precedes its start date. Because the two
 dates merge separately, a put may be refused now and accepted later. This module
 shows that some outstanding put can always be taken next, as long as the finally
 merged dates are in order.
 */
module CardDates {
  import opened Wrappers
  import opened Stamps
  import opened CardMerge

  predicate DatesOrdered(v: CardValues) {
    v.startAt.Some? && v.dueAt.Some? ==> v.startAt.value <= v.dueAt.value
  }

  /** The merge of all of `s` satisfies the constraint. */
  ghost predicate FinalDates(v0: CardView, s: set<CardWrite>) {
    forall v :: AllSettled(v0, s, v) ==> DatesOrdered(v.row.value.values)
  }

  ghost predicate Reached(v0: CardView, s: set<CardWrite>, v: CardView, f: CardField)
    requires Live(v0) && Live(v)
  {
    Settled(CellOf(v0, f), s, f, CellOf(v, f))
  }

  lemma LeaderApplied(init: Cell, part: set<CardWrite>, s: set<CardWrite>, f: CardField, cell: Cell, l: CardWrite)
    requires DistinctStamps(s) && part <= s && Settled(init, part, f, cell) && Leads(init, s, f, l) && l in part
    ensures Settled(init, s, f, cell)
  {
    assert Contends(init, part, f, l);
    var m :| Leads(init, part, f, m) && cell == Cell(Some(m.stamp), Get(m.values, f));
    assert m.stamp == l.stamp by { assert Contends(init, s, f, m); }
    assert m == l;
  }

  /** A field that is not final yet has a leader still outstanding. */
  lemma Outstanding(v0: CardView, part: set<CardWrite>, s: set<CardWrite>, v: CardView, f: CardField)
    returns (l: CardWrite)
    requires DistinctStamps(s) && part <= s && AllSettled(v0, part, v) && !Reached(v0, s, v, f)
    ensures Leads(CellOf(v0, f), s, f, l) && l in s && l !in part
    ensures CellOf(Put(v, l), f) == Cell(Some(l.stamp), Get(l.values, f))
  {
    var all := Enumerate(s);
    PutsSettle(v0, all);
    var init, cell := CellOf(v0, f), CellOf(v, f);
    assert Settled(init, s, f, CellOf(Puts(v0, all), f));
    if forall u :: !Contends(init, s, f, u) {
      assert forall u :: Contends(init, part, f, u) ==> Contends(init, s, f, u);
      assert false;
    }
    l :| Leads(init, s, f, l);
    if l in part { LeaderApplied(init, part, s, f, cell, l); }
    PutCell(v, l, f);
    if m :| Leads(init, part, f, m) && cell == Cell(Some(m.stamp), Get(m.values, f)) {
      assert Contends(init, s, f, m);
      assert m.stamp != l.stamp;
    }
  }

  lemma ReachedStays(v0: CardView, s: set<CardWrite>, v: CardView, f: CardField, w: CardWrite)
    requires Live(v0) && Live(v) && Reached(v0, s, v, f) && w in s
    ensures CellOf(Put(v, w), f) == CellOf(v, f)
  {
    PutCell(v, w, f);
    var init, cell := CellOf(v0, f), CellOf(v, f);
    if f in w.mask && Beats(w.stamp, cell.stamp) {
      assert Contends(init, s, f, w);
      assert false;
    }
  }

  lemma DatesFromCells(v: CardView)
    requires Live(v)
    ensures CellOf(v, StartAt).value == Moment(v.row.value.values.startAt)
    ensures CellOf(v, DueAt).value == Moment(v.row.value.values.dueAt)
  {}

  lemma PutDates(v: CardView, w: CardWrite)
    requires Live(v)
    ensures var x, r := v.row.value.values, Put(v, w).row.value.values;
      (r.startAt == x.startAt || r.startAt == w.values.startAt) && (r.dueAt == x.dueAt || r.dueAt == w.values.dueAt)
  {}

  lemma FinalView(v0: CardView, s: set<CardWrite>) returns (v: CardView)
    requires Live(v0)
    ensures AllSettled(v0, s, v)
  {
    var all := Enumerate(s);
    PutsSettle(v0, all);
    v := Puts(v0, all);
  }

  ghost predicate Outlook(v0: CardView, part: set<CardWrite>, s: set<CardWrite>, v: CardView) {
    DistinctStamps(s) && part <= s && AllSettled(v0, part, v)
    && DatesOrdered(v.row.value.values)
    && (forall u :: u in s ==> DatesOrdered(u.values))
    && FinalDates(v0, s)
  }

  /** One date is final, the other not: its leader makes both final. */
  lemma OneDateLeft(v0: CardView, part: set<CardWrite>, s: set<CardWrite>, v: CardView, f: CardField, g: CardField,
                    l: CardWrite)
    requires Outlook(v0, part, s, v) && {f, g} == {StartAt, DueAt} && f != g
    requires Reached(v0, s, v, g) && Leads(CellOf(v0, f), s, f, l)
    requires CellOf(Put(v, l), f) == Cell(Some(l.stamp), Get(l.values, f))
    ensures DatesOrdered(Put(v, l).row.value.values)
  {
    var end := FinalView(v0, s);
    var r := Put(v, l);
    ReachedStays(v0, s, v, g, l);
    SettledUnique(CellOf(v0, g), s, g, CellOf(r, g), CellOf(end, g));
    assert Settled(CellOf(v0, f), s, f, CellOf(r, f));
    SettledUnique(CellOf(v0, f), s, f, CellOf(r, f), CellOf(end, f));
    DatesFromCells(r);
    DatesFromCells(end);
    assert f == StartAt || f == DueAt;
    assert g == StartAt || g == DueAt;
  }

  /** Both leaders are outstanding: they cannot both be refused. */
  lemma BothDatesLeft(v0: CardView, part: set<CardWrite>, s: set<CardWrite>, v: CardView, a: CardWrite, b: CardWrite)
    requires Outlook(v0, part, s, v)
    requires Leads(CellOf(v0, StartAt), s, StartAt, a) && Leads(CellOf(v0, DueAt), s, DueAt, b)
    requires CellOf(Put(v, a), StartAt) == Cell(Some(a.stamp), Get(a.values, StartAt))
    requires CellOf(Put(v, b), DueAt) == Cell(Some(b.stamp), Get(b.values, DueAt))
    ensures DatesOrdered(Put(v, a).row.value.values) || DatesOrdered(Put(v, b).row.value.values)
  {
    var end := FinalView(v0, s);
    SettledUnique(CellOf(v0, StartAt), s, StartAt, CellOf(Put(v, a), StartAt), CellOf(end, StartAt));
    SettledUnique(CellOf(v0, DueAt), s, DueAt, CellOf(Put(v, b), DueAt), CellOf(end, DueAt));
    DatesFromCells(Put(v, a));
    DatesFromCells(Put(v, b));
    DatesFromCells(end);
    PutDates(v, a);
    PutDates(v, b);
  }

  lemma Missing<T>(part: set<T>, s: set<T>) returns (w: T)
    requires part <= s && part != s
    ensures w in s && w !in part
  {
    assert !(s <= part);
    w :| w in s && w !in part;
  }

  /** A put that settles a date. */
  ghost predicate DecidesDate(v0: CardView, s: set<CardWrite>, w: CardWrite)
    requires Live(v0)
  {
    Leads(CellOf(v0, StartAt), s, StartAt, w) || Leads(CellOf(v0, DueAt), s, DueAt, w)
  }

  lemma BothReachedFits(v0: CardView, s: set<CardWrite>, v: CardView, w: CardWrite)
    requires Live(v0) && Live(v) && Reached(v0, s, v, StartAt) && Reached(v0, s, v, DueAt) && w in s
    requires DatesOrdered(v.row.value.values)
    ensures DatesOrdered(Put(v, w).row.value.values)
  {
    ReachedStays(v0, s, v, StartAt, w);
    ReachedStays(v0, s, v, DueAt, w);
    DatesFromCells(v);
    DatesFromCells(Put(v, w));
  }

  lemma SomeDateFits(v0: CardView, part: set<CardWrite>, s: set<CardWrite>, v: CardView) returns (w: CardWrite)
    requires Outlook(v0, part, s, v) && !(Reached(v0, s, v, StartAt) && Reached(v0, s, v, DueAt))
    ensures w in s && w !in part && DecidesDate(v0, s, w) && DatesOrdered(Put(v, w).row.value.values)
  {
    if Reached(v0, s, v, DueAt) {
      w := Outstanding(v0, part, s, v, StartAt);
      OneDateLeft(v0, part, s, v, StartAt, DueAt, w);
    } else if Reached(v0, s, v, StartAt) {
      w := Outstanding(v0, part, s, v, DueAt);
      OneDateLeft(v0, part, s, v, DueAt, StartAt, w);
    } else {
      var a := Outstanding(v0, part, s, v, StartAt);
      var b := Outstanding(v0, part, s, v, DueAt);
      BothDatesLeft(v0, part, s, v, a, b);
      w := if DatesOrdered(Put(v, a).row.value.values) then a else b;
    }
  }

  /** Some outstanding put is acceptable next. If it moves the card, it decides where the card
      ends up, or it decides a date. */
  lemma NextPut(v0: CardView, part: set<CardWrite>, s: set<CardWrite>, v: CardView) returns (w: CardWrite)
    requires Outlook(v0, part, s, v) && part != s
    ensures w in s && w !in part && DatesOrdered(Put(v, w).row.value.values)
    ensures DecidesDate(v0, s, w) || Leads(CellOf(v0, ParentCardId), s, ParentCardId, w)
      || ParentCardId !in Winning(v, w)
  {
    if Reached(v0, s, v, StartAt) && Reached(v0, s, v, DueAt) {
      if Reached(v0, s, v, ParentCardId) {
        w := Missing(part, s);
        StaysPut(v0, s, v, w);
      } else {
        w := Outstanding(v0, part, s, v, ParentCardId);
      }
      BothReachedFits(v0, s, v, w);
    } else {
      w := SomeDateFits(v0, part, s, v);
    }
  }

  lemma StaysPut(v0: CardView, s: set<CardWrite>, v: CardView, w: CardWrite)
    requires Live(v0) && Live(v) && Reached(v0, s, v, ParentCardId) && w in s
    ensures ParentCardId !in Winning(v, w)
  {
    if ParentCardId in Winning(v, w) { NotAgain(v0, s, v, w); }
  }

  lemma NotAgain(v0: CardView, s: set<CardWrite>, v: CardView, w: CardWrite)
    requires Live(v0) && Live(v) && w in s && ParentCardId in Winning(v, w)
    ensures !Reached(v0, s, v, ParentCardId)
  {
    var init, cell := CellOf(v0, ParentCardId), CellOf(v, ParentCardId);
    if Settled(init, s, ParentCardId, cell) {
      assert Contends(init, s, ParentCardId, w);
      assert false;
    }
  }

  /** Whatever else it does, some outstanding put satisfies the dates now. */
  lemma SomePutFits(v0: CardView, part: set<CardWrite>, s: set<CardWrite>, v: CardView) returns (w: CardWrite)
    requires Outlook(v0, part, s, v) && part != s
    ensures w in s && w !in part && DatesOrdered(Put(v, w).row.value.values)
  {
    w := NextPut(v0, part, s, v);
  }
}
