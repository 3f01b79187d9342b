/**
 Restricting a portable bundle to the boards that a linked device may receive, without
 the cards deleted here or there. The tables arrive as JSON and are filtered in place.
 */
module PayloadSelection {
  import opened Wrappers

  datatype Json = Null | Text(text: string) | Other(value: int)

  /** A row is its fields; a field that is not there reads as null. */
  type Row = map<string, Json>

  datatype Rows = NotAnArray | Array(rows: seq<Row>)

  datatype Payload = Payload(
    workspaces: Rows, boards: Rows, columns: Rows, cards: Rows, labels: Rows, cardLabels: Rows, checklists: Rows,
    checklistItems: Rows, comments: Rows, appearance: Rows, activity: Rows)

  function Field(r: Row, key: string): Json {
    if key in r then r[key] else Null
  }

  predicate Refers(r: Row, key: string, to: set<string>) {
    Field(r, key).Text? && Field(r, key).text in to
  }

  function Ids(t: Rows): (ids: set<string>)
    ensures forall id :: id in ids <==> t.Array? && exists i :: 0 <= i < |t.rows| && Field(t.rows[i], "id") == Text(id)
  {
    if t.NotAnArray? then {}
    else set i | 0 <= i < |t.rows| && Field(t.rows[i], "id").Text? :: Field(t.rows[i], "id").text
  }

  function Kept(rows: seq<Row>, key: string, to: set<string>): seq<Row> {
    if rows == [] then []
    else Kept(rows[..|rows| - 1], key, to) + if Refers(rows[|rows| - 1], key, to) then [rows[|rows| - 1]] else []
  }

  function Retained(t: Rows, key: string, to: set<string>): Rows {
    if t.NotAnArray? then t else Array(Kept(t.rows, key, to))
  }

  function Alive(rows: seq<Row>, deleted: set<string>): seq<Row> {
    if rows == [] then []
    else Alive(rows[..|rows| - 1], deleted) + if Refers(rows[|rows| - 1], "id", deleted) then [] else [rows[|rows| - 1]]
  }

  /** A card whose parent was deleted becomes a card without a parent. */
  function Detached(r: Row, deleted: set<string>): Row {
    if Refers(r, "parentCardId", deleted) then r["parentCardId" := Null] else r
  }

  /** A row refers to one of the entities when the field is there and is the text of its id. */
  lemma RefersIff(r: Row, key: string, to: set<string>)
    ensures Refers(r, key, to) <==> exists id :: id in to && key in r && r[key] == Text(id)
  {
    if Refers(r, key, to) { assert r[key] == Text(r[key].text); }
  }

  /** Forgetting a parent sets that field to null, only where the parent was deleted, and no other. */
  lemma DetachedMeans(r: Row, deleted: set<string>)
    ensures var now := Detached(r, deleted);
      if exists id :: id in deleted && "parentCardId" in r && r["parentCardId"] == Text(id)
      then now == r["parentCardId" := Null] else now == r
  {
    RefersIff(r, "parentCardId", deleted);
  }

  function AllDetached(rows: seq<Row>, deleted: set<string>): seq<Row> {
    if rows == [] then [] else AllDetached(rows[..|rows| - 1], deleted) + [Detached(rows[|rows| - 1], deleted)]
  }

  function SelectedCards(t: Rows, selected: set<string>, deleted: set<string>): Rows {
    var kept := Retained(t, "boardId", selected);
    if kept.NotAnArray? then kept else Array(AllDetached(Alive(kept.rows, deleted), deleted))
  }

  function Select(p: Payload, selected: set<string>, deleted: set<string>): Payload {
    var cards := SelectedCards(p.cards, selected, deleted);
    var labels := Retained(p.labels, "boardId", selected);
    var lists := Retained(p.checklists, "cardId", Ids(cards));
    Payload(
      Array([]),
      Retained(p.boards, "id", selected),
      Retained(p.columns, "boardId", selected),
      cards,
      labels,
      Retained(Retained(Retained(p.cardLabels, "boardId", selected), "cardId", Ids(cards)), "labelId", Ids(labels)),
      lists,
      Retained(p.checklistItems, "checklistId", Ids(lists)),
      Retained(p.comments, "cardId", Ids(cards)),
      Retained(p.appearance, "boardId", selected),
      Array([]))
  }

  // Filtering.

  lemma {:induction false} KeptKept(rows: seq<Row>, key: string, a: set<string>, other: string, b: set<string>)
    ensures Kept(Kept(rows, key, a), other, b) == Kept(Kept(rows, other, b), key, a)
    ensures key == other ==> Kept(Kept(rows, key, a), other, b) == Kept(rows, key, a * b)
  {
    if rows != [] {
      var front, last := rows[..|rows| - 1], rows[|rows| - 1];
      KeptKept(front, key, a, other, b);
      KeptAppend(Kept(front, key, a), last, other, b);
      KeptAppend(Kept(front, other, b), last, key, a);
    }
  }

  lemma KeptAppend(rows: seq<Row>, r: Row, key: string, to: set<string>)
    ensures Kept(rows + [r], key, to) == Kept(rows, key, to) + if Refers(r, key, to) then [r] else []
    ensures Kept(rows + [], key, to) == Kept(rows, key, to)
  {
    assert (rows + [r])[..|rows + [r]| - 1] == rows;
    assert rows + [] == rows;
  }

  lemma {:induction false} KeptIff(rows: seq<Row>, key: string, to: set<string>, r: Row)
    ensures r in Kept(rows, key, to) <==> r in rows && Refers(r, key, to)
  {
    if rows != [] {
      KeptIff(rows[..|rows| - 1], key, to, r);
      assert rows == rows[..|rows| - 1] + [rows[|rows| - 1]];
    }
  }

  lemma RetainTwice(t: Rows, key: string, a: set<string>, b: set<string>)
    ensures Retained(Retained(t, key, a), key, b) == Retained(t, key, a * b)
  {
    if t.Array? { KeptKept(t.rows, key, a, key, b); }
  }

  lemma RetainSwap(t: Rows, key: string, a: set<string>, other: string, b: set<string>)
    ensures Retained(Retained(t, key, a), other, b) == Retained(Retained(t, other, b), key, a)
  {
    if t.Array? { KeptKept(t.rows, key, a, other, b); }
  }

  /** Filtering by a larger set first changes nothing. */
  lemma RetainNarrows(t: Rows, key: string, a: set<string>, b: set<string>)
    requires b <= a
    ensures Retained(Retained(t, key, a), key, b) == Retained(t, key, b)
  {
    RetainTwice(t, key, a, b);
    assert a * b == b;
  }

  // Cards.

  lemma DetachedReads(r: Row, deleted: set<string>, key: string)
    requires key != "parentCardId"
    ensures Field(Detached(r, deleted), key) == Field(r, key)
  {}

  lemma DetachTwice(r: Row, a: set<string>, b: set<string>)
    ensures Detached(Detached(r, a), b) == Detached(r, a + b)
  {}

  /** One card row in the selection, or none. */
  function Chosen(r: Row, selected: set<string>, deleted: set<string>): seq<Row> {
    if Refers(r, "boardId", selected) && !Refers(r, "id", deleted) then [Detached(r, deleted)] else []
  }

  function Choose(rows: seq<Row>, selected: set<string>, deleted: set<string>): seq<Row> {
    if rows == [] then []
    else Choose(rows[..|rows| - 1], selected, deleted) + Chosen(rows[|rows| - 1], selected, deleted)
  }

  lemma AliveAppend(rows: seq<Row>, r: Row, deleted: set<string>)
    ensures Alive(rows + [r], deleted) == Alive(rows, deleted) + if Refers(r, "id", deleted) then [] else [r]
  {
    assert (rows + [r])[..|rows + [r]| - 1] == rows;
  }

  lemma AllDetachedAppend(rows: seq<Row>, r: Row, deleted: set<string>)
    ensures AllDetached(rows + [r], deleted) == AllDetached(rows, deleted) + [Detached(r, deleted)]
  {
    assert (rows + [r])[..|rows + [r]| - 1] == rows;
  }

  /** The three passes over the cards amount to one. */
  lemma {:induction false} CardsChosen(rows: seq<Row>, selected: set<string>, deleted: set<string>)
    ensures AllDetached(Alive(Kept(rows, "boardId", selected), deleted), deleted) == Choose(rows, selected, deleted)
  {
    if rows != [] {
      var front, last := rows[..|rows| - 1], rows[|rows| - 1];
      CardsChosen(front, selected, deleted);
      var kept := Kept(front, "boardId", selected);
      assert kept + [] == kept && Choose(front, selected, deleted) + [] == Choose(front, selected, deleted);
      AliveAppend(kept, last, deleted);
      assert Alive(kept, deleted) + [] == Alive(kept, deleted);
      AllDetachedAppend(Alive(kept, deleted), last, deleted);
    }
  }

  lemma ChooseAppend(rows: seq<Row>, r: Row, selected: set<string>, deleted: set<string>)
    ensures Choose(rows + [r], selected, deleted) == Choose(rows, selected, deleted) + Chosen(r, selected, deleted)
  {
    assert (rows + [r])[..|rows + [r]| - 1] == rows;
  }

  lemma ChosenTwice(r: Row, s1: set<string>, d1: set<string>, s2: set<string>, d2: set<string>)
    requires Chosen(r, s1, d1) != []
    ensures Chosen(Detached(r, d1), s2, d2) == Chosen(r, s1 * s2, d1 + d2)
  {
    DetachedReads(r, d1, "boardId");
    DetachedReads(r, d1, "id");
    DetachTwice(r, d1, d2);
  }

  lemma {:induction false} ChooseTwice(rows: seq<Row>, s1: set<string>, d1: set<string>, s2: set<string>,
                                       d2: set<string>)
    ensures Choose(Choose(rows, s1, d1), s2, d2) == Choose(rows, s1 * s2, d1 + d2)
  {
    hide *;
    if rows == [] {
      ChooseNone(s1, d1);
      ChooseNone(s2, d2);
      ChooseNone(s1 * s2, d1 + d2);
    } else {
      var front, last := rows[..|rows| - 1], rows[|rows| - 1];
      var once, both := Choose(front, s1, d1), Choose(front, s1 * s2, d1 + d2);
      assert rows == front + [last];
      ChooseTwice(front, s1, d1, s2, d2);
      ChooseAppend(front, last, s1, d1);
      ChooseAppend(front, last, s1 * s2, d1 + d2);
      if Chosen(last, s1, d1) == [] {
        ChosenNever(last, s1, d1, s2, d2);
        assert once + [] == once && both + [] == both;
      } else {
        ChosenOnce(last, s1, d1);
        ChosenTwice(last, s1, d1, s2, d2);
        ChooseAppend(once, Detached(last, d1), s2, d2);
      }
    }
  }

  lemma ChooseNone(selected: set<string>, deleted: set<string>)
    ensures Choose([], selected, deleted) == []
  {}

  lemma ChosenOnce(r: Row, selected: set<string>, deleted: set<string>)
    requires Chosen(r, selected, deleted) != []
    ensures Chosen(r, selected, deleted) == [Detached(r, deleted)]
  {}

  lemma ChosenNever(r: Row, s1: set<string>, d1: set<string>, s2: set<string>, d2: set<string>)
    requires Chosen(r, s1, d1) == []
    ensures Chosen(r, s1 * s2, d1 + d2) == []
  {}

  lemma CardsTwice(t: Rows, s1: set<string>, d1: set<string>, s2: set<string>, d2: set<string>)
    ensures SelectedCards(SelectedCards(t, s1, d1), s2, d2) == SelectedCards(t, s1 * s2, d1 + d2)
  {
    hide Choose, Alive, AllDetached;
    if t.Array? {
      CardsChosen(t.rows, s1, d1);
      CardsChosen(t.rows, s1 * s2, d1 + d2);
      CardsChosen(Choose(t.rows, s1, d1), s2, d2);
      ChooseTwice(t.rows, s1, d1, s2, d2);
    }
  }

  lemma {:induction false} ChosenFrom(rows: seq<Row>, selected: set<string>, deleted: set<string>, r: Row)
    ensures r in Choose(rows, selected, deleted) <==>
      exists x :: x in rows && Refers(x, "boardId", selected) && !Refers(x, "id", deleted) && r == Detached(x, deleted)
  {
    if rows != [] {
      var front, last := rows[..|rows| - 1], rows[|rows| - 1];
      ChosenFrom(front, selected, deleted, r);
      assert rows == front + [last];
    }
  }

  lemma CardIdsShrink(t: Rows, s1: set<string>, d1: set<string>, s2: set<string>, d2: set<string>)
    ensures Ids(SelectedCards(t, s1 * s2, d1 + d2)) <= Ids(SelectedCards(t, s1, d1))
  {
    if t.Array? {
      CardsChosen(t.rows, s1, d1);
      CardsChosen(t.rows, s1 * s2, d1 + d2);
      hide Choose, Alive, AllDetached, Kept;
      forall id | id in Ids(SelectedCards(t, s1 * s2, d1 + d2)) ensures id in Ids(SelectedCards(t, s1, d1)) {
        NarrowerChoice(t.rows, s1, d1, s2, d2, id);
      }
    }
  }

  lemma NarrowerChoice(rows: seq<Row>, s1: set<string>, d1: set<string>, s2: set<string>, d2: set<string>, id: string)
    requires id in Ids(Array(Choose(rows, s1 * s2, d1 + d2)))
    ensures id in Ids(Array(Choose(rows, s1, d1)))
  {
    hide Choose;
    var few, many := Choose(rows, s1 * s2, d1 + d2), Choose(rows, s1, d1);
    var i :| 0 <= i < |few| && Field(few[i], "id") == Text(id);
    ChosenFrom(rows, s1 * s2, d1 + d2, few[i]);
    var x :| x in rows && Refers(x, "boardId", s1 * s2) && !Refers(x, "id", d1 + d2) && few[i] == Detached(x, d1 + d2);
    ChosenFrom(rows, s1, d1, Detached(x, d1));
    var j :| 0 <= j < |many| && many[j] == Detached(x, d1);
    DetachedReads(x, d1, "id");
    DetachedReads(x, d1 + d2, "id");
  }

  lemma IdsShrink(t: Rows, key: string, a: set<string>, b: set<string>)
    requires b <= a
    ensures Ids(Retained(t, key, b)) <= Ids(Retained(t, key, a))
  {
    if t.Array? {
      forall id | id in Ids(Retained(t, key, b)) ensures id in Ids(Retained(t, key, a)) {
        var few, many := Kept(t.rows, key, b), Kept(t.rows, key, a);
        var i :| 0 <= i < |few| && Field(few[i], "id") == Text(id);
        KeptIff(t.rows, key, b, few[i]);
        KeptIff(t.rows, key, a, few[i]);
        var j :| 0 <= j < |many| && many[j] == few[i];
      }
    }
  }

  // The law.

  lemma LabelsTwice(t: Rows, s1: set<string>, s2: set<string>, c1: set<string>, c2: set<string>, l1: set<string>,
                    l2: set<string>)
    requires c2 <= c1 && l2 <= l1
    ensures var once := Retained(Retained(Retained(t, "boardId", s1), "cardId", c1), "labelId", l1);
      Retained(Retained(Retained(once, "boardId", s2), "cardId", c2), "labelId", l2)
        == Retained(Retained(Retained(t, "boardId", s1 * s2), "cardId", c2), "labelId", l2)
  {
    hide Retained;
    var b := Retained(t, "boardId", s1);
    var bc := Retained(b, "cardId", c1);
    RetainSwap(bc, "labelId", l1, "boardId", s2);
    RetainSwap(b, "cardId", c1, "boardId", s2);
    RetainTwice(t, "boardId", s1, s2);
    var d := Retained(t, "boardId", s1 * s2);
    RetainSwap(Retained(d, "cardId", c1), "labelId", l1, "cardId", c2);
    RetainNarrows(d, "cardId", c1, c2);
    RetainNarrows(Retained(d, "cardId", c2), "labelId", l1, l2);
  }

  /** Restricting twice is restricting once, to the boards in both selections and without
      the cards deleted in either. */
  lemma SelectTwice(p: Payload, s1: set<string>, d1: set<string>, s2: set<string>, d2: set<string>)
    ensures Select(Select(p, s1, d1), s2, d2) == Select(p, s1 * s2, d1 + d2)
  {
    hide Retained, SelectedCards, Ids;
    var cards1, cards2 := SelectedCards(p.cards, s1, d1), SelectedCards(p.cards, s1 * s2, d1 + d2);
    CardsTwice(p.cards, s1, d1, s2, d2);
    CardIdsShrink(p.cards, s1, d1, s2, d2);
    RetainTwice(p.boards, "id", s1, s2);
    RetainTwice(p.columns, "boardId", s1, s2);
    RetainTwice(p.labels, "boardId", s1, s2);
    RetainTwice(p.appearance, "boardId", s1, s2);
    IdsShrink(p.labels, "boardId", s1, s1 * s2);
    LabelsTwice(p.cardLabels, s1, s2, Ids(cards1), Ids(cards2),
      Ids(Retained(p.labels, "boardId", s1)), Ids(Retained(p.labels, "boardId", s1 * s2)));
    RetainNarrows(p.checklists, "cardId", Ids(cards1), Ids(cards2));
    RetainNarrows(p.comments, "cardId", Ids(cards1), Ids(cards2));
    IdsShrink(p.checklists, "cardId", Ids(cards1), Ids(cards2));
    RetainNarrows(p.checklistItems, "checklistId",
      Ids(Retained(p.checklists, "cardId", Ids(cards1))), Ids(Retained(p.checklists, "cardId", Ids(cards2))));
  }

  /** Hence the order of two restrictions does not matter, and a repeated one does nothing. */
  lemma SelectCommutes(p: Payload, s1: set<string>, d1: set<string>, s2: set<string>, d2: set<string>)
    ensures Select(Select(p, s1, d1), s2, d2) == Select(Select(p, s2, d2), s1, d1)
    ensures Select(Select(p, s1, d1), s1, d1) == Select(p, s1, d1)
  {
    hide Select;
    SelectTwice(p, s1, d1, s2, d2);
    SelectTwice(p, s2, d2, s1, d1);
    SelectTwice(p, s1, d1, s1, d1);
    assert s1 * s2 == s2 * s1 && d1 + d2 == d2 + d1 && s1 * s1 == s1 && d1 + d1 == d1;
  }

  /** Every row of the table refers by `key` to a row of `to`. */
  ghost predicate Points(t: Rows, key: string, to: set<string>) {
    t.Array? ==> forall r :: r in t.rows ==> Refers(r, key, to)
  }

  lemma RetainPoints(t: Rows, key: string, to: set<string>, other: string, more: set<string>)
    ensures Points(Retained(t, key, to), key, to)
    ensures Points(t, other, more) ==> Points(Retained(t, key, to), other, more)
  {
    if t.Array? {
      forall r | r in Kept(t.rows, key, to) ensures Refers(r, key, to) && r in t.rows {
        KeptIff(t.rows, key, to, r);
      }
    }
  }

  /** The result is closed: what is kept belongs to a selected board, and card labels,
      checklists, items and comments refer to rows that were kept as well. */
  lemma SelectionIsClosed(p: Payload, selected: set<string>, deleted: set<string>)
    ensures var r := Select(p, selected, deleted);
      && Points(r.boards, "id", selected) && Points(r.columns, "boardId", selected)
         && Points(r.labels, "boardId", selected)
      && Points(r.cardLabels, "boardId", selected) && Points(r.appearance, "boardId", selected)
      && Points(r.cardLabels, "cardId", Ids(r.cards)) && Points(r.cardLabels, "labelId", Ids(r.labels))
      && Points(r.checklists, "cardId", Ids(r.cards)) && Points(r.comments, "cardId", Ids(r.cards))
      && Points(r.checklistItems, "checklistId", Ids(r.checklists))
  {
    hide Retained, SelectedCards, Ids, Points;
    var r := Select(p, selected, deleted);
    RetainPoints(p.boards, "id", selected, "", {});
    RetainPoints(p.columns, "boardId", selected, "", {});
    RetainPoints(p.labels, "boardId", selected, "", {});
    RetainPoints(p.appearance, "boardId", selected, "", {});
    RetainPoints(p.checklists, "cardId", Ids(r.cards), "", {});
    RetainPoints(p.comments, "cardId", Ids(r.cards), "", {});
    RetainPoints(p.checklistItems, "checklistId", Ids(r.checklists), "", {});
    var b := Retained(p.cardLabels, "boardId", selected);
    var bc := Retained(b, "cardId", Ids(r.cards));
    RetainPoints(p.cardLabels, "boardId", selected, "", {});
    RetainPoints(b, "cardId", Ids(r.cards), "boardId", selected);
    RetainPoints(bc, "labelId", Ids(r.labels), "boardId", selected);
    RetainPoints(bc, "labelId", Ids(r.labels), "cardId", Ids(r.cards));
  }

  /** A card is kept exactly when its board is selected and it is not deleted; the kept row
      is the old one, except that a deleted parent is forgotten. */
  lemma CardKeptIff(p: Payload, selected: set<string>, deleted: set<string>, r: Row)
    requires p.cards.Array?
    ensures var kept := Select(p, selected, deleted).cards;
      kept.Array? && (r in kept.rows <==> exists x ::
        x in p.cards.rows && Refers(x, "boardId", selected) && !Refers(x, "id", deleted) && r == Detached(x, deleted))
  {
    hide Choose, Alive, AllDetached, Retained;
    KeptRows(p.cards, selected, deleted);
    ChosenFrom(p.cards.rows, selected, deleted, r);
  }

  lemma KeptRows(t: Rows, selected: set<string>, deleted: set<string>)
    requires t.Array?
    ensures SelectedCards(t, selected, deleted) == Array(Choose(t.rows, selected, deleted))
  {
    CardsChosen(t.rows, selected, deleted);
  }

  predicate Has(t: Rows, r: Row) {
    t.Array? && r in t.rows
  }

  lemma HasRetained(t: Rows, key: string, to: set<string>, r: Row)
    ensures Has(Retained(t, key, to), r) <==> Has(t, r) && Refers(r, key, to)
  {
    if t.Array? { KeptIff(t.rows, key, to, r); }
  }

  /** Nothing more is dropped than closure demands: table by table, a row stays iff it belongs
      to a selected board, or refers to a card, label or checklist that stays. */
  lemma RowKeptIff(p: Payload, selected: set<string>, deleted: set<string>, r: Row)
    ensures var kept := Select(p, selected, deleted);
      && (Has(kept.boards, r) <==> Has(p.boards, r) && Refers(r, "id", selected))
      && (Has(kept.columns, r) <==> Has(p.columns, r) && Refers(r, "boardId", selected))
      && (Has(kept.labels, r) <==> Has(p.labels, r) && Refers(r, "boardId", selected))
      && (Has(kept.cardLabels, r) <==>
            (Has(p.cardLabels, r) && Refers(r, "boardId", selected)
             && Refers(r, "cardId", Ids(kept.cards)) && Refers(r, "labelId", Ids(kept.labels))))
      && (Has(kept.checklists, r) <==> Has(p.checklists, r) && Refers(r, "cardId", Ids(kept.cards)))
      && (Has(kept.checklistItems, r) <==> Has(p.checklistItems, r) && Refers(r, "checklistId", Ids(kept.checklists)))
      && (Has(kept.comments, r) <==> Has(p.comments, r) && Refers(r, "cardId", Ids(kept.cards)))
      && (Has(kept.appearance, r) <==> Has(p.appearance, r) && Refers(r, "boardId", selected))
      && !Has(kept.workspaces, r) && !Has(kept.activity, r)
  {
    hide Retained, SelectedCards, Ids, Refers;
    var kept := Select(p, selected, deleted);
    HasRetained(p.boards, "id", selected, r);
    HasRetained(p.columns, "boardId", selected, r);
    HasRetained(p.labels, "boardId", selected, r);
    var onBoards := Retained(p.cardLabels, "boardId", selected);
    HasRetained(p.cardLabels, "boardId", selected, r);
    HasRetained(onBoards, "cardId", Ids(kept.cards), r);
    HasRetained(Retained(onBoards, "cardId", Ids(kept.cards)), "labelId", Ids(kept.labels), r);
    HasRetained(p.checklists, "cardId", Ids(kept.cards), r);
    HasRetained(p.checklistItems, "checklistId", Ids(kept.checklists), r);
    HasRetained(p.comments, "cardId", Ids(kept.cards), r);
    HasRetained(p.appearance, "boardId", selected, r);
  }

  lemma NoDeletedParents(p: Payload, selected: set<string>, deleted: set<string>, r: Row)
    requires p.cards.Array? && r in Select(p, selected, deleted).cards.rows
    ensures !Refers(r, "parentCardId", deleted) && !Refers(r, "id", deleted) && Refers(r, "boardId", selected)
  {
    hide Select;
    CardKeptIff(p, selected, deleted, r);
    var x :| x in p.cards.rows && Refers(x, "boardId", selected) && !Refers(x, "id", deleted)
      && r == Detached(x, deleted);
    DetachedReads(x, deleted, "id");
    DetachedReads(x, deleted, "boardId");
  }

  // In place.

  method Retain(t: Rows, key: string, to: set<string>) returns (r: Rows)
    ensures r == Retained(t, key, to)
  {
    if t.NotAnArray? { return t; }
    var kept: seq<Row> := [];
    for i := 0 to |t.rows|
      invariant kept == Kept(t.rows[..i], key, to)
    {
      assert t.rows[..i + 1][..i] == t.rows[..i];
      if Field(t.rows[i], key).Text? && Field(t.rows[i], key).text in to { kept := kept + [t.rows[i]]; }
    }
    assert t.rows[..|t.rows|] == t.rows;
    return Array(kept);
  }

  class Bundle {
    var payload: Payload

    constructor (payload: Payload)
      ensures this.payload == payload
    {
      this.payload := payload;
    }

    method RetainCards(selected: set<string>, deleted: set<string>)
      modifies this
      ensures payload == old(payload).(cards := SelectedCards(old(payload).cards, selected, deleted))
    {
      var cards := Retain(payload.cards, "boardId", selected);
      if cards.Array? {
        var alive: seq<Row> := [];
        for i := 0 to |cards.rows|
          invariant alive == Alive(cards.rows[..i], deleted)
        {
          assert cards.rows[..i + 1][..i] == cards.rows[..i];
          if !Refers(cards.rows[i], "id", deleted) { alive := alive + [cards.rows[i]]; }
        }
        assert cards.rows[..|cards.rows|] == cards.rows;
        var detached: seq<Row> := [];
        for i := 0 to |alive|
          invariant detached == AllDetached(alive[..i], deleted)
        {
          assert alive[..i + 1][..i] == alive[..i];
          var card := alive[i];
          if Refers(card, "parentCardId", deleted) { card := card["parentCardId" := Null]; }
          detached := detached + [card];
        }
        assert alive[..|alive|] == alive;
        cards := Array(detached);
      }
      payload := payload.(cards := cards);
    }

    method SelectPayload(selected: set<string>, deleted: set<string>)
      modifies this
      ensures payload == Select(old(payload), selected, deleted)
    {
      hide Retained, SelectedCards, Ids;
      payload := payload.(workspaces := Array([]));
      var boards := Retain(payload.boards, "id", selected);
      var columns := Retain(payload.columns, "boardId", selected);
      payload := payload.(boards := boards, columns := columns);
      RetainCards(selected, deleted);
      var cards := Ids(payload.cards);
      var labels := Retain(payload.labels, "boardId", selected);
      payload := payload.(labels := labels);
      var onBoards := Retain(payload.cardLabels, "boardId", selected);
      var onCards := Retain(onBoards, "cardId", cards);
      var cardLabels := Retain(onCards, "labelId", Ids(labels));
      var checklists := Retain(payload.checklists, "cardId", cards);
      var items := Retain(payload.checklistItems, "checklistId", Ids(checklists));
      var comments := Retain(payload.comments, "cardId", cards);
      var appearance := Retain(payload.appearance, "boardId", selected);
      payload := payload.(cardLabels := cardLabels, checklists := checklists, checklistItems := items,
        comments := comments, appearance := appearance, activity := Array([]));
    }
  }
}
