/**
 How one card absorbs `card.put` events: every field keeps the value of the
 latest stamp that named it. Deletion, the database constraints and the event
 ledger are in RoamingModel; this module is the field-by-field merge alone.
 */
module CardMerge {
  import opened Wrappers
  import opened Stamps

  datatype CardField =
    | ColumnId | ParentCardId | Title | Description | Priority
    | Position | StartAt | DueAt | IsArchived | Checklists

  const CARD_FIELDS: set<CardField> :=
    {ColumnId, ParentCardId, Title, Description, Priority,
     Position, StartAt, DueAt, IsArchived, Checklists}

  lemma ListedField(f: CardField)
    ensures f in CARD_FIELDS
  {
    match f case ColumnId => case _ =>
  }

  function CardFields(): (all: set<CardField>)
    ensures forall f: CardField :: f in all
  {
    assert forall f: CardField :: f in CARD_FIELDS by {
      forall f: CardField { ListedField(f); }
    }
    CARD_FIELDS
  }

  /** The columns of a card row that roaming replicates. */
  datatype CardValues = CardValues(
    column: Uuid, parent: Option<Uuid>, title: string, description: Option<string>,
    priority: Option<string>, position: real, startAt: Option<int>, dueAt: Option<int>,
    isArchived: bool)

  /** One column seen as a value of a common type; `checklists` has no column. */
  datatype Value =
    | NoColumn | Ref(id: Uuid) | MaybeRef(link: Option<Uuid>) | Text(text: string)
    | MaybeText(note: Option<string>) | Number(number: real) | Moment(at: Option<int>) | Flag(flag: bool)

  function Get(v: CardValues, f: CardField): Value {
    match f
    case ColumnId => Ref(v.column)
    case ParentCardId => MaybeRef(v.parent)
    case Title => Text(v.title)
    case Description => MaybeText(v.description)
    case Priority => MaybeText(v.priority)
    case Position => Number(v.position)
    case StartAt => Moment(v.startAt)
    case DueAt => Moment(v.dueAt)
    case IsArchived => Flag(v.isArchived)
    case Checklists => NoColumn
  }

  function Overwrite(v: CardValues, latest: CardValues, win: set<CardField>): CardValues {
    CardValues(
      if ColumnId in win then latest.column else v.column,
      if ParentCardId in win then latest.parent else v.parent,
      if Title in win then latest.title else v.title,
      if Description in win then latest.description else v.description,
      if Priority in win then latest.priority else v.priority,
      if Position in win then latest.position else v.position,
      if StartAt in win then latest.startAt else v.startAt,
      if DueAt in win then latest.dueAt else v.dueAt,
      if IsArchived in win then latest.isArchived else v.isArchived)
  }

  lemma OverwriteGet(v: CardValues, latest: CardValues, win: set<CardField>, f: CardField)
    ensures Get(Overwrite(v, latest, win), f) == if f in win then Get(latest, f) else Get(v, f)
  {}

  lemma SameValues(a: CardValues, b: CardValues)
    requires forall f: CardField :: Get(a, f) == Get(b, f)
    ensures a == b
  {
    assert Get(a, ColumnId) == Get(b, ColumnId) && Get(a, ParentCardId) == Get(b, ParentCardId);
    assert Get(a, Title) == Get(b, Title) && Get(a, Description) == Get(b, Description);
    assert Get(a, Priority) == Get(b, Priority) && Get(a, Position) == Get(b, Position);
    assert Get(a, StartAt) == Get(b, StartAt) && Get(a, DueAt) == Get(b, DueAt);
    assert Get(a, IsArchived) == Get(b, IsArchived);
  }

  datatype Row = Row(values: CardValues, deleted: bool)

  type CardStamps = map<CardField, Stamp>

  /** What a replica holds about one card: its row, if any, and the field stamps. */
  datatype CardView = CardView(row: Option<Row>, stamps: CardStamps)

  /** The part of a put that the merge looks at. */
  datatype CardWrite = CardWrite(stamp: Stamp, mask: set<CardField>, values: CardValues)

  predicate Full(w: CardWrite) {
    CardFields() <= w.mask
  }

  function Winning(v: CardView, w: CardWrite): set<CardField> {
    if v.row.None? then CardFields()
    else set f | f in w.mask && Beats(w.stamp, Lookup(v.stamps, f))
  }

  function Restamp(stamps: CardStamps, win: set<CardField>, s: Stamp): CardStamps {
    stamps + map f | f in win :: s
  }

  /** A put creates a missing row whole, and stamps all of it; otherwise only the
      winning fields move, and a soft-deleted row keeps its values. */
  function Put(v: CardView, w: CardWrite): CardView {
    var win := Winning(v, w);
    var row :=
      match v.row
      case None => Row(w.values, false)
      case Some(r) => if r.deleted then r else Row(Overwrite(r.values, w.values, win), false);
    CardView(Some(row), Restamp(v.stamps, win, w.stamp))
  }

  function Puts(v: CardView, ws: seq<CardWrite>): CardView {
    if ws == [] then v else Put(Puts(v, ws[..|ws| - 1]), ws[|ws| - 1])
  }

  ghost function Elements<T(!new)>(ws: seq<T>): (s: set<T>)
    ensures forall w :: w in s <==> w in ws
  {
    set w | w in ws
  }

  predicate Live(v: CardView) {
    v.row.Some? && !v.row.value.deleted
  }

  /** Distinct writes carry distinct stamps, because the stamp holds the event id. */
  ghost predicate DistinctStamps(s: set<CardWrite>) {
    forall a, b :: a in s && b in s && a.stamp == b.stamp ==> a == b
  }

  /** One field of a live card: its stamp and its value. */
  datatype Cell = Cell(stamp: Option<Stamp>, value: Value)

  function CellOf(v: CardView, f: CardField): Cell
    requires Live(v)
  {
    Cell(Lookup(v.stamps, f), Get(v.row.value.values, f))
  }

  ghost predicate Contends(init: Cell, s: set<CardWrite>, f: CardField, w: CardWrite) {
    w in s && f in w.mask && Beats(w.stamp, init.stamp)
  }

  ghost predicate Leads(init: Cell, s: set<CardWrite>, f: CardField, w: CardWrite) {
    Contends(init, s, f, w) && forall u :: Contends(init, s, f, u) ==> !Newer(u.stamp, w.stamp)
  }

  /** `cell` is what the writes `s`, in whatever order, make of field `f`: the latest
      write that names `f` and beats the initial stamp, or `init` if there is none. */
  ghost predicate Settled(init: Cell, s: set<CardWrite>, f: CardField, cell: Cell) {
    (exists w :: Leads(init, s, f, w) && cell == Cell(Some(w.stamp), Get(w.values, f)))
    || ((forall u :: !Contends(init, s, f, u)) && cell == init)
  }

  lemma SettledStep(init: Cell, s: set<CardWrite>, f: CardField, cell: Cell, w: CardWrite)
    requires Settled(init, s, f, cell)
    ensures Settled(init, s + {w}, f,
      if f in w.mask && Beats(w.stamp, cell.stamp) then Cell(Some(w.stamp), Get(w.values, f)) else cell)
  {
    var s' := s + {w};
    assert forall u :: Contends(init, s', f, u) ==> Contends(init, s, f, u) || u == w;
    if l :| Leads(init, s, f, l) && cell == Cell(Some(l.stamp), Get(l.values, f)) {
      assert Leads(init, s', f, if f in w.mask && Newer(w.stamp, l.stamp) then w else l);
    } else if Contends(init, s', f, w) {
      assert Leads(init, s', f, w);
    }
  }

  /** A winner is determined by the set, so a settled cell is unique. */
  lemma SettledUnique(init: Cell, s: set<CardWrite>, f: CardField, a: Cell, b: Cell)
    requires DistinctStamps(s) && Settled(init, s, f, a) && Settled(init, s, f, b)
    ensures a == b
  {
    if x :| Contends(init, s, f, x) {
      var wa :| Leads(init, s, f, wa) && a == Cell(Some(wa.stamp), Get(wa.values, f));
      var wb :| Leads(init, s, f, wb) && b == Cell(Some(wb.stamp), Get(wb.values, f));
      assert wa.stamp == wb.stamp;
    }
  }

  ghost predicate AllSettled(v0: CardView, s: set<CardWrite>, v: CardView) {
    Live(v0) && Live(v)
    && forall f: CardField :: Settled(CellOf(v0, f), s, f, CellOf(v, f))
  }

  lemma PutCell(v: CardView, w: CardWrite, f: CardField)
    requires Live(v)
    ensures CellOf(Put(v, w), f) ==
      if f in w.mask && Beats(w.stamp, CellOf(v, f).stamp) then Cell(Some(w.stamp), Get(w.values, f))
      else CellOf(v, f)
  {
    OverwriteGet(v.row.value.values, w.values, Winning(v, w), f);
  }

  lemma PutSettles(v0: CardView, s: set<CardWrite>, v: CardView, w: CardWrite)
    requires AllSettled(v0, s, v)
    ensures AllSettled(v0, s + {w}, Put(v, w))
  {
    forall f: CardField ensures Settled(CellOf(v0, f), s + {w}, f, CellOf(Put(v, w), f)) {
      PutCell(v, w, f);
      SettledStep(CellOf(v0, f), s, f, CellOf(v, f), w);
    }
  }

  lemma SameView(a: CardView, b: CardView)
    requires Live(a) && Live(b) && forall f: CardField :: CellOf(a, f) == CellOf(b, f)
    ensures a == b
  {
    forall f: CardField
      ensures Get(a.row.value.values, f) == Get(b.row.value.values, f)
      ensures Lookup(a.stamps, f) == Lookup(b.stamps, f)
    {
      assert CellOf(a, f) == CellOf(b, f);
    }
    SameValues(a.row.value.values, b.row.value.values);
    forall f: CardField ensures f in a.stamps <==> f in b.stamps {
      assert Lookup(a.stamps, f) == Lookup(b.stamps, f);
    }
    forall f: CardField | f in a.stamps ensures a.stamps[f] == b.stamps[f] {
      assert Lookup(a.stamps, f) == Lookup(b.stamps, f);
    }
    assert a.stamps == b.stamps;
  }

  lemma AllSettledUnique(v0: CardView, s: set<CardWrite>, a: CardView, b: CardView)
    requires DistinctStamps(s) && AllSettled(v0, s, a) && AllSettled(v0, s, b)
    ensures a == b
  {
    forall f: CardField ensures CellOf(a, f) == CellOf(b, f) {
      SettledUnique(CellOf(v0, f), s, f, CellOf(a, f), CellOf(b, f));
    }
    SameView(a, b);
  }

  /** Any sequence of puts on a live card leaves each field settled by the set of puts. */
  lemma {:induction false} PutsSettle(v0: CardView, ws: seq<CardWrite>)
    requires Live(v0)
    ensures AllSettled(v0, Elements(ws), Puts(v0, ws))
  {
    if ws == [] {
      assert Elements(ws) == {};
    } else {
      var front, last := ws[..|ws| - 1], ws[|ws| - 1];
      PutsSettle(v0, front);
      PutSettles(v0, Elements(front), Puts(v0, front), last);
      assert ws == front + [last];
      assert Elements(ws) == Elements(front) + {last};
    }
  }

  /** Two replicas that see the same puts on the same live card agree, whatever the
      order and however often each put is repeated. */
  lemma LiveCardConverges(v0: CardView, ws: seq<CardWrite>, us: seq<CardWrite>)
    requires Live(v0) && Elements(ws) == Elements(us) && DistinctStamps(Elements(ws))
    ensures Puts(v0, ws) == Puts(v0, us)
  {
    PutsSettle(v0, ws);
    PutsSettle(v0, us);
    AllSettledUnique(v0, Elements(ws), Puts(v0, ws), Puts(v0, us));
  }

  const ABSENT := CardView(None, map[])

  ghost predicate Greatest(s: set<CardWrite>, g: CardWrite) {
    g in s && forall w :: w in s ==> !Newer(w.stamp, g.stamp)
  }

  lemma {:induction false} GreatestExists(s: set<CardWrite>) returns (g: CardWrite)
    requires s != {}
    ensures Greatest(s, g)
  {
    var x :| x in s;
    if s == {x} {
      g := x;
    } else {
      var rest := GreatestExists(s - {x});
      g := if Newer(x.stamp, rest.stamp) then x else rest;
      forall w | w in s ensures !Newer(w.stamp, g.stamp) {
        assert w == x || w in s - {x};
      }
    }
  }

  lemma {:induction false} Enumerate<T(!new)>(s: set<T>) returns (ws: seq<T>)
    ensures Elements(ws) == s
  {
    if s == {} {
      ws := [];
    } else {
      var x :| x in s;
      var rest := Enumerate(s - {x});
      ws := [x] + rest;
      assert forall w :: w in ws <==> w == x || w in rest;
    }
  }

  lemma {:induction false} PutsSplit(v: CardView, ws: seq<CardWrite>, us: seq<CardWrite>)
    ensures Puts(v, ws + us) == Puts(Puts(v, ws), us)
  {
    if us == [] {
      assert ws + us == ws;
    } else {
      PutsSplit(v, ws, us[..|us| - 1]);
      assert (ws + us)[..|ws + us| - 1] == ws + us[..|us| - 1];
    }
  }

  /** The put that happens to arrive first creates the card and stamps every field. */
  lemma FromAbsent(first: CardWrite, rest: seq<CardWrite>)
    ensures AllSettled(Put(ABSENT, first), Elements(rest), Puts(ABSENT, [first] + rest))
    ensures forall f: CardField :: CellOf(Put(ABSENT, first), f) == Cell(Some(first.stamp), Get(first.values, f))
  {
    PutsSplit(ABSENT, [first], rest);
    assert [first][..0] == [];
    assert Puts(ABSENT, [first]) == Put(Puts(ABSENT, []), first);
    PutsSettle(Put(ABSENT, first), rest);
  }

  /** Every order of one set of puts, with any repetitions, ends in the same card. */
  ghost predicate OrderFree(s: set<CardWrite>) {
    forall ws, us :: Elements(ws) == s && Elements(us) == s ==> Puts(ABSENT, ws) == Puts(ABSENT, us)
  }

  /** Starting from a card nobody has seen, a greatest put that names every field is the result. */
  lemma FullGreatestWins(s: set<CardWrite>, g: CardWrite, ws: seq<CardWrite>)
    requires DistinctStamps(s) && Greatest(s, g) && Full(g) && Elements(ws) == s
    ensures Puts(ABSENT, ws) == Put(ABSENT, g)
  {
    assert g in ws;
    var first, rest := ws[0], ws[1..];
    assert ws == [first] + rest;
    FromAbsent(first, rest);
    FromAbsent(g, []);
    var v1, v := Put(ABSENT, first), Puts(ABSENT, ws);
    forall f: CardField ensures CellOf(v, f) == CellOf(Put(ABSENT, g), f) {
      assert Settled(CellOf(v1, f), Elements(rest), f, CellOf(v, f));
      assert f in g.mask;
      assert g == first || Contends(CellOf(v1, f), Elements(rest), f, g) by {
        assert first in s && g != first ==> g.stamp != first.stamp;
      }
    }
    SameView(v, Put(ABSENT, g));
  }

  lemma OrderMattersWithout(s: set<CardWrite>, g: CardWrite, f: CardField)
    requires DistinctStamps(s) && Greatest(s, g) && g in s && s != {g} && f !in g.mask
    ensures !OrderFree(s)
  {
    hide *;
    var other := Another(s, g);
    var all := Enumerate(s);
    var ws, us := [g] + all, [other] + all;
    ExtraFirst(s, g, all);
    ExtraFirst(s, other, all);
    StartsWith(s, all, g, g, f);
    StartsWith(s, all, g, other, f);
    OrdersDiffer(s, ws, us);
  }

  lemma OrdersDiffer(s: set<CardWrite>, ws: seq<CardWrite>, us: seq<CardWrite>)
    requires Elements(ws) == s && Elements(us) == s && Puts(ABSENT, ws) != Puts(ABSENT, us)
    ensures !OrderFree(s)
  {}

  lemma Another(s: set<CardWrite>, g: CardWrite) returns (other: CardWrite)
    requires g in s && s != {g}
    ensures other in s && other != g
  {
    other :| other in s && other != g;
  }

  lemma ExtraFirst(s: set<CardWrite>, first: CardWrite, all: seq<CardWrite>)
    requires first in s && Elements(all) == s
    ensures Elements([first] + all) == s
  {}

  /** A field that the greatest put does not name keeps the greatest stamp only if that
      put came first and created the card. */
  lemma StartsWith(s: set<CardWrite>, all: seq<CardWrite>, g: CardWrite, first: CardWrite, f: CardField)
    requires DistinctStamps(s) && Greatest(s, g) && Elements(all) == s && first in s && f !in g.mask
    ensures Live(Puts(ABSENT, [first] + all))
    ensures CellOf(Puts(ABSENT, [first] + all), f).stamp == Some(g.stamp) <==> first == g
  {
    FromAbsent(first, all);
    assert Settled(CellOf(Put(ABSENT, first), f), s, f, CellOf(Puts(ABSENT, [first] + all), f));
    forall u | Contends(CellOf(Put(ABSENT, first), f), s, f, u) ensures u.stamp != g.stamp {}
  }

  lemma {:induction false} SinglePut(ws: seq<CardWrite>, g: CardWrite)
    requires Elements(ws) == {g}
    ensures Puts(ABSENT, ws) == Put(ABSENT, g)
  {
    assert g in ws && forall w :: w in ws ==> w == g;
    var first, rest := ws[0], ws[1..];
    assert first in ws && ws == [first] + rest;
    FromAbsent(first, rest);
    var v := Put(ABSENT, g);
    forall f: CardField ensures CellOf(Puts(ABSENT, ws), f) == CellOf(v, f) {
      forall u ensures !Contends(CellOf(v, f), Elements(rest), f, u) {
        assert u in rest ==> u in ws;
      }
      assert Settled(CellOf(v, f), Elements(rest), f, CellOf(Puts(ABSENT, ws), f));
    }
    SameView(Puts(ABSENT, ws), v);
  }

  /** Exactly when a card that starts absent ends the same for every order of its puts:
      the latest put names every field, or it is the only one. */
  lemma AbsentCardConvergesIff(s: set<CardWrite>, g: CardWrite)
    requires DistinctStamps(s) && Greatest(s, g)
    ensures OrderFree(s) <==> s == {g} || Full(g)
  {
    if Full(g) {
      forall ws, us | Elements(ws) == s && Elements(us) == s
        ensures Puts(ABSENT, ws) == Puts(ABSENT, us)
      {
        FullGreatestWins(s, g, ws);
        FullGreatestWins(s, g, us);
      }
    } else if s == {g} {
      forall ws, us | Elements(ws) == s && Elements(us) == s
        ensures Puts(ABSENT, ws) == Puts(ABSENT, us)
      {
        SinglePut(ws, g);
        SinglePut(us, g);
      }
    } else {
      var f :| f in CardFields() && f !in g.mask;
      OrderMattersWithout(s, g, f);
    }
  }

  // From any start, by any sequence of puts.

  /** Some sequence of exactly these writes, with any repetitions, leads from `v0` to `v`. */
  ghost predicate Came(v0: CardView, s: set<CardWrite>, v: CardView) {
    exists ws :: Elements(ws) == s && v == Puts(v0, ws)
  }

  lemma CameNowhere(v: CardView)
    ensures Came(v, {}, v)
  {
    assert Elements<CardWrite>([]) == {} && Puts(v, []) == v;
  }

  lemma CameStep(v0: CardView, s: set<CardWrite>, v: CardView, w: CardWrite)
    requires Came(v0, s, v)
    ensures Came(v0, s + {w}, Put(v, w))
  {
    var ws :| Elements(ws) == s && v == Puts(v0, ws);
    assert (ws + [w])[..|ws|] == ws;
    assert Elements(ws + [w]) == s + {w};
    assert Puts(v0, ws + [w]) == Put(v, w);
  }

  /** The result does not depend on the sequence: the card was live; or it was unknown, and
      its latest put names every field or is the only one. */
  ghost predicate Determined(v0: CardView, s: set<CardWrite>) {
    Live(v0) || (v0 == ABSENT && (s == {} || exists g :: Greatest(s, g) && (s == {g} || Full(g))))
  }

  lemma CameSettled(v0: CardView, s: set<CardWrite>, v: CardView)
    requires Live(v0) && Came(v0, s, v)
    ensures AllSettled(v0, s, v)
  {
    var ws :| Elements(ws) == s && v == Puts(v0, ws);
    PutsSettle(v0, ws);
  }

  /** An unknown card becomes what its deciding put makes of it alone. */
  lemma CameWhole(s: set<CardWrite>, v: CardView) returns (g: CardWrite)
    requires DistinctStamps(s) && s != {} && Determined(ABSENT, s) && Came(ABSENT, s, v)
    ensures Greatest(s, g) && (s == {g} || Full(g)) && v == Put(ABSENT, g)
  {
    hide Puts, Put, Greatest, Full, DistinctStamps;
    var ws :| Elements(ws) == s && v == Puts(ABSENT, ws);
    g :| Greatest(s, g) && (s == {g} || Full(g));
    if s == {g} {
      SinglePut(ws, g);
    } else {
      FullGreatestWins(s, g, ws);
    }
  }

  lemma CameUnique(v0: CardView, s: set<CardWrite>, a: CardView, b: CardView)
    requires DistinctStamps(s) && Determined(v0, s) && Came(v0, s, a) && Came(v0, s, b)
    ensures a == b
  {
    hide Puts, Put, Full, AllSettled;
    if Live(v0) {
      CameSettled(v0, s, a);
      CameSettled(v0, s, b);
      AllSettledUnique(v0, s, a, b);
    } else if s == {} {
      CameEmpty(v0, a);
      CameEmpty(v0, b);
    } else {
      var g := CameWhole(s, a);
      var h := CameWhole(s, b);
      assert g.stamp == h.stamp;
    }
  }

  lemma SomeElement(ws: seq<CardWrite>)
    ensures ws != [] ==> Elements(ws) != {}
  {
    if ws != [] { assert ws[0] in Elements(ws); }
  }

  lemma CameEmpty(v0: CardView, v: CardView)
    requires Came(v0, {}, v)
    ensures v == v0
  {
    var ws :| Elements(ws) == {} && v == Puts(v0, ws);
    SomeElement(ws);
  }

  /** A put makes a row whenever there is none. */
  lemma {:induction false} PutsMakeRow(ws: seq<CardWrite>)
    ensures Puts(ABSENT, ws).row.Some? <==> ws != []
    ensures ws != [] ==> Live(Puts(ABSENT, ws))
  {
    if ws != [] { PutsMakeRow(ws[..|ws| - 1]); }
  }

  lemma CameLive(v0: CardView, s: set<CardWrite>, v: CardView)
    requires (Live(v0) || v0 == ABSENT) && Came(v0, s, v)
    ensures if v0 == ABSENT && s == {} then v == ABSENT else Live(v)
  {
    if Live(v0) {
      CameSettled(v0, s, v);
    } else {
      var ws :| Elements(ws) == s && v == Puts(v0, ws);
      PutsMakeRow(ws);
      if s == {} { CameEmpty(v0, v); } else { assert ws != []; }
    }
  }
}
