/**
 How one checklist, or one checklist item, absorbs put and delete deltas.
 The two kinds follow the same rules: a lifecycle stamp decides whether the row
 is live, and each column has a stamp of its own. An item has one more column.
 */
module ChildMerge {
  import opened Wrappers
  import opened Stamps
  import Cards = CardMerge

  datatype ChildField = ChildTitle | ChildPosition | ChildDone

  datatype ChildKind = Checklist | Item

  function FieldsOf(kind: ChildKind): set<ChildField> {
    if kind.Checklist? then {ChildTitle, ChildPosition} else {ChildTitle, ChildPosition, ChildDone}
  }

  /** A checklist has no `done` column: there the component is never written. */
  datatype ChildValues = ChildValues(title: string, position: real, done: bool)

  datatype ChildRow = ChildRow(values: ChildValues, deleted: bool)

  datatype ChildView = ChildView(row: Option<ChildRow>, life: Option<Stamp>, stamps: map<ChildField, Stamp>)

  datatype ChildWrite = ChildWrite(stamp: Stamp, all: bool, mask: set<ChildField>, values: ChildValues)

  function Overwrite(v: ChildValues, latest: ChildValues, win: set<ChildField>): ChildValues {
    ChildValues(
      if ChildTitle in win then latest.title else v.title,
      if ChildPosition in win then latest.position else v.position,
      if ChildDone in win then latest.done else v.done)
  }

  function Winning(kind: ChildKind, v: ChildView, w: ChildWrite): set<ChildField> {
    set f | f in FieldsOf(kind) && (w.all || f in w.mask) && Beats(w.stamp, Lookup(v.stamps, f))
  }

  /** The lifecycle is contested by a full put, and by any put of a row not seen yet. */
  predicate LifeWins(v: ChildView, w: ChildWrite) {
    (w.all || v.row.None?) && Beats(w.stamp, v.life)
  }

  function PutRow(v: ChildView, w: ChildWrite, win: set<ChildField>, life: bool): Option<ChildRow> {
    match v.row
    case None => if life then Some(ChildRow(w.values, false)) else None
    case Some(r) =>
      if !r.deleted || life then Some(ChildRow(Overwrite(r.values, w.values, win), r.deleted && !life))
      else Some(r)
  }

  /** The column stamps advance even where the row is not written. */
  function Put(kind: ChildKind, v: ChildView, w: ChildWrite): ChildView {
    var win := Winning(kind, v, w);
    var life := LifeWins(v, w);
    ChildView(
      PutRow(v, w, win, life),
      if life then Some(w.stamp) else v.life,
      v.stamps + map f | f in win :: w.stamp)
  }

  /** A delete that wins the lifecycle hides the row, when the row is `inScope`. */
  function Delete(v: ChildView, s: Stamp, inScope: bool): ChildView {
    if !Beats(s, v.life) then v
    else
      var row := if v.row.Some? && inScope then Some(v.row.value.(deleted := true)) else v.row;
      ChildView(row, Some(s), v.stamps)
  }

  function Visible(v: ChildView): Option<ChildValues> {
    if v.row.Some? && !v.row.value.deleted then Some(v.row.value.values) else None
  }

  datatype ChildOp = PutOp(write: ChildWrite) | DeleteOp(at: Stamp)

  function StampOf(op: ChildOp): Stamp {
    if op.PutOp? then op.write.stamp else op.at
  }

  function Apply(kind: ChildKind, v: ChildView, op: ChildOp): ChildView {
    match op
    case PutOp(w) => Put(kind, v, w)
    case DeleteOp(s) => Delete(v, s, true)
  }

  function ApplyAll(kind: ChildKind, v: ChildView, ops: seq<ChildOp>): ChildView {
    if ops == [] then v else Apply(kind, ApplyAll(kind, v, ops[..|ops| - 1]), ops[|ops| - 1])
  }

  const UNSEEN := ChildView(None, None, map[])

  ghost predicate DistinctStamps(ops: set<ChildOp>) {
    forall a, b :: a in ops && b in ops && StampOf(a) == StampOf(b) ==> a == b
  }

  ghost predicate Greatest(ops: set<ChildOp>, g: ChildOp) {
    g in ops && forall op :: op in ops ==> !Newer(StampOf(op), StampOf(g))
  }

  ghost predicate OnlyPut(ops: set<ChildOp>, g: ChildOp) {
    forall op :: op in ops && op.PutOp? ==> op == g
  }

  /** The greatest delta settles the row: it is a delete, a full put, or the only put there is.
      In other words, no partial put is newer than every full put and delete, unless it is alone. */
  ghost predicate Decides(ops: set<ChildOp>, g: ChildOp) {
    g.DeleteOp? || g.write.all || OnlyPut(ops, g)
  }

  ghost predicate StampIn(ops: set<ChildOp>, s: Stamp) {
    exists op :: op in ops && StampOf(op) == s
  }

  /** Every stamp comes from a delta, and only a put makes a row. */
  ghost predicate Traced(kind: ChildKind, ops: set<ChildOp>, v: ChildView) {
    && (v.life.Some? ==> StampIn(ops, v.life.value))
    && (forall f :: f in v.stamps ==> f in FieldsOf(kind) && StampIn(ops, v.stamps[f]))
    && ((forall op :: op in ops ==> op.DeleteOp?) ==> v.row.None?)
  }

  /** What the deltas `ops`, in any order, make of a row nobody had seen: the greatest one
      decides, where it can. */
  ghost predicate Agreed(kind: ChildKind, ops: set<ChildOp>, v: ChildView) {
    Traced(kind, ops, v) && (ops == {} ==> v == UNSEEN)
    && forall g :: Greatest(ops, g) && Decides(ops, g) ==> v.life == Some(StampOf(g)) && Reflects(kind, g, v)
  }

  ghost predicate Reflects(kind: ChildKind, g: ChildOp, v: ChildView) {
    match g
    case PutOp(w) =>
      v.row == Some(ChildRow(w.values, false)) && (w.all ==> v.stamps == map f | f in FieldsOf(kind) :: w.stamp)
    case DeleteOp(s) => Visible(v).None?
  }

  /** An item's values are all columns; a checklist put leaves `done` alone. */
  ghost predicate PlainValues(kind: ChildKind, v: ChildValues) {
    kind.Checklist? ==> !v.done
  }

  ghost predicate PlainOp(kind: ChildKind, op: ChildOp) {
    op.PutOp? ==> PlainValues(kind, op.write.values)
  }

  ghost predicate WellFormed(kind: ChildKind, ops: set<ChildOp>) {
    DistinctStamps(ops) && forall op :: op in ops ==> PlainOp(kind, op)
  }

  ghost predicate RowPlain(kind: ChildKind, v: ChildView) {
    v.row.Some? ==> PlainValues(kind, v.row.value.values)
  }

  /** A delta newer than every stamp in the view, and one that can decide. */
  lemma NewestReflects(kind: ChildKind, v: ChildView, g: ChildOp)
    requires v.life.Some? ==> Newer(StampOf(g), v.life.value)
    requires forall f :: f in v.stamps ==> f in FieldsOf(kind) && Newer(StampOf(g), v.stamps[f])
    requires RowPlain(kind, v) && PlainOp(kind, g)
    requires g.DeleteOp? || g.write.all || v.row.None?
    ensures var v' := Apply(kind, v, g); v'.life == Some(StampOf(g)) && Reflects(kind, g, v')
  {
    if g.PutOp? && g.write.all {
      assert Winning(kind, v, g.write) == FieldsOf(kind);
      assert Put(kind, v, g.write).stamps == map f | f in FieldsOf(kind) :: g.write.stamp;
    }
  }

  /** The decided row is left alone by every delta that is not newer; repeating is nothing. */
  lemma DecidedStays(kind: ChildKind, v: ChildView, g: ChildOp, op: ChildOp)
    requires v.life == Some(StampOf(g)) && Reflects(kind, g, v)
    requires !Newer(StampOf(op), StampOf(g))
    requires g.DeleteOp? || g.write.all || op.DeleteOp? || op == g
    ensures var v' := Apply(kind, v, op); v'.life == v.life && Reflects(kind, g, v')
  {
    if g.PutOp? && op.PutOp? {
      var win := Winning(kind, v, op.write);
      if g.write.all {
        assert win == {};
        assert Put(kind, v, op.write).stamps == v.stamps;
      }
      assert Overwrite(v.row.value.values, op.write.values, win) == v.row.value.values;
    }
  }

  lemma ApplyTraces(kind: ChildKind, ops: set<ChildOp>, v: ChildView, op: ChildOp)
    requires Traced(kind, ops, v)
    ensures Traced(kind, ops + {op}, Apply(kind, v, op))
  {
    var ops', v' := ops + {op}, Apply(kind, v, op);
    assert op in ops';
    forall s | StampIn(ops, s) ensures StampIn(ops', s) {
      var x :| x in ops && StampOf(x) == s;
      assert x in ops';
    }
    assert (forall x :: x in ops' ==> x.DeleteOp?) ==> op.DeleteOp? && forall x :: x in ops ==> x.DeleteOp? by {
      forall x | x in ops ensures x in ops' {}
    }
  }

  lemma ApplyPlain(kind: ChildKind, v: ChildView, op: ChildOp)
    requires RowPlain(kind, v) && PlainOp(kind, op)
    ensures RowPlain(kind, Apply(kind, v, op))
  {}

  lemma ApplyAgrees(kind: ChildKind, ops: set<ChildOp>, v: ChildView, op: ChildOp)
    requires WellFormed(kind, ops + {op}) && Agreed(kind, ops, v) && RowPlain(kind, v)
    ensures Agreed(kind, ops + {op}, Apply(kind, v, op)) && RowPlain(kind, Apply(kind, v, op))
  {
    hide Apply, Reflects, RowPlain, PlainOp, Decides;
    var ops' := ops + {op};
    assert op in ops';
    ApplyTraces(kind, ops, v, op);
    ApplyPlain(kind, v, op);
    forall g | Greatest(ops', g) && Decides(ops', g)
      ensures Apply(kind, v, op).life == Some(StampOf(g)) && Reflects(kind, g, Apply(kind, v, op))
    {
      if g in ops {
        DecidesFewer(ops, op, g);
        DecidedStays(kind, v, g, op);
      } else {
        NewestOfAll(kind, ops, v, g);
        NewestReflects(kind, v, g);
      }
    }
  }

  lemma DecidesFewer(ops: set<ChildOp>, op: ChildOp, g: ChildOp)
    requires g in ops && Greatest(ops + {op}, g) && Decides(ops + {op}, g)
    ensures Greatest(ops, g) && Decides(ops, g) && !Newer(StampOf(op), StampOf(g))
    ensures g.DeleteOp? || g.write.all || op.DeleteOp? || op == g
  {
    assert op in ops + {op};
    forall x | x in ops ensures x in ops + {op} {}
  }

  lemma NewestOfAll(kind: ChildKind, ops: set<ChildOp>, v: ChildView, g: ChildOp)
    requires DistinctStamps(ops + {g}) && g !in ops && Greatest(ops + {g}, g) && Decides(ops + {g}, g)
    requires Traced(kind, ops, v)
    ensures v.life.Some? ==> Newer(StampOf(g), v.life.value)
    ensures forall f :: f in v.stamps ==> f in FieldsOf(kind) && Newer(StampOf(g), v.stamps[f])
    ensures g.DeleteOp? || g.write.all || v.row.None?
  {
    forall s | StampIn(ops, s) ensures Newer(StampOf(g), s) {
      var x :| x in ops && StampOf(x) == s;
      assert x in ops + {g} && x != g;
    }
    if g.PutOp? && !g.write.all {
      forall x | x in ops ensures x.DeleteOp? {
        assert x in ops + {g};
      }
    }
  }

  ghost function Elements(ops: seq<ChildOp>): (s: set<ChildOp>)
    ensures forall op :: op in s <==> op in ops
  {
    set op | op in ops
  }

  lemma {:induction false} AllAgree(kind: ChildKind, ops: seq<ChildOp>)
    requires WellFormed(kind, Elements(ops))
    ensures Agreed(kind, Elements(ops), ApplyAll(kind, UNSEEN, ops)) && RowPlain(kind, ApplyAll(kind, UNSEEN, ops))
  {
    if ops == [] {
      assert Elements(ops) == {};
    } else {
      var front, last := ops[..|ops| - 1], ops[|ops| - 1];
      assert ops == front + [last];
      assert Elements(ops) == Elements(front) + {last};
      AllAgree(kind, front);
      ApplyAgrees(kind, Elements(front), ApplyAll(kind, UNSEEN, front), last);
    }
  }

  lemma AgreedVisible(kind: ChildKind, ops: set<ChildOp>, g: ChildOp, v: ChildView)
    requires Greatest(ops, g) && Decides(ops, g) && Agreed(kind, ops, v)
    ensures Visible(v) == if g.PutOp? then Some(g.write.values) else None
    ensures v.life == Some(StampOf(g))
  {}

  ghost predicate Decisive(ops: set<ChildOp>) {
    ops == {} || exists g :: Greatest(ops, g) && Decides(ops, g)
  }

  /** What is shown, and the lifecycle stamp, are functions of a decisive set of deltas. */
  lemma AgreedUnique(kind: ChildKind, ops: set<ChildOp>, a: ChildView, b: ChildView)
    requires Decisive(ops) && Agreed(kind, ops, a) && Agreed(kind, ops, b)
    ensures Visible(a) == Visible(b) && a.life == b.life
  {
    if ops != {} {
      var g :| Greatest(ops, g) && Decides(ops, g);
      AgreedVisible(kind, ops, g, a);
      AgreedVisible(kind, ops, g, b);
    }
  }

  /** For any order and any repetition, a greatest delta that can decide does: the row ends
      live iff it is a put, and then every column is that put's. */
  lemma LifecycleConverges(kind: ChildKind, ops: seq<ChildOp>, g: ChildOp)
    requires WellFormed(kind, Elements(ops)) && Greatest(Elements(ops), g) && Decides(Elements(ops), g)
    ensures Visible(ApplyAll(kind, UNSEEN, ops)) == if g.PutOp? then Some(g.write.values) else None
    ensures ApplyAll(kind, UNSEEN, ops).life == Some(StampOf(g))
  {
    AllAgree(kind, ops);
    AgreedVisible(kind, Elements(ops), g, ApplyAll(kind, UNSEEN, ops));
  }

  // From any start, by any sequence of deltas.

  /** Some sequence of exactly these deltas, with any repetitions, leads from `v0` to `v`. */
  ghost predicate Came(kind: ChildKind, v0: ChildView, ops: set<ChildOp>, v: ChildView) {
    exists a :: Elements(a) == ops && v == ApplyAll(kind, v0, a)
  }

  lemma CameNowhere(kind: ChildKind, v: ChildView)
    ensures Came(kind, v, {}, v)
  {
    assert Elements([]) == {} && ApplyAll(kind, v, []) == v;
  }

  lemma CameStep(kind: ChildKind, v0: ChildView, ops: set<ChildOp>, v: ChildView, op: ChildOp)
    requires Came(kind, v0, ops, v)
    ensures Came(kind, v0, ops + {op}, Apply(kind, v, op))
  {
    hide Apply;
    var a :| Elements(a) == ops && v == ApplyAll(kind, v0, a);
    assert (a + [op])[..|a|] == a;
    assert Elements(a + [op]) == ops + {op};
    assert ApplyAll(kind, v0, a + [op]) == Apply(kind, v, op);
  }

  lemma CameAgrees(kind: ChildKind, ops: set<ChildOp>, v: ChildView)
    requires WellFormed(kind, ops) && Came(kind, UNSEEN, ops, v)
    ensures Agreed(kind, ops, v)
  {
    hide Agreed, WellFormed;
    var a :| Elements(a) == ops && v == ApplyAll(kind, UNSEEN, a);
    AllAgree(kind, a);
  }

  // A row that is there already.

  function ColumnOf(v: ChildValues, f: ChildField): Cards.Value {
    match f
    case ChildTitle => Cards.Text(v.title)
    case ChildPosition => Cards.Number(v.position)
    case ChildDone => Cards.Flag(v.done)
  }

  /** A column with its stamp. */
  function CellOf(v: ChildView, f: ChildField): Cards.Cell
    requires v.row.Some?
  {
    Cards.Cell(Lookup(v.stamps, f), ColumnOf(v.row.value.values, f))
  }

  predicate Names(op: ChildOp, f: ChildField) {
    op.PutOp? && (op.write.all || f in op.write.mask)
  }

  ghost predicate ColumnContends(v0: ChildView, ops: set<ChildOp>, f: ChildField, op: ChildOp) {
    op in ops && Names(op, f) && Beats(StampOf(op), Lookup(v0.stamps, f))
  }

  /** The column is as at the start, or has the stamp of some delta that names it and beat the
      stamp from the start. */
  ghost predicate ColumnTraced(v0: ChildView, ops: set<ChildOp>, v: ChildView, f: ChildField)
    requires v0.row.Some? && v.row.Some?
  {
    CellOf(v, f) == CellOf(v0, f)
    || exists op :: ColumnContends(v0, ops, f, op) && Lookup(v.stamps, f) == Some(StampOf(op))
  }

  ghost predicate KnownTraced(kind: ChildKind, v0: ChildView, ops: set<ChildOp>, v: ChildView) {
    v0.row.Some? && v.row.Some?
    && (v.life == v0.life || (v.life.Some? && StampIn(ops, v.life.value)))
    && forall f :: f in FieldsOf(kind) ==> ColumnTraced(v0, ops, v, f)
  }

  /** What a deciding delta makes of a known row: it is hidden, or live with every column that
      the delta wins from the start. */
  ghost predicate KnownOutcome(kind: ChildKind, v0: ChildView, g: ChildOp, v: ChildView)
    requires v0.row.Some? && v.row.Some?
  {
    v.life == Some(StampOf(g)) && (v.row.value.deleted <==> g.DeleteOp?)
    && (g.PutOp? ==> forall f :: f in FieldsOf(kind) ==> CellOf(v, f) == WonCell(v0, g.write, f))
  }

  function WonCell(v0: ChildView, w: ChildWrite, f: ChildField): Cards.Cell
    requires v0.row.Some?
  {
    if Beats(w.stamp, Lookup(v0.stamps, f)) then Cards.Cell(Some(w.stamp), ColumnOf(w.values, f)) else CellOf(v0, f)
  }

  /** A delta that can decide a known row: a delete or full put, newer than all others and than
      the lifecycle stamp from the start. */
  ghost predicate DecidesKnown(v0: ChildView, ops: set<ChildOp>, g: ChildOp) {
    Greatest(ops, g) && !Partial(g) && Beats(StampOf(g), v0.life)
  }

  lemma PutColumn(kind: ChildKind, v: ChildView, w: ChildWrite, f: ChildField)
    requires v.row.Some? && f in FieldsOf(kind)
    ensures var v', win := Put(kind, v, w), f in Winning(kind, v, w);
      v'.row.Some? && Lookup(v'.stamps, f) == (if win then Some(w.stamp) else Lookup(v.stamps, f))
      && ColumnOf(v'.row.value.values, f) ==
        if win && (!v.row.value.deleted || LifeWins(v, w)) then ColumnOf(w.values, f)
        else ColumnOf(v.row.value.values, f)
  {}

  lemma NewerThanAll(ops: set<ChildOp>, g: ChildOp, s: Stamp)
    requires DistinctStamps(ops + {g}) && g !in ops && Greatest(ops + {g}, g) && StampIn(ops, s)
    ensures Newer(StampOf(g), s)
  {
    var x :| x in ops && StampOf(x) == s;
    assert x in ops + {g} && g in ops + {g} && x != g;
  }

  lemma KnownTraces(kind: ChildKind, v0: ChildView, ops: set<ChildOp>, v: ChildView, op: ChildOp)
    requires KnownTraced(kind, v0, ops, v)
    ensures KnownTraced(kind, v0, ops + {op}, Apply(kind, v, op))
  {
    hide Winning, CellOf, Put;
    var ops', v' := ops + {op}, Apply(kind, v, op);
    assert op in ops';
    LifeTraces(kind, ops, v, op);
    forall s | StampIn(ops, s) ensures StampIn(ops', s) {
      var x :| x in ops && StampOf(x) == s;
      assert x in ops';
    }
    forall f | f in FieldsOf(kind) ensures ColumnTraced(v0, ops', v', f) {
      ColumnTraces(kind, v0, ops, v, op, f);
    }
  }

  lemma LifeTraces(kind: ChildKind, ops: set<ChildOp>, v: ChildView, op: ChildOp)
    requires v.row.Some?
    ensures var v' := Apply(kind, v, op);
      v'.row.Some? && (v'.life == v.life || (v'.life == Some(StampOf(op)) && Beats(StampOf(op), v.life)))
  {}

  lemma ColumnTraces(kind: ChildKind, v0: ChildView, ops: set<ChildOp>, v: ChildView, op: ChildOp, f: ChildField)
    requires v0.row.Some? && v.row.Some? && f in FieldsOf(kind) && ColumnTraced(v0, ops, v, f)
    ensures Apply(kind, v, op).row.Some? && ColumnTraced(v0, ops + {op}, Apply(kind, v, op), f)
  {
    var ops', v' := ops + {op}, Apply(kind, v, op);
    if op.PutOp? { PutColumn(kind, v, op.write, f); }
    if op.PutOp? && f in Winning(kind, v, op.write) {
      assert ColumnContends(v0, ops', f, op) && Lookup(v'.stamps, f) == Some(StampOf(op));
    } else if x :| ColumnContends(v0, ops, f, x) && Lookup(v.stamps, f) == Some(StampOf(x)) {
      assert ColumnContends(v0, ops', f, x);
    }
  }

  /** A newest delta that can decide does. */
  lemma NewestDecides(kind: ChildKind, v0: ChildView, ops: set<ChildOp>, v: ChildView, g: ChildOp)
    requires KnownTraced(kind, v0, ops, v) && g !in ops && DistinctStamps(ops + {g}) && DecidesKnown(v0, ops + {g}, g)
    ensures var v' := Apply(kind, v, g); v'.row.Some? && KnownOutcome(kind, v0, g, v')
  {
    hide Greatest, DistinctStamps, StampIn;
    if v.life.Some? && v.life != v0.life { NewerThanAll(ops, g, v.life.value); }
    if g.PutOp? {
      assert LifeWins(v, g.write);
      forall f | f in FieldsOf(kind) ensures CellOf(Apply(kind, v, g), f) == WonCell(v0, g.write, f) {
        PutColumn(kind, v, g.write, f);
        NewestColumn(kind, v0, ops, v, g, f);
      }
    }
  }

  lemma NewestColumn(kind: ChildKind, v0: ChildView, ops: set<ChildOp>, v: ChildView, g: ChildOp, f: ChildField)
    requires v0.row.Some? && v.row.Some? && ColumnTraced(v0, ops, v, f)
    requires g !in ops && DistinctStamps(ops + {g}) && Greatest(ops + {g}, g)
    ensures Beats(StampOf(g), Lookup(v.stamps, f)) <==> Beats(StampOf(g), Lookup(v0.stamps, f))
    ensures !Beats(StampOf(g), Lookup(v0.stamps, f)) ==> CellOf(v, f) == CellOf(v0, f)
  {
    hide Greatest, DistinctStamps;
    if x :| ColumnContends(v0, ops, f, x) && Lookup(v.stamps, f) == Some(StampOf(x)) {
      assert StampIn(ops, StampOf(x));
      NewerThanAll(ops, g, StampOf(x));
    }
  }

  /** After it, no delta that is not newer changes anything. */
  lemma DecidedKeeps(kind: ChildKind, v0: ChildView, g: ChildOp, v: ChildView, op: ChildOp)
    requires v0.row.Some? && v.row.Some? && KnownOutcome(kind, v0, g, v) && !Newer(StampOf(op), StampOf(g))
    ensures Apply(kind, v, op).row.Some? && KnownOutcome(kind, v0, g, Apply(kind, v, op))
  {
    if op.PutOp? && g.PutOp? {
      forall f | f in FieldsOf(kind) ensures CellOf(Apply(kind, v, op), f) == WonCell(v0, g.write, f) {
        PutColumn(kind, v, op.write, f);
        assert CellOf(v, f) == WonCell(v0, g.write, f);
      }
    }
  }

  lemma {:induction false} KnownDecided(kind: ChildKind, v0: ChildView, a: seq<ChildOp>)
    requires v0.row.Some? && DistinctStamps(Elements(a))
    ensures var v := ApplyAll(kind, v0, a);
      KnownTraced(kind, v0, Elements(a), v)
      && forall g :: DecidesKnown(v0, Elements(a), g) ==> KnownOutcome(kind, v0, g, v)
  {
    hide Apply, KnownTraced, KnownOutcome, StampOf, Partial;
    if a == [] {
      assert Elements(a) == {};
      StartTraced(kind, v0);
    } else {
      var front, op := a[..|a| - 1], a[|a| - 1];
      var ops, v := Elements(front), ApplyAll(kind, v0, front);
      assert a == front + [op];
      assert Elements(a) == ops + {op};
      KnownDecided(kind, v0, front);
      KnownTraces(kind, v0, ops, v, op);
      HasRow(kind, v0, ops, v);
      HasRow(kind, v0, ops + {op}, Apply(kind, v, op));
      forall g | DecidesKnown(v0, ops + {op}, g) ensures KnownOutcome(kind, v0, g, Apply(kind, v, op)) {
        if g in ops {
          assert op in ops + {op};
          assert DecidesKnown(v0, ops, g) by { FewerDecide(v0, ops, op, g); }
          DecidedKeeps(kind, v0, g, v, op);
        } else {
          NewestDecides(kind, v0, ops, v, g);
        }
      }
    }
  }

  lemma StartTraced(kind: ChildKind, v0: ChildView)
    requires v0.row.Some?
    ensures KnownTraced(kind, v0, {}, v0)
  {}

  lemma HasRow(kind: ChildKind, v0: ChildView, ops: set<ChildOp>, v: ChildView)
    requires KnownTraced(kind, v0, ops, v)
    ensures v.row.Some?
  {}

  lemma FewerDecide(v0: ChildView, ops: set<ChildOp>, op: ChildOp, g: ChildOp)
    requires g in ops && DecidesKnown(v0, ops + {op}, g)
    ensures DecidesKnown(v0, ops, g)
  {
    forall x | x in ops ensures x in ops + {op} {}
  }

  /** A live row that no delete of the set can hide: each column is its own register. */
  ghost predicate Unhidden(v0: ChildView, ops: set<ChildOp>) {
    Visible(v0).Some? && forall op :: op in ops && op.DeleteOp? ==> !Beats(StampOf(op), v0.life)
  }

  ghost predicate ColumnLeads(v0: ChildView, ops: set<ChildOp>, f: ChildField, op: ChildOp) {
    ColumnContends(v0, ops, f, op) && forall x :: ColumnContends(v0, ops, f, x) ==> !Newer(StampOf(x), StampOf(op))
  }

  /** The column is that of the latest put that names it and beats the stamp from the start. */
  ghost predicate ColumnSettled(v0: ChildView, ops: set<ChildOp>, f: ChildField, v: ChildView)
    requires v0.row.Some? && v.row.Some?
  {
    (exists op ::
      ColumnLeads(v0, ops, f, op) && CellOf(v, f) == Cards.Cell(Some(StampOf(op)), ColumnOf(op.write.values, f)))
    || ((forall op :: !ColumnContends(v0, ops, f, op)) && CellOf(v, f) == CellOf(v0, f))
  }

  lemma {:induction false} LiveSettles(kind: ChildKind, v0: ChildView, a: seq<ChildOp>)
    requires Unhidden(v0, Elements(a))
    ensures var v := ApplyAll(kind, v0, a);
      Visible(v).Some? && (v.life == v0.life || (v.life.Some? && Beats(v.life.value, v0.life)))
      && forall f :: f in FieldsOf(kind) ==> ColumnSettled(v0, Elements(a), f, v)
  {
    hide Apply, ColumnSettled, Beats, Names;
    if a == [] {
      forall f | f in FieldsOf(kind) ensures ColumnSettled(v0, Elements(a), f, v0) { StartSettled(v0, f); }
    } else {
      var front, op := a[..|a| - 1], a[|a| - 1];
      assert a == front + [op];
      assert Elements(a) == Elements(front) + {op};
      assert op in Elements(a) && forall x :: x in Elements(front) ==> x in Elements(a);
      LiveSettles(kind, v0, front);
      StaysVisible(kind, v0, ApplyAll(kind, v0, front), op);
      forall f | f in FieldsOf(kind) ensures ColumnSettled(v0, Elements(a), f, ApplyAll(kind, v0, a)) {
        LiveColumn(kind, v0, Elements(front), ApplyAll(kind, v0, front), op, f);
      }
    }
  }

  lemma StartSettled(v0: ChildView, f: ChildField)
    requires v0.row.Some?
    ensures ColumnSettled(v0, Elements([]), f, v0)
  {}

  lemma StaysVisible(kind: ChildKind, v0: ChildView, v: ChildView, op: ChildOp)
    requires Visible(v).Some? && (v.life == v0.life || (v.life.Some? && Beats(v.life.value, v0.life)))
    requires op.DeleteOp? ==> !Beats(StampOf(op), v0.life)
    ensures var v' := Apply(kind, v, op);
      Visible(v').Some? && (v'.life == v0.life || (v'.life.Some? && Beats(v'.life.value, v0.life)))
  {}

  lemma LiveColumn(kind: ChildKind, v0: ChildView, ops: set<ChildOp>, v: ChildView, op: ChildOp, f: ChildField)
    requires v0.row.Some? && Visible(v).Some? && f in FieldsOf(kind) && ColumnSettled(v0, ops, f, v)
    requires Visible(Apply(kind, v, op)).Some?
    ensures ColumnSettled(v0, ops + {op}, f, Apply(kind, v, op))
  {
    var ops', v' := ops + {op}, Apply(kind, v, op);
    assert forall x :: ColumnContends(v0, ops', f, x) ==> ColumnContends(v0, ops, f, x) || x == op;
    if op.PutOp? { PutColumn(kind, v, op.write, f); }
    var wins := op.PutOp? && f in Winning(kind, v, op.write);
    assert !wins ==> CellOf(v', f) == CellOf(v, f);
    if l :| ColumnLeads(v0, ops, f, l) && CellOf(v, f) == Cards.Cell(Some(StampOf(l)), ColumnOf(l.write.values, f)) {
      assert ColumnLeads(v0, ops', f, if wins then op else l);
    } else if ColumnContends(v0, ops', f, op) {
      assert ColumnLeads(v0, ops', f, op);
    }
  }

  /** A hidden row that no full put of the set can revive stays hidden. */
  ghost predicate Unrevived(v0: ChildView, ops: set<ChildOp>) {
    v0.row.Some? && v0.row.value.deleted
    && forall op :: op in ops && op.PutOp? && op.write.all ==> !Beats(StampOf(op), v0.life)
  }

  lemma {:induction false} HiddenStays(kind: ChildKind, v0: ChildView, a: seq<ChildOp>)
    requires Unrevived(v0, Elements(a))
    ensures var v := ApplyAll(kind, v0, a);
      v.row.Some? && v.row.value.deleted && (v.life == v0.life || (v.life.Some? && Beats(v.life.value, v0.life)))
  {
    hide Apply, Beats;
    if a != [] {
      var front, op := a[..|a| - 1], a[|a| - 1];
      assert a == front + [op];
      assert op in Elements(a) && forall x :: x in Elements(front) ==> x in Elements(a);
      HiddenStays(kind, v0, front);
      StaysHidden(kind, v0, ApplyAll(kind, v0, front), op);
    }
  }

  lemma StaysHidden(kind: ChildKind, v0: ChildView, v: ChildView, op: ChildOp)
    requires v.row.Some? && v.row.value.deleted && (v.life == v0.life || (v.life.Some? && Beats(v.life.value, v0.life)))
    requires op.PutOp? && op.write.all ==> !Beats(StampOf(op), v0.life)
    ensures var v' := Apply(kind, v, op);
      v'.row.Some? && v'.row.value.deleted && (v'.life == v0.life || (v'.life.Some? && Beats(v'.life.value, v0.life)))
  {}

  /** The deltas leave no choice about a known row. */
  ghost predicate DecisiveFrom(v0: ChildView, ops: set<ChildOp>) {
    (exists g :: DecidesKnown(v0, ops, g)) || Unhidden(v0, ops) || Unrevived(v0, ops)
  }

  /** Two results of one set of deltas on a known row show the same columns, or both nothing. */
  lemma KnownUnique(kind: ChildKind, v0: ChildView, a: seq<ChildOp>, b: seq<ChildOp>)
    requires v0.row.Some? && DistinctStamps(Elements(a)) && Elements(a) == Elements(b) && DecisiveFrom(v0, Elements(a))
    ensures var v, w := ApplyAll(kind, v0, a), ApplyAll(kind, v0, b);
      (Visible(v).Some? <==> Visible(w).Some?)
      && (Visible(v).Some? ==> forall f :: f in FieldsOf(kind) ==> CellOf(v, f) == CellOf(w, f))
  {
    hide ApplyAll, DistinctStamps, CellOf, FieldsOf, WonCell, ColumnSettled;
    var ops := Elements(a);
    KnownDecided(kind, v0, a);
    KnownDecided(kind, v0, b);
    if g :| DecidesKnown(v0, ops, g) {
      assert KnownOutcome(kind, v0, g, ApplyAll(kind, v0, a)) && KnownOutcome(kind, v0, g, ApplyAll(kind, v0, b));
    } else if Unhidden(v0, ops) {
      LiveSettles(kind, v0, a);
      LiveSettles(kind, v0, b);
      forall f | f in FieldsOf(kind) ensures CellOf(ApplyAll(kind, v0, a), f) == CellOf(ApplyAll(kind, v0, b), f) {
        ColumnUnique(v0, ops, f, ApplyAll(kind, v0, a), ApplyAll(kind, v0, b));
      }
    } else {
      HiddenStays(kind, v0, a);
      HiddenStays(kind, v0, b);
    }
  }

  lemma ColumnUnique(v0: ChildView, ops: set<ChildOp>, f: ChildField, v: ChildView, w: ChildView)
    requires v0.row.Some? && v.row.Some? && w.row.Some? && DistinctStamps(ops)
    requires ColumnSettled(v0, ops, f, v) && ColumnSettled(v0, ops, f, w)
    ensures CellOf(v, f) == CellOf(w, f)
  {
    hide CellOf;
    if x :| ColumnContends(v0, ops, f, x) {
      var l :| ColumnLeads(v0, ops, f, l) && CellOf(v, f) == Cards.Cell(Some(StampOf(l)), ColumnOf(l.write.values, f));
      var m :| ColumnLeads(v0, ops, f, m) && CellOf(w, f) == Cards.Cell(Some(StampOf(m)), ColumnOf(m.write.values, f));
      assert StampOf(l) == StampOf(m);
    }
  }

  // When the order does not matter.

  /** Every order of one set of deltas, with any repetitions, shows the same and is as late. */
  ghost predicate OrderFree(kind: ChildKind, s: set<ChildOp>) {
    forall a, b :: Elements(a) == s && Elements(b) == s ==>
      SameOutcome(ApplyAll(kind, UNSEEN, a), ApplyAll(kind, UNSEEN, b))
  }

  predicate SameOutcome(a: ChildView, b: ChildView) {
    Visible(a) == Visible(b) && a.life == b.life
  }

  /** From a row nobody had seen, what is shown and the lifecycle stamp are the same for every
      order and repetition exactly when the greatest delta is a delete, a full put, or the only
      put: that is, every partial put is older than some full put or delete, or is the only put. */
  lemma OrderFreeIff(kind: ChildKind, s: set<ChildOp>, g: ChildOp)
    requires WellFormed(kind, s) && Greatest(s, g)
    ensures OrderFree(kind, s) <==> Decides(s, g)
  {
    if Decides(s, g) {
      forall a, b | Elements(a) == s && Elements(b) == s
        ensures SameOutcome(ApplyAll(kind, UNSEEN, a), ApplyAll(kind, UNSEEN, b))
      {
        LifecycleConverges(kind, a, g);
        LifecycleConverges(kind, b, g);
      }
    } else {
      var q :| q in s && q.PutOp? && q != g;
      OrderMatters(kind, s, g, q);
    }
  }

  /** The same condition without naming the greatest delta. */
  lemma DecidesIff(s: set<ChildOp>, g: ChildOp)
    requires DistinctStamps(s) && Greatest(s, g)
    ensures Decides(s, g) <==>
      (forall p :: p in s && Partial(p) ==> exists c :: c in s && !Partial(c) && Newer(StampOf(c), StampOf(p)))
        || OnlyPut(s, g)
  {
    if Decides(s, g) && !Partial(g) {
      forall p | p in s && Partial(p) ensures exists c :: c in s && !Partial(c) && Newer(StampOf(c), StampOf(p)) {
        assert StampOf(p) != StampOf(g);
        assert g in s && !Partial(g) && Newer(StampOf(g), StampOf(p));
      }
    }
  }

  predicate Partial(op: ChildOp) {
    op.PutOp? && !op.write.all
  }

  lemma {:induction false} ApplyAllSplit(kind: ChildKind, v: ChildView, a: seq<ChildOp>, b: seq<ChildOp>)
    ensures ApplyAll(kind, v, a + b) == ApplyAll(kind, ApplyAll(kind, v, a), b)
  {
    if b == [] {
      assert a + b == a;
    } else {
      ApplyAllSplit(kind, v, a, b[..|b| - 1]);
      assert (a + b)[..|a + b| - 1] == a + b[..|b| - 1];
    }
  }

  /** A partial put that arrives first makes the row, and holds the lifecycle if it is greatest. */
  lemma {:induction false} LifeStays(kind: ChildKind, v: ChildView, ops: seq<ChildOp>, g: ChildOp)
    requires v.life == Some(StampOf(g)) && forall op :: op in ops ==> !Newer(StampOf(op), StampOf(g))
    ensures ApplyAll(kind, v, ops).life == Some(StampOf(g))
  {
    if ops != [] {
      assert ops[|ops| - 1] in ops;
      LifeStays(kind, v, ops[..|ops| - 1], g);
    }
  }

  /** One that finds a row never gets the lifecycle. */
  lemma {:induction false} LifeNeverReached(kind: ChildKind, v: ChildView, ops: seq<ChildOp>, g: ChildOp)
    requires v.row.Some? && v.life != Some(StampOf(g)) && Partial(g)
    requires forall op :: op in ops && StampOf(op) == StampOf(g) ==> op == g
    ensures ApplyAll(kind, v, ops).row.Some? && ApplyAll(kind, v, ops).life != Some(StampOf(g))
  {
    if ops != [] {
      assert ops[|ops| - 1] in ops;
      LifeNeverReached(kind, v, ops[..|ops| - 1], g);
    }
  }

  lemma OrderMatters(kind: ChildKind, s: set<ChildOp>, g: ChildOp, q: ChildOp)
    requires DistinctStamps(s) && Greatest(s, g) && Partial(g) && q in s && q.PutOp? && q != g
    ensures !OrderFree(kind, s)
  {
    hide Apply, OrderFree;
    var all := Cards.Enumerate(s);
    assert forall op :: op in all <==> op in s by { assert Cards.Elements(all) == s; }
    var first, second := [g] + all, [q] + all;
    assert Elements(first) == s && Elements(second) == s;
    PutMakesRow(kind, g);
    PutMakesRow(kind, q);
    ApplyAllSplit(kind, UNSEEN, [g], all);
    ApplyAllSplit(kind, UNSEEN, [q], all);
    LifeStays(kind, ApplyAll(kind, UNSEEN, [g]), all, g);
    assert StampOf(q) != StampOf(g);
    LifeNeverReached(kind, ApplyAll(kind, UNSEEN, [q]), all, g);
    OutcomesDiffer(kind, s, first, second);
  }

  lemma OutcomesDiffer(kind: ChildKind, s: set<ChildOp>, a: seq<ChildOp>, b: seq<ChildOp>)
    requires Elements(a) == s && Elements(b) == s && !SameOutcome(ApplyAll(kind, UNSEEN, a), ApplyAll(kind, UNSEEN, b))
    ensures !OrderFree(kind, s)
  {}

  lemma PutMakesRow(kind: ChildKind, op: ChildOp)
    requires op.PutOp?
    ensures var v := ApplyAll(kind, UNSEEN, [op]); v.row.Some? && v.life == Some(StampOf(op))
  {
    assert [op][..0] == [];
    assert ApplyAll(kind, UNSEEN, []) == UNSEEN;
  }

  lemma Three(kind: ChildKind, a: ChildOp, b: ChildOp, c: ChildOp)
    ensures ApplyAll(kind, UNSEEN, [a, b, c]) == Apply(kind, Apply(kind, Apply(kind, UNSEEN, a), b), c)
  {
    assert [a, b, c][..2] == [a, b] && [a, b][..1] == [a] && [a][..0] == [];
    assert ApplyAll(kind, UNSEEN, []) == UNSEEN;
    assert ApplyAll(kind, UNSEEN, [a]) == Apply(kind, UNSEEN, a);
    assert ApplyAll(kind, UNSEEN, [a, b]) == Apply(kind, ApplyAll(kind, UNSEEN, [a]), b);
  }

  /** With a partial mask the order shows: after a create, a later delete hides the
      row and a still later rename cannot revive it; the rename arriving before the
      create makes the row itself, and outlives the delete. */
  lemma PartialMasksAreOrderSensitive(create: ChildOp, delete: ChildOp, rename: ChildOp)
    requires create == PutOp(ChildWrite(Stamp(1, 1, 1), true, {}, ChildValues("old", 1.0, false)))
    requires delete == DeleteOp(Stamp(2, 1, 2))
    requires rename == PutOp(ChildWrite(Stamp(3, 1, 3), false, {ChildTitle}, ChildValues("new", 1.0, false)))
    ensures Visible(ApplyAll(Checklist, UNSEEN, [create, delete, rename])).None?
    ensures Visible(ApplyAll(Checklist, UNSEEN, [delete, rename, create])).Some?
  {
    hide ApplyAll;
    Three(Checklist, create, delete, rename);
    Three(Checklist, delete, rename, create);
    var gone := Apply(Checklist, Apply(Checklist, UNSEEN, create), delete);
    assert gone.row.Some? && gone.row.value.deleted && !LifeWins(gone, rename.write);
    var early := Apply(Checklist, Apply(Checklist, UNSEEN, delete), rename);
    assert Visible(early).Some? && early.life == Some(Stamp(3, 1, 3));
  }
}
