/** `to_records` of `ingestion/API/fetch_communes.py`: the API's commune
    records become a DataFrame, nested fields are flattened into scalar
    columns, the nested originals are dropped and the columns are put in a
    preferred order before the frame is turned back into records.

    The frame is modelled column by column, as pandas holds it. A record that
    lacks a column gets pandas' missing marker (`Missing`, NaN in pandas) in
    that column. */
module CommuneRecords {
  import opened Common
  import opened Json

  /** A record as the API returns it: a dictionary from field names to values. */
  type Row = seq<(string, Value)>

  /** A DataFrame cell: a value, or the missing marker pandas puts where a
      record had no entry (or where a whole derived column has no source). */
  datatype Cell = Present(v: Value) | Missing

  datatype Column = Column(name: string, cells: seq<Cell>)

  type Frame = seq<Column>

  /** One output record: column name and cell, in column order. */
  type Record = seq<(string, Cell)>

  const Preferred: seq<string> := [
    "nom", "code", "codesPostaux", "codeDepartement", "departement_nom", "codeRegion",
    "region_nom", "population", "surface", "longitude", "latitude", "contour_geojson"
  ]


  // ---------------------------------------------------------------------------
  // Cell-level rules

  /** `_extract_coord`: `coordinates[index]` of a dictionary whose
      `coordinates` list is long enough, `None` otherwise. */
  function ExtractCoord(v: Value, index: nat): (r: Value)
    ensures (v.Obj? && HasKey(v, "coordinates") && Get(v, "coordinates").value.Arr?
             && |Get(v, "coordinates").value.items| > index)
            ==> r == Get(v, "coordinates").value.items[index]
    ensures !(v.Obj? && HasKey(v, "coordinates")) ==> r == Null
    ensures v.Obj? && HasKey(v, "coordinates") && !Get(v, "coordinates").value.Arr? ==> r == Null
    ensures (v.Obj? && HasKey(v, "coordinates") && Get(v, "coordinates").value.Arr?
             && |Get(v, "coordinates").value.items| <= index)
            ==> r == Null
  {
    if v.Obj? && HasKey(v, "coordinates") then
      match Get(v, "coordinates").value
      case Arr(items) => if |items| > index then items[index] else Null
      case _ => Null
    else Null
  }

  /** `x.get("nom") if isinstance(x, dict) and "nom" in x else None` */
  function NomOf(v: Value): (r: Value)
    ensures v.Obj? && HasKey(v, "nom") ==> r == Get(v, "nom").value
    ensures !(v.Obj? && HasKey(v, "nom")) ==> r == Null
  {
    if v.Obj? && HasKey(v, "nom") then Get(v, "nom").value else Null
  }

  /** `x if isinstance(x, dict) else None` */
  function GeoJsonOf(v: Value): (r: Value)
    ensures v.Obj? ==> r == v
    ensures !v.Obj? ==> r == Null
  {
    if v.Obj? then v else Null
  }

  /** The column each derived column is computed from. */
  function Source(name: string): string
  {
    if name == "longitude" || name == "latitude" then "centre"
    else if name == "departement_nom" then "departement"
    else if name == "region_nom" then "region"
    else "contour"
  }

  /** How a derived column's value is computed from its source's value. */
  function Transform(name: string, v: Value): Value
  {
    if name == "longitude" then ExtractCoord(v, 0)
    else if name == "latitude" then ExtractCoord(v, 1)
    else if name == "departement_nom" || name == "region_nom" then NomOf(v)
    else GeoJsonOf(v)
  }

  /** The value a rule sees in a cell: pandas' NaN is not a dictionary, so every
      rule treats it exactly as it treats `None`. */
  function SeenValue(c: Cell): Value
  {
    match c
    case Present(v) => v
    case Missing => Null
  }

  // ---------------------------------------------------------------------------
  // The frame operations `to_records` uses

  function Names(f: Frame): (r: seq<string>)
    ensures |r| == |f| && forall k :: 0 <= k < |f| ==> r[k] == f[k].name
  {
    seq(|f|, k requires 0 <= k < |f| => f[k].name)
  }

  lemma NamesAppend(a: Frame, b: Frame)
    ensures Names(a + b) == Names(a) + Names(b)
  {
  }

  /** Every column holds one cell per row. */
  predicate Rect(f: Frame, h: nat) {
    forall k :: 0 <= k < |f| ==> |f[k].cells| == h
  }

  /** The cell of `row` in column `name` when the frame is built. */
  function CellOf(row: Row, name: string): Cell
  {
    match Field(row, name)
    case Some(v) => Present(v)
    case None => Missing
  }

  function RowKeys(row: Row): seq<string>
  {
    seq(|row|, k requires 0 <= k < |row| => row[k].0)
  }

  function KeysOf(rows: seq<Row>): seq<string>
  {
    if rows == [] then [] else RowKeys(rows[0]) + KeysOf(rows[1..])
  }

  /** `pd.DataFrame(records)` names its columns by the records' keys, in the
      order they are first seen. */
  function ColumnNames(rows: seq<Row>): (r: seq<string>)
    ensures Distinct(r)
  {
    Dedup(KeysOf(rows))
  }

  /** `pd.DataFrame(records)` */
  function FromRows(rows: seq<Row>): (f: Frame)
    ensures Rect(f, |rows|) && Names(f) == ColumnNames(rows)
  {
    var names := ColumnNames(rows);
    seq(|names|, k requires 0 <= k < |names| =>
      Column(names[k], seq(|rows|, i requires 0 <= i < |rows| => CellOf(rows[i], names[k]))))
  }

  /** The position of the first column named `name`. */
  function ColumnIndex(f: Frame, name: string): (r: Option<nat>)
    ensures r.None? ==> forall k :: 0 <= k < |f| ==> f[k].name != name
    ensures r.Some? ==> r.value < |f| && f[r.value].name == name
  {
    if f == [] then None
    else if f[0].name == name then Some(0)
    else
      match ColumnIndex(f[1..], name)
      case None => None
      case Some(k) => Some(k + 1)
  }

  /** `df.get(name)`: the cells of the first column with that name. */
  function Lookup(f: Frame, name: string): (r: Option<seq<Cell>>)
    ensures r.Some? <==> name in Names(f)
    ensures r.Some? ==> exists k :: 0 <= k < |f| && f[k].name == name && f[k].cells == r.value
  {
    match ColumnIndex(f, name)
    case None => None
    case Some(k) => Some(f[k].cells)
  }

  /** The names after `df[name] = ...`: unchanged when the column exists, the
      new name appended otherwise. */
  function AddName(names: seq<string>, name: string): (r: seq<string>)
    ensures forall n :: n in r <==> n in names || n == name
    ensures Distinct(names) ==> Distinct(r)
  {
    if name in names then names else names + [name]
  }

  /** `df[name] = cells`: replaces the column in place or appends a new one. */
  function SetColumn(f: Frame, name: string, cells: seq<Cell>): (r: Frame)
    ensures Names(r) == AddName(Names(f), name)
    ensures Distinct(Names(f)) ==> forall k :: 0 <= k < |r| && r[k].name == name ==> r[k].cells == cells
    ensures forall k :: 0 <= k < |r| && r[k].name != name ==> r[k] == f[k]
  {
    match ColumnIndex(f, name)
    case None =>
      NamesAppend(f, [Column(name, cells)]);
      f + [Column(name, cells)]
    case Some(k) =>
      var r := f[k := Column(name, cells)];
      assert Names(r) == Names(f);
      r
  }

  /** `df.get(source, pd.Series()).apply(rule)`: with no source column the
      empty series aligns to nothing and the whole column is missing. */
  function DeriveCells(f: Frame, name: string, h: nat): (r: seq<Cell>)
    requires Rect(f, h)
    ensures |r| == h
  {
    match Lookup(f, Source(name))
    case None => seq(h, i => Missing)
    case Some(cells) =>
      seq(h, i requires 0 <= i < h => Present(Transform(name, SeenValue(cells[i]))))
  }

  /** `df[name] = df.get(Source(name), pd.Series()).apply(...)` */
  function DeriveColumn(f: Frame, name: string, h: nat): (r: Frame)
    requires Rect(f, h)
    ensures Rect(r, h)
  {
    SetColumn(f, name, DeriveCells(f, name, h))
  }

  /** `df.drop(columns=...)` for the names of `gone` that are present. */
  function DropColumns(f: Frame, gone: set<string>): (r: Frame)
    ensures Names(r) == Without(Names(f), gone)
    ensures forall k :: 0 <= k < |r| ==> r[k] in f
  {
    if f == [] then []
    else
      assert Names(f) == [f[0].name] + Names(f[1..]);
      var rest := DropColumns(f[1..], gone);
      if f[0].name in gone then rest
      else
        NamesAppend([f[0]], rest);
        [f[0]] + rest
  }

  /** The names of `prefs` that occur in `names`, in the order of `prefs`. */
  function PresentIn(prefs: seq<string>, names: seq<string>): (r: seq<string>)
    ensures forall n :: n in r <==> n in prefs && n in names
  {
    if prefs == [] then []
    else if prefs[0] in names then [prefs[0]] + PresentIn(prefs[1..], names)
    else PresentIn(prefs[1..], names)
  }

  /** The preferred columns present in `f`, in the preferred order. */
  function PickPreferred(f: Frame, prefs: seq<string>): (r: Frame)
    ensures Names(r) == PresentIn(prefs, Names(f))
    ensures forall k :: 0 <= k < |r| ==> r[k] in f
  {
    if prefs == [] then []
    else
      var rest := PickPreferred(f, prefs[1..]);
      match Lookup(f, prefs[0])
      case None => rest
      case Some(cells) =>
        NamesAppend([Column(prefs[0], cells)], rest);
        [Column(prefs[0], cells)] + rest
  }

  /** The order `to_records` puts names in: the preferred ones present, in the
      preferred order, then the others in their own order. */
  function Arrange(prefs: seq<string>, names: seq<string>): seq<string>
  {
    PresentIn(prefs, names) + Without(names, SetOf(prefs))
  }

  function SetOf(xs: seq<string>): set<string>
  {
    set x | x in xs
  }

  /** `df[existing_cols + [c for c in df.columns if c not in existing_cols]]` */
  function Reorder(f: Frame): (r: Frame)
    ensures Names(r) == Arrange(Preferred, Names(f))
    ensures forall k :: 0 <= k < |r| ==> r[k] in f
  {
    var front := PickPreferred(f, Preferred);
    var back := DropColumns(f, SetOf(Preferred));
    NamesAppend(front, back);
    front + back
  }

  /** `df.to_dict(orient="records")` */
  function Records(f: Frame, h: nat): (r: seq<Record>)
    requires Rect(f, h)
    ensures |r| == h
    ensures forall i :: 0 <= i < h ==> |r[i]| == |f|
    ensures forall i, k :: 0 <= i < h && 0 <= k < |f| ==> r[i][k] == (f[k].name, f[k].cells[i])
  {
    seq(h, i requires 0 <= i < h => seq(|f|, k requires 0 <= k < |f| => (f[k].name, f[k].cells[i])))
  }

  /** `df.empty`: no rows or no columns. */
  predicate EmptyFrame(rows: seq<Row>) {
    rows == [] || ColumnNames(rows) == []
  }

  /** The frame `to_records` turns into records. */
  function FinalFrame(rows: seq<Row>): (f: Frame)
    ensures Rect(f, |rows|)
  {
    var h := |rows|;
    var f5 := DeriveAll(FromRows(rows), DerivedOrder, h);
    var f6 := DropColumns(f5, DroppedSet);
    Reorder(f6)
  }

  /** The five assignments `df["longitude"] = ...` to `df["contour_geojson"] = ...`,
      in the order of `names`. */
  function DeriveAll(f: Frame, names: seq<string>, h: nat): (r: Frame)
    requires Rect(f, h)
    ensures Rect(r, h)
    decreases |names|
  {
    if names == [] then f else DeriveAll(DeriveColumn(f, names[0], h), names[1..], h)
  }

  /** `to_records` */
  function ToRecords(rows: seq<Row>): (r: seq<Record>)
    ensures EmptyFrame(rows) ==> r == []
    ensures !EmptyFrame(rows) ==> |r| == |rows|
  {
    if EmptyFrame(rows) then [] else Records(FinalFrame(rows), |rows|)
  }

  // ---------------------------------------------------------------------------
  // What the records hold, stated row by row

  const DroppedSet: set<string> := {"centre", "departement", "region", "contour"}

  /** The columns `to_records` adds, in the order it adds them. */
  const DerivedOrder: seq<string> := ["longitude", "latitude", "departement_nom", "region_nom", "contour_geojson"]

  const DerivedSet: set<string> := {"longitude", "latitude", "departement_nom", "region_nom", "contour_geojson"}

  /** The names after `AddName` for each of `added` in turn. */
  function AddNames(names: seq<string>, added: seq<string>): seq<string>
    decreases |added|
  {
    if added == [] then names else AddNames(AddName(names, added[0]), added[1..])
  }

  /** The names once the five derived columns are set. */
  function WithDerived(names: seq<string>): seq<string>
  {
    AddNames(names, DerivedOrder)
  }

  /** The output columns: the preferred columns present, in the preferred
      order, then every other remaining column in its original order. */
  function FinalNames(rows: seq<Row>): seq<string>
  {
    Arrange(Preferred, Without(WithDerived(ColumnNames(rows)), DroppedSet))
  }

  /** The cell of row `i` in output column `name`: a derived column's rule
      applied to its source column (missing throughout when no record had
      the source), or the record's own entry. */
  function OutputCell(rows: seq<Row>, name: string, i: nat): (r: Cell)
    requires i < |rows|
    ensures name in DerivedSet ==> (r.Present? <==> Source(name) in ColumnNames(rows))
    ensures name !in DerivedSet ==> (r.Present? <==> Field(rows[i], name).Some?)
    ensures name !in DerivedSet && r.Present? ==> r.v == Field(rows[i], name).value
  {
    if name in DerivedSet then
      if Source(name) in ColumnNames(rows) then Present(Transform(name, SeenValue(CellOf(rows[i], Source(name)))))
      else Missing
    else CellOf(rows[i], name)
  }

  /** The cells the frame holds once the derived columns in `done` are set. */
  function StageCell(rows: seq<Row>, done: set<string>, name: string, i: nat): Cell
    requires i < |rows|
  {
    if name in done then OutputCell(rows, name, i) else CellOf(rows[i], name)
  }

  ghost predicate Agrees(f: Frame, rows: seq<Row>, done: set<string>) {
    && Rect(f, |rows|)
    && Distinct(Names(f))
    && forall k, i :: 0 <= k < |f| && 0 <= i < |rows| ==> f[k].cells[i] == StageCell(rows, done, f[k].name, i)
  }

  /** The names of a frame that are not derived are the input's columns. */
  ghost predicate SameInputNames(f: Frame, rows: seq<Row>) {
    forall s :: s !in DerivedSet ==> (s in Names(f) <==> s in ColumnNames(rows))
  }

  /** The cells of a derived column are the output cells of that column. */
  lemma DeriveCellsAgree(f: Frame, rows: seq<Row>, done: set<string>, name: string)
    requires Agrees(f, rows, done) && SameInputNames(f, rows)
    requires name in DerivedSet
    ensures forall i :: 0 <= i < |rows| ==>
              DeriveCells(f, name, |rows|)[i] == StageCell(rows, done + {name}, name, i)
  {
    var cells := DeriveCells(f, name, |rows|);
    SourcesNotDerived();
    forall i | 0 <= i < |rows|
      ensures cells[i] == StageCell(rows, done + {name}, name, i)
    {
      match Lookup(f, Source(name))
      case None =>
      case Some(src) =>
        var j :| 0 <= j < |f| && f[j].name == Source(name) && f[j].cells == src;
        assert src[i] == StageCell(rows, done, Source(name), i);
    }
  }

  lemma {:induction false} DeriveColumnAgrees(f: Frame, rows: seq<Row>, done: set<string>, name: string)
    requires Agrees(f, rows, done) && SameInputNames(f, rows)
    requires name in DerivedSet
    ensures Agrees(DeriveColumn(f, name, |rows|), rows, done + {name})
    ensures SameInputNames(DeriveColumn(f, name, |rows|), rows)
    ensures Names(DeriveColumn(f, name, |rows|)) == AddName(Names(f), name)
  {
    var h := |rows|;
    var cells := DeriveCells(f, name, h);
    var r := SetColumn(f, name, cells);
    DeriveCellsAgree(f, rows, done, name);
    forall k, i | 0 <= k < |r| && 0 <= i < h
      ensures r[k].cells[i] == StageCell(rows, done + {name}, r[k].name, i)
    {
      if r[k].name == name {
        assert r[k].cells == cells;
      } else {
        assert r[k] == f[k];
      }
    }
  }

  lemma {:induction false} WithoutDistinct(xs: seq<string>, s: set<string>)
    requires Distinct(xs)
    ensures Distinct(Without(xs, s))
    decreases |xs|
  {
    if xs != [] {
      WithoutDistinct(xs[1..], s);
      assert xs[0] !in xs[1..];
    }
  }

  lemma {:induction false} DropAgrees(f: Frame, rows: seq<Row>, done: set<string>, gone: set<string>)
    requires Agrees(f, rows, done)
    ensures Agrees(DropColumns(f, gone), rows, done)
  {
    var r := DropColumns(f, gone);
    WithoutDistinct(Names(f), gone);
    forall k | 0 <= k < |r| ensures |r[k].cells| == |rows| {
      var j :| 0 <= j < |f| && f[j] == r[k];
    }
    forall k, i | 0 <= k < |r| && 0 <= i < |rows|
      ensures r[k].cells[i] == StageCell(rows, done, r[k].name, i)
    {
      var j :| 0 <= j < |f| && f[j] == r[k];
    }
  }

  lemma {:induction false} PresentInDistinct(prefs: seq<string>, names: seq<string>)
    requires Distinct(prefs)
    ensures Distinct(PresentIn(prefs, names))
    decreases |prefs|
  {
    if prefs != [] {
      PresentInDistinct(prefs[1..], names);
      assert prefs[0] !in prefs[1..];
    }
  }

  lemma DistinctConcat(a: seq<string>, b: seq<string>)
    requires Distinct(a) && Distinct(b)
    requires forall x :: x in a ==> x !in b
    ensures Distinct(a + b)
  {
    forall i, j | 0 <= i < j < |a + b| ensures (a + b)[i] != (a + b)[j] {
      if j >= |a| && i < |a| {
        assert (a + b)[i] in a && (a + b)[j] in b;
      }
    }
  }

  lemma ArrangeDistinct(prefs: seq<string>, names: seq<string>)
    requires Distinct(prefs) && Distinct(names)
    ensures Distinct(Arrange(prefs, names))
  {
    PresentInDistinct(prefs, names);
    WithoutDistinct(names, SetOf(prefs));
    DistinctConcat(PresentIn(prefs, names), Without(names, SetOf(prefs)));
  }

  lemma {:induction false} ReorderAgrees(f: Frame, rows: seq<Row>, done: set<string>)
    requires Agrees(f, rows, done)
    ensures Agrees(Reorder(f), rows, done)
  {
    var r := Reorder(f);
    PreferredDistinct();
    ArrangeDistinct(Preferred, Names(f));
    forall k | 0 <= k < |r| ensures |r[k].cells| == |rows| {
      var j :| 0 <= j < |f| && f[j] == r[k];
    }
    forall k, i | 0 <= k < |r| && 0 <= i < |rows|
      ensures r[k].cells[i] == StageCell(rows, done, r[k].name, i)
    {
      var j :| 0 <= j < |f| && f[j] == r[k];
    }
  }

  lemma {:induction false} DeriveAllAgrees(f: Frame, rows: seq<Row>, done: set<string>, names: seq<string>)
    requires Agrees(f, rows, done) && SameInputNames(f, rows)
    requires forall n :: n in names ==> n in DerivedSet
    ensures Agrees(DeriveAll(f, names, |rows|), rows, done + SetOf(names))
    ensures SameInputNames(DeriveAll(f, names, |rows|), rows)
    ensures Names(DeriveAll(f, names, |rows|)) == AddNames(Names(f), names)
    decreases |names|
  {
    if names == [] {
      assert done + SetOf(names) == done;
    } else {
      var h := |rows|;
      var g := DeriveColumn(f, names[0], h);
      DeriveColumnAgrees(f, rows, done, names[0]);
      assert DeriveAll(f, names, h) == DeriveAll(g, names[1..], h);
      var d' := done + {names[0]};
      DeriveAllAgrees(g, rows, d', names[1..]);
      SetOfCons(names);
      assert AddNames(Names(f), names) == AddNames(Names(g), names[1..]);
    }
  }

  lemma SetOfCons(names: seq<string>)
    requires names != []
    ensures SetOf(names) == {names[0]} + SetOf(names[1..])
  {
    assert forall n :: n in names <==> n == names[0] || n in names[1..];
  }

  lemma DerivedOrderSet()
    ensures SetOf(DerivedOrder) == DerivedSet
    ensures forall n :: n in DerivedOrder <==> n in DerivedSet
  {
  }

  lemma FromRowsAgrees(rows: seq<Row>)
    ensures Agrees(FromRows(rows), rows, {}) && SameInputNames(FromRows(rows), rows)
  {
  }

  /** The frame once the derived columns `names` are set. */
  lemma DerivedFrameAgrees(rows: seq<Row>, names: seq<string>)
    requires forall n :: n in names ==> n in DerivedSet
    ensures var f5 := DeriveAll(FromRows(rows), names, |rows|);
            Agrees(f5, rows, SetOf(names)) && Names(f5) == AddNames(ColumnNames(rows), names)
  {
    FromRowsAgrees(rows);
    DeriveAllAgrees(FromRows(rows), rows, {}, names);
    assert {} + SetOf(names) == SetOf(names);
  }

  lemma FinalFrameAgrees(rows: seq<Row>)
    ensures Agrees(FinalFrame(rows), rows, DerivedSet)
    ensures Names(FinalFrame(rows)) == FinalNames(rows)
  {
    var f5 := DeriveAll(FromRows(rows), DerivedOrder, |rows|);
    DerivedOrderSet();
    DerivedFrameAgrees(rows, DerivedOrder);
    DropAgrees(f5, rows, DerivedSet, DroppedSet);
    ReorderAgrees(DropColumns(f5, DroppedSet), rows, DerivedSet);
    assert FinalFrame(rows) == Reorder(DropColumns(f5, DroppedSet));
  }

  /** `to_records` in row terms: no records for an empty frame; otherwise one
      record per input record, with the columns of `FinalNames` in that order,
      each holding `OutputCell`. */
  lemma ToRecordsMeaning(rows: seq<Row>)
    ensures EmptyFrame(rows) ==> ToRecords(rows) == []
    ensures !EmptyFrame(rows) ==> |ToRecords(rows)| == |rows|
    ensures !EmptyFrame(rows) ==>
      forall i :: 0 <= i < |rows| ==>
        && |ToRecords(rows)[i]| == |FinalNames(rows)|
        && forall k :: 0 <= k < |FinalNames(rows)| ==>
             ToRecords(rows)[i][k] == (FinalNames(rows)[k], OutputCell(rows, FinalNames(rows)[k], i))
  {
    if !EmptyFrame(rows) {
      FinalFrameAgrees(rows);
      RecordsOfFinalCells(FinalFrame(rows), rows);
    }
  }

  /** The records of a frame whose every derived column is set hold the output cells. */
  lemma RecordsOfFinalCells(f: Frame, rows: seq<Row>)
    requires Agrees(f, rows, DerivedSet)
    ensures forall i, k :: 0 <= i < |rows| && 0 <= k < |f| ==>
              Records(f, |rows|)[i][k] == (Names(f)[k], OutputCell(rows, Names(f)[k], i))
  {
  }

  lemma ArrangeMembers(prefs: seq<string>, names: seq<string>)
    ensures forall n :: n in Arrange(prefs, names) <==> n in names
  {
  }

  lemma {:induction false} AddNamesShape(names: seq<string>, added: seq<string>)
    ensures forall n :: n in AddNames(names, added) <==> n in names || n in added
    ensures Distinct(names) ==> Distinct(AddNames(names, added))
    decreases |added|
  {
    if added != [] {
      AddNamesShape(AddName(names, added[0]), added[1..]);
      assert forall n :: n in added <==> n == added[0] || n in added[1..];
    }
  }

  lemma WithDerivedShape(names: seq<string>)
    ensures forall n :: n in WithDerived(names) <==> n in names || n in DerivedSet
    ensures Distinct(names) ==> Distinct(WithDerived(names))
  {
    AddNamesShape(names, DerivedOrder);
    DerivedOrderSet();
  }

  lemma PreferredDistinct()
    ensures Distinct(Preferred)
  {
  }

  lemma DerivedNotDropped()
    ensures forall d :: d in DerivedSet ==> d !in DroppedSet
  {
  }

  lemma SourcesNotDerived()
    ensures forall n :: n in DerivedSet ==> Source(n) !in DerivedSet
  {
  }

  /** The output columns never include the nested originals, always include
      the five derived columns, and keep every other input column. */
  lemma FinalNamesMembers(rows: seq<Row>)
    ensures forall d :: d in DroppedSet ==> d !in FinalNames(rows)
    ensures forall d :: d in DerivedSet ==> d in FinalNames(rows)
    ensures forall n :: n in ColumnNames(rows) && n !in DroppedSet ==> n in FinalNames(rows)
    ensures forall n :: n in FinalNames(rows) ==> n in ColumnNames(rows) || n in DerivedSet
  {
    var n5 := WithDerived(ColumnNames(rows));
    var n6 := Without(n5, DroppedSet);
    assert FinalNames(rows) == Arrange(Preferred, n6);
    WithDerivedShape(ColumnNames(rows));
    DerivedNotDropped();
    ArrangeMembers(Preferred, n6);
  }

  lemma {:induction false} WithoutAppend(a: seq<string>, b: seq<string>, s: set<string>)
    ensures Without(a + b, s) == Without(a, s) + Without(b, s)
    decreases |a|
  {
    if a == [] {
      assert a + b == b;
    } else {
      assert (a + b)[0] == a[0];
      assert (a + b)[1..] == a[1..] + b;
      WithoutAppend(a[1..], b, s);
      if a[0] !in s {
        assert Without(a, s) == [a[0]] + Without(a[1..], s);
        assert Without(a + b, s) == [a[0]] + Without(a[1..] + b, s);
      }
    }
  }

  lemma {:induction false} WithoutAll(a: seq<string>, s: set<string>)
    requires forall x :: x in a ==> x in s
    ensures Without(a, s) == []
    decreases |a|
  {
    if a != [] {
      WithoutAll(a[1..], s);
    }
  }

  /** Arranging twice is arranging once: the preferred names already lead. */
  lemma ArrangeIdempotent(prefs: seq<string>, names: seq<string>)
    ensures Arrange(prefs, Arrange(prefs, names)) == Arrange(prefs, names)
  {
    var S := SetOf(prefs);
    var front := PresentIn(prefs, names);
    var back := Without(names, S);
    assert Arrange(prefs, names) == front + back;
    ArrangeMembers(prefs, names);
    PresentInSameMembers(prefs, front + back, names);
    WithoutAppend(front, back, S);
    assert forall x :: x in front ==> x in S;
    WithoutAll(front, S);
    WithoutNone(back, S);
    assert Without(front + back, S) == back;
  }

  /** The output columns list each name once and are already in the
      preferred order: reordering them again changes nothing. */
  lemma FinalNamesOrder(rows: seq<Row>)
    ensures Distinct(FinalNames(rows))
    ensures Arrange(Preferred, FinalNames(rows)) == FinalNames(rows)
  {
    var n5 := WithDerived(ColumnNames(rows));
    var n6 := Without(n5, DroppedSet);
    assert FinalNames(rows) == Arrange(Preferred, n6);
    WithDerivedShape(ColumnNames(rows));
    WithoutDistinct(n5, DroppedSet);
    PreferredDistinct();
    ArrangeDistinct(Preferred, Without(n5, DroppedSet));
    ArrangeIdempotent(Preferred, Without(n5, DroppedSet));
  }

  lemma {:induction false} PresentInSameMembers(prefs: seq<string>, a: seq<string>, b: seq<string>)
    requires forall p :: p in prefs ==> (p in a <==> p in b)
    ensures PresentIn(prefs, a) == PresentIn(prefs, b)
    decreases |prefs|
  {
    if prefs != [] {
      PresentInSameMembers(prefs[1..], a, b);
    }
  }

  /** Longitude and latitude are the first and second coordinates of `centre`
      when it is a dictionary with a long enough `coordinates` list, `None`
      otherwise; both are missing throughout when no record has `centre`. */
  lemma CoordinatesOfCentre(rows: seq<Row>, i: nat)
    requires i < |rows|
    ensures "centre" !in ColumnNames(rows) ==>
              OutputCell(rows, "longitude", i) == Missing && OutputCell(rows, "latitude", i) == Missing
    ensures "centre" in ColumnNames(rows) ==>
              var c := SeenValue(CellOf(rows[i], "centre"));
              OutputCell(rows, "longitude", i) == Present(ExtractCoord(c, 0))
              && OutputCell(rows, "latitude", i) == Present(ExtractCoord(c, 1))
  {
  }
}
