// How the importer reads one tokenized row into a record: the `safe_index`
// macro family of UnrealEngine/FSceneDataImporter.cpp. Each macro reads
// `row[index++]`, converts it, and leaves the enclosing `while (true)` once the
// last column has been consumed; the record variable is declared once and
// reused, so the fields a short row does not reach keep their old values.
//
// A record is seen here as a sequence of cells, one per field, against a
// schema of field kinds listing the fields in the order the source assigns
// them. Each table kind converts its typed record to and from cells.
module SceneSchema {
  import opened TypeDef
  import opened StringManager
  import opened AppData

  /** How a column is read; one kind per macro and target type. */
  datatype FieldKind =
    | TextField        // safe_index
    | UInt32Field      // numeric_safe_index(..., uint32)
    | UInt16Field      // numeric_safe_index(..., uint16)
    | Int32Field       // numeric_safe_index(..., int32)
    | FloatField       // numeric_safe_index(..., float)
    | Int32ArrayField  // array_safe_index(..., int32, '\\')
    | Int32FirstField  // array_first_safe_index(..., int32, '\\')
    | BitField         // (uint8)numeric_safe_index(..., uint16) stored in a `: 1` field
    | ByteField        // (uint8)numeric_safe_index(..., uint16) stored in a uint8

  /** The value of one record field. */
  datatype Cell =
    | Text(s: string)
    | UInt32(u: u32)
    | UInt16(h: u16)
    | Int32(i: i32)
    | Real(f: Float)
    | Ints(a: seq<i32>)
    | Bit(b: u1)
    | Byte(y: u8)

  predicate HasKind(c: Cell, k: FieldKind)
  {
    match k
    case TextField => c.Text?
    case UInt32Field => c.UInt32?
    case UInt16Field => c.UInt16?
    case Int32Field => c.Int32?
    case FloatField => c.Real?
    case Int32ArrayField => c.Ints?
    case Int32FirstField => c.Int32?
    case BitField => c.Bit?
    case ByteField => c.Byte?
  }

  /** The cells fit the schema one for one. */
  predicate WellTyped(cells: seq<Cell>, schema: seq<FieldKind>)
  {
    |cells| == |schema| && forall j :: 0 <= j < |schema| ==> HasKind(cells[j], schema[j])
  }

  // Total accessors: the value of a cell of the expected kind, else `d`.
  function TextOf(c: Cell, d: string): string { if c.Text? then c.s else d }
  function UInt32Of(c: Cell, d: u32): u32 { if c.UInt32? then c.u else d }
  function UInt16Of(c: Cell, d: u16): u16 { if c.UInt16? then c.h else d }
  function Int32Of(c: Cell, d: i32): i32 { if c.Int32? then c.i else d }
  function RealOf(c: Cell, d: Float): Float { if c.Real? then c.f else d }
  function IntsOf(c: Cell, d: seq<i32>): seq<i32> { if c.Ints? then c.a else d }
  function BitOf(c: Cell, d: u1): u1 { if c.Bit? then c.b else d }
  function ByteOf(c: Cell, d: u8): u8 { if c.Byte? then c.y else d }

  /** The separator of index lists inside one column. */
  const Separator: char := '\\'

  /** A column can be read as kind `k`; `.front()` of an empty parsed array is
      undefined behaviour, so the first-element kind needs a non-empty one. */
  predicate Readable(su: StringUtil, k: FieldKind, col: string)
  {
    k == Int32FirstField ==> |su.toInt32Array(col, Separator)| > 0
  }

  /** The value one macro stores for column `col`. */
  function Convert(su: StringUtil, k: FieldKind, col: string): (c: Cell)
    requires Readable(su, k, col)
    ensures HasKind(c, k)
    ensures k == BitField ==> c.b == su.toUInt16(col) % 2
    ensures k == ByteField ==> c.y == su.toUInt16(col) % 256
  {
    match k
    case TextField => Text(col)
    case UInt32Field => UInt32(su.toUInt32(col))
    case UInt16Field => UInt16(su.toUInt16(col))
    case Int32Field => Int32(su.toInt32(col))
    case FloatField => Real(su.toFloat(col))
    case Int32ArrayField => Ints(su.toInt32Array(col, Separator))
    case Int32FirstField => Int32(su.toInt32Array(col, Separator)[0])
    case BitField => Bit(ToBitField(ToUInt8(su.toUInt16(col))))
    case ByteField => Byte(ToUInt8(su.toUInt16(col)))
  }

  /** Every column from `from` on that a pass reads can be read. */
  predicate ColumnsReadable(su: StringUtil, schema: seq<FieldKind>, row: seq<string>, from: nat)
  {
    forall j :: 1 <= j && from <= j < |row| && j <= |schema| ==> Readable(su, schema[j - 1], row[j])
  }

  /** What the source needs of a row for its fill to be defined and to end:
      column 1 is read before any check, so at least two columns; the pass
      only breaks out of `while (true)` when it runs out of columns, so at
      most one column (the id) more than the schema has fields. */
  predicate RowFits(su: StringUtil, schema: seq<FieldKind>, row: seq<string>)
  {
    2 <= |row| <= |schema| + 1 && ColumnsReadable(su, schema, row, 1)
  }

  /** One pass of the `while (true)` body, from the macro that reads column
      `index` to the end of the body. Returns the record and whether the pass
      left the loop by `break` (otherwise the loop body starts over). */
  function FillFrom(su: StringUtil, schema: seq<FieldKind>, row: seq<string>, rec: seq<Cell>, index: nat): (r: (seq<Cell>, bool))
    requires |rec| == |schema|
    requires 1 <= index < |row| && index <= |schema| + 1
    requires ColumnsReadable(su, schema, row, index)
    ensures |r.0| == |schema|
    decreases |schema| + 1 - index
  {
    if index > |schema| then (rec, false)
    else
      var rec' := rec[index - 1 := Convert(su, schema[index - 1], row[index])];
      if index + 1 >= |row| then (rec', true)
      else FillFrom(su, schema, row, rec', index + 1)
  }

  /** A pass from column `index` stores columns index.. into their fields and
      leaves the others alone; it breaks exactly when the row is no longer
      than the schema plus the id. */
  lemma {:induction false} FillFromFacts(su: StringUtil, schema: seq<FieldKind>, row: seq<string>, rec: seq<Cell>, index: nat)
    requires |rec| == |schema|
    requires 1 <= index < |row| && index <= |schema| + 1
    requires ColumnsReadable(su, schema, row, index)
    ensures FillFrom(su, schema, row, rec, index).1 <==> |row| <= |schema| + 1
    ensures |FillFrom(su, schema, row, rec, index).0| == |schema|
    ensures forall j :: 0 <= j < |schema| ==>
      FillFrom(su, schema, row, rec, index).0[j] ==
        if index - 1 <= j && j + 1 < |row| then Convert(su, schema[j], row[j + 1]) else rec[j]
    decreases |schema| + 1 - index
  {
    if index <= |schema| {
      var rec' := rec[index - 1 := Convert(su, schema[index - 1], row[index])];
      if index + 1 < |row| {
        FillFromFacts(su, schema, row, rec', index + 1);
      }
    }
  }

  /** The record after one row: the first pass, which starts at column 1
      because column 0 (the id) is discarded. */
  function Fill(su: StringUtil, schema: seq<FieldKind>, row: seq<string>, prev: seq<Cell>): (c: seq<Cell>)
    requires |prev| == |schema| && 2 <= |row|
    requires ColumnsReadable(su, schema, row, 1)
    ensures |c| == |schema|
  {
    FillFrom(su, schema, row, prev, 1).0
  }

  /** Fields 0..n-2 take columns 1..n-1 in schema order; every later field keeps
      what the reused record variable held before. */
  lemma FillFields(su: StringUtil, schema: seq<FieldKind>, row: seq<string>, prev: seq<Cell>)
    requires |prev| == |schema| && 2 <= |row|
    requires ColumnsReadable(su, schema, row, 1)
    ensures |Fill(su, schema, row, prev)| == |schema|
    ensures forall j :: 0 <= j < |schema| ==>
      Fill(su, schema, row, prev)[j] ==
        if j + 1 < |row| then Convert(su, schema[j], row[j + 1]) else prev[j]
  {
    FillFromFacts(su, schema, row, prev, 1);
  }

  /** The same, for one field. */
  lemma FillAt(su: StringUtil, schema: seq<FieldKind>, row: seq<string>, prev: seq<Cell>, j: nat)
    requires |prev| == |schema| && 2 <= |row|
    requires ColumnsReadable(su, schema, row, 1)
    requires j < |schema|
    ensures |Fill(su, schema, row, prev)| == |schema|
    ensures Fill(su, schema, row, prev)[j] ==
      if j + 1 < |row| then Convert(su, schema[j], row[j + 1]) else prev[j]
  {
    FillFields(su, schema, row, prev);
  }

  /** The fill keeps a record well typed. */
  lemma FillWellTyped(su: StringUtil, schema: seq<FieldKind>, row: seq<string>, prev: seq<Cell>)
    requires WellTyped(prev, schema) && 2 <= |row|
    requires ColumnsReadable(su, schema, row, 1)
    ensures WellTyped(Fill(su, schema, row, prev), schema)
  {
    FillFields(su, schema, row, prev);
  }

  /** Column 0, the row id, is never read. */
  lemma FillIgnoresId(su: StringUtil, schema: seq<FieldKind>, row: seq<string>, prev: seq<Cell>, id: string)
    requires |prev| == |schema| && 2 <= |row|
    requires ColumnsReadable(su, schema, row, 1)
    ensures ColumnsReadable(su, schema, [id] + row[1..], 1)
    ensures Fill(su, schema, [id] + row[1..], prev) == Fill(su, schema, row, prev)
  {
    var row' := [id] + row[1..];
    assert forall j :: 1 <= j < |row| ==> row'[j] == row[j];
    FillFields(su, schema, row, prev);
    FillFields(su, schema, row', prev);
  }

  /** The `while (true)` body run once over a row, with its `index` variable;
      `broke` tells whether a macro's `break` ended the loop. When it is false
      the source would run the body again, identically, for ever. */
  method FillPass(su: StringUtil, schema: seq<FieldKind>, row: seq<string>, prev: seq<Cell>)
    returns (rec: seq<Cell>, broke: bool)
    requires |prev| == |schema| && 2 <= |row|
    requires ColumnsReadable(su, schema, row, 1)
    ensures (rec, broke) == FillFrom(su, schema, row, prev, 1)
    ensures broke <==> |row| <= |schema| + 1
  {
    FillFromFacts(su, schema, row, prev, 1);
    rec := prev;
    broke := false;
    var index := 1;  // the id is discarded
    while index <= |schema|
      invariant 1 <= index < |row| && index <= |schema| + 1
      invariant |rec| == |schema|
      invariant FillFrom(su, schema, row, rec, index) == FillFrom(su, schema, row, prev, 1)
    {
      rec := rec[index - 1 := Convert(su, schema[index - 1], row[index])];
      index := index + 1;
      if index >= |row| {
        broke := true;
        return;
      }
    }
  }

  // StaticMeshDataSet: 13 columns after the id, in the order of FSceneDataImporter.cpp:164-176.

  /** The kind of the field read from column j+1. */
  function StaticMeshKind(j: int): FieldKind
  {
    match j
    case 0 => TextField  // Name
    case 1 => TextField  // OwnerName
    case 2 => UInt32Field  // NumVertices
    case 3 => UInt32Field  // NumTriangles
    case 4 => UInt32Field  // NumInstances
    case 5 => UInt16Field  // NumLODs
    case 6 => UInt16Field  // CurrentLOD
    case 7 => TextField  // AssetPath
    case 8 => UInt32Field  // UniqueId
    case 9 => Int32ArrayField  // BoundsIndices
    case 10 => Int32ArrayField  // TransformsIndices
    case 11 => Int32ArrayField  // UsedMaterialsIndices
    case _ => Int32ArrayField  // UsedMaterialIntancesIndices
  }

  function StaticMeshSchema(): (s: seq<FieldKind>)
    ensures |s| == 13
  {
    seq(13, j => StaticMeshKind(j))
  }

  /** The cell holding the field read from column j+1. */
  function StaticMeshCell(r: StaticMeshDataSet, j: int): Cell
  {
    match j
    case 0 => Text(r.Name)
    case 1 => Text(r.OwnerName)
    case 2 => UInt32(r.NumVertices)
    case 3 => UInt32(r.NumTriangles)
    case 4 => UInt32(r.NumInstances)
    case 5 => UInt16(r.NumLODs)
    case 6 => UInt16(r.CurrentLOD)
    case 7 => Text(r.AssetPath)
    case 8 => UInt32(r.UniqueId)
    case 9 => Ints(r.BoundsIndices)
    case 10 => Ints(r.TransformsIndices)
    case 11 => Ints(r.UsedMaterialsIndices)
    case _ => Ints(r.UsedMaterialIntancesIndices)
  }

  function StaticMeshToCells(r: StaticMeshDataSet): (c: seq<Cell>)
    ensures |c| == 13
  {
    seq(13, j => StaticMeshCell(r, j))
  }

  /** Every cell of a record has the kind its field has in the schema. */
  lemma StaticMeshCellsWellTyped(r: StaticMeshDataSet)
    ensures WellTyped(StaticMeshToCells(r), StaticMeshSchema())
  {
  }

  /** The record whose fields are read from the cells; a cell of the wrong
      kind (which a well-typed sequence never has) keeps the field of `r`. */
  function StaticMeshFromCells(c: seq<Cell>, r: StaticMeshDataSet): StaticMeshDataSet
    requires |c| == |StaticMeshSchema()|
  {
    StaticMeshDataSet(
      Name := TextOf(c[0], r.Name),
      OwnerName := TextOf(c[1], r.OwnerName),
      NumVertices := UInt32Of(c[2], r.NumVertices),
      NumTriangles := UInt32Of(c[3], r.NumTriangles),
      NumInstances := UInt32Of(c[4], r.NumInstances),
      NumLODs := UInt16Of(c[5], r.NumLODs),
      CurrentLOD := UInt16Of(c[6], r.CurrentLOD),
      AssetPath := TextOf(c[7], r.AssetPath),
      UniqueId := UInt32Of(c[8], r.UniqueId),
      BoundsIndices := IntsOf(c[9], r.BoundsIndices),
      TransformsIndices := IntsOf(c[10], r.TransformsIndices),
      UsedMaterialsIndices := IntsOf(c[11], r.UsedMaterialsIndices),
      UsedMaterialIntancesIndices := IntsOf(c[12], r.UsedMaterialIntancesIndices))
  }

  /** The record and its cells determine each other. */
  lemma StaticMeshCellsRoundTrip(r: StaticMeshDataSet)
    ensures StaticMeshFromCells(StaticMeshToCells(r), r) == r
  {
  }

  /** One StaticMeshDataSet row read into the reused record variable `prev`. */
  function FillStaticMesh(su: StringUtil, row: seq<string>, prev: StaticMeshDataSet): StaticMeshDataSet
    requires RowFits(su, StaticMeshSchema(), row)
  {
    StaticMeshFromCells(Fill(su, StaticMeshSchema(), row, StaticMeshToCells(prev)), prev)
  }

  /** Field by field, Name .. OwnerName (columns 1-2): the field read from column j+1
      takes the converted column when the row has that column, and otherwise keeps
      the value the reused record variable held before the row. */
  lemma FillStaticMeshFields1(su: StringUtil, row: seq<string>, prev: StaticMeshDataSet)
    requires RowFits(su, StaticMeshSchema(), row)
    ensures FillStaticMesh(su, row, prev).Name == if 1 < |row| then row[1] else prev.Name
    ensures FillStaticMesh(su, row, prev).OwnerName == if 2 < |row| then row[2] else prev.OwnerName
  {
    FillAt(su, StaticMeshSchema(), row, StaticMeshToCells(prev), 0);
    FillAt(su, StaticMeshSchema(), row, StaticMeshToCells(prev), 1);
  }

  /** As FillStaticMeshFields1, for NumVertices .. NumTriangles (columns 3-4). */
  lemma FillStaticMeshFields2(su: StringUtil, row: seq<string>, prev: StaticMeshDataSet)
    requires RowFits(su, StaticMeshSchema(), row)
    ensures FillStaticMesh(su, row, prev).NumVertices == if 3 < |row| then su.toUInt32(row[3]) else prev.NumVertices
    ensures FillStaticMesh(su, row, prev).NumTriangles == if 4 < |row| then su.toUInt32(row[4]) else prev.NumTriangles
  {
    FillAt(su, StaticMeshSchema(), row, StaticMeshToCells(prev), 2);
    FillAt(su, StaticMeshSchema(), row, StaticMeshToCells(prev), 3);
  }

  /** As FillStaticMeshFields1, for NumInstances .. NumLODs (columns 5-6). */
  lemma FillStaticMeshFields3(su: StringUtil, row: seq<string>, prev: StaticMeshDataSet)
    requires RowFits(su, StaticMeshSchema(), row)
    ensures FillStaticMesh(su, row, prev).NumInstances == if 5 < |row| then su.toUInt32(row[5]) else prev.NumInstances
    ensures FillStaticMesh(su, row, prev).NumLODs == if 6 < |row| then su.toUInt16(row[6]) else prev.NumLODs
  {
    FillAt(su, StaticMeshSchema(), row, StaticMeshToCells(prev), 4);
    FillAt(su, StaticMeshSchema(), row, StaticMeshToCells(prev), 5);
  }

  /** As FillStaticMeshFields1, for CurrentLOD .. AssetPath (columns 7-8). */
  lemma FillStaticMeshFields4(su: StringUtil, row: seq<string>, prev: StaticMeshDataSet)
    requires RowFits(su, StaticMeshSchema(), row)
    ensures FillStaticMesh(su, row, prev).CurrentLOD == if 7 < |row| then su.toUInt16(row[7]) else prev.CurrentLOD
    ensures FillStaticMesh(su, row, prev).AssetPath == if 8 < |row| then row[8] else prev.AssetPath
  {
    FillAt(su, StaticMeshSchema(), row, StaticMeshToCells(prev), 6);
    FillAt(su, StaticMeshSchema(), row, StaticMeshToCells(prev), 7);
  }

  /** As FillStaticMeshFields1, for UniqueId .. BoundsIndices (columns 9-10). */
  lemma FillStaticMeshFields5(su: StringUtil, row: seq<string>, prev: StaticMeshDataSet)
    requires RowFits(su, StaticMeshSchema(), row)
    ensures FillStaticMesh(su, row, prev).UniqueId == if 9 < |row| then su.toUInt32(row[9]) else prev.UniqueId
    ensures FillStaticMesh(su, row, prev).BoundsIndices == if 10 < |row| then su.toInt32Array(row[10], Separator) else prev.BoundsIndices
  {
    FillAt(su, StaticMeshSchema(), row, StaticMeshToCells(prev), 8);
    FillAt(su, StaticMeshSchema(), row, StaticMeshToCells(prev), 9);
  }

  /** As FillStaticMeshFields1, for TransformsIndices .. UsedMaterialsIndices (columns 11-12). */
  lemma FillStaticMeshFields6(su: StringUtil, row: seq<string>, prev: StaticMeshDataSet)
    requires RowFits(su, StaticMeshSchema(), row)
    ensures FillStaticMesh(su, row, prev).TransformsIndices == if 11 < |row| then su.toInt32Array(row[11], Separator) else prev.TransformsIndices
    ensures FillStaticMesh(su, row, prev).UsedMaterialsIndices == if 12 < |row| then su.toInt32Array(row[12], Separator) else prev.UsedMaterialsIndices
  {
    FillAt(su, StaticMeshSchema(), row, StaticMeshToCells(prev), 10);
    FillAt(su, StaticMeshSchema(), row, StaticMeshToCells(prev), 11);
  }

  /** As FillStaticMeshFields1, for UsedMaterialIntancesIndices .. UsedMaterialIntancesIndices (columns 13-13). */
  lemma FillStaticMeshFields7(su: StringUtil, row: seq<string>, prev: StaticMeshDataSet)
    requires RowFits(su, StaticMeshSchema(), row)
    ensures FillStaticMesh(su, row, prev).UsedMaterialIntancesIndices == if 13 < |row| then su.toInt32Array(row[13], Separator) else prev.UsedMaterialIntancesIndices
  {
    FillAt(su, StaticMeshSchema(), row, StaticMeshToCells(prev), 12);
  }

  // SkeletalMeshDataSet: 13 columns after the id, in the order of FSceneDataImporter.cpp:192-204.

  /** The kind of the field read from column j+1. */
  function SkeletalMeshKind(j: int): FieldKind
  {
    match j
    case 0 => TextField  // Name
    case 1 => TextField  // OwnerName
    case 2 => UInt32Field  // NumVertices
    case 3 => UInt32Field  // NumTriangles
    case 4 => UInt32Field  // NumSections
    case 5 => UInt16Field  // NumLODs
    case 6 => UInt16Field  // CurrentLOD
    case 7 => TextField  // AssetPath
    case 8 => UInt32Field  // UniqueId
    case 9 => Int32FirstField  // BoundsIndex
    case 10 => Int32FirstField  // TransformsIndex
    case 11 => Int32ArrayField  // UsedMaterialsIndices
    case _ => Int32ArrayField  // UsedMaterialIntancesIndices
  }

  function SkeletalMeshSchema(): (s: seq<FieldKind>)
    ensures |s| == 13
  {
    seq(13, j => SkeletalMeshKind(j))
  }

  /** The cell holding the field read from column j+1. */
  function SkeletalMeshCell(r: SkeletalMeshDataSet, j: int): Cell
  {
    match j
    case 0 => Text(r.Name)
    case 1 => Text(r.OwnerName)
    case 2 => UInt32(r.NumVertices)
    case 3 => UInt32(r.NumTriangles)
    case 4 => UInt32(r.NumSections)
    case 5 => UInt16(r.NumLODs)
    case 6 => UInt16(r.CurrentLOD)
    case 7 => Text(r.AssetPath)
    case 8 => UInt32(r.UniqueId)
    case 9 => Int32(r.BoundsIndex)
    case 10 => Int32(r.TransformsIndex)
    case 11 => Ints(r.UsedMaterialsIndices)
    case _ => Ints(r.UsedMaterialIntancesIndices)
  }

  function SkeletalMeshToCells(r: SkeletalMeshDataSet): (c: seq<Cell>)
    ensures |c| == 13
  {
    seq(13, j => SkeletalMeshCell(r, j))
  }

  /** Every cell of a record has the kind its field has in the schema. */
  lemma SkeletalMeshCellsWellTyped(r: SkeletalMeshDataSet)
    ensures WellTyped(SkeletalMeshToCells(r), SkeletalMeshSchema())
  {
  }

  /** The record whose fields are read from the cells; a cell of the wrong
      kind (which a well-typed sequence never has) keeps the field of `r`. */
  function SkeletalMeshFromCells(c: seq<Cell>, r: SkeletalMeshDataSet): SkeletalMeshDataSet
    requires |c| == |SkeletalMeshSchema()|
  {
    SkeletalMeshDataSet(
      Name := TextOf(c[0], r.Name),
      OwnerName := TextOf(c[1], r.OwnerName),
      NumVertices := UInt32Of(c[2], r.NumVertices),
      NumTriangles := UInt32Of(c[3], r.NumTriangles),
      NumSections := UInt32Of(c[4], r.NumSections),
      NumLODs := UInt16Of(c[5], r.NumLODs),
      CurrentLOD := UInt16Of(c[6], r.CurrentLOD),
      AssetPath := TextOf(c[7], r.AssetPath),
      UniqueId := UInt32Of(c[8], r.UniqueId),
      BoundsIndex := Int32Of(c[9], r.BoundsIndex),
      TransformsIndex := Int32Of(c[10], r.TransformsIndex),
      UsedMaterialsIndices := IntsOf(c[11], r.UsedMaterialsIndices),
      UsedMaterialIntancesIndices := IntsOf(c[12], r.UsedMaterialIntancesIndices))
  }

  /** The record and its cells determine each other. */
  lemma SkeletalMeshCellsRoundTrip(r: SkeletalMeshDataSet)
    ensures SkeletalMeshFromCells(SkeletalMeshToCells(r), r) == r
  {
  }

  /** One SkeletalMeshDataSet row read into the reused record variable `prev`. */
  function FillSkeletalMesh(su: StringUtil, row: seq<string>, prev: SkeletalMeshDataSet): SkeletalMeshDataSet
    requires RowFits(su, SkeletalMeshSchema(), row)
  {
    SkeletalMeshFromCells(Fill(su, SkeletalMeshSchema(), row, SkeletalMeshToCells(prev)), prev)
  }

  /** Field by field, Name .. OwnerName (columns 1-2): the field read from column j+1
      takes the converted column when the row has that column, and otherwise keeps
      the value the reused record variable held before the row. */
  lemma FillSkeletalMeshFields1(su: StringUtil, row: seq<string>, prev: SkeletalMeshDataSet)
    requires RowFits(su, SkeletalMeshSchema(), row)
    ensures FillSkeletalMesh(su, row, prev).Name == if 1 < |row| then row[1] else prev.Name
    ensures FillSkeletalMesh(su, row, prev).OwnerName == if 2 < |row| then row[2] else prev.OwnerName
  {
    FillAt(su, SkeletalMeshSchema(), row, SkeletalMeshToCells(prev), 0);
    FillAt(su, SkeletalMeshSchema(), row, SkeletalMeshToCells(prev), 1);
  }

  /** As FillSkeletalMeshFields1, for NumVertices .. NumTriangles (columns 3-4). */
  lemma FillSkeletalMeshFields2(su: StringUtil, row: seq<string>, prev: SkeletalMeshDataSet)
    requires RowFits(su, SkeletalMeshSchema(), row)
    ensures FillSkeletalMesh(su, row, prev).NumVertices == if 3 < |row| then su.toUInt32(row[3]) else prev.NumVertices
    ensures FillSkeletalMesh(su, row, prev).NumTriangles == if 4 < |row| then su.toUInt32(row[4]) else prev.NumTriangles
  {
    FillAt(su, SkeletalMeshSchema(), row, SkeletalMeshToCells(prev), 2);
    FillAt(su, SkeletalMeshSchema(), row, SkeletalMeshToCells(prev), 3);
  }

  /** As FillSkeletalMeshFields1, for NumSections .. NumLODs (columns 5-6). */
  lemma FillSkeletalMeshFields3(su: StringUtil, row: seq<string>, prev: SkeletalMeshDataSet)
    requires RowFits(su, SkeletalMeshSchema(), row)
    ensures FillSkeletalMesh(su, row, prev).NumSections == if 5 < |row| then su.toUInt32(row[5]) else prev.NumSections
    ensures FillSkeletalMesh(su, row, prev).NumLODs == if 6 < |row| then su.toUInt16(row[6]) else prev.NumLODs
  {
    FillAt(su, SkeletalMeshSchema(), row, SkeletalMeshToCells(prev), 4);
    FillAt(su, SkeletalMeshSchema(), row, SkeletalMeshToCells(prev), 5);
  }

  /** As FillSkeletalMeshFields1, for CurrentLOD .. AssetPath (columns 7-8). */
  lemma FillSkeletalMeshFields4(su: StringUtil, row: seq<string>, prev: SkeletalMeshDataSet)
    requires RowFits(su, SkeletalMeshSchema(), row)
    ensures FillSkeletalMesh(su, row, prev).CurrentLOD == if 7 < |row| then su.toUInt16(row[7]) else prev.CurrentLOD
    ensures FillSkeletalMesh(su, row, prev).AssetPath == if 8 < |row| then row[8] else prev.AssetPath
  {
    FillAt(su, SkeletalMeshSchema(), row, SkeletalMeshToCells(prev), 6);
    FillAt(su, SkeletalMeshSchema(), row, SkeletalMeshToCells(prev), 7);
  }

  /** As FillSkeletalMeshFields1, for UniqueId .. BoundsIndex (columns 9-10). */
  lemma FillSkeletalMeshFields5(su: StringUtil, row: seq<string>, prev: SkeletalMeshDataSet)
    requires RowFits(su, SkeletalMeshSchema(), row)
    ensures FillSkeletalMesh(su, row, prev).UniqueId == if 9 < |row| then su.toUInt32(row[9]) else prev.UniqueId
    ensures FillSkeletalMesh(su, row, prev).BoundsIndex == if 10 < |row| then su.toInt32Array(row[10], Separator)[0] else prev.BoundsIndex
  {
    FillAt(su, SkeletalMeshSchema(), row, SkeletalMeshToCells(prev), 8);
    FillAt(su, SkeletalMeshSchema(), row, SkeletalMeshToCells(prev), 9);
  }

  /** As FillSkeletalMeshFields1, for TransformsIndex .. UsedMaterialsIndices (columns 11-12). */
  lemma FillSkeletalMeshFields6(su: StringUtil, row: seq<string>, prev: SkeletalMeshDataSet)
    requires RowFits(su, SkeletalMeshSchema(), row)
    ensures FillSkeletalMesh(su, row, prev).TransformsIndex == if 11 < |row| then su.toInt32Array(row[11], Separator)[0] else prev.TransformsIndex
    ensures FillSkeletalMesh(su, row, prev).UsedMaterialsIndices == if 12 < |row| then su.toInt32Array(row[12], Separator) else prev.UsedMaterialsIndices
  {
    FillAt(su, SkeletalMeshSchema(), row, SkeletalMeshToCells(prev), 10);
    FillAt(su, SkeletalMeshSchema(), row, SkeletalMeshToCells(prev), 11);
  }

  /** As FillSkeletalMeshFields1, for UsedMaterialIntancesIndices .. UsedMaterialIntancesIndices (columns 13-13). */
  lemma FillSkeletalMeshFields7(su: StringUtil, row: seq<string>, prev: SkeletalMeshDataSet)
    requires RowFits(su, SkeletalMeshSchema(), row)
    ensures FillSkeletalMesh(su, row, prev).UsedMaterialIntancesIndices == if 13 < |row| then su.toInt32Array(row[13], Separator) else prev.UsedMaterialIntancesIndices
  {
    FillAt(su, SkeletalMeshSchema(), row, SkeletalMeshToCells(prev), 12);
  }

  // MaterialDataSet: 39 columns after the id, in the order of FSceneDataImporter.cpp:291-329.

  /** The kind of the field read from column j+1. */
  function MaterialKind(j: int): FieldKind
  {
    match j
    case 0 => TextField  // Name
    case 1 => UInt32Field  // NumInstances
    case 2 => UInt32Field  // NumRefs
    case 3 => Int32Field  // BPSCount
    case 4 => Int32Field  // BPSSurfaceLightmap
    case 5 => Int32Field  // BPSVolumetricLightmap
    case 6 => Int32Field  // BPSVertex
    case 7 => TextField  // TexSamplers
    case 8 => TextField  // UserInterpolators
    case 9 => TextField  // TexLookups
    case 10 => TextField  // VTLookups
    case 11 => TextField  // ShaderErrors
    case 12 => TextField  // MaterialDomain
    case 13 => TextField  // BlendMode
    case 14 => TextField  // DecalBlendMode
    case 15 => TextField  // ShadingModel
    case 16 => BitField  // TwoSided
    case 17 => BitField  // bCastRayTracedShadows
    case 18 => BitField  // bScreenSpaceReflections
    case 19 => BitField  // bContactShadows
    case 20 => TextField  // TranslucencyLightingMode
    case 21 => FloatField  // TranslucencyDirectionalLightingIntensity
    case 22 => BitField  // bUseTranslucencyVertexFog
    case 23 => BitField  // bComputeFogPerPixel
    case 24 => BitField  // bOutputTranslucentVelocity
    case 25 => BitField  // bEnableSeparateTranslucency
    case 26 => BitField  // bEnableResponsiveAA
    case 27 => BitField  // bEnableMobileSeparateTranslucency
    case 28 => BitField  // bDisableDepthTest
    case 29 => BitField  // bWriteOnlyAlpha
    case 30 => BitField  // AllowTranslucentCustomDepthWrites
    case 31 => BitField  // bUseFullPrecision
    case 32 => BitField  // bUseLightmapDirectionality
    case 33 => BitField  // bUseHQForwardReflections
    case 34 => BitField  // bUsePlanarForwardReflections
    case 35 => TextField  // AssetPath
    case 36 => UInt32Field  // UniqueId
    case 37 => Int32ArrayField  // UsedTexturesIndices
    case _ => Int32ArrayField  // MatInsIndices
  }

  function MaterialSchema(): (s: seq<FieldKind>)
    ensures |s| == 39
  {
    seq(39, j => MaterialKind(j))
  }

  /** The cell holding the field read from column j+1. */
  function MaterialCell(r: MaterialDataSet, j: int): Cell
  {
    match j
    case 0 => Text(r.Name)
    case 1 => UInt32(r.NumInstances)
    case 2 => UInt32(r.NumRefs)
    case 3 => Int32(r.BPSCount)
    case 4 => Int32(r.BPSSurfaceLightmap)
    case 5 => Int32(r.BPSVolumetricLightmap)
    case 6 => Int32(r.BPSVertex)
    case 7 => Text(r.TexSamplers)
    case 8 => Text(r.UserInterpolators)
    case 9 => Text(r.TexLookups)
    case 10 => Text(r.VTLookups)
    case 11 => Text(r.ShaderErrors)
    case 12 => Text(r.MaterialDomain)
    case 13 => Text(r.BlendMode)
    case 14 => Text(r.DecalBlendMode)
    case 15 => Text(r.ShadingModel)
    case 16 => Bit(r.TwoSided)
    case 17 => Bit(r.bCastRayTracedShadows)
    case 18 => Bit(r.bScreenSpaceReflections)
    case 19 => Bit(r.bContactShadows)
    case 20 => Text(r.TranslucencyLightingMode)
    case 21 => Real(r.TranslucencyDirectionalLightingIntensity)
    case 22 => Bit(r.bUseTranslucencyVertexFog)
    case 23 => Bit(r.bComputeFogPerPixel)
    case 24 => Bit(r.bOutputTranslucentVelocity)
    case 25 => Bit(r.bEnableSeparateTranslucency)
    case 26 => Bit(r.bEnableResponsiveAA)
    case 27 => Bit(r.bEnableMobileSeparateTranslucency)
    case 28 => Bit(r.bDisableDepthTest)
    case 29 => Bit(r.bWriteOnlyAlpha)
    case 30 => Bit(r.AllowTranslucentCustomDepthWrites)
    case 31 => Bit(r.bUseFullPrecision)
    case 32 => Bit(r.bUseLightmapDirectionality)
    case 33 => Bit(r.bUseHQForwardReflections)
    case 34 => Bit(r.bUsePlanarForwardReflections)
    case 35 => Text(r.AssetPath)
    case 36 => UInt32(r.UniqueId)
    case 37 => Ints(r.UsedTexturesIndices)
    case _ => Ints(r.MatInsIndices)
  }

  function MaterialToCells(r: MaterialDataSet): (c: seq<Cell>)
    ensures |c| == 39
  {
    seq(39, j => MaterialCell(r, j))
  }

  /** Every cell of a record has the kind its field has in the schema. */
  lemma MaterialCellsWellTyped(r: MaterialDataSet)
    ensures WellTyped(MaterialToCells(r), MaterialSchema())
  {
  }

  /** The record whose fields are read from the cells; a cell of the wrong
      kind (which a well-typed sequence never has) keeps the field of `r`. */
  function MaterialFromCells(c: seq<Cell>, r: MaterialDataSet): MaterialDataSet
    requires |c| == |MaterialSchema()|
  {
    MaterialDataSet(
      Name := TextOf(c[0], r.Name),
      NumInstances := UInt32Of(c[1], r.NumInstances),
      NumRefs := UInt32Of(c[2], r.NumRefs),
      BPSCount := Int32Of(c[3], r.BPSCount),
      BPSSurfaceLightmap := Int32Of(c[4], r.BPSSurfaceLightmap),
      BPSVolumetricLightmap := Int32Of(c[5], r.BPSVolumetricLightmap),
      BPSVertex := Int32Of(c[6], r.BPSVertex),
      TexSamplers := TextOf(c[7], r.TexSamplers),
      UserInterpolators := TextOf(c[8], r.UserInterpolators),
      TexLookups := TextOf(c[9], r.TexLookups),
      VTLookups := TextOf(c[10], r.VTLookups),
      ShaderErrors := TextOf(c[11], r.ShaderErrors),
      MaterialDomain := TextOf(c[12], r.MaterialDomain),
      BlendMode := TextOf(c[13], r.BlendMode),
      DecalBlendMode := TextOf(c[14], r.DecalBlendMode),
      ShadingModel := TextOf(c[15], r.ShadingModel),
      TwoSided := BitOf(c[16], r.TwoSided),
      bCastRayTracedShadows := BitOf(c[17], r.bCastRayTracedShadows),
      bScreenSpaceReflections := BitOf(c[18], r.bScreenSpaceReflections),
      bContactShadows := BitOf(c[19], r.bContactShadows),
      TranslucencyLightingMode := TextOf(c[20], r.TranslucencyLightingMode),
      TranslucencyDirectionalLightingIntensity := RealOf(c[21], r.TranslucencyDirectionalLightingIntensity),
      bUseTranslucencyVertexFog := BitOf(c[22], r.bUseTranslucencyVertexFog),
      bComputeFogPerPixel := BitOf(c[23], r.bComputeFogPerPixel),
      bOutputTranslucentVelocity := BitOf(c[24], r.bOutputTranslucentVelocity),
      bEnableSeparateTranslucency := BitOf(c[25], r.bEnableSeparateTranslucency),
      bEnableResponsiveAA := BitOf(c[26], r.bEnableResponsiveAA),
      bEnableMobileSeparateTranslucency := BitOf(c[27], r.bEnableMobileSeparateTranslucency),
      bDisableDepthTest := BitOf(c[28], r.bDisableDepthTest),
      bWriteOnlyAlpha := BitOf(c[29], r.bWriteOnlyAlpha),
      AllowTranslucentCustomDepthWrites := BitOf(c[30], r.AllowTranslucentCustomDepthWrites),
      bUseFullPrecision := BitOf(c[31], r.bUseFullPrecision),
      bUseLightmapDirectionality := BitOf(c[32], r.bUseLightmapDirectionality),
      bUseHQForwardReflections := BitOf(c[33], r.bUseHQForwardReflections),
      bUsePlanarForwardReflections := BitOf(c[34], r.bUsePlanarForwardReflections),
      AssetPath := TextOf(c[35], r.AssetPath),
      UniqueId := UInt32Of(c[36], r.UniqueId),
      UsedTexturesIndices := IntsOf(c[37], r.UsedTexturesIndices),
      MatInsIndices := IntsOf(c[38], r.MatInsIndices))
  }

  /** The record and its cells determine each other. */
  lemma MaterialCellsRoundTrip(r: MaterialDataSet)
    ensures MaterialFromCells(MaterialToCells(r), r) == r
  {
  }

  /** One MaterialDataSet row read into the reused record variable `prev`. */
  function FillMaterial(su: StringUtil, row: seq<string>, prev: MaterialDataSet): MaterialDataSet
    requires RowFits(su, MaterialSchema(), row)
  {
    MaterialFromCells(Fill(su, MaterialSchema(), row, MaterialToCells(prev)), prev)
  }

  /** Field by field, Name .. NumInstances (columns 1-2): the field read from column j+1
      takes the converted column when the row has that column, and otherwise keeps
      the value the reused record variable held before the row. */
  lemma FillMaterialFields1(su: StringUtil, row: seq<string>, prev: MaterialDataSet)
    requires RowFits(su, MaterialSchema(), row)
    ensures FillMaterial(su, row, prev).Name == if 1 < |row| then row[1] else prev.Name
    ensures FillMaterial(su, row, prev).NumInstances == if 2 < |row| then su.toUInt32(row[2]) else prev.NumInstances
  {
    FillAt(su, MaterialSchema(), row, MaterialToCells(prev), 0);
    FillAt(su, MaterialSchema(), row, MaterialToCells(prev), 1);
  }

  /** As FillMaterialFields1, for NumRefs .. BPSCount (columns 3-4). */
  lemma FillMaterialFields2(su: StringUtil, row: seq<string>, prev: MaterialDataSet)
    requires RowFits(su, MaterialSchema(), row)
    ensures FillMaterial(su, row, prev).NumRefs == if 3 < |row| then su.toUInt32(row[3]) else prev.NumRefs
    ensures FillMaterial(su, row, prev).BPSCount == if 4 < |row| then su.toInt32(row[4]) else prev.BPSCount
  {
    FillAt(su, MaterialSchema(), row, MaterialToCells(prev), 2);
    FillAt(su, MaterialSchema(), row, MaterialToCells(prev), 3);
  }

  /** As FillMaterialFields1, for BPSSurfaceLightmap .. BPSVolumetricLightmap (columns 5-6). */
  lemma FillMaterialFields3(su: StringUtil, row: seq<string>, prev: MaterialDataSet)
    requires RowFits(su, MaterialSchema(), row)
    ensures FillMaterial(su, row, prev).BPSSurfaceLightmap == if 5 < |row| then su.toInt32(row[5]) else prev.BPSSurfaceLightmap
    ensures FillMaterial(su, row, prev).BPSVolumetricLightmap == if 6 < |row| then su.toInt32(row[6]) else prev.BPSVolumetricLightmap
  {
    FillAt(su, MaterialSchema(), row, MaterialToCells(prev), 4);
    FillAt(su, MaterialSchema(), row, MaterialToCells(prev), 5);
  }

  /** As FillMaterialFields1, for BPSVertex .. TexSamplers (columns 7-8). */
  lemma FillMaterialFields4(su: StringUtil, row: seq<string>, prev: MaterialDataSet)
    requires RowFits(su, MaterialSchema(), row)
    ensures FillMaterial(su, row, prev).BPSVertex == if 7 < |row| then su.toInt32(row[7]) else prev.BPSVertex
    ensures FillMaterial(su, row, prev).TexSamplers == if 8 < |row| then row[8] else prev.TexSamplers
  {
    FillAt(su, MaterialSchema(), row, MaterialToCells(prev), 6);
    FillAt(su, MaterialSchema(), row, MaterialToCells(prev), 7);
  }

  /** As FillMaterialFields1, for UserInterpolators .. TexLookups (columns 9-10). */
  lemma FillMaterialFields5(su: StringUtil, row: seq<string>, prev: MaterialDataSet)
    requires RowFits(su, MaterialSchema(), row)
    ensures FillMaterial(su, row, prev).UserInterpolators == if 9 < |row| then row[9] else prev.UserInterpolators
    ensures FillMaterial(su, row, prev).TexLookups == if 10 < |row| then row[10] else prev.TexLookups
  {
    FillAt(su, MaterialSchema(), row, MaterialToCells(prev), 8);
    FillAt(su, MaterialSchema(), row, MaterialToCells(prev), 9);
  }

  /** As FillMaterialFields1, for VTLookups .. ShaderErrors (columns 11-12). */
  lemma FillMaterialFields6(su: StringUtil, row: seq<string>, prev: MaterialDataSet)
    requires RowFits(su, MaterialSchema(), row)
    ensures FillMaterial(su, row, prev).VTLookups == if 11 < |row| then row[11] else prev.VTLookups
    ensures FillMaterial(su, row, prev).ShaderErrors == if 12 < |row| then row[12] else prev.ShaderErrors
  {
    FillAt(su, MaterialSchema(), row, MaterialToCells(prev), 10);
    FillAt(su, MaterialSchema(), row, MaterialToCells(prev), 11);
  }

  /** As FillMaterialFields1, for MaterialDomain .. BlendMode (columns 13-14). */
  lemma FillMaterialFields7(su: StringUtil, row: seq<string>, prev: MaterialDataSet)
    requires RowFits(su, MaterialSchema(), row)
    ensures FillMaterial(su, row, prev).MaterialDomain == if 13 < |row| then row[13] else prev.MaterialDomain
    ensures FillMaterial(su, row, prev).BlendMode == if 14 < |row| then row[14] else prev.BlendMode
  {
    FillAt(su, MaterialSchema(), row, MaterialToCells(prev), 12);
    FillAt(su, MaterialSchema(), row, MaterialToCells(prev), 13);
  }

  /** As FillMaterialFields1, for DecalBlendMode .. ShadingModel (columns 15-16). */
  lemma FillMaterialFields8(su: StringUtil, row: seq<string>, prev: MaterialDataSet)
    requires RowFits(su, MaterialSchema(), row)
    ensures FillMaterial(su, row, prev).DecalBlendMode == if 15 < |row| then row[15] else prev.DecalBlendMode
    ensures FillMaterial(su, row, prev).ShadingModel == if 16 < |row| then row[16] else prev.ShadingModel
  {
    FillAt(su, MaterialSchema(), row, MaterialToCells(prev), 14);
    FillAt(su, MaterialSchema(), row, MaterialToCells(prev), 15);
  }

  /** As FillMaterialFields1, for TwoSided .. bCastRayTracedShadows (columns 17-18). */
  lemma FillMaterialFields9(su: StringUtil, row: seq<string>, prev: MaterialDataSet)
    requires RowFits(su, MaterialSchema(), row)
    ensures FillMaterial(su, row, prev).TwoSided == if 17 < |row| then su.toUInt16(row[17]) % 2 else prev.TwoSided
    ensures FillMaterial(su, row, prev).bCastRayTracedShadows == if 18 < |row| then su.toUInt16(row[18]) % 2 else prev.bCastRayTracedShadows
  {
    FillAt(su, MaterialSchema(), row, MaterialToCells(prev), 16);
    FillAt(su, MaterialSchema(), row, MaterialToCells(prev), 17);
  }

  /** As FillMaterialFields1, for bScreenSpaceReflections .. bContactShadows (columns 19-20). */
  lemma FillMaterialFields10(su: StringUtil, row: seq<string>, prev: MaterialDataSet)
    requires RowFits(su, MaterialSchema(), row)
    ensures FillMaterial(su, row, prev).bScreenSpaceReflections == if 19 < |row| then su.toUInt16(row[19]) % 2 else prev.bScreenSpaceReflections
    ensures FillMaterial(su, row, prev).bContactShadows == if 20 < |row| then su.toUInt16(row[20]) % 2 else prev.bContactShadows
  {
    FillAt(su, MaterialSchema(), row, MaterialToCells(prev), 18);
    FillAt(su, MaterialSchema(), row, MaterialToCells(prev), 19);
  }

  /** As FillMaterialFields1, for TranslucencyLightingMode .. TranslucencyDirectionalLightingIntensity (columns 21-22). */
  lemma FillMaterialFields11(su: StringUtil, row: seq<string>, prev: MaterialDataSet)
    requires RowFits(su, MaterialSchema(), row)
    ensures FillMaterial(su, row, prev).TranslucencyLightingMode == if 21 < |row| then row[21] else prev.TranslucencyLightingMode
    ensures FillMaterial(su, row, prev).TranslucencyDirectionalLightingIntensity == if 22 < |row| then su.toFloat(row[22]) else prev.TranslucencyDirectionalLightingIntensity
  {
    FillAt(su, MaterialSchema(), row, MaterialToCells(prev), 20);
    FillAt(su, MaterialSchema(), row, MaterialToCells(prev), 21);
  }

  /** As FillMaterialFields1, for bUseTranslucencyVertexFog .. bComputeFogPerPixel (columns 23-24). */
  lemma FillMaterialFields12(su: StringUtil, row: seq<string>, prev: MaterialDataSet)
    requires RowFits(su, MaterialSchema(), row)
    ensures FillMaterial(su, row, prev).bUseTranslucencyVertexFog == if 23 < |row| then su.toUInt16(row[23]) % 2 else prev.bUseTranslucencyVertexFog
    ensures FillMaterial(su, row, prev).bComputeFogPerPixel == if 24 < |row| then su.toUInt16(row[24]) % 2 else prev.bComputeFogPerPixel
  {
    FillAt(su, MaterialSchema(), row, MaterialToCells(prev), 22);
    FillAt(su, MaterialSchema(), row, MaterialToCells(prev), 23);
  }

  /** As FillMaterialFields1, for bOutputTranslucentVelocity .. bEnableSeparateTranslucency (columns 25-26). */
  lemma FillMaterialFields13(su: StringUtil, row: seq<string>, prev: MaterialDataSet)
    requires RowFits(su, MaterialSchema(), row)
    ensures FillMaterial(su, row, prev).bOutputTranslucentVelocity == if 25 < |row| then su.toUInt16(row[25]) % 2 else prev.bOutputTranslucentVelocity
    ensures FillMaterial(su, row, prev).bEnableSeparateTranslucency == if 26 < |row| then su.toUInt16(row[26]) % 2 else prev.bEnableSeparateTranslucency
  {
    FillAt(su, MaterialSchema(), row, MaterialToCells(prev), 24);
    FillAt(su, MaterialSchema(), row, MaterialToCells(prev), 25);
  }

  /** As FillMaterialFields1, for bEnableResponsiveAA .. bEnableMobileSeparateTranslucency (columns 27-28). */
  lemma FillMaterialFields14(su: StringUtil, row: seq<string>, prev: MaterialDataSet)
    requires RowFits(su, MaterialSchema(), row)
    ensures FillMaterial(su, row, prev).bEnableResponsiveAA == if 27 < |row| then su.toUInt16(row[27]) % 2 else prev.bEnableResponsiveAA
    ensures FillMaterial(su, row, prev).bEnableMobileSeparateTranslucency == if 28 < |row| then su.toUInt16(row[28]) % 2 else prev.bEnableMobileSeparateTranslucency
  {
    FillAt(su, MaterialSchema(), row, MaterialToCells(prev), 26);
    FillAt(su, MaterialSchema(), row, MaterialToCells(prev), 27);
  }

  /** As FillMaterialFields1, for bDisableDepthTest .. bWriteOnlyAlpha (columns 29-30). */
  lemma FillMaterialFields15(su: StringUtil, row: seq<string>, prev: MaterialDataSet)
    requires RowFits(su, MaterialSchema(), row)
    ensures FillMaterial(su, row, prev).bDisableDepthTest == if 29 < |row| then su.toUInt16(row[29]) % 2 else prev.bDisableDepthTest
    ensures FillMaterial(su, row, prev).bWriteOnlyAlpha == if 30 < |row| then su.toUInt16(row[30]) % 2 else prev.bWriteOnlyAlpha
  {
    FillAt(su, MaterialSchema(), row, MaterialToCells(prev), 28);
    FillAt(su, MaterialSchema(), row, MaterialToCells(prev), 29);
  }

  /** As FillMaterialFields1, for AllowTranslucentCustomDepthWrites .. bUseFullPrecision (columns 31-32). */
  lemma FillMaterialFields16(su: StringUtil, row: seq<string>, prev: MaterialDataSet)
    requires RowFits(su, MaterialSchema(), row)
    ensures FillMaterial(su, row, prev).AllowTranslucentCustomDepthWrites == if 31 < |row| then su.toUInt16(row[31]) % 2 else prev.AllowTranslucentCustomDepthWrites
    ensures FillMaterial(su, row, prev).bUseFullPrecision == if 32 < |row| then su.toUInt16(row[32]) % 2 else prev.bUseFullPrecision
  {
    FillAt(su, MaterialSchema(), row, MaterialToCells(prev), 30);
    FillAt(su, MaterialSchema(), row, MaterialToCells(prev), 31);
  }

  /** As FillMaterialFields1, for bUseLightmapDirectionality .. bUseHQForwardReflections (columns 33-34). */
  lemma FillMaterialFields17(su: StringUtil, row: seq<string>, prev: MaterialDataSet)
    requires RowFits(su, MaterialSchema(), row)
    ensures FillMaterial(su, row, prev).bUseLightmapDirectionality == if 33 < |row| then su.toUInt16(row[33]) % 2 else prev.bUseLightmapDirectionality
    ensures FillMaterial(su, row, prev).bUseHQForwardReflections == if 34 < |row| then su.toUInt16(row[34]) % 2 else prev.bUseHQForwardReflections
  {
    FillAt(su, MaterialSchema(), row, MaterialToCells(prev), 32);
    FillAt(su, MaterialSchema(), row, MaterialToCells(prev), 33);
  }

  /** As FillMaterialFields1, for bUsePlanarForwardReflections .. AssetPath (columns 35-36). */
  lemma FillMaterialFields18(su: StringUtil, row: seq<string>, prev: MaterialDataSet)
    requires RowFits(su, MaterialSchema(), row)
    ensures FillMaterial(su, row, prev).bUsePlanarForwardReflections == if 35 < |row| then su.toUInt16(row[35]) % 2 else prev.bUsePlanarForwardReflections
    ensures FillMaterial(su, row, prev).AssetPath == if 36 < |row| then row[36] else prev.AssetPath
  {
    FillAt(su, MaterialSchema(), row, MaterialToCells(prev), 34);
    FillAt(su, MaterialSchema(), row, MaterialToCells(prev), 35);
  }

  /** As FillMaterialFields1, for UniqueId .. UsedTexturesIndices (columns 37-38). */
  lemma FillMaterialFields19(su: StringUtil, row: seq<string>, prev: MaterialDataSet)
    requires RowFits(su, MaterialSchema(), row)
    ensures FillMaterial(su, row, prev).UniqueId == if 37 < |row| then su.toUInt32(row[37]) else prev.UniqueId
    ensures FillMaterial(su, row, prev).UsedTexturesIndices == if 38 < |row| then su.toInt32Array(row[38], Separator) else prev.UsedTexturesIndices
  {
    FillAt(su, MaterialSchema(), row, MaterialToCells(prev), 36);
    FillAt(su, MaterialSchema(), row, MaterialToCells(prev), 37);
  }

  /** As FillMaterialFields1, for MatInsIndices .. MatInsIndices (columns 39-39). */
  lemma FillMaterialFields20(su: StringUtil, row: seq<string>, prev: MaterialDataSet)
    requires RowFits(su, MaterialSchema(), row)
    ensures FillMaterial(su, row, prev).MatInsIndices == if 39 < |row| then su.toInt32Array(row[39], Separator) else prev.MatInsIndices
  {
    FillAt(su, MaterialSchema(), row, MaterialToCells(prev), 38);
  }

  // MaterialInstanceDataSet: 7 columns after the id, in the order of FSceneDataImporter.cpp:345-351.

  /** The kind of the field read from column j+1. */
  function MaterialInstanceKind(j: int): FieldKind
  {
    match j
    case 0 => TextField  // Name
    case 1 => UInt32Field  // NumRefs
    case 2 => TextField  // ParentName
    case 3 => Int32Field  // ParentIndex
    case 4 => TextField  // AssetPath
    case 5 => UInt32Field  // UniqueId
    case _ => Int32ArrayField  // UsedTexturesIndices
  }

  function MaterialInstanceSchema(): (s: seq<FieldKind>)
    ensures |s| == 7
  {
    seq(7, j => MaterialInstanceKind(j))
  }

  /** The cell holding the field read from column j+1. */
  function MaterialInstanceCell(r: MaterialInstanceDataSet, j: int): Cell
  {
    match j
    case 0 => Text(r.Name)
    case 1 => UInt32(r.NumRefs)
    case 2 => Text(r.ParentName)
    case 3 => Int32(r.ParentIndex)
    case 4 => Text(r.AssetPath)
    case 5 => UInt32(r.UniqueId)
    case _ => Ints(r.UsedTexturesIndices)
  }

  function MaterialInstanceToCells(r: MaterialInstanceDataSet): (c: seq<Cell>)
    ensures |c| == 7
  {
    seq(7, j => MaterialInstanceCell(r, j))
  }

  /** Every cell of a record has the kind its field has in the schema. */
  lemma MaterialInstanceCellsWellTyped(r: MaterialInstanceDataSet)
    ensures WellTyped(MaterialInstanceToCells(r), MaterialInstanceSchema())
  {
  }

  /** The record whose fields are read from the cells; a cell of the wrong
      kind (which a well-typed sequence never has) keeps the field of `r`. */
  function MaterialInstanceFromCells(c: seq<Cell>, r: MaterialInstanceDataSet): MaterialInstanceDataSet
    requires |c| == |MaterialInstanceSchema()|
  {
    MaterialInstanceDataSet(
      Name := TextOf(c[0], r.Name),
      NumRefs := UInt32Of(c[1], r.NumRefs),
      ParentName := TextOf(c[2], r.ParentName),
      ParentIndex := Int32Of(c[3], r.ParentIndex),
      AssetPath := TextOf(c[4], r.AssetPath),
      UniqueId := UInt32Of(c[5], r.UniqueId),
      UsedTexturesIndices := IntsOf(c[6], r.UsedTexturesIndices))
  }

  /** The record and its cells determine each other. */
  lemma MaterialInstanceCellsRoundTrip(r: MaterialInstanceDataSet)
    ensures MaterialInstanceFromCells(MaterialInstanceToCells(r), r) == r
  {
  }

  /** One MaterialInstanceDataSet row read into the reused record variable `prev`. */
  function FillMaterialInstance(su: StringUtil, row: seq<string>, prev: MaterialInstanceDataSet): MaterialInstanceDataSet
    requires RowFits(su, MaterialInstanceSchema(), row)
  {
    MaterialInstanceFromCells(Fill(su, MaterialInstanceSchema(), row, MaterialInstanceToCells(prev)), prev)
  }

  /** Field by field, Name .. NumRefs (columns 1-2): the field read from column j+1
      takes the converted column when the row has that column, and otherwise keeps
      the value the reused record variable held before the row. */
  lemma FillMaterialInstanceFields1(su: StringUtil, row: seq<string>, prev: MaterialInstanceDataSet)
    requires RowFits(su, MaterialInstanceSchema(), row)
    ensures FillMaterialInstance(su, row, prev).Name == if 1 < |row| then row[1] else prev.Name
    ensures FillMaterialInstance(su, row, prev).NumRefs == if 2 < |row| then su.toUInt32(row[2]) else prev.NumRefs
  {
    FillAt(su, MaterialInstanceSchema(), row, MaterialInstanceToCells(prev), 0);
    FillAt(su, MaterialInstanceSchema(), row, MaterialInstanceToCells(prev), 1);
  }

  /** As FillMaterialInstanceFields1, for ParentName .. ParentIndex (columns 3-4). */
  lemma FillMaterialInstanceFields2(su: StringUtil, row: seq<string>, prev: MaterialInstanceDataSet)
    requires RowFits(su, MaterialInstanceSchema(), row)
    ensures FillMaterialInstance(su, row, prev).ParentName == if 3 < |row| then row[3] else prev.ParentName
    ensures FillMaterialInstance(su, row, prev).ParentIndex == if 4 < |row| then su.toInt32(row[4]) else prev.ParentIndex
  {
    FillAt(su, MaterialInstanceSchema(), row, MaterialInstanceToCells(prev), 2);
    FillAt(su, MaterialInstanceSchema(), row, MaterialInstanceToCells(prev), 3);
  }

  /** As FillMaterialInstanceFields1, for AssetPath .. UniqueId (columns 5-6). */
  lemma FillMaterialInstanceFields3(su: StringUtil, row: seq<string>, prev: MaterialInstanceDataSet)
    requires RowFits(su, MaterialInstanceSchema(), row)
    ensures FillMaterialInstance(su, row, prev).AssetPath == if 5 < |row| then row[5] else prev.AssetPath
    ensures FillMaterialInstance(su, row, prev).UniqueId == if 6 < |row| then su.toUInt32(row[6]) else prev.UniqueId
  {
    FillAt(su, MaterialInstanceSchema(), row, MaterialInstanceToCells(prev), 4);
    FillAt(su, MaterialInstanceSchema(), row, MaterialInstanceToCells(prev), 5);
  }

  /** As FillMaterialInstanceFields1, for UsedTexturesIndices .. UsedTexturesIndices (columns 7-7). */
  lemma FillMaterialInstanceFields4(su: StringUtil, row: seq<string>, prev: MaterialInstanceDataSet)
    requires RowFits(su, MaterialInstanceSchema(), row)
    ensures FillMaterialInstance(su, row, prev).UsedTexturesIndices == if 7 < |row| then su.toInt32Array(row[7], Separator) else prev.UsedTexturesIndices
  {
    FillAt(su, MaterialInstanceSchema(), row, MaterialInstanceToCells(prev), 6);
  }

  // TextureDataSet: 27 columns after the id, in the order of FSceneDataImporter.cpp:367-393 and 410-436.

  /** The kind of the field read from column j+1. */
  function TextureKind(j: int): FieldKind
  {
    match j
    case 0 => TextField  // Name
    case 1 => TextField  // Type
    case 2 => UInt32Field  // NumRefs
    case 3 => TextField  // CurrentSize
    case 4 => TextField  // PixelFormat
    case 5 => FloatField  // CurrentKB
    case 6 => FloatField  // FullyLoadedKB
    case 7 => FloatField  // PVRTC2
    case 8 => FloatField  // PVRTC4
    case 9 => FloatField  // ASTC_4x4
    case 10 => FloatField  // ASTC_6x6
    case 11 => FloatField  // ASTC_8x8
    case 12 => FloatField  // ASTC_10x10
    case 13 => FloatField  // ASTC_12x12
    case 14 => TextField  // SourceSize
    case 15 => TextField  // SourceFormat
    case 16 => BitField  // CompressionNoAlpha
    case 17 => Int32Field  // LODBias
    case 18 => ByteField  // NumResidentMips
    case 19 => ByteField  // NumMipsAllowed
    case 20 => ByteField  // CurrentMips
    case 21 => UInt16Field  // CurrentSizeX
    case 22 => UInt16Field  // CurrentSizeY
    case 23 => UInt16Field  // SourceSizeX
    case 24 => UInt16Field  // SourceSizeY
    case 25 => TextField  // AssetPath
    case _ => UInt32Field  // UniqueId
  }

  function TextureSchema(): (s: seq<FieldKind>)
    ensures |s| == 27
  {
    seq(27, j => TextureKind(j))
  }

  /** The cell holding the field read from column j+1. */
  function TextureCell(r: TextureDataSet, j: int): Cell
  {
    match j
    case 0 => Text(r.Name)
    case 1 => Text(r.Type)
    case 2 => UInt32(r.NumRefs)
    case 3 => Text(r.CurrentSize)
    case 4 => Text(r.PixelFormat)
    case 5 => Real(r.CurrentKB)
    case 6 => Real(r.FullyLoadedKB)
    case 7 => Real(r.PVRTC2)
    case 8 => Real(r.PVRTC4)
    case 9 => Real(r.ASTC_4x4)
    case 10 => Real(r.ASTC_6x6)
    case 11 => Real(r.ASTC_8x8)
    case 12 => Real(r.ASTC_10x10)
    case 13 => Real(r.ASTC_12x12)
    case 14 => Text(r.SourceSize)
    case 15 => Text(r.SourceFormat)
    case 16 => Bit(r.CompressionNoAlpha)
    case 17 => Int32(r.LODBias)
    case 18 => Byte(r.NumResidentMips)
    case 19 => Byte(r.NumMipsAllowed)
    case 20 => Byte(r.CurrentMips)
    case 21 => UInt16(r.CurrentSizeX)
    case 22 => UInt16(r.CurrentSizeY)
    case 23 => UInt16(r.SourceSizeX)
    case 24 => UInt16(r.SourceSizeY)
    case 25 => Text(r.AssetPath)
    case _ => UInt32(r.UniqueId)
  }

  function TextureToCells(r: TextureDataSet): (c: seq<Cell>)
    ensures |c| == 27
  {
    seq(27, j => TextureCell(r, j))
  }

  /** Every cell of a record has the kind its field has in the schema. */
  lemma TextureCellsWellTyped(r: TextureDataSet)
    ensures WellTyped(TextureToCells(r), TextureSchema())
  {
  }

  /** The record whose fields are read from the cells; a cell of the wrong
      kind (which a well-typed sequence never has) keeps the field of `r`. */
  function TextureFromCells(c: seq<Cell>, r: TextureDataSet): TextureDataSet
    requires |c| == |TextureSchema()|
  {
    TextureDataSet(
      Name := TextOf(c[0], r.Name),
      Type := TextOf(c[1], r.Type),
      NumRefs := UInt32Of(c[2], r.NumRefs),
      CurrentSize := TextOf(c[3], r.CurrentSize),
      PixelFormat := TextOf(c[4], r.PixelFormat),
      CurrentKB := RealOf(c[5], r.CurrentKB),
      FullyLoadedKB := RealOf(c[6], r.FullyLoadedKB),
      PVRTC2 := RealOf(c[7], r.PVRTC2),
      PVRTC4 := RealOf(c[8], r.PVRTC4),
      ASTC_4x4 := RealOf(c[9], r.ASTC_4x4),
      ASTC_6x6 := RealOf(c[10], r.ASTC_6x6),
      ASTC_8x8 := RealOf(c[11], r.ASTC_8x8),
      ASTC_10x10 := RealOf(c[12], r.ASTC_10x10),
      ASTC_12x12 := RealOf(c[13], r.ASTC_12x12),
      SourceSize := TextOf(c[14], r.SourceSize),
      SourceFormat := TextOf(c[15], r.SourceFormat),
      CompressionNoAlpha := BitOf(c[16], r.CompressionNoAlpha),
      LODBias := Int32Of(c[17], r.LODBias),
      NumResidentMips := ByteOf(c[18], r.NumResidentMips),
      NumMipsAllowed := ByteOf(c[19], r.NumMipsAllowed),
      CurrentMips := ByteOf(c[20], r.CurrentMips),
      CurrentSizeX := UInt16Of(c[21], r.CurrentSizeX),
      CurrentSizeY := UInt16Of(c[22], r.CurrentSizeY),
      SourceSizeX := UInt16Of(c[23], r.SourceSizeX),
      SourceSizeY := UInt16Of(c[24], r.SourceSizeY),
      AssetPath := TextOf(c[25], r.AssetPath),
      UniqueId := UInt32Of(c[26], r.UniqueId))
  }

  /** The record and its cells determine each other. */
  lemma TextureCellsRoundTrip(r: TextureDataSet)
    ensures TextureFromCells(TextureToCells(r), r) == r
  {
  }

  /** One TextureDataSet row read into the reused record variable `prev`. */
  function FillTexture(su: StringUtil, row: seq<string>, prev: TextureDataSet): TextureDataSet
    requires RowFits(su, TextureSchema(), row)
  {
    TextureFromCells(Fill(su, TextureSchema(), row, TextureToCells(prev)), prev)
  }

  /** Field by field, Name .. Type (columns 1-2): the field read from column j+1
      takes the converted column when the row has that column, and otherwise keeps
      the value the reused record variable held before the row. */
  lemma FillTextureFields1(su: StringUtil, row: seq<string>, prev: TextureDataSet)
    requires RowFits(su, TextureSchema(), row)
    ensures FillTexture(su, row, prev).Name == if 1 < |row| then row[1] else prev.Name
    ensures FillTexture(su, row, prev).Type == if 2 < |row| then row[2] else prev.Type
  {
    FillAt(su, TextureSchema(), row, TextureToCells(prev), 0);
    FillAt(su, TextureSchema(), row, TextureToCells(prev), 1);
  }

  /** As FillTextureFields1, for NumRefs .. CurrentSize (columns 3-4). */
  lemma FillTextureFields2(su: StringUtil, row: seq<string>, prev: TextureDataSet)
    requires RowFits(su, TextureSchema(), row)
    ensures FillTexture(su, row, prev).NumRefs == if 3 < |row| then su.toUInt32(row[3]) else prev.NumRefs
    ensures FillTexture(su, row, prev).CurrentSize == if 4 < |row| then row[4] else prev.CurrentSize
  {
    FillAt(su, TextureSchema(), row, TextureToCells(prev), 2);
    FillAt(su, TextureSchema(), row, TextureToCells(prev), 3);
  }

  /** As FillTextureFields1, for PixelFormat .. CurrentKB (columns 5-6). */
  lemma FillTextureFields3(su: StringUtil, row: seq<string>, prev: TextureDataSet)
    requires RowFits(su, TextureSchema(), row)
    ensures FillTexture(su, row, prev).PixelFormat == if 5 < |row| then row[5] else prev.PixelFormat
    ensures FillTexture(su, row, prev).CurrentKB == if 6 < |row| then su.toFloat(row[6]) else prev.CurrentKB
  {
    FillAt(su, TextureSchema(), row, TextureToCells(prev), 4);
    FillAt(su, TextureSchema(), row, TextureToCells(prev), 5);
  }

  /** As FillTextureFields1, for FullyLoadedKB .. PVRTC2 (columns 7-8). */
  lemma FillTextureFields4(su: StringUtil, row: seq<string>, prev: TextureDataSet)
    requires RowFits(su, TextureSchema(), row)
    ensures FillTexture(su, row, prev).FullyLoadedKB == if 7 < |row| then su.toFloat(row[7]) else prev.FullyLoadedKB
    ensures FillTexture(su, row, prev).PVRTC2 == if 8 < |row| then su.toFloat(row[8]) else prev.PVRTC2
  {
    FillAt(su, TextureSchema(), row, TextureToCells(prev), 6);
    FillAt(su, TextureSchema(), row, TextureToCells(prev), 7);
  }

  /** As FillTextureFields1, for PVRTC4 .. ASTC_4x4 (columns 9-10). */
  lemma FillTextureFields5(su: StringUtil, row: seq<string>, prev: TextureDataSet)
    requires RowFits(su, TextureSchema(), row)
    ensures FillTexture(su, row, prev).PVRTC4 == if 9 < |row| then su.toFloat(row[9]) else prev.PVRTC4
    ensures FillTexture(su, row, prev).ASTC_4x4 == if 10 < |row| then su.toFloat(row[10]) else prev.ASTC_4x4
  {
    FillAt(su, TextureSchema(), row, TextureToCells(prev), 8);
    FillAt(su, TextureSchema(), row, TextureToCells(prev), 9);
  }

  /** As FillTextureFields1, for ASTC_6x6 .. ASTC_8x8 (columns 11-12). */
  lemma FillTextureFields6(su: StringUtil, row: seq<string>, prev: TextureDataSet)
    requires RowFits(su, TextureSchema(), row)
    ensures FillTexture(su, row, prev).ASTC_6x6 == if 11 < |row| then su.toFloat(row[11]) else prev.ASTC_6x6
    ensures FillTexture(su, row, prev).ASTC_8x8 == if 12 < |row| then su.toFloat(row[12]) else prev.ASTC_8x8
  {
    FillAt(su, TextureSchema(), row, TextureToCells(prev), 10);
    FillAt(su, TextureSchema(), row, TextureToCells(prev), 11);
  }

  /** As FillTextureFields1, for ASTC_10x10 .. ASTC_12x12 (columns 13-14). */
  lemma FillTextureFields7(su: StringUtil, row: seq<string>, prev: TextureDataSet)
    requires RowFits(su, TextureSchema(), row)
    ensures FillTexture(su, row, prev).ASTC_10x10 == if 13 < |row| then su.toFloat(row[13]) else prev.ASTC_10x10
    ensures FillTexture(su, row, prev).ASTC_12x12 == if 14 < |row| then su.toFloat(row[14]) else prev.ASTC_12x12
  {
    FillAt(su, TextureSchema(), row, TextureToCells(prev), 12);
    FillAt(su, TextureSchema(), row, TextureToCells(prev), 13);
  }

  /** As FillTextureFields1, for SourceSize .. SourceFormat (columns 15-16). */
  lemma FillTextureFields8(su: StringUtil, row: seq<string>, prev: TextureDataSet)
    requires RowFits(su, TextureSchema(), row)
    ensures FillTexture(su, row, prev).SourceSize == if 15 < |row| then row[15] else prev.SourceSize
    ensures FillTexture(su, row, prev).SourceFormat == if 16 < |row| then row[16] else prev.SourceFormat
  {
    FillAt(su, TextureSchema(), row, TextureToCells(prev), 14);
    FillAt(su, TextureSchema(), row, TextureToCells(prev), 15);
  }

  /** As FillTextureFields1, for CompressionNoAlpha .. LODBias (columns 17-18). */
  lemma FillTextureFields9(su: StringUtil, row: seq<string>, prev: TextureDataSet)
    requires RowFits(su, TextureSchema(), row)
    ensures FillTexture(su, row, prev).CompressionNoAlpha == if 17 < |row| then su.toUInt16(row[17]) % 2 else prev.CompressionNoAlpha
    ensures FillTexture(su, row, prev).LODBias == if 18 < |row| then su.toInt32(row[18]) else prev.LODBias
  {
    FillAt(su, TextureSchema(), row, TextureToCells(prev), 16);
    FillAt(su, TextureSchema(), row, TextureToCells(prev), 17);
  }

  /** As FillTextureFields1, for NumResidentMips .. NumMipsAllowed (columns 19-20). */
  lemma FillTextureFields10(su: StringUtil, row: seq<string>, prev: TextureDataSet)
    requires RowFits(su, TextureSchema(), row)
    ensures FillTexture(su, row, prev).NumResidentMips == if 19 < |row| then su.toUInt16(row[19]) % 256 else prev.NumResidentMips
    ensures FillTexture(su, row, prev).NumMipsAllowed == if 20 < |row| then su.toUInt16(row[20]) % 256 else prev.NumMipsAllowed
  {
    FillAt(su, TextureSchema(), row, TextureToCells(prev), 18);
    FillAt(su, TextureSchema(), row, TextureToCells(prev), 19);
  }

  /** As FillTextureFields1, for CurrentMips .. CurrentSizeX (columns 21-22). */
  lemma FillTextureFields11(su: StringUtil, row: seq<string>, prev: TextureDataSet)
    requires RowFits(su, TextureSchema(), row)
    ensures FillTexture(su, row, prev).CurrentMips == if 21 < |row| then su.toUInt16(row[21]) % 256 else prev.CurrentMips
    ensures FillTexture(su, row, prev).CurrentSizeX == if 22 < |row| then su.toUInt16(row[22]) else prev.CurrentSizeX
  {
    FillAt(su, TextureSchema(), row, TextureToCells(prev), 20);
    FillAt(su, TextureSchema(), row, TextureToCells(prev), 21);
  }

  /** As FillTextureFields1, for CurrentSizeY .. SourceSizeX (columns 23-24). */
  lemma FillTextureFields12(su: StringUtil, row: seq<string>, prev: TextureDataSet)
    requires RowFits(su, TextureSchema(), row)
    ensures FillTexture(su, row, prev).CurrentSizeY == if 23 < |row| then su.toUInt16(row[23]) else prev.CurrentSizeY
    ensures FillTexture(su, row, prev).SourceSizeX == if 24 < |row| then su.toUInt16(row[24]) else prev.SourceSizeX
  {
    FillAt(su, TextureSchema(), row, TextureToCells(prev), 22);
    FillAt(su, TextureSchema(), row, TextureToCells(prev), 23);
  }

  /** As FillTextureFields1, for SourceSizeY .. AssetPath (columns 25-26). */
  lemma FillTextureFields13(su: StringUtil, row: seq<string>, prev: TextureDataSet)
    requires RowFits(su, TextureSchema(), row)
    ensures FillTexture(su, row, prev).SourceSizeY == if 25 < |row| then su.toUInt16(row[25]) else prev.SourceSizeY
    ensures FillTexture(su, row, prev).AssetPath == if 26 < |row| then row[26] else prev.AssetPath
  {
    FillAt(su, TextureSchema(), row, TextureToCells(prev), 24);
    FillAt(su, TextureSchema(), row, TextureToCells(prev), 25);
  }

  /** As FillTextureFields1, for UniqueId .. UniqueId (columns 27-27). */
  lemma FillTextureFields14(su: StringUtil, row: seq<string>, prev: TextureDataSet)
    requires RowFits(su, TextureSchema(), row)
    ensures FillTexture(su, row, prev).UniqueId == if 27 < |row| then su.toUInt32(row[27]) else prev.UniqueId
  {
    FillAt(su, TextureSchema(), row, TextureToCells(prev), 26);
  }

  // BoxSphereBounds: the seven primitives, FSceneDataImporter.cpp:262-270.

  const BoundsSchema: seq<FieldKind> := [
    FloatField, FloatField, FloatField,  // Origin.x, .y, .z
    FloatField, FloatField, FloatField,  // BoxExtent.x, .y, .z
    FloatField                           // SphereRadius
  ]

  function BoundsToCells(b: BoxSphereBounds): (c: seq<Cell>)
    ensures WellTyped(c, BoundsSchema)
  {
    [Real(b.Origin.x), Real(b.Origin.y), Real(b.Origin.z),
     Real(b.BoxExtent.x), Real(b.BoxExtent.y), Real(b.BoxExtent.z),
     Real(b.SphereRadius)]
  }

  /** The primitives taken from the cells; box and sphere are kept from `b`. */
  function BoundsFromCells(c: seq<Cell>, b: BoxSphereBounds): BoxSphereBounds
    requires WellTyped(c, BoundsSchema)
  {
    b.(Origin := Float3(c[0].f, c[1].f, c[2].f),
       BoxExtent := Float3(c[3].f, c[4].f, c[5].f),
       SphereRadius := c[6].f)
  }

  lemma BoundsCellsRoundTrip(b: BoxSphereBounds)
    ensures BoundsFromCells(BoundsToCells(b), b) == b
  {
  }

  /** One bounds row read into the reused `Bounds` variable, followed by the
      derivation of box and sphere (FSceneDataImporter.cpp:272-276), which runs
      after the fill loop and therefore also after a short row. */
  function FillBounds(su: StringUtil, row: seq<string>, prev: BoxSphereBounds): BoxSphereBounds
    requires RowFits(su, BoundsSchema, row)
  {
    FillWellTyped(su, BoundsSchema, row, BoundsToCells(prev));
    RecomputeDerived(BoundsFromCells(Fill(su, BoundsSchema, row, BoundsToCells(prev)), prev))
  }

  /** Every bounds record is derived: box center and sphere center are the
      origin, box extents the box extent, sphere radius the sphere radius;
      the primitives a row reaches are its parsed columns, the others keep
      the previous row's values. */
  lemma FillBoundsFields(su: StringUtil, row: seq<string>, prev: BoxSphereBounds)
    requires RowFits(su, BoundsSchema, row)
    ensures Derived(FillBounds(su, row, prev))
    ensures FillBounds(su, row, prev).Origin.x == su.toFloat(row[1])
    ensures FillBounds(su, row, prev).Origin.y == if 2 < |row| then su.toFloat(row[2]) else prev.Origin.y
    ensures FillBounds(su, row, prev).Origin.z == if 3 < |row| then su.toFloat(row[3]) else prev.Origin.z
    ensures FillBounds(su, row, prev).BoxExtent.x == if 4 < |row| then su.toFloat(row[4]) else prev.BoxExtent.x
    ensures FillBounds(su, row, prev).BoxExtent.y == if 5 < |row| then su.toFloat(row[5]) else prev.BoxExtent.y
    ensures FillBounds(su, row, prev).BoxExtent.z == if 6 < |row| then su.toFloat(row[6]) else prev.BoxExtent.z
    ensures FillBounds(su, row, prev).SphereRadius == if 7 < |row| then su.toFloat(row[7]) else prev.SphereRadius
  {
    FillFields(su, BoundsSchema, row, BoundsToCells(prev));
  }

  // PrimitiveTransforms: sixteen floats, FSceneDataImporter.cpp:221-245.

  const TransformSchema: seq<FieldKind> := [
    FloatField, FloatField, FloatField, FloatField,  // m_00 .. m_03
    FloatField, FloatField, FloatField, FloatField,  // m_10 .. m_13
    FloatField, FloatField, FloatField, FloatField,  // m_20 .. m_23
    FloatField, FloatField, FloatField, FloatField   // m_30 .. m_33
  ]

  function MatrixToCells(m: Matrix4): (c: seq<Cell>)
    ensures WellTyped(c, TransformSchema)
  {
    [Real(m.r0.x), Real(m.r0.y), Real(m.r0.z), Real(m.r0.w),
     Real(m.r1.x), Real(m.r1.y), Real(m.r1.z), Real(m.r1.w),
     Real(m.r2.x), Real(m.r2.y), Real(m.r2.z), Real(m.r2.w),
     Real(m.r3.x), Real(m.r3.y), Real(m.r3.z), Real(m.r3.w)]
  }

  /** `FMatrix(Vector4(m_00, ..), .., Vector4(m_30, ..))`: row-major. */
  function MatrixFromCells(c: seq<Cell>): Matrix4
    requires WellTyped(c, TransformSchema)
  {
    Matrix4(
      Vector4(c[0].f, c[1].f, c[2].f, c[3].f),
      Vector4(c[4].f, c[5].f, c[6].f, c[7].f),
      Vector4(c[8].f, c[9].f, c[10].f, c[11].f),
      Vector4(c[12].f, c[13].f, c[14].f, c[15].f))
  }

  /** A transform row as written: the sixteen locals `m_00`..`m_33` are read by
      the macros and the matrix is assigned only afterwards, still inside the
      `while (true)` body. The locals are fresh in every pass and each is
      written before the assignment reads it; the previous matrix's cells
      stand in for their unread initial values. Returns the value of
      `PrimitiveTransform` after one pass and whether the pass broke out. */
  function TransformPassAsWritten(su: StringUtil, row: seq<string>, prev: Matrix4): (Matrix4, bool)
    requires 2 <= |row|
  {
    assert ColumnsReadable(su, TransformSchema, row, 1);
    var pass := FillFrom(su, TransformSchema, row, MatrixToCells(prev), 1);
    if pass.1 then (prev, true)
    else
      FillWellTyped(su, TransformSchema, row, MatrixToCells(prev));
      (MatrixFromCells(pass.0), false)
  }

  /** As written, a transform row never reaches `PrimitiveTransform`: with at
      most 17 columns the last macro (or an earlier one) breaks before the
      assignment, and with more the loop never ends. So every stored transform
      is the value the variable held before the row, however complete the row. */
  lemma TransformRowNeverStored(su: StringUtil, row: seq<string>, prev: Matrix4)
    requires 2 <= |row|
    ensures TransformPassAsWritten(su, row, prev).1 <==> |row| <= 17
    ensures TransformPassAsWritten(su, row, prev).1 ==> TransformPassAsWritten(su, row, prev).0 == prev
  {
    assert ColumnsReadable(su, TransformSchema, row, 1);
    FillFromFacts(su, TransformSchema, row, MatrixToCells(prev), 1);
  }

  /** The evidently intended effect of a transform row: once all sixteen
      columns are there, the variable becomes the parsed matrix; a short row
      leaves it as it was, like the fields a short row does not reach. */
  function FillTransform(su: StringUtil, row: seq<string>, prev: Matrix4): Matrix4
    requires RowFits(su, TransformSchema, row)
  {
    if |row| == |TransformSchema| + 1 then
      FillWellTyped(su, TransformSchema, row, MatrixToCells(prev));
      MatrixFromCells(Fill(su, TransformSchema, row, MatrixToCells(prev)))
    else prev
  }

  /** A complete row gives the matrix whose rows are columns 1-4, 5-8, 9-12 and
      13-16 in order; a short row keeps the previous matrix. */
  lemma FillTransformFields(su: StringUtil, row: seq<string>, prev: Matrix4)
    requires RowFits(su, TransformSchema, row)
    ensures |row| < 17 ==> FillTransform(su, row, prev) == prev
    ensures |row| == 17 ==> FillTransform(su, row, prev) == Matrix4(
      Vector4(su.toFloat(row[1]), su.toFloat(row[2]), su.toFloat(row[3]), su.toFloat(row[4])),
      Vector4(su.toFloat(row[5]), su.toFloat(row[6]), su.toFloat(row[7]), su.toFloat(row[8])),
      Vector4(su.toFloat(row[9]), su.toFloat(row[10]), su.toFloat(row[11]), su.toFloat(row[12])),
      Vector4(su.toFloat(row[13]), su.toFloat(row[14]), su.toFloat(row[15]), su.toFloat(row[16])))
  {
    FillFields(su, TransformSchema, row, MatrixToCells(prev));
  }

  /** The discrepancy: for a complete row whose parsed matrix differs from
      the variable's previous value, the code as written stores the previous
      value where the intended one stores the parsed matrix. */
  lemma TransformAsWrittenDiffers(su: StringUtil, row: seq<string>, prev: Matrix4)
    requires RowFits(su, TransformSchema, row) && |row| == 17
    requires su.toFloat(row[1]) != prev.r0.x
    ensures TransformPassAsWritten(su, row, prev).0 != FillTransform(su, row, prev)
  {
    TransformRowNeverStored(su, row, prev);
    FillTransformFields(su, row, prev);
  }
}
