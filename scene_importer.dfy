// UnrealEngine::FSceneDataImporter (UnrealEngine/FSceneDataImporter.h and
// UnrealEngine/FSceneDataImporter.cpp): the per-LOD scene data sets, the
// dirty flag, and the dispatch of the tokenized tables into the sets
// (`_FillDataSets`, lines 140-443).
module SceneImporter {
  import opened Wrappers
  import opened WString
  import opened TypeDef
  import opened StringManager
  import opened AppData
  import opened SceneSchema
  import opened SceneFiles

  /** The record variables `_FillDataSets` declares once (lines 142-150) and
      overwrites row after row, table after table and LOD after LOD. */
  datatype Scratch = Scratch(
    staticMesh: StaticMeshDataSet,
    skeletalMesh: SkeletalMeshDataSet,
    transform: Matrix4,
    bounds: BoxSphereBounds,
    material: MaterialDataSet,
    materialInstance: MaterialInstanceDataSet,
    texture: TextureDataSet,
    lightMap: TextureDataSet)

  /** The tables `_FillDataSets` reads, one block each. */
  datatype TableKind =
    | StaticMeshes | SkeletalMeshes | Transforms | Bounds
    | Materials | MaterialInstances | Textures | LightMaps

  function TableName(kind: TableKind): string
  {
    match kind
    case StaticMeshes => "StaticMeshesTable"
    case SkeletalMeshes => "SkeletalMeshesTable"
    case Transforms => "PrimitiveTransforms"
    case Bounds => "BoundsTable"
    case Materials => "MaterialsTable"
    case MaterialInstances => "MaterialInstancesTable"
    case Textures => "TexturesTable"
    case LightMaps => "LightMapsAndShadowMaps"
  }

  /** The key a block looks up for LOD `i`: `<table>_LOD<i>`, except for the
      light maps, whose key carries no LOD. */
  function LookupKey(kind: TableKind, i: nat): (key: string)
    ensures kind != LightMaps ==> key == TableName(kind) + LodPostfix + NatToString(i)
    ensures kind == LightMaps ==> key == TableName(kind)
  {
    if kind == LightMaps then TableName(kind) else TableName(kind) + LodPostfix + NatToString(i)
  }

  /** `clear_tables[key]`: a missing key reads as an empty table. */
  function Lookup(tables: map<string, seq<seq<string>>>, key: string): seq<seq<string>>
  {
    if key in tables then tables[key] else []
  }

  /** Whether a block stores anything for LOD `i`: the light maps only for
      LOD 0 (`if (i > 0) continue;`). */
  predicate Dispatched(kind: TableKind, i: nat)
  {
    kind != LightMaps || i == 0
  }

  // ---------------------------------------------------------------------
  // One row

  /** A row the block of its kind can fill (see `RowFits`). */
  predicate RowFitsKind(su: StringUtil, kind: TableKind, row: seq<string>)
  {
    match kind
    case StaticMeshes => RowFits(su, StaticMeshSchema(), row)
    case SkeletalMeshes => RowFits(su, SkeletalMeshSchema(), row)
    case Transforms => RowFits(su, TransformSchema, row)
    case Bounds => RowFits(su, BoundsSchema, row)
    case Materials => RowFits(su, MaterialSchema(), row)
    case MaterialInstances => RowFits(su, MaterialInstanceSchema(), row)
    case Textures => RowFits(su, TextureSchema(), row)
    case LightMaps => RowFits(su, TextureSchema(), row)
  }

  /** The record variables after one row of the given kind: only the kind's
      variable changes. */
  function FillRecord(su: StringUtil, kind: TableKind, row: seq<string>, s: Scratch): (r: Scratch)
    requires RowFitsKind(su, kind, row)
    ensures kind != StaticMeshes ==> r.staticMesh == s.staticMesh
    ensures kind != SkeletalMeshes ==> r.skeletalMesh == s.skeletalMesh
    ensures kind != Transforms ==> r.transform == s.transform
    ensures kind != Bounds ==> r.bounds == s.bounds
    ensures kind != Materials ==> r.material == s.material
    ensures kind != MaterialInstances ==> r.materialInstance == s.materialInstance
    ensures kind != Textures ==> r.texture == s.texture
    ensures kind != LightMaps ==> r.lightMap == s.lightMap
    ensures kind == Bounds ==> Derived(r.bounds)
  {
    match kind
    case StaticMeshes => s.(staticMesh := FillStaticMesh(su, row, s.staticMesh))
    case SkeletalMeshes => s.(skeletalMesh := FillSkeletalMesh(su, row, s.skeletalMesh))
    case Transforms => s.(transform := FillTransform(su, row, s.transform))
    case Bounds => FillBoundsFields(su, row, s.bounds); s.(bounds := FillBounds(su, row, s.bounds))
    case Materials => s.(material := FillMaterial(su, row, s.material))
    case MaterialInstances => s.(materialInstance := FillMaterialInstance(su, row, s.materialInstance))
    case Textures => s.(texture := FillTexture(su, row, s.texture))
    case LightMaps => s.(lightMap := FillTexture(su, row, s.lightMap))
  }

  /** `m_perLODDataSets[i].<table>.push_back(<variable>)`. */
  function Push(d: FSceneDataSet, kind: TableKind, s: Scratch): FSceneDataSet
  {
    match kind
    case StaticMeshes => d.(StaticMeshesTable := d.StaticMeshesTable + [s.staticMesh])
    case SkeletalMeshes => d.(SkeletalMeshesTable := d.SkeletalMeshesTable + [s.skeletalMesh])
    case Transforms => d.(PrimitiveTransforms := d.PrimitiveTransforms + [s.transform])
    case Bounds => d.(BoundsTable := d.BoundsTable + [s.bounds])
    case Materials => d.(MaterialsTable := d.MaterialsTable + [s.material])
    case MaterialInstances => d.(MaterialInstancesTable := d.MaterialInstancesTable + [s.materialInstance])
    case Textures => d.(TexturesTable := d.TexturesTable + [s.texture])
    case LightMaps => d.(LightMapsAndShadowMaps := d.LightMapsAndShadowMaps + [s.lightMap])
  }

  /** The length of the collection a block appends to. */
  function TableSize(d: FSceneDataSet, kind: TableKind): nat
  {
    match kind
    case StaticMeshes => |d.StaticMeshesTable|
    case SkeletalMeshes => |d.SkeletalMeshesTable|
    case Transforms => |d.PrimitiveTransforms|
    case Bounds => |d.BoundsTable|
    case Materials => |d.MaterialsTable|
    case MaterialInstances => |d.MaterialInstancesTable|
    case Textures => |d.TexturesTable|
    case LightMaps => |d.LightMapsAndShadowMaps|
  }

  /** A push grows its own collection by one and leaves every other
      collection, the landscapes included, as it was. */
  lemma PushGrowsOneTable(d: FSceneDataSet, kind: TableKind, s: Scratch, other: TableKind)
    ensures TableSize(Push(d, kind, s), other) == TableSize(d, other) + if other == kind then 1 else 0
    ensures Push(d, kind, s).LandscapesTable == d.LandscapesTable
  {
  }

  /** The collection of the given kind is the same in both sets. */
  predicate SameTable(a: FSceneDataSet, b: FSceneDataSet, kind: TableKind)
  {
    match kind
    case StaticMeshes => a.StaticMeshesTable == b.StaticMeshesTable
    case SkeletalMeshes => a.SkeletalMeshesTable == b.SkeletalMeshesTable
    case Transforms => a.PrimitiveTransforms == b.PrimitiveTransforms
    case Bounds => a.BoundsTable == b.BoundsTable
    case Materials => a.MaterialsTable == b.MaterialsTable
    case MaterialInstances => a.MaterialInstancesTable == b.MaterialInstancesTable
    case Textures => a.TexturesTable == b.TexturesTable
    case LightMaps => a.LightMapsAndShadowMaps == b.LightMapsAndShadowMaps
  }

  /** A push leaves every other collection as it was, and what it makes of
      its own collection depends on that collection only. */
  lemma PushFrame(a: FSceneDataSet, b: FSceneDataSet, kind: TableKind, s: Scratch, other: TableKind)
    ensures other != kind ==> SameTable(Push(a, kind, s), a, other)
    ensures SameTable(a, b, kind) ==> SameTable(Push(a, kind, s), Push(b, kind, s), kind)
  {
  }

  /** How one row of a table of the given kind changes the record variables.
      The dispatch below is stated for any such fill; the importer's is
      `RowFiller`. */
  type RowFill = (TableKind, seq<string>, Scratch) -> Scratch

  /** The importer's fill: `FillRecord` on the rows their kind fits. The
      source gives no meaning to other rows (see `RowFits`); the import's
      precondition excludes them, and here they leave the variables alone. */
  function RowFiller(su: StringUtil): RowFill
  {
    (kind: TableKind, row: seq<string>, s: Scratch) =>
      if RowFitsKind(su, kind, row) then FillRecord(su, kind, row, s) else s
  }

  /** The fill of the code as written: a transform row never reaches
      `PrimitiveTransform` (see `TransformRowNeverStored`), so it leaves the
      record variables alone; every other row is filled as by `RowFiller`. */
  function RowFillerAsWritten(su: StringUtil): RowFill
  {
    (kind: TableKind, row: seq<string>, s: Scratch) =>
      if kind == Transforms then s else RowFiller(su)(kind, row, s)
  }

  /** On a transform row that fits, the as-written fill is the as-written
      pass of the sixteen macros, which keeps the matrix variable. */
  lemma AsWrittenFillIsTransformPass(su: StringUtil, row: seq<string>, s: Scratch)
    requires RowFitsKind(su, Transforms, row)
    ensures RowFillerAsWritten(su)(Transforms, row, s).transform == TransformPassAsWritten(su, row, s.transform).0
    ensures RowFillerAsWritten(su)(Transforms, row, s) == s
  {
    TransformRowNeverStored(su, row, s.transform);
  }

  /** Rows every one of which its kind can fill. */
  predicate RowsFit(su: StringUtil, kind: TableKind, rows: seq<seq<string>>)
  {
    forall k :: 0 <= k < |rows| ==> RowFitsKind(su, kind, rows[k])
  }

  /** On such rows, the importer's fill is `FillRecord`. */
  lemma RowFillerOnFittingRows(su: StringUtil, kind: TableKind, rows: seq<seq<string>>, k: nat, s: Scratch)
    requires RowsFit(su, kind, rows) && k < |rows|
    ensures RowFitsKind(su, kind, rows[k])
    ensures RowFiller(su)(kind, rows[k], s) == FillRecord(su, kind, rows[k], s)
  {
  }

  // ---------------------------------------------------------------------
  // One table

  /** The set and the record variables after the rows of one table: each row
      refills the record variables and the kind's one is pushed. */
  function FillRows(fill: RowFill, kind: TableKind, rows: seq<seq<string>>, d: FSceneDataSet, s: Scratch): (FSceneDataSet, Scratch)
  {
    if rows == [] then (d, s)
    else
      var r := FillRows(fill, kind, rows[..|rows| - 1], d, s);
      var s' := fill(kind, rows[|rows| - 1], r.1);
      (Push(r.0, kind, s'), s')
  }

  /** A table appends exactly one record per row to its own collection and
      nothing to any other; the landscapes stay as they were. */
  lemma {:induction false} FillRowsCounts(fill: RowFill, kind: TableKind, rows: seq<seq<string>>, d: FSceneDataSet, s: Scratch, other: TableKind)
    ensures TableSize(FillRows(fill, kind, rows, d, s).0, other) ==
      TableSize(d, other) + if other == kind then |rows| else 0
    ensures FillRows(fill, kind, rows, d, s).0.LandscapesTable == d.LandscapesTable
  {
    if rows != [] {
      FillRowsCounts(fill, kind, rows[..|rows| - 1], d, s, other);
      var r := FillRows(fill, kind, rows[..|rows| - 1], d, s);
      PushGrowsOneTable(r.0, kind, fill(kind, rows[|rows| - 1], r.1), other);
    }
  }

  /** A table leaves the contents of every other collection as they were. */
  lemma {:induction false} FillRowsFrame(fill: RowFill, kind: TableKind, rows: seq<seq<string>>, d: FSceneDataSet, s: Scratch, other: TableKind)
    requires other != kind
    ensures SameTable(FillRows(fill, kind, rows, d, s).0, d, other)
  {
    if rows != [] {
      FillRowsFrame(fill, kind, rows[..|rows| - 1], d, s, other);
      var r := FillRows(fill, kind, rows[..|rows| - 1], d, s);
      PushFrame(r.0, r.0, kind, fill(kind, rows[|rows| - 1], r.1), other);
    }
  }

  /** What a table stores in its own collection, and the record variables it
      leaves, depend on nothing else of the set it fills. */
  lemma {:induction false} FillRowsOwnTable(fill: RowFill, kind: TableKind, rows: seq<seq<string>>, a: FSceneDataSet, b: FSceneDataSet, s: Scratch)
    requires SameTable(a, b, kind)
    ensures SameTable(FillRows(fill, kind, rows, a, s).0, FillRows(fill, kind, rows, b, s).0, kind)
    ensures FillRows(fill, kind, rows, a, s).1 == FillRows(fill, kind, rows, b, s).1
  {
    if rows != [] {
      FillRowsOwnTable(fill, kind, rows[..|rows| - 1], a, b, s);
      var ra := FillRows(fill, kind, rows[..|rows| - 1], a, s);
      var rb := FillRows(fill, kind, rows[..|rows| - 1], b, s);
      PushFrame(ra.0, rb.0, kind, fill(kind, rows[|rows| - 1], ra.1), kind);
    }
  }

  /** Every stored bounds record is derived. */
  predicate BoundsDerived(d: FSceneDataSet)
  {
    forall k :: 0 <= k < |d.BoundsTable| ==> Derived(d.BoundsTable[k])
  }

  /** A fill that derives the bounds it makes from the given rows. */
  ghost predicate DerivesBounds(fill: RowFill, rows: seq<seq<string>>)
  {
    forall k, s :: 0 <= k < |rows| ==> Derived(fill(Bounds, rows[k], s).bounds)
  }

  /** The importer's fill recomputes box and sphere from every bounds row. */
  lemma RowFillerDerivesBounds(su: StringUtil, rows: seq<seq<string>>)
    requires RowsFit(su, Bounds, rows)
    ensures DerivesBounds(RowFiller(su), rows)
  {
    forall k, s | 0 <= k < |rows|
      ensures Derived(RowFiller(su)(Bounds, rows[k], s).bounds)
    {
      assert RowFitsKind(su, Bounds, rows[k]);
      FillBoundsFields(su, rows[k], s.bounds);
    }
  }

  lemma {:induction false} FillRowsKeepsBoundsDerived(fill: RowFill, kind: TableKind, rows: seq<seq<string>>, d: FSceneDataSet, s: Scratch)
    requires kind == Bounds ==> DerivesBounds(fill, rows)
    requires BoundsDerived(d)
    ensures BoundsDerived(FillRows(fill, kind, rows, d, s).0)
  {
    if rows != [] {
      var init := rows[..|rows| - 1];
      assert forall k :: 0 <= k < |init| ==> init[k] == rows[k];
      FillRowsKeepsBoundsDerived(fill, kind, init, d, s);
    }
  }

  /** A fill that never changes the matrix variable. */
  ghost predicate KeepsTransform(fill: RowFill)
  {
    forall kind, row, s :: fill(kind, row, s).transform == s.transform
  }

  /** Every stored matrix is `t`. */
  predicate TransformsAre(d: FSceneDataSet, t: Matrix4)
  {
    forall k :: 0 <= k < |d.PrimitiveTransforms| ==> d.PrimitiveTransforms[k] == t
  }

  /** Under such a fill the matrix variable stays as it came in, and every
      matrix a table pushes is that value. */
  lemma {:induction false} FillRowsKeepsTransform(fill: RowFill, kind: TableKind, rows: seq<seq<string>>, d: FSceneDataSet, s: Scratch)
    requires KeepsTransform(fill) && TransformsAre(d, s.transform)
    ensures FillRows(fill, kind, rows, d, s).1.transform == s.transform
    ensures TransformsAre(FillRows(fill, kind, rows, d, s).0, s.transform)
  {
    if rows != [] {
      FillRowsKeepsTransform(fill, kind, rows[..|rows| - 1], d, s);
    }
  }

  /** A fill whose static mesh variable, on the given rows, is refilled by
      `g` from the row and the variable's previous value alone. */
  ghost predicate RefillsStaticMesh(fill: RowFill, g: (seq<string>, StaticMeshDataSet) -> StaticMeshDataSet, rows: seq<seq<string>>)
  {
    forall k, s :: 0 <= k < |rows| ==> fill(StaticMeshes, rows[k], s).staticMesh == g(rows[k], s.staticMesh)
  }

  /** Such a fill threads the variable through the table: the first row is
      refilled over the value carried in, each later row over the record
      stored before it, and the variable ends as the last record. */
  lemma {:induction false} RowsThreadStaticMesh(fill: RowFill, g: (seq<string>, StaticMeshDataSet) -> StaticMeshDataSet, rows: seq<seq<string>>, d: FSceneDataSet, s: Scratch)
    requires RefillsStaticMesh(fill, g, rows)
    ensures var t := FillRows(fill, StaticMeshes, rows, d, s).0.StaticMeshesTable;
      |t| == |d.StaticMeshesTable| + |rows| && t[..|d.StaticMeshesTable|] == d.StaticMeshesTable
    ensures var t := FillRows(fill, StaticMeshes, rows, d, s).0.StaticMeshesTable;
      forall k :: 0 <= k < |rows| ==>
        t[|d.StaticMeshesTable| + k] == g(rows[k], if k == 0 then s.staticMesh else t[|d.StaticMeshesTable| + k - 1])
    ensures var r := FillRows(fill, StaticMeshes, rows, d, s);
      r.1.staticMesh == if rows == [] then s.staticMesh else r.0.StaticMeshesTable[|r.0.StaticMeshesTable| - 1]
  {
    if rows != [] {
      var n := |rows| - 1;
      var init := rows[..n];
      assert forall k :: 0 <= k < n ==> init[k] == rows[k];
      RowsThreadStaticMesh(fill, g, init, d, s);
      var r := FillRows(fill, StaticMeshes, init, d, s);
      var m := fill(StaticMeshes, rows[n], r.1).staticMesh;
      assert FillRows(fill, StaticMeshes, rows, d, s).0.StaticMeshesTable == r.0.StaticMeshesTable + [m];
      assert m == g(rows[n], r.1.staticMesh);
    }
  }

  /** `FillStaticMesh` on the rows it is defined for. */
  function StaticMeshRefill(su: StringUtil): (seq<string>, StaticMeshDataSet) -> StaticMeshDataSet
  {
    (row: seq<string>, m: StaticMeshDataSet) => if RowFits(su, StaticMeshSchema(), row) then FillStaticMesh(su, row, m) else m
  }

  /** The reuse of the record variable, for the importer's static meshes:
      each stored record is `FillStaticMesh` of its row over the record
      stored before it, the first over the value carried in. */
  lemma StaticMeshRowsReuseRecord(su: StringUtil, rows: seq<seq<string>>, d: FSceneDataSet, s: Scratch)
    requires RowsFit(su, StaticMeshes, rows)
    ensures var t := FillRows(RowFiller(su), StaticMeshes, rows, d, s).0.StaticMeshesTable;
      |t| == |d.StaticMeshesTable| + |rows| && t[..|d.StaticMeshesTable|] == d.StaticMeshesTable
    ensures forall k :: 0 <= k < |rows| ==> RowFits(su, StaticMeshSchema(), rows[k])
    ensures var t := FillRows(RowFiller(su), StaticMeshes, rows, d, s).0.StaticMeshesTable;
      forall k :: 0 <= k < |rows| ==>
        (RowFits(su, StaticMeshSchema(), rows[k]) &&
         t[|d.StaticMeshesTable| + k] ==
           FillStaticMesh(su, rows[k], if k == 0 then s.staticMesh else t[|d.StaticMeshesTable| + k - 1]))
  {
    var g := StaticMeshRefill(su);
    forall k | 0 <= k < |rows|
      ensures RowFits(su, StaticMeshSchema(), rows[k])
    {
      assert RowFitsKind(su, StaticMeshes, rows[k]);
    }
    forall k, s | 0 <= k < |rows|
      ensures RowFiller(su)(StaticMeshes, rows[k], s).staticMesh == g(rows[k], s.staticMesh)
    {
      assert RowFitsKind(su, StaticMeshes, rows[k]);
    }
    RowsThreadStaticMesh(RowFiller(su), g, rows, d, s);
  }

  // ---------------------------------------------------------------------
  // One LOD

  /** The rows block `kind` stores for LOD `i`. */
  function BlockRows(tables: map<string, seq<seq<string>>>, kind: TableKind, i: nat): seq<seq<string>>
  {
    if Dispatched(kind, i) then Lookup(tables, LookupKey(kind, i)) else []
  }

  /** The `b`-th block of a LOD, in the order of `_FillDataSets`. */
  function BlockKind(b: nat): TableKind
    requires b < 8
  {
    match b
    case 0 => StaticMeshes
    case 1 => SkeletalMeshes
    case 2 => Transforms
    case 3 => Bounds
    case 4 => Materials
    case 5 => MaterialInstances
    case 6 => Textures
    case _ => LightMaps
  }

  /** The position of a kind's block. */
  function BlockIndex(kind: TableKind): (b: nat)
    ensures b < 8 && BlockKind(b) == kind
  {
    match kind
    case StaticMeshes => 0
    case SkeletalMeshes => 1
    case Transforms => 2
    case Bounds => 3
    case Materials => 4
    case MaterialInstances => 5
    case Textures => 6
    case LightMaps => 7
  }

  /** Each kind has one block: the order is a permutation of the kinds. */
  lemma BlockOrderIsPermutation(b: nat)
    requires b < 8
    ensures BlockIndex(BlockKind(b)) == b
  {
  }

  /** One block of LOD `i`: the rows of its table filled and pushed onto the
      set as the earlier blocks left it. */
  function FillBlock(fill: RowFill, tables: map<string, seq<seq<string>>>, kind: TableKind, i: nat, r: (FSceneDataSet, Scratch)): (FSceneDataSet, Scratch)
  {
    FillRows(fill, kind, BlockRows(tables, kind, i), r.0, r.1)
  }

  /** The first `b` blocks of LOD `i` over a default-constructed set. */
  function FillBlocks(fill: RowFill, tables: map<string, seq<seq<string>>>, i: nat, b: nat, s: Scratch): (FSceneDataSet, Scratch)
    requires b <= 8
  {
    if b == 0 then (EmptyDataSet, s)
    else FillBlock(fill, tables, BlockKind(b - 1), i, FillBlocks(fill, tables, i, b - 1, s))
  }

  /** After the first `b` blocks, a collection holds one record per stored
      row if its block has run and none otherwise, and the landscapes none. */
  lemma {:induction false} FillBlocksShape(fill: RowFill, tables: map<string, seq<seq<string>>>, i: nat, b: nat, s: Scratch, kind: TableKind)
    requires b <= 8
    ensures TableSize(FillBlocks(fill, tables, i, b, s).0, kind) ==
      if BlockIndex(kind) < b then |BlockRows(tables, kind, i)| else 0
    ensures FillBlocks(fill, tables, i, b, s).0.LandscapesTable == []
  {
    if b > 0 {
      FillBlocksShape(fill, tables, i, b - 1, s, kind);
      FillBlockStep(fill, tables, i, b, s, kind);
      BlockOrderIsPermutation(b - 1);
    }
  }

  /** Block `b - 1` adds the rows of its table to its own collection only. */
  lemma FillBlockStep(fill: RowFill, tables: map<string, seq<seq<string>>>, i: nat, b: nat, s: Scratch, kind: TableKind)
    requires 0 < b <= 8
    ensures TableSize(FillBlocks(fill, tables, i, b, s).0, kind) ==
      TableSize(FillBlocks(fill, tables, i, b - 1, s).0, kind) +
      if BlockKind(b - 1) == kind then |BlockRows(tables, kind, i)| else 0
    ensures FillBlocks(fill, tables, i, b, s).0.LandscapesTable == FillBlocks(fill, tables, i, b - 1, s).0.LandscapesTable
  {
    var r := FillBlocks(fill, tables, i, b - 1, s);
    FillRowsCounts(fill, BlockKind(b - 1), BlockRows(tables, BlockKind(b - 1), i), r.0, r.1, kind);
  }

  /** An empty collection is that of a default-constructed set. */
  lemma EmptyTable(d: FSceneDataSet, kind: TableKind)
    requires TableSize(d, kind) == 0
    ensures SameTable(d, EmptyDataSet, kind)
  {
  }

  /** Once its block has run, a collection holds exactly the records its
      block pushes, filled over the record variables the earlier blocks
      left; the later blocks do not touch it. */
  lemma {:induction false} FillBlocksContents(fill: RowFill, tables: map<string, seq<seq<string>>>, i: nat, b: nat, s: Scratch, kind: TableKind)
    requires BlockIndex(kind) < b <= 8
    ensures SameTable(FillBlocks(fill, tables, i, b, s).0,
      FillRows(fill, kind, BlockRows(tables, kind, i), EmptyDataSet, FillBlocks(fill, tables, i, BlockIndex(kind), s).1).0, kind)
  {
    var r := FillBlocks(fill, tables, i, b - 1, s);
    var rows := BlockRows(tables, BlockKind(b - 1), i);
    assert FillBlocks(fill, tables, i, b, s) == FillRows(fill, BlockKind(b - 1), rows, r.0, r.1);
    if b - 1 == BlockIndex(kind) {
      FillBlocksShape(fill, tables, i, b - 1, s, kind);
      EmptyTable(r.0, kind);
      FillRowsOwnTable(fill, kind, rows, r.0, EmptyDataSet, r.1);
    } else {
      FillBlocksContents(fill, tables, i, b - 1, s, kind);
      BlockOrderIsPermutation(b - 1);
      FillRowsFrame(fill, BlockKind(b - 1), rows, r.0, r.1, kind);
    }
  }

  /** With a fill that derives the bounds it makes, every bounds record the
      first `b` blocks store is derived. */
  lemma {:induction false} FillBlocksDeriveBounds(fill: RowFill, tables: map<string, seq<seq<string>>>, i: nat, b: nat, s: Scratch)
    requires b <= 8 && DerivesBounds(fill, BlockRows(tables, Bounds, i))
    ensures BoundsDerived(FillBlocks(fill, tables, i, b, s).0)
  {
    if b > 0 {
      var r := FillBlocks(fill, tables, i, b - 1, s);
      FillBlocksDeriveBounds(fill, tables, i, b - 1, s);
      FillRowsKeepsBoundsDerived(fill, BlockKind(b - 1), BlockRows(tables, BlockKind(b - 1), i), r.0, r.1);
    }
  }

  lemma {:induction false} FillBlocksKeepTransform(fill: RowFill, tables: map<string, seq<seq<string>>>, i: nat, b: nat, s: Scratch)
    requires b <= 8 && KeepsTransform(fill)
    ensures FillBlocks(fill, tables, i, b, s).1.transform == s.transform
    ensures TransformsAre(FillBlocks(fill, tables, i, b, s).0, s.transform)
  {
    if b > 0 {
      FillBlocksKeepTransform(fill, tables, i, b - 1, s);
      var r := FillBlocks(fill, tables, i, b - 1, s);
      FillRowsKeepsTransform(fill, BlockKind(b - 1), BlockRows(tables, BlockKind(b - 1), i), r.0, r.1);
    }
  }

  /** The set of LOD `i` and the record variables after it: all eight
      blocks. */
  function FillLod(fill: RowFill, tables: map<string, seq<seq<string>>>, i: nat, s: Scratch): (FSceneDataSet, Scratch)
  {
    FillBlocks(fill, tables, i, 8, s)
  }

  /** The record variables as LODs 0 .. i-1 leave them. */
  function Carried(fill: RowFill, tables: map<string, seq<seq<string>>>, i: nat, s: Scratch): Scratch
  {
    if i == 0 then s else FillLod(fill, tables, i - 1, Carried(fill, tables, i - 1, s)).1
  }

  /** The sets of LODs 0 .. n-1: each LOD filled over the record variables the
      earlier LODs left. */
  function FillLods(fill: RowFill, tables: map<string, seq<seq<string>>>, n: nat, s: Scratch): (sets: seq<FSceneDataSet>)
    ensures |sets| == n
    ensures forall i :: 0 <= i < n ==> sets[i] == FillLod(fill, tables, i, Carried(fill, tables, i, s)).0
  {
    seq(n, i requires 0 <= i => FillLod(fill, tables, i, Carried(fill, tables, i, s)).0)
  }

  /** Under a fill that keeps the matrix variable, LODs carry it unchanged. */
  lemma {:induction false} CarriedKeepsTransform(fill: RowFill, tables: map<string, seq<seq<string>>>, i: nat, s: Scratch)
    requires KeepsTransform(fill)
    ensures Carried(fill, tables, i, s).transform == s.transform
  {
    if i > 0 {
      CarriedKeepsTransform(fill, tables, i - 1, s);
      FillBlocksKeepTransform(fill, tables, i - 1, 8, Carried(fill, tables, i - 1, s));
    }
  }

  /** The first `i` sets are those of LODs 0 .. i-1. */
  ghost predicate FilledUpTo(sets: seq<FSceneDataSet>, fill: RowFill, tables: map<string, seq<seq<string>>>, s: Scratch, i: nat)
  {
    i <= |sets| &&
    (i == 0 ||
     (FilledUpTo(sets, fill, tables, s, i - 1) &&
      sets[i - 1] == FillLod(fill, tables, i - 1, Carried(fill, tables, i - 1, s)).0))
  }

  /** Only the first `i` sets matter. */
  lemma {:induction false} FilledUpToFrame(a: seq<FSceneDataSet>, b: seq<FSceneDataSet>, fill: RowFill, tables: map<string, seq<seq<string>>>, s: Scratch, i: nat)
    requires FilledUpTo(a, fill, tables, s, i) && i <= |b|
    requires forall j :: 0 <= j < i ==> a[j] == b[j]
    ensures FilledUpTo(b, fill, tables, s, i)
  {
    if i > 0 {
      FilledUpToFrame(a, b, fill, tables, s, i - 1);
    }
  }

  /** Sets filled up to their length are the sets of FillLods. */
  lemma FilledSetsAreFillLods(sets: seq<FSceneDataSet>, fill: RowFill, tables: map<string, seq<seq<string>>>, s: Scratch)
    requires FilledUpTo(sets, fill, tables, s, |sets|)
    ensures sets == FillLods(fill, tables, |sets|, s)
  {
    forall i | 0 <= i < |sets|
      ensures sets[i] == FillLod(fill, tables, i, Carried(fill, tables, i, s)).0
    {
      FilledUpToAt(sets, fill, tables, s, |sets|, i);
    }
  }

  lemma {:induction false} FilledUpToAt(sets: seq<FSceneDataSet>, fill: RowFill, tables: map<string, seq<seq<string>>>, s: Scratch, n: nat, i: nat)
    requires FilledUpTo(sets, fill, tables, s, n) && i < n
    ensures sets[i] == FillLod(fill, tables, i, Carried(fill, tables, i, s)).0
  {
    if i < n - 1 {
      FilledUpToAt(sets, fill, tables, s, n - 1, i);
    }
  }

  /** Every block of every LOD below `n` can fill the rows it looks up. */
  predicate TablesFit(su: StringUtil, tables: map<string, seq<seq<string>>>, n: nat)
  {
    forall kind: TableKind, i: nat :: i < n ==> RowsFit(su, kind, Lookup(tables, LookupKey(kind, i)))
  }

  /** For every LOD: each block appends exactly one record per row of the
      table it looks up (a missing key adding none), the light maps only at
      LOD 0, the landscapes never; and every bounds record is derived. */
  lemma ImportedSetShape(su: StringUtil, tables: map<string, seq<seq<string>>>, n: nat, s: Scratch, i: nat, kind: TableKind)
    requires TablesFit(su, tables, n) && i < n
    ensures TableSize(FillLods(RowFiller(su), tables, n, s)[i], kind) ==
      if Dispatched(kind, i) then |Lookup(tables, LookupKey(kind, i))| else 0
    ensures i > 0 ==> FillLods(RowFiller(su), tables, n, s)[i].LightMapsAndShadowMaps == []
    ensures FillLods(RowFiller(su), tables, n, s)[i].LandscapesTable == []
    ensures BoundsDerived(FillLods(RowFiller(su), tables, n, s)[i])
  {
    var fill := RowFiller(su);
    assert RowsFit(su, Bounds, Lookup(tables, LookupKey(Bounds, i)));
    RowFillerDerivesBounds(su, BlockRows(tables, Bounds, i));
    LodShape(fill, tables, i, Carried(fill, tables, i, s), kind);
  }

  /** For every LOD and every kind, the collection holds exactly the records
      the kind's block pushes from the table it looks up, filled over the
      record variables carried in from the earlier LODs and the earlier
      blocks of this one. */
  lemma ImportedSetContents(fill: RowFill, tables: map<string, seq<seq<string>>>, n: nat, s: Scratch, i: nat, kind: TableKind)
    requires i < n
    ensures var c := Carried(fill, tables, i, s);
      SameTable(FillLods(fill, tables, n, s)[i],
        FillRows(fill, kind, BlockRows(tables, kind, i), EmptyDataSet, FillBlocks(fill, tables, i, BlockIndex(kind), c).1).0, kind)
  {
    FillBlocksContents(fill, tables, i, 8, Carried(fill, tables, i, s), kind);
  }

  /** The static meshes of LOD `i` are those the first block pushes over the
      record variables the earlier LODs left. */
  lemma ImportedStaticMeshTable(fill: RowFill, tables: map<string, seq<seq<string>>>, n: nat, s: Scratch, i: nat)
    requires i < n
    ensures FillLods(fill, tables, n, s)[i].StaticMeshesTable ==
      FillRows(fill, StaticMeshes, Lookup(tables, LookupKey(StaticMeshes, i)), EmptyDataSet, Carried(fill, tables, i, s)).0.StaticMeshesTable
  {
    ImportedSetContents(fill, tables, n, s, i, StaticMeshes);
    assert FillBlocks(fill, tables, i, 0, Carried(fill, tables, i, s)).1 == Carried(fill, tables, i, s);
  }

  /** The static meshes `t` are the rows refilled one by one: the k-th is
      `FillStaticMesh` of row k over the record before it, the first over `m`. */
  predicate StaticMeshesRefilled(su: StringUtil, rows: seq<seq<string>>, m: StaticMeshDataSet, t: seq<StaticMeshDataSet>)
  {
    |t| == |rows| &&
    forall k :: 0 <= k < |rows| ==>
      RowFits(su, StaticMeshSchema(), rows[k]) &&
      t[k] == FillStaticMesh(su, rows[k], if k == 0 then m else t[k - 1])
  }

  /** A static mesh table filled into an empty collection is its rows
      refilled one by one over the incoming record variable. */
  lemma StaticMeshesFromRows(su: StringUtil, rows: seq<seq<string>>, c: Scratch)
    requires RowsFit(su, StaticMeshes, rows)
    ensures StaticMeshesRefilled(su, rows, c.staticMesh, FillRows(RowFiller(su), StaticMeshes, rows, EmptyDataSet, c).0.StaticMeshesTable)
  {
    StaticMeshRowsReuseRecord(su, rows, EmptyDataSet, c);
  }

  /** The static meshes of LOD `i`, record by record: the k-th is
      `FillStaticMesh` of the k-th row of `StaticMeshesTable_LOD<i>` over the
      record stored before it, the first over the value the record variable
      carries in from the last row of the earlier LODs. */
  lemma ImportedStaticMeshes(su: StringUtil, tables: map<string, seq<seq<string>>>, n: nat, s: Scratch, i: nat)
    requires TablesFit(su, tables, n) && i < n
    ensures StaticMeshesRefilled(su, Lookup(tables, LookupKey(StaticMeshes, i)), Carried(RowFiller(su), tables, i, s).staticMesh,
      FillLods(RowFiller(su), tables, n, s)[i].StaticMeshesTable)
  {
    var rows := Lookup(tables, LookupKey(StaticMeshes, i));
    assert RowsFit(su, StaticMeshes, rows);
    ImportedStaticMeshTable(RowFiller(su), tables, n, s, i);
    StaticMeshesFromRows(su, rows, Carried(RowFiller(su), tables, i, s));
  }

  /** The sets the code as written produces from the tables: each block
      stores one record per row as before, but every matrix stored in any LOD
      is the value the matrix variable held before the first row. */
  lemma AsWrittenTransformsAreInitial(su: StringUtil, tables: map<string, seq<seq<string>>>, n: nat, init: Scratch, i: nat)
    requires i < n
    ensures |FillLods(RowFillerAsWritten(su), tables, n, init)[i].PrimitiveTransforms| == |Lookup(tables, LookupKey(Transforms, i))|
    ensures forall k :: 0 <= k < |FillLods(RowFillerAsWritten(su), tables, n, init)[i].PrimitiveTransforms| ==>
      FillLods(RowFillerAsWritten(su), tables, n, init)[i].PrimitiveTransforms[k] == init.transform
  {
    var fill := RowFillerAsWritten(su);
    forall kind, row, s ensures fill(kind, row, s).transform == s.transform {
      assert fill(kind, row, s) == if kind == Transforms then s else RowFiller(su)(kind, row, s);
      if kind != Transforms && RowFitsKind(su, kind, row) {
        assert RowFiller(su)(kind, row, s) == FillRecord(su, kind, row, s);
      }
    }
    var c := Carried(fill, tables, i, init);
    CarriedKeepsTransform(fill, tables, i, init);
    FillBlocksKeepTransform(fill, tables, i, 8, c);
    FillBlocksShape(fill, tables, i, 8, c, Transforms);
  }

  /** The set of one LOD, for any fill that derives the bounds it makes. */
  lemma LodShape(fill: RowFill, tables: map<string, seq<seq<string>>>, i: nat, s: Scratch, kind: TableKind)
    requires DerivesBounds(fill, BlockRows(tables, Bounds, i))
    ensures TableSize(FillLod(fill, tables, i, s).0, kind) ==
      if Dispatched(kind, i) then |Lookup(tables, LookupKey(kind, i))| else 0
    ensures i > 0 ==> FillLod(fill, tables, i, s).0.LightMapsAndShadowMaps == []
    ensures FillLod(fill, tables, i, s).0.LandscapesTable == []
    ensures BoundsDerived(FillLod(fill, tables, i, s).0)
  {
    FillBlocksShape(fill, tables, i, 8, s, kind);
    FillBlocksShape(fill, tables, i, 8, s, LightMaps);
    FillBlocksDeriveBounds(fill, tables, i, 8, s);
  }

  // ---------------------------------------------------------------------
  // The whole import

  /** What FillDataSets needs of its inputs: every listed file was read and
      has a table key, and every row a block reads fits its kind. */
  predicate ImportDefined(su: StringUtil, prefix: string, files: seq<string>, contents: map<string, seq<string>>)
  {
    FilesReadable(prefix, files, contents) &&
    TablesFit(su, ClearTables(su, RawTables(prefix, files, contents)), MaxLod(su, files) + 1)
  }

  /** The per-LOD sets FillDataSets produces; `init` stands for the values the
      record variables hold before their first assignment. */
  function ImportedSets(su: StringUtil, prefix: string, files: seq<string>, contents: map<string, seq<string>>, init: Scratch): (sets: seq<FSceneDataSet>)
    requires FilesReadable(prefix, files, contents)
    ensures |sets| == MaxLod(su, files) + 1
  {
    var tables := ClearTables(su, RawTables(prefix, files, contents));
    FillLods(RowFiller(su), tables, MaxLod(su, files) + 1, init)
  }

  /** The per-LOD sets the code as written produces: `ImportedSets` with the
      as-written transform fill. */
  function ImportedSetsAsWritten(su: StringUtil, prefix: string, files: seq<string>, contents: map<string, seq<string>>, init: Scratch): (sets: seq<FSceneDataSet>)
    requires FilesReadable(prefix, files, contents)
    ensures |sets| == MaxLod(su, files) + 1
  {
    var tables := ClearTables(su, RawTables(prefix, files, contents));
    FillLods(RowFillerAsWritten(su), tables, MaxLod(su, files) + 1, init)
  }

  /** A file `<prefix><table>_LOD<i>.csv` that no later file in the listing
      shadows supplies the rows a block reads for LOD `i`: its lines after the
      header, empty ones skipped, each tokenized. */
  lemma BlockReadsExportedFile(su: StringUtil, path: string, files: seq<string>, contents: map<string, seq<string>>, kind: TableKind, i: nat, k: nat)
    requires FilesReadable(FilePrefix(path), files, contents)
    requires k < |files| && files[k] == FilePrefix(path) + LookupKey(kind, i) + CsvExtension
    requires forall j :: k < j < |files| ==> TableKey(FilePrefix(path), files[j]) != LookupKey(kind, i)
    ensures Lookup(ClearTables(su, RawTables(FilePrefix(path), files, contents)), LookupKey(kind, i)) ==
      ClearRows(su, contents[files[k]][1..])
  {
    TableKeyOfExportName(FilePrefix(path), LookupKey(kind, i));
    RawTablesLastWins(FilePrefix(path), files, contents, k);
  }

  /** Without a file for its key, a block reads an empty table. */
  lemma BlockWithoutFileReadsNothing(su: StringUtil, path: string, files: seq<string>, contents: map<string, seq<string>>, kind: TableKind, i: nat)
    requires FilesReadable(FilePrefix(path), files, contents)
    requires forall j :: 0 <= j < |files| ==> TableKey(FilePrefix(path), files[j]) != LookupKey(kind, i)
    ensures Lookup(ClearTables(su, RawTables(FilePrefix(path), files, contents)), LookupKey(kind, i)) == []
  {
    if LookupKey(kind, i) in RawTables(FilePrefix(path), files, contents) {
      var k := RawTablesKeyOrigin(FilePrefix(path), files, contents, LookupKey(kind, i));
    }
  }

  class FSceneDataImporter {
    var perLODDataSets: seq<FSceneDataSet>
    var dirty: bool

    /** The int32 LOD count bounds the number of sets. */
    predicate Valid()
      reads this
    {
      |perLODDataSets| <= 0x8000_0000
    }

    constructor()
      ensures Valid()
      ensures perLODDataSets == [] && !dirty
    {
      perLODDataSets := [];
      dirty := false;
    }

    /** `(int)m_perLODDataSets.size()`: the size truncated to a signed 32-bit
        value, which turns negative at 2^31 sets. */
    function GetLODCount(): (n: i32)
      reads this
      ensures |perLODDataSets| < 0x8000_0000 ==> n as int == |perLODDataSets|
      ensures |perLODDataSets| == 0x8000_0000 ==> n as int == -0x8000_0000
    {
      var m := |perLODDataSets| % 0x1_0000_0000;
      if m < 0x8000_0000 then m as i32 else (m - 0x1_0000_0000) as i32
    }

    function GetDataDirtyFlag(): (flag: bool)
      reads this
      ensures flag <==> dirty
    {
      dirty
    }

    method SetDataDirtyFlag(flag: bool)
      modifies this
      ensures GetDataDirtyFlag() == flag
      ensures perLODDataSets == old(perLODDataSets)
    {
      dirty := flag;
    }

    /** `lod < m_perLODDataSets.size()` compares as unsigned: a negative `lod`
        becomes 2^64 + lod. */
    function GetFSceneData(lod: i32): (r: Option<FSceneDataSet>)
      requires Valid()
      reads this
      ensures r.Some? <==> 0 <= lod < |perLODDataSets|
      ensures r.Some? ==> r.value == perLODDataSets[lod]
    {
      var unsigned := if lod < 0 then lod as int + 0x1_0000_0000_0000_0000 else lod as int;
      if unsigned < |perLODDataSets| then Some(perLODDataSets[unsigned]) else None
    }

    /** The `for (auto& row : table)` loop of one block: each row refills the
        record variables and the kind's one is pushed onto the LOD's set. */
    method FillTable(fill: RowFill, kind: TableKind, i: nat, rows: seq<seq<string>>, s: Scratch) returns (s': Scratch)
      requires i < |perLODDataSets|
      modifies this
      ensures perLODDataSets == old(perLODDataSets)[i := FillRows(fill, kind, rows, old(perLODDataSets)[i], s).0]
      ensures s' == FillRows(fill, kind, rows, old(perLODDataSets)[i], s).1
      ensures dirty == old(dirty)
    {
      s' := s;
      for k := 0 to |rows|
        invariant perLODDataSets == old(perLODDataSets)[i := FillRows(fill, kind, rows[..k], old(perLODDataSets)[i], s).0]
        invariant s' == FillRows(fill, kind, rows[..k], old(perLODDataSets)[i], s).1
        invariant dirty == old(dirty)
      {
        assert rows[..k + 1][..k] == rows[..k];
        s' := fill(kind, rows[k], s');
        perLODDataSets := perLODDataSets[i := Push(perLODDataSets[i], kind, s')];
      }
      assert rows[..|rows|] == rows;
    }

    /** One block of LOD `i`: read the table and fill it unless it is empty.
        For the light maps and `i > 0` the source's `continue` skips the fill;
        the light maps block is the last of the LOD loop's body, so skipping
        the fill is all the `continue` does. */
    method FillBlockOf(fill: RowFill, tables: map<string, seq<seq<string>>>, kind: TableKind, i: nat, s: Scratch) returns (s': Scratch)
      requires i < |perLODDataSets|
      modifies this
      ensures |perLODDataSets| == |old(perLODDataSets)|
      ensures (perLODDataSets[i], s') == FillBlock(fill, tables, kind, i, (old(perLODDataSets)[i], s))
      ensures perLODDataSets == old(perLODDataSets)[i := perLODDataSets[i]]
      ensures dirty == old(dirty)
    {
      var table := Lookup(tables, LookupKey(kind, i));
      s' := s;
      if table != [] {
        if kind == LightMaps && i > 0 {
          return;
        }
        s' := FillTable(fill, kind, i, table, s);
      }
    }

    /** The body of the LOD loop of `_FillDataSets` for LOD `i`: the eight
        blocks in order. */
    method FillLodOf(fill: RowFill, tables: map<string, seq<seq<string>>>, i: nat, s: Scratch) returns (s': Scratch)
      requires i < |perLODDataSets| && perLODDataSets[i] == EmptyDataSet
      modifies this
      ensures |perLODDataSets| == |old(perLODDataSets)|
      ensures (perLODDataSets[i], s') == FillLod(fill, tables, i, s)
      ensures perLODDataSets == old(perLODDataSets)[i := perLODDataSets[i]]
      ensures dirty == old(dirty)
    {
      s' := s;
      for b := 0 to 8
        invariant |perLODDataSets| == |old(perLODDataSets)|
        invariant (perLODDataSets[i], s') == FillBlocks(fill, tables, i, b, s)
        invariant perLODDataSets == old(perLODDataSets)[i := perLODDataSets[i]]
        invariant dirty == old(dirty)
      {
        s' := FillBlockOf(fill, tables, BlockKind(b), i, s');
      }
    }

    /** `_FillDataSets`: the LOD loop over the default-constructed sets. */
    method FillFromTables(fill: RowFill, tables: map<string, seq<seq<string>>>, init: Scratch)
      requires forall i :: 0 <= i < |perLODDataSets| ==> perLODDataSets[i] == EmptyDataSet
      modifies this
      ensures perLODDataSets == FillLods(fill, tables, |old(perLODDataSets)|, init)
      ensures dirty == old(dirty)
    {
      var n := |perLODDataSets|;
      var s := init;
      for i := 0 to n
        invariant |perLODDataSets| == n
        invariant FilledUpTo(perLODDataSets, fill, tables, init, i)
        invariant s == Carried(fill, tables, i, init)
        invariant forall j :: i <= j < n ==> perLODDataSets[j] == EmptyDataSet
        invariant dirty == old(dirty)
      {
        s := FillNextLod(fill, tables, init, i, s);
      }
      FilledSetsAreFillLods(perLODDataSets, fill, tables, init);
    }

    /** One turn of the LOD loop: LOD `i` is filled over the record variables
        the earlier LODs left. */
    method FillNextLod(fill: RowFill, tables: map<string, seq<seq<string>>>, init: Scratch, i: nat, s: Scratch) returns (s': Scratch)
      requires i < |perLODDataSets|
      requires FilledUpTo(perLODDataSets, fill, tables, init, i)
      requires s == Carried(fill, tables, i, init)
      requires forall j :: i <= j < |perLODDataSets| ==> perLODDataSets[j] == EmptyDataSet
      modifies this
      ensures |perLODDataSets| == |old(perLODDataSets)|
      ensures FilledUpTo(perLODDataSets, fill, tables, init, i + 1)
      ensures s' == Carried(fill, tables, i + 1, init)
      ensures forall j :: i + 1 <= j < |perLODDataSets| ==> perLODDataSets[j] == EmptyDataSet
      ensures dirty == old(dirty)
    {
      ghost var before := perLODDataSets;
      s' := FillLodOf(fill, tables, i, s);
      FilledUpToFrame(before, perLODDataSets, fill, tables, init, i);
    }

    /** FillDataSets: the previous sets are discarded, one empty set is made
        per LOD slot, and the tables read from the files are dispatched into
        them. The dirty flag is not touched. */
    method FillDataSets(su: StringUtil, path: string, files: seq<string>, contents: map<string, seq<string>>, init: Scratch)
      requires ImportDefined(su, FilePrefix(path), files, contents)
      modifies this
      ensures perLODDataSets == ImportedSets(su, FilePrefix(path), files, contents, init)
      ensures dirty == old(dirty)
      ensures Valid()
    {
      ReadAndFill(su, FilePrefix(path), files, contents, init);
    }

    /** The body of FillDataSets, over the file name prefix. */
    method ReadAndFill(su: StringUtil, prefix: string, files: seq<string>, contents: map<string, seq<string>>, init: Scratch)
      requires FilesReadable(prefix, files, contents)
      modifies this
      ensures perLODDataSets == ImportedSets(su, prefix, files, contents, init)
      ensures dirty == old(dirty)
      ensures Valid()
    {
      perLODDataSets := [];
      var slots := CountLodSlots(su, files);
      perLODDataSets := seq(slots, _ => EmptyDataSet);
      var g := ReadTables(prefix, files, contents);
      var tables := ExtractTables(su, g);
      FillFromTables(RowFiller(su), tables, init);
    }
  }

  /** The `while (true)` fill of one row into the kind's record variable,
      through the index loop of `FillPass`. */
  method FillOneRecord(su: StringUtil, kind: TableKind, row: seq<string>, s: Scratch) returns (s': Scratch)
    requires RowFitsKind(su, kind, row)
    ensures s' == FillRecord(su, kind, row, s)
  {
    match kind
    case StaticMeshes =>
      var cells, _ := FillPass(su, StaticMeshSchema(), row, StaticMeshToCells(s.staticMesh));
      s' := s.(staticMesh := StaticMeshFromCells(cells, s.staticMesh));
    case SkeletalMeshes =>
      var cells, _ := FillPass(su, SkeletalMeshSchema(), row, SkeletalMeshToCells(s.skeletalMesh));
      s' := s.(skeletalMesh := SkeletalMeshFromCells(cells, s.skeletalMesh));
    case Transforms =>
      var cells, _ := FillPass(su, TransformSchema, row, MatrixToCells(s.transform));
      if |row| == |TransformSchema| + 1 {
        FillWellTyped(su, TransformSchema, row, MatrixToCells(s.transform));
        s' := s.(transform := MatrixFromCells(cells));
      } else {
        s' := s;
      }
    case Bounds =>
      var cells, _ := FillPass(su, BoundsSchema, row, BoundsToCells(s.bounds));
      FillWellTyped(su, BoundsSchema, row, BoundsToCells(s.bounds));
      s' := s.(bounds := RecomputeDerived(BoundsFromCells(cells, s.bounds)));
    case Materials =>
      var cells, _ := FillPass(su, MaterialSchema(), row, MaterialToCells(s.material));
      s' := s.(material := MaterialFromCells(cells, s.material));
    case MaterialInstances =>
      var cells, _ := FillPass(su, MaterialInstanceSchema(), row, MaterialInstanceToCells(s.materialInstance));
      s' := s.(materialInstance := MaterialInstanceFromCells(cells, s.materialInstance));
    case Textures =>
      var cells, _ := FillPass(su, TextureSchema(), row, TextureToCells(s.texture));
      s' := s.(texture := TextureFromCells(cells, s.texture));
    case LightMaps =>
      var cells, _ := FillPass(su, TextureSchema(), row, TextureToCells(s.lightMap));
      s' := s.(lightMap := TextureFromCells(cells, s.lightMap));
  }
}
