// AppEntry (AppEntry.cpp): the block-area hit test of the GUI messages, the
// merge of one box per bounds index into the scene's render item
// (`BuildFSceneRenderItems`), and the importer branch of `Update`.
module AppEntry {
  import opened Wrappers
  import opened TypeDef
  import opened WString
  import opened AppData
  import opened GeometryManager
  import opened SceneImporter

  // ---------------------------------------------------------------------
  // CheckInBlockAreas (AppEntry.cpp:606-620)

  /** The point lies in the area, all four edges included. */
  predicate InBlockArea(a: BlockArea, x: int, y: int)
  {
    a.StartPos.x <= x <= a.StartPos.x + a.BlockSize.x &&
    a.StartPos.y <= y <= a.StartPos.y + a.BlockSize.y
  }

  /** Some area that is not null contains the point. */
  predicate AnyAreaContains(areas: seq<Option<BlockArea>>, x: int, y: int)
  {
    exists k :: 0 <= k < |areas| && areas[k].Some? && InBlockArea(areas[k].value, x, y)
  }

  /** The loop over the areas: null entries are skipped and the first area
      that contains the point answers true. */
  method CheckInBlockAreas(areas: seq<Option<BlockArea>>, x: i32, y: i32) returns (r: bool)
    ensures r <==> AnyAreaContains(areas, x, y)
  {
    for k := 0 to |areas|
      invariant forall j :: 0 <= j < k && areas[j].Some? ==> !InBlockArea(areas[j].value, x, y)
    {
      if areas[k] == None {
        continue;
      }
      var a := areas[k].value;
      if x >= a.StartPos.x && y >= a.StartPos.y &&
         x <= a.StartPos.x + a.BlockSize.x && y <= a.StartPos.y + a.BlockSize.y
      {
        return true;
      }
    }
    return false;
  }

  /** No area, or only null ones, contains nothing. */
  lemma NullAreasContainNothing(areas: seq<Option<BlockArea>>, x: int, y: int)
    requires forall k :: 0 <= k < |areas| ==> areas[k] == None
    ensures !AnyAreaContains(areas, x, y)
  {
  }

  /** The far corner of an area belongs to it when its size is not negative. */
  lemma FarCornerIsInside(a: BlockArea)
    requires a.BlockSize.x >= 0 && a.BlockSize.y >= 0
    ensures InBlockArea(a, a.StartPos.x + a.BlockSize.x, a.StartPos.y + a.BlockSize.y)
    ensures InBlockArea(a, a.StartPos.x, a.StartPos.y)
    ensures !InBlockArea(a, a.StartPos.x + a.BlockSize.x + 1, a.StartPos.y)
  {
  }

  // ---------------------------------------------------------------------
  // BuildFSceneRenderItems (AppEntry.cpp:506-547)

  /** One box of the scene: a bounds index of a static mesh, and the mesh's
      vertex count, which gives the box its grey level. */
  datatype BoxRef = BoxRef(BoundsIndex: i32, NumVertices: u32)

  /** The per-box structure buffer entry: the colour
      `((float)NumVertices, (float)NumVertices, (float)NumVertices, 1)`,
      represented by the vertex count it is made from. */
  datatype StructureBuffer = StructureBuffer(Grey: u32)

  /** The boxes of one static mesh: one per bounds index, in order. */
  function MeshBoxes(m: StaticMeshDataSet): (r: seq<BoxRef>)
    ensures |r| == |m.BoundsIndices|
    ensures forall j :: 0 <= j < |r| ==> r[j] == BoxRef(m.BoundsIndices[j], m.NumVertices)
  {
    seq(|m.BoundsIndices|, j requires 0 <= j < |m.BoundsIndices| => BoxRef(m.BoundsIndices[j], m.NumVertices))
  }

  /** The boxes of the static meshes, mesh after mesh. */
  function Boxes(meshes: seq<StaticMeshDataSet>): seq<BoxRef>
  {
    if meshes == [] then [] else Boxes(meshes[..|meshes| - 1]) + MeshBoxes(meshes[|meshes| - 1])
  }

  /** Every box names an entry of the bounds table. */
  predicate BoxesValid(d: FSceneDataSet, boxes: seq<BoxRef>)
  {
    forall k :: 0 <= k < |boxes| ==> 0 <= boxes[k].BoundsIndex < |d.BoundsTable|
  }

  /** One copy of the box mesh's vertices, the c-th moved to the c-th corner
      of a bounding box; colours are kept. */
  function PlacedBox(box: BoundingBox, template: seq<ColorVertex>): (r: seq<ColorVertex>)
    ensures |r| == |template|
    ensures forall c :: 0 <= c < |r| ==> r[c] == ColorVertex(Corner(box, c), template[c].Color)
  {
    seq(|template|, c requires 0 <= c < |template| => template[c].(Pos := Corner(box, c)))
  }

  /** The merged vertices: one placed copy per box, in box order. */
  function MergedVertices(d: FSceneDataSet, template: seq<ColorVertex>, boxes: seq<BoxRef>): seq<ColorVertex>
    requires BoxesValid(d, boxes)
  {
    if boxes == [] then []
    else
      var b := boxes[|boxes| - 1];
      MergedVertices(d, template, boxes[..|boxes| - 1]) + PlacedBox(d.BoundsTable[b.BoundsIndex].BoxBounds, template)
  }

  /** `index + boxCount * 8` for each index of the box mesh, as `uint32`. */
  function OffsetIndices(indices: seq<u32>, k: nat): (r: seq<u32>)
    ensures |r| == |indices|
    ensures forall p :: 0 <= p < |r| ==> r[p] == (indices[p] + 8 * k) % 0x1_0000_0000
  {
    seq(|indices|, p requires 0 <= p < |indices| => (indices[p] + 8 * k) % 0x1_0000_0000)
  }

  /** The merged indices of the first `n` boxes. */
  function MergedIndices(indices: seq<u32>, n: nat): seq<u32>
  {
    if n == 0 then [] else MergedIndices(indices, n - 1) + OffsetIndices(indices, n - 1)
  }

  /** The structure buffer entries of the boxes, one each. */
  function BoxColors(boxes: seq<BoxRef>): (r: seq<StructureBuffer>)
    ensures |r| == |boxes|
    ensures forall k :: 0 <= k < |r| ==> r[k] == StructureBuffer(boxes[k].NumVertices)
  {
    seq(|boxes|, k requires 0 <= k < |boxes| => StructureBuffer(boxes[k].NumVertices))
  }

  /** Appending a box appends its placed copy. */
  lemma MergedVerticesSnoc(d: FSceneDataSet, template: seq<ColorVertex>, boxes: seq<BoxRef>, box: BoxRef)
    requires BoxesValid(d, boxes) && 0 <= box.BoundsIndex < |d.BoundsTable|
    ensures BoxesValid(d, boxes + [box])
    ensures MergedVertices(d, template, boxes + [box]) ==
      MergedVertices(d, template, boxes) + PlacedBox(d.BoundsTable[box.BoundsIndex].BoxBounds, template)
  {
    assert (boxes + [box])[..|boxes|] == boxes;
  }

  lemma {:induction false} MergedVerticesLength(d: FSceneDataSet, template: seq<ColorVertex>, boxes: seq<BoxRef>)
    requires BoxesValid(d, boxes)
    ensures |MergedVertices(d, template, boxes)| == |boxes| * |template|
  {
    if boxes != [] {
      var n := |boxes| - 1;
      MergedVerticesLength(d, template, boxes[..n]);
      assert |boxes| * |template| == n * |template| + |template|;
    }
  }

  /** The c-th vertex of the k-th box sits at the c-th corner of that box's
      bounds, with the template's colour. */
  lemma {:induction false} MergedVerticesAt(d: FSceneDataSet, template: seq<ColorVertex>, boxes: seq<BoxRef>, k: nat, c: nat)
    requires BoxesValid(d, boxes) && k < |boxes| && c < |template|
    ensures k * |template| + c < |MergedVertices(d, template, boxes)|
    ensures MergedVertices(d, template, boxes)[k * |template| + c] ==
      ColorVertex(Corner(d.BoundsTable[boxes[k].BoundsIndex].BoxBounds, c), template[c].Color)
  {
    var n := |boxes| - 1;
    MergedVerticesLength(d, template, boxes);
    MergedVerticesLength(d, template, boxes[..n]);
    assert (k + 1) * |template| == k * |template| + |template|;
    assert k * |template| + c < (k + 1) * |template| <= |boxes| * |template| by {
      assert (k + 1) * |template| <= |boxes| * |template| by {
        assert |boxes| == (k + 1) + (|boxes| - k - 1);
        assert |boxes| * |template| == (k + 1) * |template| + (|boxes| - k - 1) * |template|;
      }
    }
    if k < n {
      MergedVerticesAt(d, template, boxes[..n], k, c);
      assert k * |template| + c < n * |template| by {
        assert n * |template| == (k + 1) * |template| + (n - k - 1) * |template|;
      }
    } else {
      assert n * |template| + c == k * |template| + c;
    }
  }

  lemma {:induction false} MergedIndicesLength(indices: seq<u32>, n: nat)
    ensures |MergedIndices(indices, n)| == n * |indices|
  {
    if n > 0 {
      MergedIndicesLength(indices, n - 1);
      assert n * |indices| == (n - 1) * |indices| + |indices|;
    }
  }

  /** The p-th index of the k-th box is the box mesh's p-th index offset by
      8 k, modulo 2^32. */
  lemma {:induction false} MergedIndicesAt(indices: seq<u32>, n: nat, k: nat, p: nat)
    requires k < n && p < |indices|
    ensures k * |indices| + p < |MergedIndices(indices, n)|
    ensures MergedIndices(indices, n)[k * |indices| + p] == (indices[p] + 8 * k) % 0x1_0000_0000
  {
    MergedIndicesLength(indices, n);
    MergedIndicesLength(indices, n - 1);
    assert (k + 1) * |indices| == k * |indices| + |indices|;
    assert n * |indices| == (k + 1) * |indices| + (n - k - 1) * |indices|;
    if k < n - 1 {
      MergedIndicesAt(indices, n - 1, k, p);
      assert (n - 1) * |indices| == (k + 1) * |indices| + (n - 1 - k - 1) * |indices|;
    }
  }

  /** After the 16-bit narrowing, the p-th index of the k-th box is the box
      mesh's p-th index offset by 8 k, modulo 2^16: from 8192 boxes on the
      offsets wrap around. */
  lemma NarrowedMergedIndicesAt(indices: seq<u32>, n: nat, k: nat, p: nat)
    requires k < n && p < |indices|
    ensures k * |indices| + p < |Narrowed(MergedIndices(indices, n))|
    ensures Narrowed(MergedIndices(indices, n))[k * |indices| + p] == (indices[p] + 8 * k) % 0x1_0000
  {
    MergedIndicesAt(indices, n, k, p);
    WrapThenNarrow(indices[p] + 8 * k);
  }

  /** Narrowing a 32-bit wrap to 16 bits is narrowing the number itself. */
  lemma WrapThenNarrow(x: nat)
    ensures x % 0x1_0000_0000 % 0x1_0000 == x % 0x1_0000
  {
    var q := x / 0x1_0000_0000;
    var r := x % 0x1_0000_0000;
    assert x == (q * 0x1_0000) * 0x1_0000 + r;
    Shift(q * 0x1_0000, r);
  }

  lemma Shift(a: int, r: int)
    ensures (a * 0x1_0000 + r) % 0x1_0000 == r % 0x1_0000
  {
  }

  /** The render item `BuildFSceneRenderItems` adds for a scene. */
  function BoxItem(id: i32, d: FSceneDataSet, template: seq<ColorVertex>, indices: seq<u32>, offset: int): (r: RenderItem)
    requires id >= 0 && BoxesValid(d, Boxes(d.StaticMeshesTable))
    ensures r.ObjectCBufferIndex == id && r.PerBoxSBufferOffset == offset && r.ObjectDataChanged
    ensures |r.Vertices| == |Boxes(d.StaticMeshesTable)| * |template|
    ensures |r.Indices16| == |Boxes(d.StaticMeshesTable)| * |indices|
  {
    var boxes := Boxes(d.StaticMeshesTable);
    MergedVerticesLength(d, template, boxes);
    MergedIndicesLength(indices, |boxes|);
    RenderItem(id, "box" + NatToString(id), MergedVertices(d, template, boxes),
      Narrowed(MergedIndices(indices, |boxes|)), offset, true)
  }

  /** The sequential consumer step of `Update`: the importer has produced
      data, the lock is held and the dirty flag set. */
  predicate Rebuilds(locked: bool, dirty: bool, sets: seq<FSceneDataSet>)
  {
    locked && dirty && |sets| > 0 && sets[0].StaticMeshesTable != []
  }

  /** Every item marked as having changed constant-buffer data. */
  function MarkedChanged(items: seq<RenderItem>): (r: seq<RenderItem>)
    ensures |r| == |items|
    ensures forall k :: 0 <= k < |r| ==> r[k] == items[k].(ObjectDataChanged := true)
  {
    seq(|items|, k requires 0 <= k < |items| => items[k].(ObjectDataChanged := true))
  }

  class AppEntry {
    var perBoxCPUSBuffer: seq<StructureBuffer>
    var allRitems: seq<RenderItem>
    /** The opaque render layer, as positions in `allRitems`. */
    var opaqueLayer: seq<nat>
    const counter: ObjectCounter

    constructor(counter: ObjectCounter)
      ensures this.counter == counter
      ensures perBoxCPUSBuffer == [] && allRitems == [] && opaqueLayer == []
    {
      this.counter := counter;
      perBoxCPUSBuffer := [];
      allRitems := [];
      opaqueLayer := [];
    }

    /** The copies of one box: its vertices at the corners of its bounds and
        its indices offset by `8 * boxCount`. */
    method AppendBox(mesh: MeshData<ColorVertex>, box: BoundingBox, template: seq<ColorVertex>, indices: seq<u32>, boxCount: nat)
      requires |template| <= 8
      modifies mesh
      ensures mesh.Vertices == old(mesh.Vertices) + PlacedBox(box, template)
      ensures mesh.Indices32 == old(mesh.Indices32) + OffsetIndices(indices, boxCount)
      ensures mesh.indices16 == old(mesh.indices16)
    {
      for c := 0 to |template|
        invariant mesh.Vertices == old(mesh.Vertices) + PlacedBox(box, template)[..c]
        invariant mesh.Indices32 == old(mesh.Indices32) && mesh.indices16 == old(mesh.indices16)
      {
        assert PlacedBox(box, template)[..c + 1] == PlacedBox(box, template)[..c] + [template[c].(Pos := Corner(box, c))];
        mesh.Vertices := mesh.Vertices + [template[c].(Pos := Corner(box, c))];
      }
      for p := 0 to |indices|
        invariant mesh.Vertices == old(mesh.Vertices) + PlacedBox(box, template)
        invariant mesh.Indices32 == old(mesh.Indices32) + OffsetIndices(indices, boxCount)[..p]
        invariant mesh.indices16 == old(mesh.indices16)
      {
        assert OffsetIndices(indices, boxCount)[..p + 1] == OffsetIndices(indices, boxCount)[..p] + [(indices[p] + boxCount * 8) % 0x1_0000_0000];
        mesh.Indices32 := mesh.Indices32 + [(indices[p] + boxCount * 8) % 0x1_0000_0000];
      }
      assert PlacedBox(box, template)[..|template|] == PlacedBox(box, template);
      assert OffsetIndices(indices, boxCount)[..|indices|] == OffsetIndices(indices, boxCount);
    }

    /** One turn of the inner loop: one box appended to the merged mesh and
        its entry to the structure buffer; `boxCount` goes up by one. */
    method PushBox(fsceneMesh: MeshData<ColorVertex>, d: FSceneDataSet, box: BoxRef,
                   template: seq<ColorVertex>, indices: seq<u32>, ghost done: seq<BoxRef>, boxCount: nat)
      returns (newCount: nat)
      requires |template| <= 8 && boxCount == |done| && BoxesValid(d, done)
      requires 0 <= box.BoundsIndex < |d.BoundsTable|
      requires fsceneMesh.Vertices == MergedVertices(d, template, done)
      requires fsceneMesh.Indices32 == MergedIndices(indices, boxCount)
      modifies fsceneMesh, this`perBoxCPUSBuffer
      ensures newCount == |done + [box]| && BoxesValid(d, done + [box])
      ensures fsceneMesh.Vertices == MergedVertices(d, template, done + [box])
      ensures fsceneMesh.Indices32 == MergedIndices(indices, newCount)
      ensures fsceneMesh.indices16 == old(fsceneMesh.indices16)
      ensures perBoxCPUSBuffer == old(perBoxCPUSBuffer) + [StructureBuffer(box.NumVertices)]
    {
      var bounds := d.BoundsTable[box.BoundsIndex];
      AppendBox(fsceneMesh, bounds.BoxBounds, template, indices, boxCount);
      newCount := boxCount + 1;
      perBoxCPUSBuffer := perBoxCPUSBuffer + [StructureBuffer(box.NumVertices)];
      MergedVerticesSnoc(d, template, done, box);
    }

    /** The inner loop over one static mesh's bounds indices: its boxes are
        appended to the merged mesh and to the structure buffer. */
    method AppendMeshBoxes(fsceneMesh: MeshData<ColorVertex>, d: FSceneDataSet, mesh: StaticMeshDataSet,
                           template: seq<ColorVertex>, indices: seq<u32>, ghost done: seq<BoxRef>, boxCount: nat)
      returns (newCount: nat)
      requires |template| <= 8 && boxCount == |done| && BoxesValid(d, done)
      requires forall j :: 0 <= j < |mesh.BoundsIndices| ==> 0 <= mesh.BoundsIndices[j] < |d.BoundsTable|
      requires fsceneMesh.Vertices == MergedVertices(d, template, done)
      requires fsceneMesh.Indices32 == MergedIndices(indices, boxCount)
      modifies fsceneMesh, this`perBoxCPUSBuffer
      ensures newCount == |done + MeshBoxes(mesh)| && BoxesValid(d, done + MeshBoxes(mesh))
      ensures fsceneMesh.Vertices == MergedVertices(d, template, done + MeshBoxes(mesh))
      ensures fsceneMesh.Indices32 == MergedIndices(indices, newCount)
      ensures fsceneMesh.indices16 == old(fsceneMesh.indices16)
      ensures perBoxCPUSBuffer == old(perBoxCPUSBuffer) + BoxColors(MeshBoxes(mesh))
    {
      newCount := boxCount;
      ghost var all := done;
      for j := 0 to |mesh.BoundsIndices|
        invariant all == done + MeshBoxes(mesh)[..j] && newCount == |all|
        invariant BoxesValid(d, all)
        invariant fsceneMesh.Vertices == MergedVertices(d, template, all)
        invariant fsceneMesh.Indices32 == MergedIndices(indices, newCount)
        invariant fsceneMesh.indices16 == old(fsceneMesh.indices16)
        invariant perBoxCPUSBuffer == old(perBoxCPUSBuffer) + BoxColors(MeshBoxes(mesh)[..j])
      {
        var box := BoxRef(mesh.BoundsIndices[j], mesh.NumVertices);
        assert MeshBoxes(mesh)[..j + 1] == MeshBoxes(mesh)[..j] + [box];
        BoxColorsAppend(MeshBoxes(mesh)[..j], [box]);
        newCount := PushBox(fsceneMesh, d, box, template, indices, all, newCount);
        all := all + [box];
      }
      assert MeshBoxes(mesh)[..|mesh.BoundsIndices|] == MeshBoxes(mesh);
    }

    /** The two nested loops of BuildFSceneRenderItems: every box of every
        static mesh, in order, merged into one fresh mesh. */
    method MergeBoxes(d: FSceneDataSet, template: seq<ColorVertex>, indices: seq<u32>)
      returns (fsceneMesh: MeshData<ColorVertex>, boxCount: nat)
      requires |template| <= 8
      requires BoxesValid(d, Boxes(d.StaticMeshesTable))
      modifies this`perBoxCPUSBuffer
      ensures fresh(fsceneMesh) && boxCount == |Boxes(d.StaticMeshesTable)|
      ensures fsceneMesh.Vertices == MergedVertices(d, template, Boxes(d.StaticMeshesTable))
      ensures fsceneMesh.Indices32 == MergedIndices(indices, boxCount)
      ensures fsceneMesh.indices16 == []
      ensures perBoxCPUSBuffer == old(perBoxCPUSBuffer) + BoxColors(Boxes(d.StaticMeshesTable))
    {
      var meshes := d.StaticMeshesTable;
      fsceneMesh := new MeshData<ColorVertex>([], []);
      boxCount := 0;
      for m := 0 to |meshes|
        invariant boxCount == |Boxes(meshes[..m])| && BoxesValid(d, Boxes(meshes[..m]))
        invariant fsceneMesh.Vertices == MergedVertices(d, template, Boxes(meshes[..m]))
        invariant fsceneMesh.Indices32 == MergedIndices(indices, boxCount)
        invariant fsceneMesh.indices16 == []
        invariant perBoxCPUSBuffer == old(perBoxCPUSBuffer) + BoxColors(Boxes(meshes[..m]))
      {
        BoxesOfPrefix(d, meshes, m);
        boxCount := AppendMeshBoxes(fsceneMesh, d, meshes[m], template, indices, Boxes(meshes[..m]), boxCount);
        BoxColorsAppend(Boxes(meshes[..m]), MeshBoxes(meshes[m]));
      }
      assert meshes[..|meshes|] == meshes;
    }

    /** BuildFSceneRenderItems: one box per bounds index of every static mesh
        goes into one merged mesh and one structure buffer entry; the new
        render item's buffer offset is the buffer length before the call. The
        box mesh (`CreateDefaultBox`) is given as `template` and `indices`. */
    method BuildFSceneRenderItems(d: FSceneDataSet, template: seq<ColorVertex>, indices: seq<u32>)
      requires counter.Valid() && counter.ObjectCount < 0x7FFF_FFFF
      requires |template| <= 8
      requires BoxesValid(d, Boxes(d.StaticMeshesTable))
      modifies this, counter
      ensures counter.Valid() && counter.ObjectCount == old(counter.ObjectCount) + 1
      ensures perBoxCPUSBuffer == old(perBoxCPUSBuffer) + BoxColors(Boxes(d.StaticMeshesTable))
      ensures allRitems == old(allRitems) +
        [BoxItem(old(counter.ObjectCount), d, template, indices, |old(perBoxCPUSBuffer)|)]
      ensures opaqueLayer == old(opaqueLayer) + [|old(allRitems)|]
    {
      var fsceneMesh, boxCount := MergeBoxes(d, template, indices);
      var item := NewRenderItem(counter);
      var indices16 := fsceneMesh.GetIndices16();
      item := item.(Name := "box" + NatToString(item.ObjectCBufferIndex),
                    PerBoxSBufferOffset := |perBoxCPUSBuffer| - boxCount,
                    Vertices := fsceneMesh.Vertices,
                    Indices16 := indices16);
      opaqueLayer := opaqueLayer + [|allRitems|];
      allRitems := allRitems + [item];
    }

    /** The importer branch of `Update`: with the lock held and the dirty flag
        set, the flag is cleared and, when LOD 0 exists and has static
        meshes, the box render item is built from it and every item is marked
        changed. The lock is given as `locked`. */
    method UpdateImporter(importer: FSceneDataImporter, locked: bool, template: seq<ColorVertex>, indices: seq<u32>)
      requires importer.Valid() && counter.Valid() && counter.ObjectCount < 0x7FFF_FFFF
      requires Rebuilds(locked, importer.dirty, importer.perLODDataSets) ==>
        |template| <= 8 && BoxesValid(importer.perLODDataSets[0], Boxes(importer.perLODDataSets[0].StaticMeshesTable))
      modifies this, counter, importer
      ensures importer.perLODDataSets == old(importer.perLODDataSets)
      ensures importer.dirty == (old(importer.dirty) && !locked)
      ensures Rebuilds(locked, old(importer.dirty), old(importer.perLODDataSets)) ==>
        var d := old(importer.perLODDataSets)[0];
        counter.ObjectCount == old(counter.ObjectCount) + 1 &&
        perBoxCPUSBuffer == old(perBoxCPUSBuffer) + BoxColors(Boxes(d.StaticMeshesTable)) &&
        allRitems == MarkedChanged(old(allRitems) +
          [BoxItem(old(counter.ObjectCount), d, template, indices, |old(perBoxCPUSBuffer)|)]) &&
        opaqueLayer == old(opaqueLayer) + [|old(allRitems)|]
      ensures !Rebuilds(locked, old(importer.dirty), old(importer.perLODDataSets)) ==>
        counter.ObjectCount == old(counter.ObjectCount) &&
        perBoxCPUSBuffer == old(perBoxCPUSBuffer) && allRitems == old(allRitems) && opaqueLayer == old(opaqueLayer)
    {
      if locked {
        if importer.GetDataDirtyFlag() {
          importer.SetDataDirtyFlag(false);
          var lod0 := importer.GetFSceneData(0);
          if lod0.Some? {
            if lod0.value.StaticMeshesTable != [] {
              BuildFSceneRenderItems(lod0.value, template, indices);
              ghost var built := allRitems;
              for k := 0 to |allRitems|
                invariant |allRitems| == |old(allRitems)| + 1
                invariant forall j :: 0 <= j < k ==> allRitems[j] == built[j].(ObjectDataChanged := true)
                invariant forall j :: k <= j < |allRitems| ==> allRitems[j] == built[j]
                invariant perBoxCPUSBuffer == old(perBoxCPUSBuffer) + BoxColors(Boxes(lod0.value.StaticMeshesTable))
                invariant opaqueLayer == old(opaqueLayer) + [|old(allRitems)|]
                invariant counter.ObjectCount == old(counter.ObjectCount) + 1
                invariant importer.perLODDataSets == old(importer.perLODDataSets) && !importer.dirty
              {
                allRitems := allRitems[k := allRitems[k].(ObjectDataChanged := true)];
              }
            }
          }
        }
      }
    }
  }

  /** The boxes of the first m + 1 meshes are those of the first m followed
      by the (m+1)-th mesh's, whose bounds indices are all valid. */
  lemma BoxesOfPrefix(d: FSceneDataSet, meshes: seq<StaticMeshDataSet>, m: nat)
    requires m < |meshes| && BoxesValid(d, Boxes(meshes))
    ensures Boxes(meshes[..m + 1]) == Boxes(meshes[..m]) + MeshBoxes(meshes[m])
    ensures forall j :: 0 <= j < |meshes[m].BoundsIndices| ==> 0 <= meshes[m].BoundsIndices[j] < |d.BoundsTable|
  {
    assert meshes[..m + 1][..m] == meshes[..m];
    forall j | 0 <= j < |meshes[m].BoundsIndices|
      ensures 0 <= meshes[m].BoundsIndices[j] < |d.BoundsTable|
    {
      BoxInAll(meshes, m, j);
    }
  }

  lemma BoxColorsAppend(a: seq<BoxRef>, b: seq<BoxRef>)
    ensures BoxColors(a + b) == BoxColors(a) + BoxColors(b)
  {
  }

  /** The j-th bounds index of the m-th mesh is one of the scene's boxes. */
  lemma {:induction false} BoxInAll(meshes: seq<StaticMeshDataSet>, m: nat, j: nat)
    requires m < |meshes| && j < |meshes[m].BoundsIndices|
    ensures BoxRef(meshes[m].BoundsIndices[j], meshes[m].NumVertices) in Boxes(meshes)
  {
    var n := |meshes| - 1;
    if m < n {
      assert meshes[..n][m] == meshes[m];
      BoxInAll(meshes[..n], m, j);
    } else {
      assert MeshBoxes(meshes[m])[j] == BoxRef(meshes[m].BoundsIndices[j], meshes[m].NumVertices);
    }
  }
}
