// DX::GeometryManager (Common/GeometryManager.h): the vertex types, the
// lazily narrowed index cache of MeshData and the id counter of RenderItem.
module GeometryManager {
  import opened TypeDef
  import opened AppData

  /** Where a vertex sits. Its float contents are never inspected: a vertex
      is either at a given point or at the `corner`-th of the eight corners
      of a bounding box (`BoundingBox::GetCorners`), turned from right- to
      left-handed coordinates. */
  datatype Position = Point(p: Float3) | Corner(box: BoundingBox, corner: nat)

  /** ColorVertex */
  datatype ColorVertex = ColorVertex(Pos: Position, Color: Vector4)

  /** `static_cast<uint16>` of every index. */
  function Narrowed(indices: seq<u32>): (r: seq<u16>)
    ensures |r| == |indices|
    ensures forall i :: 0 <= i < |r| ==> r[i] == indices[i] % 65536
  {
    seq(|indices|, i requires 0 <= i < |indices| => ToUInt16(indices[i]))
  }

  /** Indices below 2^16 survive the narrowing unchanged. */
  lemma NarrowingKeepsSmallIndices(indices: seq<u32>)
    requires forall i :: 0 <= i < |indices| ==> indices[i] < 65536
    ensures Narrowed(indices) == indices
  {
  }

  /** MeshData<TVertex>: vertices, 32-bit indices and the 16-bit cache. */
  class MeshData<V> {
    var Vertices: seq<V>
    var Indices32: seq<u32>
    var indices16: seq<u16>

    constructor(vertices: seq<V>, indices: seq<u32>)
      ensures Vertices == vertices && Indices32 == indices && indices16 == []
    {
      Vertices := vertices;
      Indices32 := indices;
      indices16 := [];
    }

    /** GetIndices16: an empty cache is resized to the index count and filled
        with the narrowed indices; a non-empty one is returned as it is, even
        if `Indices32` has changed since it was filled. */
    method GetIndices16() returns (r: seq<u16>)
      modifies this
      ensures old(indices16) == [] ==> indices16 == Narrowed(Indices32)
      ensures old(indices16) != [] ==> indices16 == old(indices16)
      ensures r == indices16
      ensures Vertices == old(Vertices) && Indices32 == old(Indices32)
    {
      if indices16 == [] {
        var cache := new u16[|Indices32|];
        for i := 0 to cache.Length
          modifies cache
          invariant forall j :: 0 <= j < i ==> cache[j] == Indices32[j] % 65536
        {
          cache[i] := ToUInt16(Indices32[i]);
        }
        indices16 := cache[..];
      }
      r := indices16;
    }
  }

  /** The static `RenderItem::ObjectCount`. */
  class ObjectCounter {
    var ObjectCount: i32

    /** Counting starts at zero and only goes up. */
    predicate Valid()
      reads this
    {
      ObjectCount >= 0
    }

    constructor()
      ensures Valid() && ObjectCount == 0
    {
      ObjectCount := 0;
    }
  }

  /** The parts of a RenderItem the application keeps track of; its Direct3D
      geometry is described by the vertices and 16-bit indices it was made
      from. */
  datatype RenderItem = RenderItem(
    ObjectCBufferIndex: i32,
    Name: string,
    Vertices: seq<ColorVertex>,
    Indices16: seq<u16>,
    PerBoxSBufferOffset: int,
    ObjectDataChanged: bool)

  /** `RenderItem()`: `ObjectCBufferIndex = ObjectCount++`, so successive items
      get successive ids. Every other field has its default. */
  method NewRenderItem(counter: ObjectCounter) returns (item: RenderItem)
    requires counter.Valid() && counter.ObjectCount < 0x7FFF_FFFF
    modifies counter
    ensures counter.Valid() && counter.ObjectCount == old(counter.ObjectCount) + 1
    ensures item == RenderItem(old(counter.ObjectCount), "", [], [], 0, true)
  {
    item := RenderItem(counter.ObjectCount, "", [], [], 0, true);
    counter.ObjectCount := counter.ObjectCount + 1;
  }
}
