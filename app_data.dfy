// The record types of AppData.h that the scene importer fills, the bounds
// derivation, and the `UniqueId`-only equality of materials, material
// instances and textures.
module AppData {
  import opened TypeDef

  // ---------------------------------------------------------------------
  // Math and collision values. Their float contents are never inspected.

  /** XMFLOAT3 */
  datatype Float3 = Float3(x: Float, y: Float, z: Float)

  /** Vector4 */
  datatype Vector4 = Vector4(x: Float, y: Float, z: Float, w: Float)

  /** FMatrix (Matrix4): four rows. */
  datatype Matrix4 = Matrix4(r0: Vector4, r1: Vector4, r2: Vector4, r3: Vector4)

  /** DirectX::BoundingBox: a center and half-extents. */
  datatype BoundingBox = BoundingBox(Center: Float3, Extents: Float3)

  /** DirectX::BoundingSphere: a center and a radius. */
  datatype BoundingSphere = BoundingSphere(Center: Float3, Radius: Float)

  /** XMINT2 */
  datatype Int2 = Int2(x: i32, y: i32)

  /** A screen rectangle over which the mouse does not drive the camera. */
  datatype BlockArea = BlockArea(StartPos: Int2, BlockSize: Int2)

  // ---------------------------------------------------------------------
  // Bounds

  datatype BoxSphereBounds = BoxSphereBounds(
    Origin: Float3,
    BoxExtent: Float3,
    SphereRadius: Float,
    BoxBounds: BoundingBox,
    SphereBounds: BoundingSphere)

  /** The box and the sphere agree with the three primitives: the box is
      centred on the origin with the box extent as half-size, the sphere is
      centred on the origin with the sphere radius. */
  predicate Derived(b: BoxSphereBounds)
  {
    && b.BoxBounds.Center == b.Origin
    && b.BoxBounds.Extents == b.BoxExtent
    && b.SphereBounds.Center == b.Origin
    && b.SphereBounds.Radius == b.SphereRadius
  }

  /** The three-argument constructor `BoxSphereBounds(InOrigin, InBoxExtent,
      InSphereRadius)`. (The default constructor initialises nothing: the
      model represents such a value by an arbitrary `BoxSphereBounds`.) */
  function MakeBoxSphereBounds(origin: Float3, extent: Float3, radius: Float): (b: BoxSphereBounds)
    ensures Derived(b)
    ensures b.Origin == origin && b.BoxExtent == extent && b.SphereRadius == radius
  {
    BoxSphereBounds(origin, extent, radius,
      BoundingBox(origin, extent), BoundingSphere(origin, radius))
  }

  /** Recomputing the box and sphere of a bounds value from its primitives,
      as the importer does after each bounds row. */
  function RecomputeDerived(b: BoxSphereBounds): (r: BoxSphereBounds)
    ensures Derived(r)
    ensures r.Origin == b.Origin && r.BoxExtent == b.BoxExtent && r.SphereRadius == b.SphereRadius
  {
    b.(BoxBounds := BoundingBox(b.Origin, b.BoxExtent),
       SphereBounds := BoundingSphere(b.Origin, b.SphereRadius))
  }

  /** Recomputing gives the same value as the three-argument constructor, and
      a derived value is left as it is. */
  lemma RecomputeIsConstructor(b: BoxSphereBounds)
    ensures RecomputeDerived(b) == MakeBoxSphereBounds(b.Origin, b.BoxExtent, b.SphereRadius)
    ensures Derived(b) ==> RecomputeDerived(b) == b
  {
  }

  // ---------------------------------------------------------------------
  // Scene records

  datatype StaticMeshDataSet = StaticMeshDataSet(
    Name: string,
    OwnerName: string,
    AssetPath: string,
    UniqueId: u32,
    NumVertices: u32,
    NumTriangles: u32,
    NumInstances: u32,
    BoundsIndices: seq<i32>,      // first is the mesh, the rest its instances
    TransformsIndices: seq<i32>,  // first is the mesh, the rest its instances
    UsedMaterialsIndices: seq<i32>,
    UsedMaterialIntancesIndices: seq<i32>,
    NumLODs: u16,
    CurrentLOD: u16)

  datatype SkeletalMeshDataSet = SkeletalMeshDataSet(
    Name: string,
    OwnerName: string,
    AssetPath: string,
    UniqueId: u32,
    NumVertices: u32,
    NumTriangles: u32,
    NumSections: u32,
    BoundsIndex: i32,
    TransformsIndex: i32,
    UsedMaterialsIndices: seq<i32>,
    UsedMaterialIntancesIndices: seq<i32>,
    NumLODs: u16,
    CurrentLOD: u16)

  /** FSceneLandscapeDataSet has no fields. */
  datatype LandscapeDataSet = LandscapeDataSet

  datatype MaterialDataSet = MaterialDataSet(
    Name: string,
    AssetPath: string,
    TexSamplers: string,
    UserInterpolators: string,
    TexLookups: string,
    VTLookups: string,
    ShaderErrors: string,
    MaterialDomain: string,
    BlendMode: string,
    DecalBlendMode: string,
    ShadingModel: string,
    TranslucencyLightingMode: string,
    TranslucencyDirectionalLightingIntensity: Float,
    UniqueId: u32,
    NumInstances: u32,
    NumRefs: u32,
    MatInsIndices: seq<i32>,
    UsedTexturesIndices: seq<i32>,
    BPSCount: i32,
    BPSSurfaceLightmap: i32,
    BPSVolumetricLightmap: i32,
    BPSVertex: i32,
    // one-bit fields
    TwoSided: u1,
    bCastRayTracedShadows: u1,
    bScreenSpaceReflections: u1,
    bContactShadows: u1,
    bUseTranslucencyVertexFog: u1,
    bComputeFogPerPixel: u1,
    bOutputTranslucentVelocity: u1,
    bEnableSeparateTranslucency: u1,
    bEnableResponsiveAA: u1,
    bEnableMobileSeparateTranslucency: u1,
    bDisableDepthTest: u1,
    bWriteOnlyAlpha: u1,
    AllowTranslucentCustomDepthWrites: u1,
    bUseFullPrecision: u1,
    bUseLightmapDirectionality: u1,
    bUseHQForwardReflections: u1,
    bUsePlanarForwardReflections: u1)

  datatype MaterialInstanceDataSet = MaterialInstanceDataSet(
    Name: string,
    AssetPath: string,
    ParentName: string,
    UniqueId: u32,
    NumRefs: u32,
    ParentIndex: i32,
    UsedTexturesIndices: seq<i32>)

  datatype TextureDataSet = TextureDataSet(
    Name: string,
    AssetPath: string,
    Type: string,
    CurrentSize: string,
    PixelFormat: string,
    SourceSize: string,
    SourceFormat: string,
    UniqueId: u32,
    NumRefs: u32,
    LODBias: i32,
    CurrentKB: Float,
    FullyLoadedKB: Float,
    PVRTC2: Float,
    PVRTC4: Float,
    ASTC_4x4: Float,
    ASTC_6x6: Float,
    ASTC_8x8: Float,
    ASTC_10x10: Float,
    ASTC_12x12: Float,
    CurrentSizeX: u16,
    CurrentSizeY: u16,
    SourceSizeX: u16,
    SourceSizeY: u16,
    NumResidentMips: u8,
    NumMipsAllowed: u8,
    CurrentMips: u8,
    CompressionNoAlpha: u1)

  /** The collections of one LOD. */
  datatype FSceneDataSet = FSceneDataSet(
    StaticMeshesTable: seq<StaticMeshDataSet>,
    SkeletalMeshesTable: seq<SkeletalMeshDataSet>,
    LandscapesTable: seq<LandscapeDataSet>,
    PrimitiveTransforms: seq<Matrix4>,
    BoundsTable: seq<BoxSphereBounds>,
    MaterialsTable: seq<MaterialDataSet>,
    MaterialInstancesTable: seq<MaterialInstanceDataSet>,
    TexturesTable: seq<TextureDataSet>,
    LightMapsAndShadowMaps: seq<TextureDataSet>)

  /** A default-constructed FSceneDataSet: every collection empty. */
  const EmptyDataSet := FSceneDataSet([], [], [], [], [], [], [], [], [])

  // ---------------------------------------------------------------------
  // operator== of the material, material-instance and texture records

  predicate MaterialEquals(a: MaterialDataSet, b: MaterialDataSet)
  {
    a.UniqueId == b.UniqueId
  }

  predicate MaterialInstanceEquals(a: MaterialInstanceDataSet, b: MaterialInstanceDataSet)
  {
    a.UniqueId == b.UniqueId
  }

  predicate TextureEquals(a: TextureDataSet, b: TextureDataSet)
  {
    a.UniqueId == b.UniqueId
  }

  /** Material equality is an equivalence relation that is coarser than
      structural equality: no field but `UniqueId` is compared. */
  lemma MaterialEqualsIsIdEquivalence(a: MaterialDataSet, b: MaterialDataSet, c: MaterialDataSet)
    ensures MaterialEquals(a, a)
    ensures MaterialEquals(a, b) ==> MaterialEquals(b, a)
    ensures MaterialEquals(a, b) && MaterialEquals(b, c) ==> MaterialEquals(a, c)
    ensures MaterialEquals(a, b) <==> a.(UniqueId := b.UniqueId) == a
    ensures a != b && a.UniqueId == b.UniqueId ==> MaterialEquals(a, b)
  {
  }

  /** The same for material instances. */
  lemma MaterialInstanceEqualsIsIdEquivalence(a: MaterialInstanceDataSet, b: MaterialInstanceDataSet, c: MaterialInstanceDataSet)
    ensures MaterialInstanceEquals(a, a)
    ensures MaterialInstanceEquals(a, b) ==> MaterialInstanceEquals(b, a)
    ensures MaterialInstanceEquals(a, b) && MaterialInstanceEquals(b, c) ==> MaterialInstanceEquals(a, c)
    ensures MaterialInstanceEquals(a, b) <==> a.(UniqueId := b.UniqueId) == a
    ensures a != b && a.UniqueId == b.UniqueId ==> MaterialInstanceEquals(a, b)
  {
  }

  /** The same for textures (also used for light maps and shadow maps). */
  lemma TextureEqualsIsIdEquivalence(a: TextureDataSet, b: TextureDataSet, c: TextureDataSet)
    ensures TextureEquals(a, a)
    ensures TextureEquals(a, b) ==> TextureEquals(b, a)
    ensures TextureEquals(a, b) && TextureEquals(b, c) ==> TextureEquals(a, c)
    ensures TextureEquals(a, b) <==> a.(UniqueId := b.UniqueId) == a
    ensures a != b && a.UniqueId == b.UniqueId ==> TextureEquals(a, b)
  {
  }
}
