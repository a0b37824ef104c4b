# FSceneDataImporter in Dafny

This project models the Unreal Engine scene-export importer of the DirectX
viewer and the parts of the application that consume its result.

An Unreal export is a directory of CSV files: one file per table kind and
level of detail (`<Scene>_StaticMeshesTable_LOD0.csv`, ...), plus one
`LightMapsAndShadowMaps` table. `FSceneDataImporter::FillDataSets` does the
following:

- derives the scene's file prefix from the directory path;
- counts the LOD slots from the `_LOD<digit>` markers in the file names;
- reads every file into a table keyed by its name, without the header line;
- splits every non-empty line into columns, honouring quoted items;
- in `_FillDataSets`, runs one block per table kind for every LOD. The block
  reads each row column by column into a record variable it reuses and
  appends the record to that LOD's `FSceneDataSet`.

The application then does three things with the result:

- `Update` polls the dirty flag once the importer's lock reads true. The import
  thread sets the lock to true after `FillDataSets` and `SetDataDirtyFlag(true)`
  (AppGUI.cpp:299-311), so a true lock means the import has finished;
- `BuildFSceneRenderItems` merges one coloured box per bounds index of every
  static mesh into a single render item;
- `CheckInBlockAreas` hit-tests the GUI's block areas.

Modules, one per source unit:

| module | file | models |
|---|---|---|
| `TypeDef` | type_def.dfy | the integer types of Common/TypeDef.h and the truncating casts `(uint8)`, `(uint16)`, `(bool)` and `uint32` addition |
| `Wrappers` | wrappers.dfy | `Option` |
| `WString` | wstring.dfy | the `std::wstring` operations the importer uses: `find`, `rfind`, `find_first_of`, `erase`, indexing, `std::to_wstring` |
| `StringManager` | string_manager.dfy | the text-to-number helpers of StringManager.h, passed in as a value |
| `AppData` | app_data.dfy | the records of AppData.h, `FBoxSphereBounds` and the id-based `operator==` |
| `SceneSchema` | scene_schema.dfy | the field-by-field fill of one row (`safe_index` / `numeric_safe_index` / `array_safe_index`) per record kind |
| `SceneFiles` | scene_files.dfy | the prefix, the LOD count, the table keys, the file loop and the tokenizer of `FillDataSets` |
| `SceneImporter` | scene_importer.dfy | the `FSceneDataImporter` class and `_FillDataSets` |
| `AppUtil` | app_util.dfy | `CalcConstantBufferByteSize` |
| `GeometryManager` | geometry_manager.dfy | `ColorVertex`, `MeshData::GetIndices16`, the `RenderItem` id counter |
| `AppEntry` | app_entry.dfy | `CheckInBlockAreas`, `BuildFSceneRenderItems` and the importer branch of `Update` |

How the source's features appear in the model:

- **Row fill.** Each record is seen through a schema, the sequence of the
  field kinds its block reads, and is held as a sequence of cells.
  - The `while (true)` body with its `index` variable is the method
    `SceneSchema.FillPass`, specified by the recursive function
    `SceneSchema.FillFrom`.
  - Per record kind, `<Kind>ToCells` and `<Kind>FromCells` map records to and
    from cells. The `Fill<Kind>FieldsN` lemmas state, for every field, which
    column it comes from and how that column is converted.
- **Reused record variables.** The record variables that `_FillDataSets`
  declares once and reuses are the `Scratch` value threaded through every
  row, block and LOD.
  - A row shorter than its record leaves the remaining fields as the
    previous row (or the previous LOD) left them.
  - Their values before the first assignment are the parameter `init`.
- **The importer object.** `FSceneDataImporter` is a class whose
  `perLODDataSets` and `dirty` fields its methods update.
  - `FillDataSets` is proved equal to the function `ImportedSets`.
  - The lemmas about `FillLods`, `ImportedSetShape`, `BlockReadsExportedFile`
    and `BlockWithoutFileReadsNothing` say what that function holds.

What the code does at its edges, and how the model treats it:

- **Transforms.** The code never stores the matrix it reads from a
  `PrimitiveTransforms` row (see Findings). `FillDataSets` is modelled with
  the corrected transform fill, `FillTransform`. The code as written is
  `RowFillerAsWritten`, and `AsWrittenTransformsAreInitial` proves that under
  it every stored matrix is the value the matrix variable held before the
  first row. `FillFromTables` is proved for any row fill, so it covers both.
- **Rows that do not fit.** A row with more columns than its block reads
  never leaves the `while (true)` loop. A row with a single column is indexed
  past its end. `FillDataSets` requires that every row fits its block
  (`TablesFit`, `RowFits`).
- **Files.** `table.erase(table.begin())` is undefined behaviour on the empty
  line list of a file that could not be opened. `table_name.erase(found, ..)`
  throws `std::out_of_range` when a name lacks the prefix or `.csv`.
  `FillDataSets` requires that every listed file has at least one line and
  both parts of its name (`FilesReadable`, `KeyDefined`).
- **The dirty flag.** `FillDataSets` does not touch the flag; the import
  thread raises it afterwards (AppGUI.cpp:308-309). The model proves that
  `FillDataSets` keeps `dirty`.
- **Indices between tables.** No code checks them: `BuildFSceneRenderItems`
  indexes `BoundsTable` with every bounds index unchecked. It requires that
  every bounds index is valid (`BoxesValid`).

## Model

| member | source | states |
|---|---|---|
| TypeDef.ToUInt8 | UnrealEngine/FSceneDataImporter.cpp:307-318 | `(uint8)` of a `uint16` is the value modulo 256, and the value itself below 256 |
| TypeDef.ToUInt16 | Common/GeometryManager.h:243 | `static_cast<uint16>` of a `uint32` is the value modulo 65536, and the value itself below 65536 |
| TypeDef.ToBitField | AppData.h:241-261 | storing a `uint8` into a one-bit field keeps its lowest bit: the bit is 1 exactly when the value is odd |
| TypeDef.AddUInt32 | AppUtil.h:106 | `uint32` addition: the exact sum when it fits, the sum minus 2^32 when it overflows |
| WString.Find | UnrealEngine/FSceneDataImporter.cpp:23 | `find(pat, from)` returns the first position at or after `from` where `pat` occurs, or none when it occurs nowhere from there |
| WString.FindLastAtOrBefore | UnrealEngine/FSceneDataImporter.cpp:57 | the last occurrence of `pat` at or before `k`, or none when there is none |
| WString.RFind | UnrealEngine/FSceneDataImporter.cpp:17 | `rfind(pat)` returns the last position where `pat` occurs, or none when it does not occur |
| WString.FindFirstOf | UnrealEngine/FSceneDataImporter.cpp:107 | `find_first_of(chars, from)` returns the first position at or after `from` holding one of `chars`, or none |
| WString.Erase | UnrealEngine/FSceneDataImporter.cpp:25 | `erase(pos, len)` keeps the text before `pos` and removes `len` characters, or everything after `pos` when fewer remain |
| WString.CharAt | UnrealEngine/FSceneDataImporter.cpp:59 | `s[i]` is the i-th character, and the terminating `'\0'` at `i == size()` |
| WString.DigitChar | UnrealEngine/FSceneDataImporter.cpp:156 | a decimal digit's character is `'0'` plus the digit |
| WString.NatToString | UnrealEngine/FSceneDataImporter.cpp:156 | `std::to_wstring` of a LOD index is a non-empty string of decimal digits |
| WString.Count | UnrealEngine/FSceneDataImporter.cpp:105-123 | the number of occurrences of a character is at most the length |
| WString.CountZeroIffAbsent | UnrealEngine/FSceneDataImporter.cpp:105-123 | no occurrence is counted exactly when the character does not occur |
| AppData.MakeBoxSphereBounds | AppData.h:134-141 | the three-argument constructor keeps origin, extent and radius and derives box and sphere from them |
| AppData.RecomputeDerived | UnrealEngine/FSceneDataImporter.cpp:272-276 | recomputing box and sphere gives a derived bounds with the same origin, extent and radius |
| AppData.RecomputeIsConstructor | UnrealEngine/FSceneDataImporter.cpp:272-276 | the importer's recomputation is the three-argument constructor on the bounds' primitives, and a derived bounds is left unchanged |
| AppData.MaterialEqualsIsIdEquivalence | AppData.h:264-269 | `operator==` of materials is an equivalence that holds exactly when the unique ids are equal: records with the same id compare equal however else they differ |
| AppData.MaterialInstanceEqualsIsIdEquivalence | AppData.h:287-292 | `operator==` of material instances is an equivalence on the unique id: records with the same id compare equal however else they differ |
| AppData.TextureEqualsIsIdEquivalence | AppData.h:335-340 | `operator==` of textures is an equivalence on the unique id: records with the same id compare equal however else they differ |
| AppUtil.ClearLowByte | AppUtil.h:106 | `& ~255` gives the largest multiple of 256 not above the value |
| AppUtil.CalcConstantBufferByteSize | AppUtil.h:93-107 | the size is always a multiple of 256 |
| AppUtil.RoundsUp | AppUtil.h:93-107 | without wrap-around, the size is the least multiple of 256 at least the requested size |
| AppUtil.ThreeHundredBytes | AppUtil.h:99-105 | a request of 300 bytes gives 512 |
| AppUtil.RoundingIsIdempotent | AppUtil.h:93-107 | rounding an already rounded size gives it back |
| AppUtil.WrapsToZero | AppUtil.h:106 | a request above 0xFFFFFF00 wraps in the 32-bit sum and gives 0 |
| GeometryManager.Narrowed | Common/GeometryManager.h:243 | narrowing keeps the number of indices and takes each one modulo 2^16 |
| GeometryManager.NarrowingKeepsSmallIndices | Common/GeometryManager.h:237-247 | indices below 2^16 are unchanged by the narrowing |
| GeometryManager.MeshData.constructor | Common/GeometryManager.h:232-251 | a mesh starts with its vertices and 32-bit indices and an empty 16-bit cache |
| GeometryManager.MeshData.GetIndices16 | Common/GeometryManager.h:237-247 | an empty cache is filled with the narrowed 32-bit indices; a filled one is returned unchanged; vertices and indices are untouched |
| GeometryManager.ObjectCounter.constructor | Common/GeometryManager.h:107 | the object count starts at zero |
| GeometryManager.NewRenderItem | Common/GeometryManager.h:104 | a new render item takes the current object count as its constant-buffer index and the count goes up by one; every other field has its default |
| SceneSchema.Convert | UnrealEngine/FSceneDataImporter.cpp:135-138 | a converted column has the kind that was asked for; a bit field keeps the parsed `uint16`'s lowest bit and a byte its low eight bits |
| SceneSchema.FillFrom | UnrealEngine/FSceneDataImporter.cpp:135-138 | one pass from column `index` keeps the record's length |
| SceneSchema.FillFromFacts | UnrealEngine/FSceneDataImporter.cpp:135-138 | a pass breaks exactly when the row has no more columns than the record has fields plus one; field j takes column j+1 when the row has it and keeps its value otherwise |
| SceneSchema.FillPass | UnrealEngine/FSceneDataImporter.cpp:161-177 | the `while (true)` body with its `index` variable computes `FillFrom` from column 1, and it breaks exactly when the row has at most one column more than the record has fields |
| SceneSchema.Fill | UnrealEngine/FSceneDataImporter.cpp:161-177 | the record after one row keeps its length |
| SceneSchema.FillFields | UnrealEngine/FSceneDataImporter.cpp:161-177 | fields 0 .. n-2 take columns 1 .. n-1 converted to their kinds; every later field keeps the reused record's value |
| SceneSchema.FillAt | UnrealEngine/FSceneDataImporter.cpp:161-177 | the same, for one field |
| SceneSchema.FillWellTyped | UnrealEngine/FSceneDataImporter.cpp:161-177 | a well-typed record stays well typed |
| SceneSchema.FillIgnoresId | UnrealEngine/FSceneDataImporter.cpp:163 | `index = 1`: column 0, the row id, never influences the record |
| SceneSchema.BoundsToCells | AppData.h:108-142 | the bounds read from a row are well typed: seven floats |
| SceneSchema.BoundsCellsRoundTrip | AppData.h:108-142 | reading bounds back from their own cells gives the bounds |
| SceneSchema.FillBoundsFields | UnrealEngine/FSceneDataImporter.cpp:253-279 | a bounds row gives derived bounds; origin, extent and radius take columns 1-7 as floats where the row has them and keep the previous values otherwise |
| SceneSchema.MatrixToCells | UnrealEngine/FSceneDataImporter.cpp:221-239 | a matrix is held as sixteen well-typed float cells |
| SceneSchema.TransformRowNeverStored | UnrealEngine/FSceneDataImporter.cpp:212-249 | as written, a transform row's pass breaks exactly when the row has at most 17 columns, and then the matrix variable is unchanged |
| SceneSchema.FillTransformFields | UnrealEngine/FSceneDataImporter.cpp:221-245 | corrected: a complete 17-column row gives the matrix whose rows are columns 1-4, 5-8, 9-12 and 13-16; a shorter row leaves the matrix unchanged |
| SceneSchema.TransformAsWrittenDiffers | UnrealEngine/FSceneDataImporter.cpp:241-245 | for a complete row whose matrix differs from the previous one, the code as written and the corrected fill give different matrices |
| SceneSchema.FillStaticMeshFields1 | UnrealEngine/FSceneDataImporter.cpp:164-165 | `Name` takes column 1 as text; `OwnerName` takes column 2 as text; a field whose column the row lacks keeps the reused record's value |
| SceneSchema.FillStaticMeshFields2 | UnrealEngine/FSceneDataImporter.cpp:166-167 | `NumVertices` takes column 3 read as uint32; `NumTriangles` takes column 4 read as uint32; a field whose column the row lacks keeps the reused record's value |
| SceneSchema.FillStaticMeshFields3 | UnrealEngine/FSceneDataImporter.cpp:168-169 | `NumInstances` takes column 5 read as uint32; `NumLODs` takes column 6 read as uint16; a field whose column the row lacks keeps the reused record's value |
| SceneSchema.FillStaticMeshFields4 | UnrealEngine/FSceneDataImporter.cpp:170-171 | `CurrentLOD` takes column 7 read as uint16; `AssetPath` takes column 8 as text; a field whose column the row lacks keeps the reused record's value |
| SceneSchema.FillStaticMeshFields5 | UnrealEngine/FSceneDataImporter.cpp:172-173 | `UniqueId` takes column 9 read as uint32; `BoundsIndices` takes column 10 read as an int32 list; a field whose column the row lacks keeps the reused record's value |
| SceneSchema.FillStaticMeshFields6 | UnrealEngine/FSceneDataImporter.cpp:174-175 | `TransformsIndices` takes column 11 read as an int32 list; `UsedMaterialsIndices` takes column 12 read as an int32 list; a field whose column the row lacks keeps the reused record's value |
| SceneSchema.FillStaticMeshFields7 | UnrealEngine/FSceneDataImporter.cpp:176 | `UsedMaterialIntancesIndices` takes column 13 read as an int32 list; a field whose column the row lacks keeps the reused record's value |
| SceneSchema.FillSkeletalMeshFields1 | UnrealEngine/FSceneDataImporter.cpp:192-193 | `Name` takes column 1 as text; `OwnerName` takes column 2 as text; a field whose column the row lacks keeps the reused record's value |
| SceneSchema.FillSkeletalMeshFields2 | UnrealEngine/FSceneDataImporter.cpp:194-195 | `NumVertices` takes column 3 read as uint32; `NumTriangles` takes column 4 read as uint32; a field whose column the row lacks keeps the reused record's value |
| SceneSchema.FillSkeletalMeshFields3 | UnrealEngine/FSceneDataImporter.cpp:196-197 | `NumSections` takes column 5 read as uint32; `NumLODs` takes column 6 read as uint16; a field whose column the row lacks keeps the reused record's value |
| SceneSchema.FillSkeletalMeshFields4 | UnrealEngine/FSceneDataImporter.cpp:198-199 | `CurrentLOD` takes column 7 read as uint16; `AssetPath` takes column 8 as text; a field whose column the row lacks keeps the reused record's value |
| SceneSchema.FillSkeletalMeshFields5 | UnrealEngine/FSceneDataImporter.cpp:200-201 | `UniqueId` takes column 9 read as uint32; `BoundsIndex` takes column 10 read as an int32 list, first element; a field whose column the row lacks keeps the reused record's value |
| SceneSchema.FillSkeletalMeshFields6 | UnrealEngine/FSceneDataImporter.cpp:202-203 | `TransformsIndex` takes column 11 read as an int32 list, first element; `UsedMaterialsIndices` takes column 12 read as an int32 list; a field whose column the row lacks keeps the reused record's value |
| SceneSchema.FillSkeletalMeshFields7 | UnrealEngine/FSceneDataImporter.cpp:204 | `UsedMaterialIntancesIndices` takes column 13 read as an int32 list; a field whose column the row lacks keeps the reused record's value |
| SceneSchema.FillMaterialFields1 | UnrealEngine/FSceneDataImporter.cpp:291-292 | `Name` takes column 1 as text; `NumInstances` takes column 2 read as uint32; a field whose column the row lacks keeps the reused record's value |
| SceneSchema.FillMaterialFields2 | UnrealEngine/FSceneDataImporter.cpp:293-294 | `NumRefs` takes column 3 read as uint32; `BPSCount` takes column 4 read as int32; a field whose column the row lacks keeps the reused record's value |
| SceneSchema.FillMaterialFields3 | UnrealEngine/FSceneDataImporter.cpp:295-296 | `BPSSurfaceLightmap` takes column 5 read as int32; `BPSVolumetricLightmap` takes column 6 read as int32; a field whose column the row lacks keeps the reused record's value |
| SceneSchema.FillMaterialFields4 | UnrealEngine/FSceneDataImporter.cpp:297-298 | `BPSVertex` takes column 7 read as int32; `TexSamplers` takes column 8 as text; a field whose column the row lacks keeps the reused record's value |
| SceneSchema.FillMaterialFields5 | UnrealEngine/FSceneDataImporter.cpp:299-300 | `UserInterpolators` takes column 9 as text; `TexLookups` takes column 10 as text; a field whose column the row lacks keeps the reused record's value |
| SceneSchema.FillMaterialFields6 | UnrealEngine/FSceneDataImporter.cpp:301-302 | `VTLookups` takes column 11 as text; `ShaderErrors` takes column 12 as text; a field whose column the row lacks keeps the reused record's value |
| SceneSchema.FillMaterialFields7 | UnrealEngine/FSceneDataImporter.cpp:303-304 | `MaterialDomain` takes column 13 as text; `BlendMode` takes column 14 as text; a field whose column the row lacks keeps the reused record's value |
| SceneSchema.FillMaterialFields8 | UnrealEngine/FSceneDataImporter.cpp:305-306 | `DecalBlendMode` takes column 15 as text; `ShadingModel` takes column 16 as text; a field whose column the row lacks keeps the reused record's value |
| SceneSchema.FillMaterialFields9 | UnrealEngine/FSceneDataImporter.cpp:307-308 | `TwoSided` takes column 17 read as uint16, mod 2; `bCastRayTracedShadows` takes column 18 read as uint16, mod 2; a field whose column the row lacks keeps the reused record's value |
| SceneSchema.FillMaterialFields10 | UnrealEngine/FSceneDataImporter.cpp:309-310 | `bScreenSpaceReflections` takes column 19 read as uint16, mod 2; `bContactShadows` takes column 20 read as uint16, mod 2; a field whose column the row lacks keeps the reused record's value |
| SceneSchema.FillMaterialFields11 | UnrealEngine/FSceneDataImporter.cpp:311-312 | `TranslucencyLightingMode` takes column 21 as text; `TranslucencyDirectionalLightingIntensity` takes column 22 read as float; a field whose column the row lacks keeps the reused record's value |
| SceneSchema.FillMaterialFields12 | UnrealEngine/FSceneDataImporter.cpp:313-314 | `bUseTranslucencyVertexFog` takes column 23 read as uint16, mod 2; `bComputeFogPerPixel` takes column 24 read as uint16, mod 2; a field whose column the row lacks keeps the reused record's value |
| SceneSchema.FillMaterialFields13 | UnrealEngine/FSceneDataImporter.cpp:315-316 | `bOutputTranslucentVelocity` takes column 25 read as uint16, mod 2; `bEnableSeparateTranslucency` takes column 26 read as uint16, mod 2; a field whose column the row lacks keeps the reused record's value |
| SceneSchema.FillMaterialFields14 | UnrealEngine/FSceneDataImporter.cpp:317-318 | `bEnableResponsiveAA` takes column 27 read as uint16, mod 2; `bEnableMobileSeparateTranslucency` takes column 28 read as uint16, mod 2; a field whose column the row lacks keeps the reused record's value |
| SceneSchema.FillMaterialFields15 | UnrealEngine/FSceneDataImporter.cpp:319-320 | `bDisableDepthTest` takes column 29 read as uint16, mod 2; `bWriteOnlyAlpha` takes column 30 read as uint16, mod 2; a field whose column the row lacks keeps the reused record's value |
| SceneSchema.FillMaterialFields16 | UnrealEngine/FSceneDataImporter.cpp:321-322 | `AllowTranslucentCustomDepthWrites` takes column 31 read as uint16, mod 2; `bUseFullPrecision` takes column 32 read as uint16, mod 2; a field whose column the row lacks keeps the reused record's value |
| SceneSchema.FillMaterialFields17 | UnrealEngine/FSceneDataImporter.cpp:323-324 | `bUseLightmapDirectionality` takes column 33 read as uint16, mod 2; `bUseHQForwardReflections` takes column 34 read as uint16, mod 2; a field whose column the row lacks keeps the reused record's value |
| SceneSchema.FillMaterialFields18 | UnrealEngine/FSceneDataImporter.cpp:325-326 | `bUsePlanarForwardReflections` takes column 35 read as uint16, mod 2; `AssetPath` takes column 36 as text; a field whose column the row lacks keeps the reused record's value |
| SceneSchema.FillMaterialFields19 | UnrealEngine/FSceneDataImporter.cpp:327-328 | `UniqueId` takes column 37 read as uint32; `UsedTexturesIndices` takes column 38 read as an int32 list; a field whose column the row lacks keeps the reused record's value |
| SceneSchema.FillMaterialFields20 | UnrealEngine/FSceneDataImporter.cpp:329 | `MatInsIndices` takes column 39 read as an int32 list; a field whose column the row lacks keeps the reused record's value |
| SceneSchema.FillMaterialInstanceFields1 | UnrealEngine/FSceneDataImporter.cpp:345-346 | `Name` takes column 1 as text; `NumRefs` takes column 2 read as uint32; a field whose column the row lacks keeps the reused record's value |
| SceneSchema.FillMaterialInstanceFields2 | UnrealEngine/FSceneDataImporter.cpp:347-348 | `ParentName` takes column 3 as text; `ParentIndex` takes column 4 read as int32; a field whose column the row lacks keeps the reused record's value |
| SceneSchema.FillMaterialInstanceFields3 | UnrealEngine/FSceneDataImporter.cpp:349-350 | `AssetPath` takes column 5 as text; `UniqueId` takes column 6 read as uint32; a field whose column the row lacks keeps the reused record's value |
| SceneSchema.FillMaterialInstanceFields4 | UnrealEngine/FSceneDataImporter.cpp:351 | `UsedTexturesIndices` takes column 7 read as an int32 list; a field whose column the row lacks keeps the reused record's value |
| SceneSchema.FillTextureFields1 | UnrealEngine/FSceneDataImporter.cpp:367-368 | `Name` takes column 1 as text; `Type` takes column 2 as text; a field whose column the row lacks keeps the reused record's value (the light maps block, lines 410-436, reads the same columns) |
| SceneSchema.FillTextureFields2 | UnrealEngine/FSceneDataImporter.cpp:369-370 | `NumRefs` takes column 3 read as uint32; `CurrentSize` takes column 4 as text; a field whose column the row lacks keeps the reused record's value (the light maps block, lines 410-436, reads the same columns) |
| SceneSchema.FillTextureFields3 | UnrealEngine/FSceneDataImporter.cpp:371-372 | `PixelFormat` takes column 5 as text; `CurrentKB` takes column 6 read as float; a field whose column the row lacks keeps the reused record's value (the light maps block, lines 410-436, reads the same columns) |
| SceneSchema.FillTextureFields4 | UnrealEngine/FSceneDataImporter.cpp:373-374 | `FullyLoadedKB` takes column 7 read as float; `PVRTC2` takes column 8 read as float; a field whose column the row lacks keeps the reused record's value (the light maps block, lines 410-436, reads the same columns) |
| SceneSchema.FillTextureFields5 | UnrealEngine/FSceneDataImporter.cpp:375-376 | `PVRTC4` takes column 9 read as float; `ASTC_4x4` takes column 10 read as float; a field whose column the row lacks keeps the reused record's value (the light maps block, lines 410-436, reads the same columns) |
| SceneSchema.FillTextureFields6 | UnrealEngine/FSceneDataImporter.cpp:377-378 | `ASTC_6x6` takes column 11 read as float; `ASTC_8x8` takes column 12 read as float; a field whose column the row lacks keeps the reused record's value (the light maps block, lines 410-436, reads the same columns) |
| SceneSchema.FillTextureFields7 | UnrealEngine/FSceneDataImporter.cpp:379-380 | `ASTC_10x10` takes column 13 read as float; `ASTC_12x12` takes column 14 read as float; a field whose column the row lacks keeps the reused record's value (the light maps block, lines 410-436, reads the same columns) |
| SceneSchema.FillTextureFields8 | UnrealEngine/FSceneDataImporter.cpp:381-382 | `SourceSize` takes column 15 as text; `SourceFormat` takes column 16 as text; a field whose column the row lacks keeps the reused record's value (the light maps block, lines 410-436, reads the same columns) |
| SceneSchema.FillTextureFields9 | UnrealEngine/FSceneDataImporter.cpp:383-384 | `CompressionNoAlpha` takes column 17 read as uint16, mod 2; `LODBias` takes column 18 read as int32; a field whose column the row lacks keeps the reused record's value (the light maps block, lines 410-436, reads the same columns) |
| SceneSchema.FillTextureFields10 | UnrealEngine/FSceneDataImporter.cpp:385-386 | `NumResidentMips` takes column 19 read as uint16, mod 256; `NumMipsAllowed` takes column 20 read as uint16, mod 256; a field whose column the row lacks keeps the reused record's value (the light maps block, lines 410-436, reads the same columns) |
| SceneSchema.FillTextureFields11 | UnrealEngine/FSceneDataImporter.cpp:387-388 | `CurrentMips` takes column 21 read as uint16, mod 256; `CurrentSizeX` takes column 22 read as uint16; a field whose column the row lacks keeps the reused record's value (the light maps block, lines 410-436, reads the same columns) |
| SceneSchema.FillTextureFields12 | UnrealEngine/FSceneDataImporter.cpp:389-390 | `CurrentSizeY` takes column 23 read as uint16; `SourceSizeX` takes column 24 read as uint16; a field whose column the row lacks keeps the reused record's value (the light maps block, lines 410-436, reads the same columns) |
| SceneSchema.FillTextureFields13 | UnrealEngine/FSceneDataImporter.cpp:391-392 | `SourceSizeY` takes column 25 read as uint16; `AssetPath` takes column 26 as text; a field whose column the row lacks keeps the reused record's value (the light maps block, lines 410-436, reads the same columns) |
| SceneSchema.FillTextureFields14 | UnrealEngine/FSceneDataImporter.cpp:393 | `UniqueId` takes column 27 read as uint32; a field whose column the row lacks keeps the reused record's value (the light maps block, lines 410-436, reads the same columns) |
| SceneSchema.StaticMeshSchema | UnrealEngine/FSceneDataImporter.cpp:164-176 | the block reads 13 columns after the id, one field kind per macro, in the order of the macros |
| SceneSchema.StaticMeshToCells | AppData.h:156-176 | a `StaticMeshDataSet` has one cell per field the block assigns: 13 |
| SceneSchema.StaticMeshCellsWellTyped | AppData.h:156-176 | each cell of a record has the kind its column is read as |
| SceneSchema.StaticMeshCellsRoundTrip | AppData.h:156-176 | reading the record back from its own cells gives the record: the cells represent every assigned field |
| SceneSchema.SkeletalMeshSchema | UnrealEngine/FSceneDataImporter.cpp:192-204 | the block reads 13 columns after the id, one field kind per macro, in the order of the macros |
| SceneSchema.SkeletalMeshToCells | AppData.h:178-198 | a `SkeletalMeshDataSet` has one cell per field the block assigns: 13 |
| SceneSchema.SkeletalMeshCellsWellTyped | AppData.h:178-198 | each cell of a record has the kind its column is read as |
| SceneSchema.SkeletalMeshCellsRoundTrip | AppData.h:178-198 | reading the record back from its own cells gives the record: the cells represent every assigned field |
| SceneSchema.MaterialSchema | UnrealEngine/FSceneDataImporter.cpp:291-329 | the block reads 39 columns after the id, one field kind per macro, in the order of the macros |
| SceneSchema.MaterialToCells | AppData.h:206-270 | a `MaterialDataSet` has one cell per field the block assigns: 39 |
| SceneSchema.MaterialCellsWellTyped | AppData.h:206-270 | each cell of a record has the kind its column is read as |
| SceneSchema.MaterialCellsRoundTrip | AppData.h:206-270 | reading the record back from its own cells gives the record: the cells represent every assigned field |
| SceneSchema.MaterialInstanceSchema | UnrealEngine/FSceneDataImporter.cpp:345-351 | the block reads 7 columns after the id, one field kind per macro, in the order of the macros |
| SceneSchema.MaterialInstanceToCells | AppData.h:272-293 | a `MaterialInstanceDataSet` has one cell per field the block assigns: 7 |
| SceneSchema.MaterialInstanceCellsWellTyped | AppData.h:272-293 | each cell of a record has the kind its column is read as |
| SceneSchema.MaterialInstanceCellsRoundTrip | AppData.h:272-293 | reading the record back from its own cells gives the record: the cells represent every assigned field |
| SceneSchema.TextureSchema | UnrealEngine/FSceneDataImporter.cpp:367-393 | the block reads 27 columns after the id, one field kind per macro, in the order of the macros |
| SceneSchema.TextureToCells | AppData.h:295-341 | a `TextureDataSet` has one cell per field the block assigns: 27 |
| SceneSchema.TextureCellsWellTyped | AppData.h:295-341 | each cell of a record has the kind its column is read as |
| SceneSchema.TextureCellsRoundTrip | AppData.h:295-341 | reading the record back from its own cells gives the record: the cells represent every assigned field |
| SceneFiles.AfterLastBackslash | UnrealEngine/FSceneDataImporter.cpp:17-19 | the leaf is a suffix of the path without a backslash, preceded by a backslash when shorter than the path; a path without a backslash is its own leaf |
| SceneFiles.DeleteFirst | UnrealEngine/FSceneDataImporter.cpp:22-25 | without an occurrence the text is unchanged; otherwise the first occurrence of the pattern is cut out and the text around it kept |
| SceneFiles.FilePrefix | UnrealEngine/FSceneDataImporter.cpp:17-27 | the prefix is the path's leaf with its first `World_` removed, followed by `_`; it holds no backslash |
| SceneFiles.TableKey | UnrealEngine/FSceneDataImporter.cpp:87-91 | the key is the file name with the first occurrence of the prefix cut out and then the last `.csv` cut out, so it is shorter by both |
| SceneFiles.TableKeyOfExportName | UnrealEngine/FSceneDataImporter.cpp:87-91 | a file named prefix + name + `.csv` has a key, and it is `name` |
| SceneFiles.MaxLod | UnrealEngine/FSceneDataImporter.cpp:53-60 | `max_lod` starts at 0 and never goes below it |
| SceneFiles.MaxLodIsMaximum | UnrealEngine/FSceneDataImporter.cpp:53-60 | `max_lod` bounds every file's LOD digit, and it is 0 or the digit of some file |
| SceneFiles.CountLodSlots | UnrealEngine/FSceneDataImporter.cpp:52-62 | the loop over the file names computes `MaxLod` + 1 slots |
| SceneFiles.OneSlotWithoutLodFiles | UnrealEngine/FSceneDataImporter.cpp:55-62 | when no file name holds `_LOD`, there is exactly one slot |
| SceneFiles.LodSlotsCoverGaps | UnrealEngine/FSceneDataImporter.cpp:55-62 | files for LODs 0 and 2 give three slots, so LOD 1 gets an empty slot |
| SceneFiles.LodSlotsReadOneDigit | UnrealEngine/FSceneDataImporter.cpp:57-59 | only the one character after the last `_LOD` is read: LOD 12 counts as LOD 1 and gives two slots |
| SceneFiles.LodOfBox | UnrealEngine/FSceneDataImporter.cpp:57-59 | the LOD digit of a name `Box_LOD` + rest is the converted first character of rest |
| SceneFiles.MaxLodOfTwo | UnrealEngine/FSceneDataImporter.cpp:55-60 | two names with digits `da <= db` give `max_lod == db` |
| SceneFiles.MaxLodStep | UnrealEngine/FSceneDataImporter.cpp:55-60 | one more name raises `max_lod` to its digit when that is larger, and leaves it otherwise |
| SceneFiles.MaxLodOfOne | UnrealEngine/FSceneDataImporter.cpp:55-60 | a listing of one name gives its digit when positive and 0 otherwise |
| SceneFiles.LodDigitAt | UnrealEngine/FSceneDataImporter.cpp:57-59 | a name whose last `_LOD` stands at `k` contributes the converted character at `k + 4` (the `'\0'` when `_LOD` ends the name) |
| SceneFiles.Scan | UnrealEngine/FSceneDataImporter.cpp:105-123 | scanning from any position pushes at least one item, the last one |
| SceneFiles.TokenizeRow | UnrealEngine/FSceneDataImporter.cpp:105-125 | the `find_first_of` loop with `last_found` and the final push computes the reference scan `Tokens` of the row |
| SceneFiles.PushedIsScan | UnrealEngine/FSceneDataImporter.cpp:105-123 | the items the loop has accumulated, followed by what it still pushes, are the items so far followed by the reference scan from `last_found` |
| SceneFiles.NextComma | UnrealEngine/FSceneDataImporter.cpp:107-114 | without quotes, the scan either ends with the rest of the row as the last item or pushes the text up to the next comma and continues after it |
| SceneFiles.ScanCount | UnrealEngine/FSceneDataImporter.cpp:105-123 | without quotes, the scan from `last` gives one item more than there are commas from `last` on |
| SceneFiles.ScanJoin | UnrealEngine/FSceneDataImporter.cpp:105-123 | without quotes, joining the items with commas gives back the row from `last` on |
| SceneFiles.ScanItems | UnrealEngine/FSceneDataImporter.cpp:105-123 | without quotes, no item holds a comma |
| SceneFiles.ScanLastItem | UnrealEngine/FSceneDataImporter.cpp:123 | without quotes, the last item is the text after the last comma |
| SceneFiles.TokensWithoutQuotes | UnrealEngine/FSceneDataImporter.cpp:105-125 | a row without quotes splits into one column more than it has commas; the columns joined by commas give the row back, and none holds a comma |
| SceneFiles.IndexListIsOneToken | UnrealEngine/FSceneDataImporter.cpp:107 | a backslash is no delimiter: `0,1\2` gives the columns `0` and `1\2` |
| SceneFiles.TrailingCommaGivesEmptyToken | UnrealEngine/FSceneDataImporter.cpp:123 | a trailing comma gives an empty last column: `7,` gives `7` and the empty text |
| SceneFiles.CollectStep | UnrealEngine/FSceneDataImporter.cpp:92 | storing one more file's table is a map update under its key |
| SceneFiles.CollectKeyOrigin | UnrealEngine/FSceneDataImporter.cpp:67-93 | every key of the stored map is the key of some stored table |
| SceneFiles.CollectHasKey | UnrealEngine/FSceneDataImporter.cpp:67-93 | every stored key is in the map |
| SceneFiles.CollectLastWins | UnrealEngine/FSceneDataImporter.cpp:92 | `g_tables[key] = table` overwrites: the table stored last under a key is the one kept |
| SceneFiles.FileKeys | UnrealEngine/FSceneDataImporter.cpp:87-91 | one key per listed file, each the file's table key |
| SceneFiles.FileBodies | UnrealEngine/FSceneDataImporter.cpp:74-85 | one body per listed file: its lines without the first, the header |
| SceneFiles.RawTablesKeyOrigin | UnrealEngine/FSceneDataImporter.cpp:67-93 | every key of `g_tables` is the table key of some listed file |
| SceneFiles.RawTablesHasKey | UnrealEngine/FSceneDataImporter.cpp:67-93 | every listed file's key is in `g_tables` |
| SceneFiles.RawTablesLastWins | UnrealEngine/FSceneDataImporter.cpp:67-93 | under the key of a file that no later file shares stand that file's lines without its header |
| SceneFiles.ReadTables | UnrealEngine/FSceneDataImporter.cpp:67-93 | the file loop builds `RawTables`: for each file, its lines without the header under its key, later files overwriting earlier ones |
| SceneFiles.ClearRows | UnrealEngine/FSceneDataImporter.cpp:101-126 | a table has at most as many rows as lines |
| SceneFiles.NonEmptyLines | UnrealEngine/FSceneDataImporter.cpp:103-104 | the retained lines are non-empty lines of the table |
| SceneFiles.ClearRowsAreTokens | UnrealEngine/FSceneDataImporter.cpp:101-126 | empty lines are skipped: one row per non-empty line, in order, each the line's tokens |
| SceneFiles.ExtractRows | UnrealEngine/FSceneDataImporter.cpp:100-126 | the row loop of one table computes `ClearRows` |
| SceneFiles.ClearTables | UnrealEngine/FSceneDataImporter.cpp:96-129 | `g_clear_tables` has the same keys as `g_tables` |
| SceneFiles.ExtractTables | UnrealEngine/FSceneDataImporter.cpp:96-129 | the loop over `g_tables` computes `ClearTables`, each table tokenized under its own key whatever the iteration order |
| SceneImporter.LookupKey | UnrealEngine/FSceneDataImporter.cpp:156 | a block looks up `<table>_LOD<i>` with `i` in decimal; the light maps block looks up `LightMapsAndShadowMaps` for every LOD (line 401) |
| SceneImporter.PushGrowsOneTable | UnrealEngine/FSceneDataImporter.cpp:179 | a `push_back` grows its own collection by one and leaves the size of every other collection, and the landscapes, unchanged |
| SceneImporter.PushFrame | UnrealEngine/FSceneDataImporter.cpp:179 | a `push_back` leaves the contents of every other collection unchanged, and what it makes of its own collection depends on that collection alone |
| SceneImporter.FillRecord | UnrealEngine/FSceneDataImporter.cpp:142-437 | one row changes only its own kind's record variable, and a bounds row leaves derived bounds; the transform uses the corrected fill (see Findings) |
| SceneImporter.AsWrittenFillIsTransformPass | UnrealEngine/FSceneDataImporter.cpp:221-248 | as written, a fitting transform row is the sixteen-macro pass that keeps the matrix variable, so it leaves the record variables unchanged |
| SceneImporter.FillRowsKeepsTransform | UnrealEngine/FSceneDataImporter.cpp:212-249 | under a fill that never changes the matrix variable, a table keeps the variable and every matrix it pushes is the incoming value |
| SceneImporter.FillBlocksKeepTransform | UnrealEngine/FSceneDataImporter.cpp:154-440 | the same for the blocks of one LOD over a default-constructed set |
| SceneImporter.CarriedKeepsTransform | UnrealEngine/FSceneDataImporter.cpp:145-154 | the same across LODs: the matrix variable is carried unchanged from LOD to LOD |
| SceneImporter.AsWrittenTransformsAreInitial | UnrealEngine/FSceneDataImporter.cpp:212-249 | as written, LOD i stores one matrix per row of its transform table, and each one is the matrix variable's value before the first row |
| SceneImporter.ImportedSetsAsWritten | UnrealEngine/FSceneDataImporter.cpp:52-62 | the import as written also produces `max_lod + 1` sets |
| SceneImporter.RowFillerOnFittingRows | UnrealEngine/FSceneDataImporter.cpp:159-180 | on rows that fit, the importer's row fill is the kind's record fill |
| SceneImporter.FillRowsCounts | UnrealEngine/FSceneDataImporter.cpp:159-180 | a table appends exactly one record per row to its own collection, none to the others, and never touches the landscapes |
| SceneImporter.FillRowsFrame | UnrealEngine/FSceneDataImporter.cpp:159-180 | a table leaves the contents of every other collection unchanged |
| SceneImporter.FillRowsOwnTable | UnrealEngine/FSceneDataImporter.cpp:159-180 | the records a table stores in its own collection, and the record variables it leaves, depend on no other collection of the set |
| SceneImporter.RowFillerDerivesBounds | UnrealEngine/FSceneDataImporter.cpp:272-276 | every bounds record the importer makes has box and sphere recomputed from its origin, extent and radius |
| SceneImporter.FillRowsKeepsBoundsDerived | UnrealEngine/FSceneDataImporter.cpp:253-279 | filling a table keeps every stored bounds record derived |
| SceneImporter.RowsThreadStaticMesh | UnrealEngine/FSceneDataImporter.cpp:142-180 | the reused record variable is threaded through a table: the k-th stored record is the refill of the (k-1)-th stored record (of the incoming variable for k = 0), and the variable afterwards is the last stored record |
| SceneImporter.StaticMeshRowsReuseRecord | UnrealEngine/FSceneDataImporter.cpp:142-180 | for the importer's static meshes: every row fits the static mesh schema, and each stored record is the previous stored record refilled from its row |
| SceneImporter.BlockIndex | UnrealEngine/FSceneDataImporter.cpp:154-440 | every table kind has a block position below eight, and the block there is of that kind |
| SceneImporter.BlockOrderIsPermutation | UnrealEngine/FSceneDataImporter.cpp:154-440 | the block order is a permutation of the kinds: the position of the b-th block's kind is b |
| SceneImporter.FillBlocksShape | UnrealEngine/FSceneDataImporter.cpp:154-440 | after the first b blocks of a LOD, each collection holds one record per row of its table if its block ran, and none otherwise; the landscapes stay empty |
| SceneImporter.FillBlocksContents | UnrealEngine/FSceneDataImporter.cpp:154-440 | once its block has run, a collection holds exactly the records its block pushes from its table over the record variables the earlier blocks left; later blocks leave it alone |
| SceneImporter.FillBlocksDeriveBounds | UnrealEngine/FSceneDataImporter.cpp:253-279 | the bounds records the blocks of a LOD store are all derived |
| SceneImporter.LodShape | UnrealEngine/FSceneDataImporter.cpp:154-440 | each collection of a LOD's set holds one record per row of the table its block looks up; light maps stay empty above LOD 0 (`continue`, line 404); the landscapes stay empty; the bounds are derived |
| SceneImporter.FillLods | UnrealEngine/FSceneDataImporter.cpp:154 | the loop makes one set per slot; set i is LOD i filled over the record variables LODs 0 .. i-1 left behind |
| SceneImporter.FilledSetsAreFillLods | UnrealEngine/FSceneDataImporter.cpp:154 | sets filled LOD by LOD up to their length are the sets of `FillLods` |
| SceneImporter.ImportedSetShape | UnrealEngine/FSceneDataImporter.cpp:154-440 | for every LOD of the import: each collection has one record per row of its table, no light maps above LOD 0, no landscapes, and only derived bounds |
| SceneImporter.ImportedSetContents | UnrealEngine/FSceneDataImporter.cpp:154-440 | for every LOD and kind, the collection is exactly the records its block pushes from the table it looks up, over the record variables carried in from the earlier LODs and blocks |
| SceneImporter.ImportedStaticMeshTable | UnrealEngine/FSceneDataImporter.cpp:154-180 | the static meshes of LOD i are exactly those the first block pushes from `StaticMeshesTable_LOD<i>` over the record variables the earlier LODs left |
| SceneImporter.StaticMeshesFromRows | UnrealEngine/FSceneDataImporter.cpp:159-180 | a static mesh table filled into an empty collection is its rows refilled one by one, the first over the incoming record variable |
| SceneImporter.ImportedStaticMeshes | UnrealEngine/FSceneDataImporter.cpp:142-180 | the k-th static mesh of LOD i is `FillStaticMesh` of row k of `StaticMeshesTable_LOD<i>` over the record stored before it, the first over the record the earlier LODs left; so fields a short row does not reach keep the reused record's values |
| SceneImporter.ImportedSets | UnrealEngine/FSceneDataImporter.cpp:52-62 | the import produces `max_lod + 1` sets |
| SceneImporter.BlockReadsExportedFile | UnrealEngine/FSceneDataImporter.cpp:67-129 | the table a block reads for LOD i is the tokenized non-empty lines, header dropped, of the file `<prefix><table>_LOD<i>.csv` when no later file has the same key |
| SceneImporter.BlockWithoutFileReadsNothing | UnrealEngine/FSceneDataImporter.cpp:156-157 | `clear_tables[key]` of a key no file supplies is an empty table: that block stores nothing |
| SceneImporter.FSceneDataImporter.constructor | UnrealEngine/FSceneDataImporter.h:15-33 | a new importer has no sets and the dirty flag down |
| SceneImporter.FSceneDataImporter.GetLODCount | UnrealEngine/FSceneDataImporter.h:21 | `(int)size()` is the number of sets below 2^31, and turns negative at 2^31 |
| SceneImporter.FSceneDataImporter.GetDataDirtyFlag | UnrealEngine/FSceneDataImporter.h:23 | the getter returns the dirty flag |
| SceneImporter.FSceneDataImporter.SetDataDirtyFlag | UnrealEngine/FSceneDataImporter.h:23-25 | after setting the flag, the getter returns it; the sets are untouched |
| SceneImporter.FSceneDataImporter.GetFSceneData | UnrealEngine/FSceneDataImporter.cpp:445-450 | the unsigned comparison: a set comes back exactly when 0 <= lod < the LOD count, and it is that LOD's set; a negative lod gives none |
| SceneImporter.FSceneDataImporter.FillTable | UnrealEngine/FSceneDataImporter.cpp:159-180 | the row loop of one block replaces set i by `FillRows` of its rows and returns the record variables as they leave it; nothing else changes |
| SceneImporter.FSceneDataImporter.FillBlockOf | UnrealEngine/FSceneDataImporter.cpp:156-181 | one block updates only set i, as `FillBlock` says |
| SceneImporter.FSceneDataImporter.FillLodOf | UnrealEngine/FSceneDataImporter.cpp:155-441 | the eight blocks of one LOD turn its default-constructed set into `FillLod`'s; the other sets are unchanged |
| SceneImporter.FSceneDataImporter.FillFromTables | UnrealEngine/FSceneDataImporter.cpp:140-443 | `_FillDataSets`: over default-constructed sets, the LOD loop produces exactly `FillLods` with the record variables' initial values; the dirty flag is unchanged |
| SceneImporter.FSceneDataImporter.FillDataSets | UnrealEngine/FSceneDataImporter.cpp:13-133 | the sets become exactly `ImportedSets` of the prefix, the listing and the file contents, whatever they were before; the dirty flag is unchanged; the set count fits the importer's invariant, so `GetFSceneData` can be called right away |
| SceneImporter.FSceneDataImporter.ReadAndFill | UnrealEngine/FSceneDataImporter.cpp:15-132 | the body of FillDataSets over a given prefix produces `ImportedSets` and keeps the importer's invariant; the dirty flag is unchanged |
| SceneImporter.FSceneDataImporter.FillNextLod | UnrealEngine/FSceneDataImporter.cpp:154-441 | one turn of the LOD loop: the sets of LODs 0 .. i are those of `FillLods`, the later ones are still default-constructed, and the record variables are those LOD i leaves |
| SceneImporter.FillOneRecord | UnrealEngine/FSceneDataImporter.cpp:161-177 | the `while (true)` fill of one row, for any kind, gives that kind's `FillRecord`, the transform by the corrected fill (see Findings) |
| AppEntry.CheckInBlockAreas | AppEntry.cpp:606-620 | true exactly when some area that is not null contains the point, edges included |
| AppEntry.NullAreasContainNothing | AppEntry.cpp:606-620 | with only null areas no point is inside |
| AppEntry.FarCornerIsInside | AppEntry.cpp:606-620 | an area contains its start and far corners, and not the point one past its right edge |
| AppEntry.MeshBoxes | AppEntry.cpp:513-514 | one box per bounds index of a static mesh, in order, each carrying the mesh's vertex count |
| AppEntry.PlacedBox | AppEntry.cpp:516-523 | the c-th vertex of a placed box sits at the c-th corner of its bounds, with the template's colour |
| AppEntry.OffsetIndices | AppEntry.cpp:524-527 | each index of the box mesh is offset by `boxCount * 8`, in 32-bit unsigned arithmetic |
| AppEntry.BoxColors | AppEntry.cpp:530-534 | one structure buffer entry per box, holding the box's vertex count |
| AppEntry.MergedVerticesSnoc | AppEntry.cpp:516-523 | appending a box appends the placed copy of its bounds |
| AppEntry.MergedVerticesLength | AppEntry.cpp:511-536 | the merged mesh has one template's worth of vertices per box |
| AppEntry.MergedVerticesAt | AppEntry.cpp:516-523 | the c-th vertex of the k-th box sits at the c-th corner of that box's bounds, with the template's colour |
| AppEntry.MergedIndicesLength | AppEntry.cpp:524-527 | the merged mesh has one index list's worth of indices per box |
| AppEntry.MergedIndicesAt | AppEntry.cpp:524-527 | the p-th index of the k-th box is the box mesh's p-th index plus `8 * k`, modulo 2^32 |
| AppEntry.NarrowedMergedIndicesAt | AppEntry.cpp:524-543 | after the 16-bit narrowing, the p-th index of the k-th box is the p-th index plus `8 * k` modulo 2^16 |
| AppEntry.BoxItem | AppEntry.cpp:538-543 | the box item takes the next object id, the buffer offset before the merge, one template's worth of vertices and one index list's worth of indices per box, and is marked changed |
| AppEntry.MarkedChanged | AppEntry.cpp:110-111 | every item is marked as having changed constant-buffer data and is otherwise unchanged |
| AppEntry.AppEntry.constructor | AppEntry.h:108-110 | the application starts with no render items, no opaque layer and no per-box buffer |
| AppEntry.AppEntry.AppendBox | AppEntry.cpp:516-527 | one box appends its placed vertices and its offset indices to the merged mesh and leaves its 16-bit cache alone |
| AppEntry.AppEntry.PushBox | AppEntry.cpp:514-535 | one inner-loop turn: the merged mesh becomes the merge of the boxes so far plus this box, its colour is appended to the buffer and the box count goes up by one |
| AppEntry.AppEntry.AppendMeshBoxes | AppEntry.cpp:513-535 | the inner loop appends every box of one mesh to the merged mesh and their colours to the buffer |
| AppEntry.AppEntry.MergeBoxes | AppEntry.cpp:509-536 | the nested loops build a fresh mesh that is the merge of every box of every static mesh, counted in `boxCount`, and append one colour per box |
| AppEntry.AppEntry.BuildFSceneRenderItems | AppEntry.cpp:506-547 | one render item is added, with the next object id, the merged vertices, the narrowed merged indices and the buffer offset before the merge; the opaque layer gains that item; the buffer gains one entry per box |
| AppEntry.AppEntry.UpdateImporter | AppEntry.cpp:91-115 | with the lock held and the flag up the flag is lowered; if LOD 0 has static meshes the scene's item is built and every item marked changed; otherwise nothing changes; the importer's sets are never touched |
| AppEntry.BoxesOfPrefix | AppEntry.cpp:511-536 | the boxes of the first m+1 meshes are those of the first m followed by mesh m's |
| AppEntry.BoxInAll | AppEntry.cpp:511-536 | every bounds index of every mesh is one of the scene's boxes |

## Left out

- File system: `FileUtil::WGetAllFilesUnder` and `std::wifstream` are not modelled. The directory listing is a sequence of file names, and the files are a map from name to the lines `std::getline` returns.
- The background import thread, the importer lock and `CheckImporterLock` (AppGUI) are not modelled. The lock's state is the parameter `locked` of `UpdateImporter`, which is modelled as one sequential step.
- Direct3D is not modelled: `CreateCommonGeometry`, `ExecuteCommandLists`, `ResizeBuffer`, the `World` scale matrix and `PrimitiveType` of the box item.
- `GeometryCreator::CreateDefaultBox` is not modelled; its vertices and indices are the parameters `template` and `indices`.
- Common/StringManager.h is not part of this model. Its conversions (`WStringToNumeric`, `WStringToArray`, `WCharToInt32`, `WFindFirstBetween`) are function values passed in as `StringUtil`. For `WFindFirstBetween`, the model assumes that the position it reports lies between its start and the end of the row.
- Floating point is not modelled: floats are values of an opaque type. `BoundingBox::GetCorners`, the right- to left-handed flip and the vertex colours are recorded symbolically (`Corner(box, c)`, the vertex count as colour), not computed.
- SceneFiles.MaxLod: `max_lod + 1` is computed as an unbounded integer. In the code it overflows `int32` when a digit converts to 2^31 - 1.
- GeometryManager.NewRenderItem: `ObjectCount` is required to stay below 2^31 - 1, so its `int32` overflow is not modelled.
- AppEntry.CheckInBlockAreas: the area sums `StartPos + BlockSize` are unbounded integers, not `int32`.
- AppEntry.OffsetIndices: `uint32` wrap-around of `index + boxCount * 8` is modelled, but the `int` overflow of `boxCount * 8` itself is not.
- SceneImporter.FSceneDataImporter.FillDataSets: it requires what the code needs to be defined (`ImportDefined`). Every listed file must have at least one line. Every file name must contain the scene prefix and `.csv`; otherwise `erase(npos, ..)` throws `std::out_of_range` (FSceneDataImporter.cpp:88-91). Every row must fit its block; otherwise the code loops forever or indexes past the row. On rows that do not fit, the helper `ReadAndFill` uses a row fill that leaves the record variables unchanged. No claim is made about what the code does there.
- SceneImporter.FSceneDataImporter.FillDataSets: it stores the corrected transform (see Findings). The code as written is stated by `RowFillerAsWritten`, `ImportedSetsAsWritten` and `AsWrittenTransformsAreInitial`, not by this method.
- SceneImporter.FillOneRecord: `ImportedSets` uses the function `FillRecord` for each row, not this method. The method is proved equal to `FillRecord` separately. Like `FillRecord`, it stores the transform of a 17-column row by the corrected fill, `MatrixFromCells`; the code as written breaks after the 16th macro, before the assignment, and stores nothing (cpp:239-245, see Findings).
- WString.NatToString: it states only that `std::to_wstring` gives a non-empty run of decimal digits, not which number they spell.
- GeometryManager.ObjectCounter.constructor: the static `RenderItem::ObjectCount` is assumed to start at 0. Its definition is not part of this model.
- AppEntry.h declares the per-box buffer as `m_perFSceneCPUSBuffer` (line 133), while AppEntry.cpp uses `m_perBoxCPUSBuffer`. The model follows AppEntry.cpp.
- `operator[]` on `clear_tables` inserts an empty entry for a missing key. The map is local to `FillDataSets`, so the model only reads it as an empty table.
- The `LandscapesTable` collection is never filled by the code, and the model proves it stays empty.
- Render layers other than the opaque one, and all of the GUI apart from `CheckInBlockAreas`, are not modelled.

## Findings

| source | as written | input that shows it | evidently intended | confidence | as-written member | corrected member |
|---|---|---|---|---|---|---|
| UnrealEngine/FSceneDataImporter.cpp:241-245 | `PrimitiveTransform = FMatrix(...)` stands inside the `while (true)` after the last `safe_index` break. Every row that ends the loop has at most 17 columns, and such a row breaks out at or before the sixteenth macro, so the assignment never runs. Every pushed transform is the matrix the variable held before the first row. | any 17-column `PrimitiveTransforms_LOD0` row whose column 1 differs from the previous matrix's `r0.x` | once the sixteen values are read, the matrix built from them is stored | not executed | SceneSchema.TransformPassAsWritten, SceneSchema.TransformRowNeverStored, SceneSchema.TransformAsWrittenDiffers, SceneImporter.AsWrittenTransformsAreInitial | SceneSchema.FillTransform, SceneSchema.FillTransformFields |
