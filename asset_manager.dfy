/**
 * `AssetManager` (asset_manager.hpp and asset_manager.cpp): two caches that
 * own every texture and material of the renderer, keyed by file path and by
 * material name, and a teardown that deletes the GPU side of everything.
 *
 * A `Texture` is an abstract handle. Decoding the file and uploading it to the
 * GPU are outside the model: the GL name the upload produced is a parameter
 * (`uploadedId`, 0 when the image could not be decoded), and "loaded" means
 * that name is not 0.
 */
module Assets {
  import opened Wrappers

  /** A GPU texture created from an image file. */
  class Texture {
    const filePath: string
    var textureId: nat

    /** A texture for `filePath`, not yet on the GPU. */
    constructor (filePath: string)
      ensures this.filePath == filePath && textureId == 0
    {
      this.filePath := filePath;
      textureId := 0;
    }

    /**
     * The first bind uploads the decoded image and receives a GL name;
     * `uploadedId` is that name, 0 when there was no image data to upload.
     */
    method Bind(uploadedId: nat)
      modifies this`textureId
      ensures textureId == uploadedId
    {
      textureId := uploadedId;
    }

    /** Releases the GL name; the texture no longer counts as loaded. */
    method Delete()
      modifies this`textureId
      ensures textureId == 0 && !HasBeenLoaded()
    {
      textureId := 0;
    }

    predicate HasBeenLoaded()
      reads this
    {
      textureId != 0
    }
  }

  /** Three texture slots; a new material has all three empty. */
  class Material {
    var albedo: Texture?
    var normal: Texture?
    var roughness: Texture?

    constructor ()
      ensures albedo == null && normal == null && roughness == null
    {
      albedo, normal, roughness := null, null, null;
    }

    /** The textures the material's slots point at. */
    function Slots(): set<Texture>
      reads this
    {
      (if albedo != null then {albedo} else {}) +
      (if normal != null then {normal} else {}) +
      (if roughness != null then {roughness} else {})
    }
  }

  /** The textures the slots of the materials `ms` point at. */
  ghost function SlotTextures(ms: set<Material>): set<Texture>
    reads ms
  {
    set m, x | m in ms && x in m.Slots() :: x
  }

  /** No texture a slot of `m` points at is still on the GPU. */
  ghost predicate SlotsDeleted(m: Material)
    reads m, m.Slots()
  {
    forall x :: x in m.Slots() ==> x.textureId == 0
  }

  /** The per-material step of `FreeAllAssets`: deletes each non-empty slot. */
  method DeleteSlots(m: Material)
    modifies m.Slots()
    ensures SlotsDeleted(m)
  {
    if m.albedo != null {
      m.albedo.Delete();
    }
    if m.normal != null {
      m.normal.Delete();
    }
    if m.roughness != null {
      m.roughness.Delete();
    }
  }

  /** The first loop of `FreeAllAssets`: deletes every texture of the cache `ts`. */
  method DeleteTextures(ts: map<string, Texture>)
    modifies ts.Values
    ensures forall x :: x in ts.Values ==> x.textureId == 0
  {
    var pending := ts.Keys;
    while pending != {}
      invariant pending <= ts.Keys
      invariant forall p :: p in ts && p !in pending ==> ts[p].textureId == 0
      decreases pending
    {
      var p :| p in pending;
      ts[p].Delete();
      pending := pending - {p};
    }
  }

  /**
   * The second loop of `FreeAllAssets`: deletes the slot textures of every
   * material of the cache `ms`; textures of `gone` that were already deleted
   * stay deleted.
   */
  method DeleteMaterialSlots(ms: map<string, Material>, ghost gone: set<Texture>)
    requires forall x :: x in gone ==> x.textureId == 0
    modifies SlotTextures(ms.Values)
    ensures forall x :: x in gone ==> x.textureId == 0
    ensures forall x :: x in SlotTextures(ms.Values) ==> x.textureId == 0
  {
    var names := ms.Keys;
    while names != {}
      invariant names <= ms.Keys
      invariant forall x :: x in gone ==> x.textureId == 0
      invariant forall n :: n in ms && n !in names ==> SlotsDeleted(ms[n])
      decreases names
    {
      var n :| n in names;
      assert ms[n].Slots() <= SlotTextures(ms.Values);
      DeleteSlots(ms[n]);
      names := names - {n};
    }
    forall x | x in SlotTextures(ms.Values)
      ensures x.textureId == 0
    {
      var m :| m in ms.Values && x in m.Slots();
      var n :| n in ms && ms[n] == m;
      assert SlotsDeleted(ms[n]);
    }
  }

  /** The message `LoadTexture` fails with. */
  function LoadError(filePath: string): string {
    "Failed to load texture: " + filePath
  }

  class AssetManager {
    var textures: map<string, Texture>
    var materials: map<string, Material>

    /** Every cached texture sits under the path it was loaded from. */
    predicate Valid()
      reads this
    {
      forall p :: p in textures ==> textures[p].filePath == p
    }

    constructor ()
      ensures textures == map[] && materials == map[] && Valid()
    {
      textures, materials := map[], map[];
    }

    /**
     * Get-or-load. A cached path returns its texture and creates nothing. A
     * miss creates and binds a texture for the path; if it did not load, the
     * call fails (the C++ throws) and the cache is unchanged; otherwise the
     * new texture is cached under the path and returned.
     */
    method LoadTexture(filePath: string, uploadedId: nat) returns (r: Result<Texture>)
      requires Valid()
      modifies this`textures
      ensures Valid()
      ensures filePath in old(textures) ==> r == Ok(old(textures)[filePath]) && textures == old(textures)
      ensures filePath !in old(textures) && uploadedId == 0 ==>
                r == Err(LoadError(filePath)) && textures == old(textures)
      ensures filePath !in old(textures) && uploadedId != 0 ==>
                && r.Ok? && fresh(r.value)
                && r.value.filePath == filePath && r.value.HasBeenLoaded()
                && textures == old(textures)[filePath := r.value]
    {
      if filePath in textures {
        return Ok(textures[filePath]);
      }
      var texture := new Texture(filePath);
      texture.Bind(uploadedId);
      if !texture.HasBeenLoaded() {
        return Err(LoadError(filePath));
      }
      textures := textures[filePath := texture];
      return Ok(texture);
    }

    /**
     * Get-or-create: a known name returns its material; otherwise a new
     * material with empty slots is stored under the name and returned. No
     * other entry changes.
     */
    method CreateMaterial(name: string) returns (m: Material)
      modifies this`materials
      ensures name in old(materials) ==> m == old(materials)[name] && materials == old(materials)
      ensures name !in old(materials) ==>
                && fresh(m) && m.albedo == null && m.normal == null && m.roughness == null
                && materials == old(materials)[name := m]
    {
      if name in materials {
        return materials[name];
      }
      m := new Material();
      materials := materials[name := m];
    }

    /**
     * Deletes every cached texture, then every texture a cached material's
     * slot points at, and empties both caches.
     */
    method FreeAllAssets()
      modifies this`textures, this`materials
      modifies textures.Values, SlotTextures(materials.Values)
      ensures textures == map[] && materials == map[]
      ensures forall x :: x in old(textures).Values ==> x.textureId == 0
      ensures forall x :: x in old(SlotTextures(materials.Values)) ==> x.textureId == 0
    {
      DeleteTextures(textures);
      textures := map[];
      DeleteMaterialSlots(materials, old(textures).Values);
      materials := map[];
    }
  }
}
