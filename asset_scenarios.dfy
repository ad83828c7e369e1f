/**
 * What callers of `AssetManager` can rely on: one texture per path, one
 * material per name, and a teardown that leaves nothing on the GPU.
 */
module AssetScenarios {
  import opened Wrappers
  import opened Assets

  /**
   * Loading a path twice: once the first load succeeded, the second is a
   * cache hit that returns the very same texture; after a failed first load
   * nothing was cached, so the second load tries again.
   */
  method LoadTwice(path: string, firstId: nat, secondId: nat)
    returns (first: Result<Texture>, second: Result<Texture>)
    ensures firstId != 0 ==> first.Ok? && first.value.HasBeenLoaded() && second == first
    ensures firstId == 0 ==> first == Err(LoadError(path)) && (second.Ok? <==> secondId != 0)
  {
    var assets := new AssetManager();
    first := assets.LoadTexture(path, firstId);
    second := assets.LoadTexture(path, secondId);
  }

  /**
   * Two textures loaded under different paths are different objects, each
   * filed under its own path.
   */
  method DistinctPaths(p: string, q: string, pId: nat, qId: nat)
    returns (tp: Result<Texture>, tq: Result<Texture>, cached: nat)
    requires p != q && pId != 0 && qId != 0
    ensures tp.Ok? && tq.Ok? && tp.value != tq.value
    ensures tp.value.filePath == p && tq.value.filePath == q
    ensures cached == 2
  {
    var assets := new AssetManager();
    tp := assets.LoadTexture(p, pId);
    tq := assets.LoadTexture(q, qId);
    cached := |assets.textures|;
  }

  /**
   * Materials are created once per name: asking again for a name returns
   * the first material, a different name gives a different one, and the
   * cache holds one entry per distinct name.
   */
  method MaterialsByName(a: string, b: string)
    returns (x: Material, y: Material, z: Material, cached: nat)
    ensures x == z
    ensures x == y <==> a == b
    ensures cached == if a == b then 1 else 2
    ensures x.albedo == null && x.normal == null && x.roughness == null
  {
    var assets := new AssetManager();
    x := assets.CreateMaterial(a);
    y := assets.CreateMaterial(b);
    z := assets.CreateMaterial(a);
    cached := |assets.textures| + |assets.materials|;
  }

  /** The teardown deletes a cached texture and empties both caches. */
  method TeardownDeletesCached(path: string, uploadedId: nat, name: string)
    returns (texture: Result<Texture>, remaining: nat)
    ensures texture.Ok? <==> uploadedId != 0
    ensures texture.Ok? ==> !texture.value.HasBeenLoaded()
    ensures remaining == 0
  {
    var assets := new AssetManager();
    texture := assets.LoadTexture(path, uploadedId);
    var _ := assets.CreateMaterial(name);
    assert texture.Ok? ==> assets.textures[path] == texture.value;
    assets.FreeAllAssets();
    remaining := |assets.textures| + |assets.materials|;
  }

  /**
   * The teardown also deletes a texture that no cache owns but a material
   * slot points at.
   */
  method TeardownDeletesSlotTexture(name: string, normalPath: string, normalId: nat)
    returns (normalMap: Texture, remaining: nat)
    ensures !normalMap.HasBeenLoaded()
    ensures remaining == 0
  {
    var assets := new AssetManager();
    var material := assets.CreateMaterial(name);
    normalMap := new Texture(normalPath);
    normalMap.Bind(normalId);
    material.normal := normalMap;
    assert material in assets.materials.Values && normalMap in material.Slots();
    assets.FreeAllAssets();
    remaining := |assets.textures| + |assets.materials|;
  }
}
