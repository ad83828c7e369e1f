/**
 * What callers of `Model` can rely on after loading a file and assigning it
 * a material.
 */
module ModelScenarios {
  import opened Wrappers
  import opened Assets
  import opened Models

  /**
   * Loading into a new model: an import without a scene or without a root
   * node fails with the importer's message and leaves the model empty;
   * otherwise the model holds one mesh per mesh reference in the tree, in
   * pre-order, none with a material yet.
   */
  method LoadNew(imported: Option<AiScene>, importerError: string)
    returns (r: Outcome, meshes: seq<Mesh>)
    requires imported.Some? ==> SceneWellFormed(imported.value)
    ensures imported.None? || imported.value.root.None? ==> r == Fail(importerError) && meshes == []
    ensures imported.Some? && imported.value.root.Some? ==>
              && r == Pass
              && meshes == Flatten(imported.value, imported.value.root.value)
              && |meshes| == MeshCount(imported.value.root.value)
  {
    var model := new Model();
    r := model.Load(imported, importerError);
    meshes := model.meshes;
    if r.Pass? {
      FlattenCount(imported.value, imported.value.root.value);
    }
  }

  /**
   * After `SetMaterial`, `GetMaterial` returns the material and every mesh is
   * drawn with it; the geometry is untouched.
   */
  method MaterialReachesEveryMesh(scene: AiScene, material: Material?)
    returns (got: Material?, before: seq<Mesh>, after: seq<Mesh>)
    requires SceneWellFormed(scene) && scene.root.Some?
    ensures got == material
    ensures |after| == |before| == MeshCount(scene.root.value)
    ensures forall i :: 0 <= i < |after| ==>
              && after[i].material == material
              && after[i].vertices == before[i].vertices
              && after[i].indices == before[i].indices
  {
    var model := new Model();
    var _ := model.Load(Some(scene), "");
    before := model.meshes;
    FlattenCount(scene, scene.root.value);
    model.SetMaterial(material);
    got := model.GetMaterial();
    after := model.meshes;
  }

  /** Two triangles' worth of faces: a triangle and a quad, in that order. */
  const TriQuad := [AiFace([0, 1, 2]), AiFace([2, 1, 3, 4])]

  /** The faces' indices are concatenated without separators, face after face. */
  lemma TriQuadIndices()
    ensures FaceIndices(TriQuad) == [0, 1, 2, 2, 1, 3, 4]
  {
  }

  /**
   * A root that references mesh 1 and has one child referencing mesh 0: the
   * root's own mesh comes first, whatever the scene's mesh order.
   */
  lemma ParentBeforeChild(m0: AiMesh, m1: AiMesh)
    requires MeshWellFormed(m0) && MeshWellFormed(m1)
    ensures var scene := AiScene([m0, m1], Some(AiNode([1], [AiNode([0], [])])));
            SceneWellFormed(scene) &&
            Flatten(scene, scene.root.value) == [MeshOf(m1), MeshOf(m0)]
  {
    var leaf := AiNode([0], []);
    var root := AiNode([1], [leaf]);
    var scene := AiScene([m0, m1], Some(root));
    assert NodeWellFormed(scene, leaf);
    assert NodeWellFormed(scene, root);
    assert Flatten(scene, leaf) == [MeshOf(m0)] by {
      assert OwnMeshes(scene, leaf, 1) == [MeshOf(m0)];
    }
    assert FlattenChildren(scene, root, 1) == [MeshOf(m0)];
    assert OwnMeshes(scene, root, 1) == [MeshOf(m1)];
  }
}
