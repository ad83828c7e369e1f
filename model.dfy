/**
 * `Model` (model.hpp and model.cpp): turns an imported scene into a flat list
 * of meshes. The importer's node tree is walked in pre-order; each node
 * contributes the meshes it references, in the order it lists them, before
 * its children do. Each mesh keeps its vertices in order, with the UV taken
 * from texture-coordinate set 0 when the mesh has one, and the indices of all
 * its faces, face after face.
 *
 * The importer (`Assimp::Importer::ReadFile`) is outside the model: its result
 * is a parameter, `None` when it returned no scene. GPU buffers are not
 * modelled; a `Mesh` keeps the vertex and index lists it was built from.
 */
module Models {
  import opened Wrappers
  import opened Assets

  datatype Vec3 = Vec3(x: real, y: real, z: real)
  datatype Vec2 = Vec2(x: real, y: real)

  datatype Vertex = Vertex(position: Vec3, normal: Vec3, uv: Vec2)

  /** `aiFace`: the vertex indices of one polygon. */
  datatype AiFace = AiFace(indices: seq<nat>)

  /**
   * `aiMesh`: per-vertex positions and normals, an optional first
   * texture-coordinate set, and the faces.
   */
  datatype AiMesh = AiMesh(
    vertices: seq<Vec3>,
    normals: seq<Vec3>,
    texCoords0: Option<seq<Vec3>>,
    faces: seq<AiFace>)

  /** `aiNode`: indices into the scene's mesh array, and child nodes. */
  datatype AiNode = AiNode(meshes: seq<nat>, children: seq<AiNode>)

  /** `aiScene`: all meshes, and the root of the node tree (possibly missing). */
  datatype AiScene = AiScene(meshes: seq<AiMesh>, root: Option<AiNode>)

  /** A mesh as the renderer holds it, with the material it is drawn with. */
  datatype Mesh = Mesh(vertices: seq<Vertex>, indices: seq<nat>, material: Material?) {
    /** What `Mesh` records for the draw call (mesh.cpp:7). */
    function IndexCount(): nat {
      |indices|
    }
  }

  /**
   * What the importer guarantees for a mesh: a normal for every vertex
   * (normals are generated on import) and, when set 0 exists, a texture
   * coordinate for every vertex.
   */
  predicate MeshWellFormed(m: AiMesh) {
    && |m.normals| == |m.vertices|
    && (m.texCoords0.Some? ==> |m.texCoords0.value| == |m.vertices|)
  }

  /** Every mesh index of `node` and of its descendants points into `scene.meshes`. */
  predicate NodeWellFormed(scene: AiScene, node: AiNode)
    decreases node
  {
    && (forall i :: 0 <= i < |node.meshes| ==> node.meshes[i] < |scene.meshes|)
    && (forall k :: 0 <= k < |node.children| ==> NodeWellFormed(scene, node.children[k]))
  }

  /** The scene's meshes are well formed, and so is its tree when it has one. */
  predicate SceneWellFormed(scene: AiScene) {
    && (forall j :: 0 <= j < |scene.meshes| ==> MeshWellFormed(scene.meshes[j]))
    && (scene.root.Some? ==> NodeWellFormed(scene, scene.root.value))
  }

  /** Vertex `i` of `m`: position and normal `i`, UV from set 0 or (0, 0). */
  function VertexAt(m: AiMesh, i: nat): (r: Vertex)
    requires MeshWellFormed(m) && i < |m.vertices|
  {
    var uv := if m.texCoords0.Some? then Vec2(m.texCoords0.value[i].x, m.texCoords0.value[i].y) else Vec2(0.0, 0.0);
    Vertex(m.vertices[i], m.normals[i], uv)
  }

  /** The indices of `faces`, face after face. */
  function FaceIndices(faces: seq<AiFace>): (r: seq<nat>)
    decreases |faces|
  {
    if faces == [] then [] else FaceIndices(faces[..|faces| - 1]) + faces[|faces| - 1].indices
  }

  /** Total number of indices over `faces`. */
  function IndexTotal(faces: seq<AiFace>): (r: nat)
    decreases |faces|
  {
    if faces == [] then 0 else IndexTotal(faces[..|faces| - 1]) + |faces[|faces| - 1].indices|
  }

  /** The mesh built from `m`, not yet given a material. */
  function MeshOf(m: AiMesh): (r: Mesh)
    requires MeshWellFormed(m)
  {
    Mesh(seq(|m.vertices|, i requires 0 <= i < |m.vertices| => VertexAt(m, i)), FaceIndices(m.faces), null)
  }

  /** The first `n` meshes `node` lists, built in the order it lists them. */
  function OwnMeshes(scene: AiScene, node: AiNode, n: nat): (r: seq<Mesh>)
    requires SceneWellFormed(scene) && NodeWellFormed(scene, node) && n <= |node.meshes|
  {
    if n == 0 then []
    else OwnMeshes(scene, node, n - 1) + [MeshOf(scene.meshes[node.meshes[n - 1]])]
  }

  /** The meshes of the tree under `node`, in pre-order. */
  function Flatten(scene: AiScene, node: AiNode): (r: seq<Mesh>)
    requires SceneWellFormed(scene) && NodeWellFormed(scene, node)
    decreases node, |node.children| + 1
  {
    OwnMeshes(scene, node, |node.meshes|) + FlattenChildren(scene, node, |node.children|)
  }

  /** The meshes of the subtrees of the first `n` children of `parent`, one after the other. */
  function FlattenChildren(scene: AiScene, parent: AiNode, n: nat): (r: seq<Mesh>)
    requires SceneWellFormed(scene) && NodeWellFormed(scene, parent) && n <= |parent.children|
    decreases parent, n
  {
    if n == 0 then []
    else FlattenChildren(scene, parent, n - 1) + Flatten(scene, parent.children[n - 1])
  }

  /** Number of mesh references in the tree under `node`. */
  function MeshCount(node: AiNode): (r: nat)
    decreases node, |node.children| + 1
  {
    |node.meshes| + ChildrenMeshCount(node, |node.children|)
  }

  /** Number of mesh references in the subtrees of the first `n` children of `parent`. */
  function ChildrenMeshCount(parent: AiNode, n: nat): (r: nat)
    requires n <= |parent.children|
    decreases parent, n
  {
    if n == 0 then 0 else ChildrenMeshCount(parent, n - 1) + MeshCount(parent.children[n - 1])
  }

  /** The index list of a run of faces is exactly as long as the faces have indices together. */
  lemma {:induction false} FaceIndicesLength(faces: seq<AiFace>)
    ensures |FaceIndices(faces)| == IndexTotal(faces)
    decreases |faces|
  {
    if faces != [] {
      FaceIndicesLength(faces[..|faces| - 1]);
    }
  }

  /**
   * The contents of a built mesh: vertex `i` carries position and normal `i`
   * and the UV of set 0 (or (0, 0) without one); the index list holds every
   * face's indices, face after face, so its length is the faces' total; no
   * material is set yet.
   */
  lemma MeshOfContents(m: AiMesh)
    requires MeshWellFormed(m)
    ensures |MeshOf(m).vertices| == |m.vertices|
    ensures forall i :: 0 <= i < |m.vertices| ==>
              && MeshOf(m).vertices[i].position == m.vertices[i]
              && MeshOf(m).vertices[i].normal == m.normals[i]
              && MeshOf(m).vertices[i].uv ==
                   (if m.texCoords0.Some? then Vec2(m.texCoords0.value[i].x, m.texCoords0.value[i].y)
                    else Vec2(0.0, 0.0))
    ensures MeshOf(m).indices == FaceIndices(m.faces)
    ensures MeshOf(m).IndexCount() == IndexTotal(m.faces)
    ensures MeshOf(m).material == null
  {
    FaceIndicesLength(m.faces);
  }

  /** Concatenating faces concatenates their index lists. */
  lemma {:induction false} FaceIndicesAppend(a: seq<AiFace>, b: seq<AiFace>)
    ensures FaceIndices(a + b) == FaceIndices(a) + FaceIndices(b)
    decreases |b|
  {
    if b == [] {
      assert a + b == a;
    } else {
      var b' := b[..|b| - 1];
      assert (a + b)[..|a + b| - 1] == a + b';
      FaceIndicesAppend(a, b');
    }
  }

  /** A node's own meshes: one per reference, in reference order. */
  lemma {:induction false} OwnMeshesInOrder(scene: AiScene, node: AiNode, n: nat)
    requires SceneWellFormed(scene) && NodeWellFormed(scene, node) && n <= |node.meshes|
    ensures |OwnMeshes(scene, node, n)| == n
    ensures forall i :: 0 <= i < n ==> OwnMeshes(scene, node, n)[i] == MeshOf(scene.meshes[node.meshes[i]])
  {
    if n > 0 {
      OwnMeshesInOrder(scene, node, n - 1);
    }
  }

  /** Flattening keeps one mesh per mesh reference in the tree. */
  lemma {:induction false} FlattenCount(scene: AiScene, node: AiNode)
    requires SceneWellFormed(scene) && NodeWellFormed(scene, node)
    ensures |Flatten(scene, node)| == MeshCount(node)
    decreases node, |node.children| + 1
  {
    OwnMeshesInOrder(scene, node, |node.meshes|);
    FlattenChildrenCount(scene, node, |node.children|);
  }

  lemma {:induction false} FlattenChildrenCount(scene: AiScene, parent: AiNode, n: nat)
    requires SceneWellFormed(scene) && NodeWellFormed(scene, parent) && n <= |parent.children|
    ensures |FlattenChildren(scene, parent, n)| == ChildrenMeshCount(parent, n)
    decreases parent, n
  {
    if n > 0 {
      FlattenChildrenCount(scene, parent, n - 1);
      FlattenCount(scene, parent.children[n - 1]);
    }
  }

  /** Pre-order, first part: a node's own meshes come first, in the order it lists them. */
  lemma OwnMeshesFirst(scene: AiScene, node: AiNode)
    requires SceneWellFormed(scene) && NodeWellFormed(scene, node)
    ensures |node.meshes| <= |Flatten(scene, node)|
    ensures forall i :: 0 <= i < |node.meshes| ==> Flatten(scene, node)[i] == MeshOf(scene.meshes[node.meshes[i]])
  {
    OwnMeshesInOrder(scene, node, |node.meshes|);
  }

  /**
   * Pre-order, second part: the subtree of child `k` follows the node's own
   * meshes and the subtrees of the children before it.
   */
  lemma {:induction false} ChildSubtreeInPlace(scene: AiScene, node: AiNode, k: nat)
    requires SceneWellFormed(scene) && NodeWellFormed(scene, node) && k < |node.children|
    ensures var start := |node.meshes| + ChildrenMeshCount(node, k);
            var sub := Flatten(scene, node.children[k]);
            start + |sub| <= |Flatten(scene, node)| &&
            Flatten(scene, node)[start..start + |sub|] == sub
  {
    OwnMeshesInOrder(scene, node, |node.meshes|);
    FlattenChildrenCount(scene, node, k);
    FlattenChildrenPrefix(scene, node, k + 1, |node.children|);
    SliceAfterPrefix(OwnMeshes(scene, node, |node.meshes|), FlattenChildren(scene, node, k),
                     Flatten(scene, node.children[k]), FlattenChildren(scene, node, |node.children|));
  }

  /** If `rest` starts with `b + c`, then `c` sits right after `a + b` in `a + rest`. */
  lemma SliceAfterPrefix<T>(a: seq<T>, b: seq<T>, c: seq<T>, rest: seq<T>)
    requires |b| + |c| <= |rest| && rest[..|b| + |c|] == b + c
    ensures (a + rest)[|a| + |b|..|a| + |b| + |c|] == c
  {
    assert (a + rest)[|a| + |b|..|a| + |b| + |c|] == rest[|b|..|b| + |c|];
    assert rest[|b|..|b| + |c|] == (b + c)[|b|..];
  }

  /** The subtrees of the first `m` children start the subtrees of the first `n`. */
  lemma {:induction false} FlattenChildrenPrefix(scene: AiScene, parent: AiNode, m: nat, n: nat)
    requires SceneWellFormed(scene) && NodeWellFormed(scene, parent) && m <= n <= |parent.children|
    ensures |FlattenChildren(scene, parent, m)| <= |FlattenChildren(scene, parent, n)|
    ensures FlattenChildren(scene, parent, n)[..|FlattenChildren(scene, parent, m)|] == FlattenChildren(scene, parent, m)
    decreases n - m
  {
    if m < n {
      FlattenChildrenPrefix(scene, parent, m, n - 1);
      var a := FlattenChildren(scene, parent, m);
      var b := FlattenChildren(scene, parent, n - 1);
      assert FlattenChildren(scene, parent, n) == b + Flatten(scene, parent.children[n - 1]);
      assert (b + Flatten(scene, parent.children[n - 1]))[..|a|] == b[..|a|];
    }
  }

  /**
   * Builds the renderer mesh of `m`: vertex `i` is `VertexAt(m, i)` for every
   * vertex in order, and the indices are all face indices, face after face.
   */
  method ProcessMesh(m: AiMesh) returns (r: Mesh)
    requires MeshWellFormed(m)
    ensures r == MeshOf(m)
  {
    var vertices: seq<Vertex> := [];
    var indices: seq<nat> := [];
    for i := 0 to |m.vertices|
      invariant |vertices| == i
      invariant forall k :: 0 <= k < i ==> vertices[k] == VertexAt(m, k)
    {
      var position := m.vertices[i];
      var normal := m.normals[i];
      var uv;
      if m.texCoords0.Some? {
        uv := Vec2(m.texCoords0.value[i].x, m.texCoords0.value[i].y);
      } else {
        uv := Vec2(0.0, 0.0);
      }
      vertices := vertices + [Vertex(position, normal, uv)];
    }
    for i := 0 to |m.faces|
      invariant indices == FaceIndices(m.faces[..i])
    {
      var face := m.faces[i];
      for j := 0 to |face.indices|
        invariant indices == FaceIndices(m.faces[..i]) + face.indices[..j]
      {
        indices := indices + [face.indices[j]];
      }
      assert m.faces[..i + 1][..i] == m.faces[..i];
      assert face.indices[..|face.indices|] == face.indices;
    }
    assert m.faces[..|m.faces|] == m.faces;
    r := Mesh(vertices, indices, null);
  }

  /** `Model`: the meshes of one imported file and the material drawn with them. */
  class Model {
    var meshes: seq<Mesh>
    var material: Material?

    /** The default constructor: no meshes, no material. */
    constructor ()
      ensures meshes == [] && material == null
    {
      meshes := [];
      material := null;
    }

    /**
     * Imports a file. `imported` is what the importer returned for it (`None`
     * for no scene) and `importerError` its error string. A missing scene or
     * root node is an error (the C++ throws) and adds nothing; otherwise the
     * whole tree's meshes are appended in pre-order.
     */
    method Load(imported: Option<AiScene>, importerError: string) returns (r: Outcome)
      requires imported.Some? ==> SceneWellFormed(imported.value)
      modifies this`meshes
      ensures imported.None? || imported.value.root.None? ==> r == Fail(importerError) && meshes == old(meshes)
      ensures imported.Some? && imported.value.root.Some? ==>
                r == Pass && meshes == old(meshes) + Flatten(imported.value, imported.value.root.value)
    {
      if imported.None? || imported.value.root.None? {
        return Fail(importerError);
      }
      var scene := imported.value;
      ProcessNode(scene.root.value, scene);
      return Pass;
    }

    /** Appends the meshes of the tree under `node`, in pre-order. */
    method ProcessNode(node: AiNode, scene: AiScene)
      requires SceneWellFormed(scene) && NodeWellFormed(scene, node)
      modifies this`meshes
      ensures meshes == old(meshes) + Flatten(scene, node)
      decreases node
    {
      for i := 0 to |node.meshes|
        invariant meshes == old(meshes) + OwnMeshes(scene, node, i)
      {
        var mesh := ProcessMesh(scene.meshes[node.meshes[i]]);
        meshes := meshes + [mesh];
      }
      ghost var own := meshes;
      for i := 0 to |node.children|
        invariant meshes == own + FlattenChildren(scene, node, i)
      {
        ghost var before := meshes;
        assert NodeWellFormed(scene, node.children[i]);
        ProcessNode(node.children[i], scene);
        assert meshes == before + Flatten(scene, node.children[i]);
      }
    }

    /** Remembers `m` and makes every mesh use it; nothing else about the meshes changes. */
    method SetMaterial(m: Material?)
      modifies this`meshes, this`material
      ensures material == m
      ensures |meshes| == |old(meshes)|
      ensures forall i :: 0 <= i < |meshes| ==> meshes[i] == old(meshes)[i].(material := m)
    {
      material := m;
      for i := 0 to |meshes|
        invariant material == m && |meshes| == |old(meshes)|
        invariant forall k :: 0 <= k < i ==> meshes[k] == old(meshes)[k].(material := m)
        invariant forall k :: i <= k < |meshes| ==> meshes[k] == old(meshes)[k]
      {
        meshes := meshes[i := meshes[i].(material := m)];
      }
    }

    function GetMaterial(): Material?
      reads this
    {
      material
    }
  }
}
