/**
 * Model assembly of src/model/model.cpp.
 *
 * The scene the importer hands over is a plain value (`Scene`); the GPU
 * objects the loader creates are abstracted by the data they are created
 * from: a texture by the path it was loaded from (the token
 * `createTextureWithMips` produces), a mesh by its vertex count, the index
 * list uploaded to its index buffer and its material index, and the
 * material buffer by the materials copied into it.
 */
module ModelLoading {
  import opened Wrappers
  import opened Debug

  /** `uint32_t`. */
  type Uint32 = x: int | 0 <= x < 0x1_0000_0000

  /** 2^64, the modulus of `size_t` arithmetic. */
  const SIZE_T_MODULUS: int := 0x1_0000_0000_0000_0000

  /** `std::string::npos`, the largest `size_t`. */
  const NPOS: int := SIZE_T_MODULUS - 1

  /** The conversion of a `size_t` value to `uint32_t`, keeping the low 32 bits. */
  function ToUint32(x: nat): (r: Uint32)
    ensures x < 0x1_0000_0000 ==> r == x
  {
    x % 0x1_0000_0000
  }

  // ---------------------------------------------------------------------
  // The directory rule of createModel
  // ---------------------------------------------------------------------

  /** `std::string::find_last_of(c)`: the position of the last `c`, or `npos`. */
  function FindLastOf(s: string, c: char): (pos: int)
    requires |s| < NPOS
    ensures pos == NPOS <==> c !in s
    ensures pos != NPOS ==> 0 <= pos < |s| && s[pos] == c && c !in s[pos + 1..]
  {
    if |s| == 0 then NPOS
    else if s[|s| - 1] == c then |s| - 1
    else
      var pos := FindLastOf(s[..|s| - 1], c);
      assert s == s[..|s| - 1] + [s[|s| - 1]];
      pos
  }

  /** `std::string::substr(pos, count)`: a count past the end stops at the end. */
  function Substr(s: string, pos: nat, count: nat): (r: string)
    requires pos <= |s|
    ensures |r| == if count <= |s| - pos then count else |s| - pos
    ensures forall i :: 0 <= i < |r| ==> r[i] == s[pos + i]
  {
    if count <= |s| - pos then s[pos..pos + count] else s[pos..]
  }

  /**
   * `model.directory`: `filename.substr(0, filename.find_last_of('/') + 1)`,
   * with the `size_t` addition wrapping `npos + 1` round to 0. It is the
   * prefix of `filename` up to and including its last '/', and empty when
   * there is no '/'.
   */
  function Directory(filename: string): (dir: string)
    requires |filename| < NPOS
    ensures dir <= filename
    ensures dir == [] || dir[|dir| - 1] == '/'
    ensures '/' !in filename[|dir|..]
  {
    Substr(filename, 0, (FindLastOf(filename, '/') + 1) % SIZE_T_MODULUS)
  }

  /** The directory is empty exactly when the filename has no '/'. */
  lemma DirectoryEmptyIffNoSlash(filename: string)
    requires |filename| < NPOS
    ensures Directory(filename) == [] <==> '/' !in filename
  {
    var dir := Directory(filename);
    if dir != [] {
      assert filename[|dir| - 1] == '/';
    }
  }

  /** Any two prefixes ending in '/' with no '/' after them are the same: the directory is unique. */
  lemma DirectoryUnique(filename: string, dir: string)
    requires |filename| < NPOS
    requires dir <= filename && (dir == [] || dir[|dir| - 1] == '/') && '/' !in filename[|dir|..]
    ensures dir == Directory(filename)
  {
  }

  // ---------------------------------------------------------------------
  // The imported scene
  // ---------------------------------------------------------------------

  /** The texture channels the loader reads. */
  datatype TextureType = Diffuse | Specular | Height

  /** `aiMaterial`: the texture file names of each channel, in the importer's order. */
  datatype SceneMaterial = SceneMaterial(diffuse: seq<string>, specular: seq<string>, height: seq<string>)
  {
    /** The file names of one channel; `GetTextureCount` is their number. */
    function Textures(textureType: TextureType): seq<string>
    {
      match textureType
      case Diffuse => diffuse
      case Specular => specular
      case Height => height
    }
  }

  /** `aiFace`: the vertex indices of one face. */
  datatype Face = Face(indices: seq<Uint32>)

  /** `aiMesh`, reduced to what the loader copies: vertex count, faces and material. */
  datatype SceneMesh = SceneMesh(vertexCount: nat, faces: seq<Face>, materialIndex: Uint32)

  /** `aiNode`: the scene meshes it references and its children, in order. */
  datatype Node = Node(meshes: seq<Uint32>, children: seq<Node>)

  /**
   * `aiScene` as `ReadFile` returns it: `incomplete` is the
   * `AI_SCENE_FLAGS_INCOMPLETE` flag and `root` the possibly missing root node.
   */
  datatype Scene = Scene(incomplete: bool, materials: seq<SceneMaterial>, meshes: seq<SceneMesh>, root: Option<Node>)

  /** Every face has the three corners the loader reads (the importer triangulates). */
  predicate Triangulated(faces: seq<Face>)
  {
    forall f :: f in faces ==> |f.indices| >= 3
  }

  /** The scene meshes referenced by a subtree in pre-order: the node's own, then each child's subtree. */
  function PreorderMeshes(node: Node): seq<Uint32>
    decreases node, |node.children| + 1
  {
    node.meshes + ChildrenMeshes(node, |node.children|)
  }

  /** The pre-order mesh references of the first `n` children of `parent`, left to right. */
  function ChildrenMeshes(parent: Node, n: nat): seq<Uint32>
    requires n <= |parent.children|
    decreases parent, n
  {
    if n == 0 then []
    else ChildrenMeshes(parent, n - 1) + PreorderMeshes(parent.children[n - 1])
  }

  /** Every mesh reference names one of `meshCount` scene meshes. */
  predicate RefsBelow(ids: seq<Uint32>, meshCount: nat)
  {
    forall k :: 0 <= k < |ids| ==> ids[k] < meshCount
  }

  /** What the loader relies on the importer for: triangles, and mesh references in range. */
  predicate SceneWellFormed(scene: Scene)
  {
    && (forall m :: m in scene.meshes ==> Triangulated(m.faces))
    && (scene.root.Some? ==> RefsBelow(PreorderMeshes(scene.root.value), |scene.meshes|))
  }

  /** Walking one more child adds that child's pre-order meshes after those already built. */
  lemma ChildStep(scene: Scene, node: Node, i: nat)
    requires SceneWellFormed(scene) && i < |node.children|
    requires RefsBelow(node.meshes + ChildrenMeshes(node, i), |scene.meshes|)
    requires RefsBelow(PreorderMeshes(node.children[i]), |scene.meshes|)
    ensures RefsBelow(node.meshes + ChildrenMeshes(node, i + 1), |scene.meshes|)
    ensures BuiltMeshes(scene, node.meshes + ChildrenMeshes(node, i + 1))
         == BuiltMeshes(scene, node.meshes + ChildrenMeshes(node, i)) + BuiltMeshes(scene, PreorderMeshes(node.children[i]))
  {
    var child := PreorderMeshes(node.children[i]);
    assert ChildrenMeshes(node, i + 1) == ChildrenMeshes(node, i) + child;
    AppendAssociative(node.meshes, ChildrenMeshes(node, i), child);
    BuiltMeshesAppend(scene, node.meshes + ChildrenMeshes(node, i), child);
  }

  /** When the first `n` children's references are in range, so are those of each of them and of every shorter run. */
  lemma {:induction false} ChildrenRefsBelow(parent: Node, n: nat, meshCount: nat)
    requires n <= |parent.children| && RefsBelow(ChildrenMeshes(parent, n), meshCount)
    ensures forall m :: 0 <= m <= n ==> RefsBelow(ChildrenMeshes(parent, m), meshCount)
    ensures forall i :: 0 <= i < n ==> RefsBelow(PreorderMeshes(parent.children[i]), meshCount)
    decreases n
  {
    if n > 0 {
      var all := ChildrenMeshes(parent, n);
      var init := ChildrenMeshes(parent, n - 1);
      var last := PreorderMeshes(parent.children[n - 1]);
      assert all == init + last;
      assert RefsBelow(init, meshCount) by {
        forall k | 0 <= k < |init| ensures init[k] < meshCount {
          assert all[k] == init[k];
        }
      }
      assert RefsBelow(last, meshCount) by {
        forall k | 0 <= k < |last| ensures last[k] < meshCount {
          assert all[|init| + k] == last[k];
        }
      }
      ChildrenRefsBelow(parent, n - 1, meshCount);
    }
  }

  /** When a node's references are in range, so are those of its own meshes and of its children. */
  lemma NodeRefsBelow(node: Node, meshCount: nat)
    requires RefsBelow(PreorderMeshes(node), meshCount)
    ensures RefsBelow(node.meshes, meshCount)
    ensures RefsBelow(ChildrenMeshes(node, |node.children|), meshCount)
  {
    var all := PreorderMeshes(node);
    var rest := ChildrenMeshes(node, |node.children|);
    assert all == node.meshes + rest;
    forall k | 0 <= k < |node.meshes| ensures node.meshes[k] < meshCount {
      assert all[k] == node.meshes[k];
    }
    forall k | 0 <= k < |rest| ensures rest[k] < meshCount {
      assert all[|node.meshes| + k] == rest[k];
    }
  }

  // ---------------------------------------------------------------------
  // What the loader builds
  // ---------------------------------------------------------------------

  /** `VulkanTexture`, as the token `createTextureWithMips` returns for a path. */
  datatype Texture = Texture(path: string)

  /** `Material` (src/model/material.hpp): texture indices and presence flags. */
  datatype Material = Material(
    diffuseMapIndex: Uint32, specularMapIndex: Uint32, normalMapIndex: Uint32,
    hasDiffuseMap: int, hasSpecularMap: int, hasNormalMap: int)

  /** `Mesh`, built from (vertex buffer, index buffer, material index). */
  datatype Mesh = Mesh(vertexCount: nat, indices: seq<Uint32>, materialIndex: Uint32)

  /** The three corners of a triangle, in order. */
  function Corners(face: Face): seq<Uint32>
    requires |face.indices| >= 3
  {
    [face.indices[0], face.indices[1], face.indices[2]]
  }

  /** The index list of a triangle list: the corners of each face, face after face. */
  function TriangleIndices(faces: seq<Face>): seq<Uint32>
    requires Triangulated(faces)
  {
    if faces == [] then []
    else TriangleIndices(faces[..|faces| - 1]) + Corners(faces[|faces| - 1])
  }

  /** The index list holds three entries per face, and entry 3i+k is corner k of face i. */
  lemma {:induction false} TriangleIndicesAt(faces: seq<Face>, i: nat, k: nat)
    requires Triangulated(faces) && i < |faces| && k < 3
    ensures |TriangleIndices(faces)| == 3 * |faces|
    ensures TriangleIndices(faces)[3 * i + k] == faces[i].indices[k]
    decreases |faces|
  {
    var n := |faces|;
    var init := faces[..n - 1];
    assert Triangulated(init) by {
      forall f | f in init ensures |f.indices| >= 3 {
        assert f in faces;
      }
    }
    if i < n - 1 {
      TriangleIndicesAt(init, i, k);
    } else if n > 1 {
      TriangleIndicesAt(init, 0, 0);
    }
  }

  /** The mesh `processMesh` builds from a scene mesh. */
  function BuiltMesh(mesh: SceneMesh): Mesh
    requires Triangulated(mesh.faces)
  {
    Mesh(mesh.vertexCount, TriangleIndices(mesh.faces), mesh.materialIndex)
  }

  /** The meshes built for a list of scene mesh references, in order. */
  function BuiltMeshes(scene: Scene, ids: seq<Uint32>): seq<Mesh>
    requires SceneWellFormed(scene) && RefsBelow(ids, |scene.meshes|)
  {
    if ids == [] then []
    else BuiltMeshes(scene, ids[..|ids| - 1]) + [BuiltMesh(scene.meshes[ids[|ids| - 1]])]
  }

  /** Building meshes for two reference lists one after the other is building them for the joined list. */
  lemma {:induction false} BuiltMeshesAppend(scene: Scene, a: seq<Uint32>, b: seq<Uint32>)
    requires SceneWellFormed(scene) && RefsBelow(a, |scene.meshes|) && RefsBelow(b, |scene.meshes|)
    ensures RefsBelow(a + b, |scene.meshes|)
    ensures BuiltMeshes(scene, a + b) == BuiltMeshes(scene, a) + BuiltMeshes(scene, b)
    decreases |b|
  {
    if b == [] {
      assert a + b == a;
    } else {
      var b' := b[..|b| - 1];
      assert (a + b)[..|a + b| - 1] == a + b';
      assert (a + b)[|a + b| - 1] == b[|b| - 1];
      BuiltMeshesAppend(scene, a, b');
    }
  }

  /** One mesh per reference, each carrying its scene mesh's material index. */
  lemma {:induction false} BuiltMeshesAt(scene: Scene, ids: seq<Uint32>, j: nat)
    requires SceneWellFormed(scene) && RefsBelow(ids, |scene.meshes|) && j < |ids|
    ensures |BuiltMeshes(scene, ids)| == |ids|
    ensures BuiltMeshes(scene, ids)[j].materialIndex == scene.meshes[ids[j]].materialIndex
    ensures BuiltMeshes(scene, ids)[j].indices == TriangleIndices(scene.meshes[ids[j]].faces)
    decreases |ids|
  {
    var init := ids[..|ids| - 1];
    if j < |ids| - 1 {
      BuiltMeshesAt(scene, init, j);
    } else if |init| > 0 {
      BuiltMeshesAt(scene, init, 0);
    }
  }

  // ---------------------------------------------------------------------
  // The texture cache
  // ---------------------------------------------------------------------

  /**
   * The texture list and the path-keyed cache agree: every cached index
   * names a texture loaded from that path, and every texture is cached
   * under its path at its own position.
   */
  ghost predicate CacheConsistent(textures: seq<Texture>, cache: map<string, nat>)
  {
    && (forall path :: path in cache ==> cache[path] < |textures| && textures[cache[path]].path == path)
    && (forall i :: 0 <= i < |textures| ==> textures[i].path in cache && cache[textures[i].path] == i)
  }

  /** A consistent cache has one entry per texture, so no path was loaded twice. */
  lemma {:induction false} CacheSize(textures: seq<Texture>, cache: map<string, nat>)
    requires CacheConsistent(textures, cache)
    ensures |cache| == |textures|
    decreases |textures|
  {
    if textures != [] {
      var n := |textures| - 1;
      var last := textures[n].path;
      var rest := cache - {last};
      assert CacheConsistent(textures[..n], rest) by {
        forall path | path in rest
          ensures rest[path] < n && textures[..n][rest[path]].path == path
        {
          assert cache[path] != n;
        }
      }
      CacheSize(textures[..n], rest);
      assert cache.Keys == rest.Keys + {last};
    }
  }

  /** Under a consistent cache, distinct textures come from distinct paths and distinct paths have distinct indices. */
  lemma CacheInjective(textures: seq<Texture>, cache: map<string, nat>)
    requires CacheConsistent(textures, cache)
    ensures forall i, j :: 0 <= i < j < |textures| ==> textures[i].path != textures[j].path
    ensures forall p, q :: p in cache && q in cache && p != q ==> cache[p] != cache[q]
  {
  }

  /** `old` entries are kept with the same values. */
  ghost predicate Extends(old_cache: map<string, nat>, cache: map<string, nat>)
  {
    forall path :: path in old_cache ==> path in cache && cache[path] == old_cache[path]
  }

  /**
   * What `loadTexture` returns for a channel with the given file names:
   * none when there is none, otherwise the cached index of the first
   * file's path under `directory`.
   */
  ghost predicate TextureLoaded(directory: string, cache: map<string, nat>, files: seq<string>, index: Option<nat>)
  {
    if files == [] then index == None
    else directory + files[0] in cache && index == Some(cache[directory + files[0]])
  }

  /** `loadTexture` creates nothing: the channel is empty or its path is already cached. */
  predicate NoNewTexture(directory: string, cache: map<string, nat>, files: seq<string>)
  {
    files == [] || directory + files[0] in cache
  }

  /** The path `loadTexture` resolves for a channel: `directory` + its first file name, if it has one. */
  function SlotPath(directory: string, files: seq<string>): (paths: set<string>)
    ensures |paths| <= 1
    ensures paths == {} <==> files == []
    ensures files != [] ==> directory + files[0] in paths
  {
    if files == [] then {} else {directory + files[0]}
  }

  /** The paths of the diffuse, specular and height channels of a material. */
  function MaterialPaths(directory: string, source: SceneMaterial): set<string>
  {
    SlotPath(directory, source.Textures(Diffuse)) + SlotPath(directory, source.Textures(Specular))
      + SlotPath(directory, source.Textures(Height))
  }

  /** The paths of every material of a list. */
  function ScenePaths(directory: string, sources: seq<SceneMaterial>): set<string>
  {
    if sources == [] then {}
    else ScenePaths(directory, sources[..|sources| - 1]) + MaterialPaths(directory, sources[|sources| - 1])
  }

  /** The texture list and the path-keyed cache of a model, as one value. */
  datatype TextureStore = TextureStore(textures: seq<Texture>, cache: map<string, nat>)

  /**
   * The store after `loadTexture` resolves a channel: unchanged when the
   * channel is empty or its path is cached; otherwise the texture of
   * `directory` + the first file name is appended and cached at its index.
   */
  function StoreTexture(store: TextureStore, directory: string, files: seq<string>): TextureStore
  {
    if NoNewTexture(directory, store.cache, files) then store
    else
      var path := directory + files[0];
      TextureStore(store.textures + [Texture(path)], store.cache[path := |store.textures|])
  }

  /** The store after the diffuse, specular and height channels of a material are resolved, in that order. */
  function MaterialStore(store: TextureStore, directory: string, source: SceneMaterial): TextureStore
  {
    var afterDiffuse := StoreTexture(store, directory, source.Textures(Diffuse));
    var afterSpecular := StoreTexture(afterDiffuse, directory, source.Textures(Specular));
    StoreTexture(afterSpecular, directory, source.Textures(Height))
  }

  /** The store after the materials of a list are resolved, in order. */
  function SceneStore(store: TextureStore, directory: string, sources: seq<SceneMaterial>): TextureStore
  {
    if sources == [] then store
    else MaterialStore(SceneStore(store, directory, sources[..|sources| - 1]), directory, sources[|sources| - 1])
  }

  /** Resolving one more material extends the store of a list prefix. */
  lemma SceneStoreStep(store: TextureStore, directory: string, sources: seq<SceneMaterial>, i: nat)
    requires i < |sources|
    ensures SceneStore(store, directory, sources[..i + 1]) == MaterialStore(SceneStore(store, directory, sources[..i]), directory, sources[i])
  {
    assert sources[..i + 1][..i] == sources[..i];
  }

  /** Resolving a channel keeps the store consistent and keeps every texture. */
  lemma StoreTextureConsistent(store: TextureStore, directory: string, files: seq<string>)
    requires CacheConsistent(store.textures, store.cache)
    ensures var next := StoreTexture(store, directory, files);
      CacheConsistent(next.textures, next.cache) && store.textures <= next.textures
  {
    if !NoNewTexture(directory, store.cache, files) {
      var next := StoreTexture(store, directory, files);
      forall i | 0 <= i < |next.textures|
        ensures next.textures[i].path in next.cache && next.cache[next.textures[i].path] == i
      {
        if i < |store.textures| {
          assert next.textures[i] == store.textures[i];
        }
      }
    }
  }

  /** Resolving a channel keeps every cached entry with its index. */
  lemma StoreTextureExtends(store: TextureStore, directory: string, files: seq<string>)
    ensures Extends(store.cache, StoreTexture(store, directory, files).cache)
  {
  }

  /** Resolving a channel caches the channel's path and adds no other key. */
  lemma StoreTextureKeys(store: TextureStore, directory: string, files: seq<string>)
    ensures StoreTexture(store, directory, files).cache.Keys == store.cache.Keys + SlotPath(directory, files)
  {
  }

  /** Resolving a material keeps the store consistent and keeps every texture. */
  lemma MaterialStoreConsistent(store: TextureStore, directory: string, source: SceneMaterial)
    requires CacheConsistent(store.textures, store.cache)
    ensures var next := MaterialStore(store, directory, source);
      CacheConsistent(next.textures, next.cache) && store.textures <= next.textures
  {
    var s1 := StoreTexture(store, directory, source.Textures(Diffuse));
    var s2 := StoreTexture(s1, directory, source.Textures(Specular));
    StoreTextureConsistent(store, directory, source.Textures(Diffuse));
    StoreTextureConsistent(s1, directory, source.Textures(Specular));
    StoreTextureConsistent(s2, directory, source.Textures(Height));
  }

  /** Resolving a material keeps every cached entry with its index. */
  lemma MaterialStoreExtends(store: TextureStore, directory: string, source: SceneMaterial)
    ensures Extends(store.cache, MaterialStore(store, directory, source).cache)
  {
    var s1 := StoreTexture(store, directory, source.Textures(Diffuse));
    var s2 := StoreTexture(s1, directory, source.Textures(Specular));
    StoreTextureExtends(store, directory, source.Textures(Diffuse));
    StoreTextureExtends(s1, directory, source.Textures(Specular));
    StoreTextureExtends(s2, directory, source.Textures(Height));
    ExtendsTransitive(store.cache, s1.cache, s2.cache);
    ExtendsTransitive(store.cache, s2.cache, MaterialStore(store, directory, source).cache);
  }

  /** Resolving a material adds exactly the material's paths as keys. */
  lemma MaterialStoreKeys(store: TextureStore, directory: string, source: SceneMaterial)
    ensures MaterialStore(store, directory, source).cache.Keys == store.cache.Keys + MaterialPaths(directory, source)
  {
    var s1 := StoreTexture(store, directory, source.Textures(Diffuse));
    var s2 := StoreTexture(s1, directory, source.Textures(Specular));
    StoreTextureKeys(store, directory, source.Textures(Diffuse));
    StoreTextureKeys(s1, directory, source.Textures(Specular));
    StoreTextureKeys(s2, directory, source.Textures(Height));
  }

  /** Resolving a list of materials keeps the store consistent and keeps every texture. */
  lemma {:induction false} SceneStoreConsistent(store: TextureStore, directory: string, sources: seq<SceneMaterial>)
    requires CacheConsistent(store.textures, store.cache)
    ensures var next := SceneStore(store, directory, sources);
      CacheConsistent(next.textures, next.cache) && store.textures <= next.textures
    decreases |sources|
  {
    if sources != [] {
      var init := sources[..|sources| - 1];
      SceneStoreConsistent(store, directory, init);
      MaterialStoreConsistent(SceneStore(store, directory, init), directory, sources[|sources| - 1]);
    }
  }

  /** Resolving a list of materials keeps every cached entry with its index. */
  lemma {:induction false} SceneStoreExtends(store: TextureStore, directory: string, sources: seq<SceneMaterial>)
    ensures Extends(store.cache, SceneStore(store, directory, sources).cache)
    decreases |sources|
  {
    if sources != [] {
      var init := sources[..|sources| - 1];
      var mid := SceneStore(store, directory, init);
      SceneStoreExtends(store, directory, init);
      MaterialStoreExtends(mid, directory, sources[|sources| - 1]);
      ExtendsTransitive(store.cache, mid.cache, SceneStore(store, directory, sources).cache);
    }
  }

  /** Resolving a list of materials adds exactly the list's paths as keys. */
  lemma {:induction false} SceneStoreKeys(store: TextureStore, directory: string, sources: seq<SceneMaterial>)
    ensures SceneStore(store, directory, sources).cache.Keys == store.cache.Keys + ScenePaths(directory, sources)
    decreases |sources|
  {
    if sources != [] {
      var init := sources[..|sources| - 1];
      SceneStoreKeys(store, directory, init);
      MaterialStoreKeys(SceneStore(store, directory, init), directory, sources[|sources| - 1]);
    }
  }

  /**
   * One texture slot of a material, as `loadMaterials` fills it: both
   * fields stay 0 when the scene material has no texture of that type;
   * otherwise the flag is 1 and the index is the cached index of the path.
   */
  ghost predicate SlotLoaded(directory: string, cache: map<string, nat>, files: seq<string>, has: int, index: Uint32)
  {
    if files == [] then has == 0 && index == 0
    else directory + files[0] in cache && has == 1 && index == ToUint32(cache[directory + files[0]])
  }

  /** All three slots of a material are filled from the scene material. */
  ghost predicate MaterialLoaded(directory: string, cache: map<string, nat>, material: Material, source: SceneMaterial)
  {
    && SlotLoaded(directory, cache, source.Textures(Diffuse), material.hasDiffuseMap, material.diffuseMapIndex)
    && SlotLoaded(directory, cache, source.Textures(Specular), material.hasSpecularMap, material.specularMapIndex)
    && SlotLoaded(directory, cache, source.Textures(Height), material.hasNormalMap, material.normalMapIndex)
  }

  /** A slot filled from what `loadTexture` returned stays correct when the cache grows afterwards. */
  lemma SlotFromTexture(directory: string, c0: map<string, nat>, c1: map<string, nat>, files: seq<string>,
                        index: Option<nat>, has: int, slotIndex: Uint32)
    requires TextureLoaded(directory, c0, files, index) && Extends(c0, c1)
    requires has == (if index.Some? then 1 else 0)
    requires slotIndex == (if index.Some? then ToUint32(index.value) else 0)
    ensures SlotLoaded(directory, c1, files, has, slotIndex)
  {
  }

  /** A material filled against a cache stays correctly filled when the cache only grows. */
  lemma MaterialLoadedExtends(directory: string, c0: map<string, nat>, c1: map<string, nat>, material: Material, source: SceneMaterial)
    requires MaterialLoaded(directory, c0, material, source) && Extends(c0, c1)
    ensures MaterialLoaded(directory, c1, material, source)
  {
  }

  /** Each built material is filled from the scene material at the same position. */
  ghost predicate MaterialsLoaded(directory: string, cache: map<string, nat>, built: seq<Material>, sources: seq<SceneMaterial>)
  {
    |built| == |sources| && forall j :: 0 <= j < |built| ==> MaterialLoaded(directory, cache, built[j], sources[j])
  }

  /** Materials filled against a cache stay correctly filled when the cache only grows. */
  lemma MaterialsLoadedExtend(directory: string, c0: map<string, nat>, c1: map<string, nat>,
                              built: seq<Material>, sources: seq<SceneMaterial>)
    requires MaterialsLoaded(directory, c0, built, sources) && Extends(c0, c1)
    ensures MaterialsLoaded(directory, c1, built, sources)
  {
    forall j | 0 <= j < |built| ensures MaterialLoaded(directory, c1, built[j], sources[j]) {
      MaterialLoadedExtends(directory, c0, c1, built[j], sources[j]);
    }
  }

  /** Appending a correctly filled material keeps the list correctly filled. */
  lemma MaterialsLoadedAppend(directory: string, cache: map<string, nat>, built: seq<Material>,
                              sources: seq<SceneMaterial>, material: Material, source: SceneMaterial)
    requires MaterialsLoaded(directory, cache, built, sources)
    requires MaterialLoaded(directory, cache, material, source)
    ensures MaterialsLoaded(directory, cache, built + [material], sources + [source])
  {
    var b, s := built + [material], sources + [source];
    forall j | 0 <= j < |b| ensures MaterialLoaded(directory, cache, b[j], s[j]) {
      if j < |built| {
        assert b[j] == built[j] && s[j] == sources[j];
      }
    }
  }

  /** A cache that extends one extending a third extends the third. */
  lemma ExtendsTransitive(c0: map<string, nat>, c1: map<string, nat>, c2: map<string, nat>)
    requires Extends(c0, c1) && Extends(c1, c2)
    ensures Extends(c0, c2)
  {
  }

  /** The error `createModel` raises when the importer fails. */
  function LoadFailure(): Outcome<Error>
  {
    VulkanCheck(VK_NOT_SUCCESS, "Failed to load model.", "createModel")
  }

  /** `Model`, with the fields model.cpp uses. */
  class Model {
    var directory: string
    var textures: seq<Texture>
    var loadedTextureCache: map<string, nat>
    var materials: seq<Material>
    var materialBuffer: seq<Material>
    var meshes: seq<Mesh>

    /** The texture list and the cache, as one value. */
    function Store(): TextureStore
      reads this`textures, this`loadedTextureCache
    {
      TextureStore(textures, loadedTextureCache)
    }

    /** The texture list and the cache are consistent. */
    ghost predicate Valid()
      reads this`textures, this`loadedTextureCache
    {
      CacheConsistent(textures, loadedTextureCache)
    }

    /** A default-constructed, empty model. */
    constructor ()
      ensures Valid()
      ensures directory == [] && textures == [] && loadedTextureCache == map[]
      ensures materials == [] && materialBuffer == [] && meshes == []
    {
      directory := [];
      textures := [];
      loadedTextureCache := map[];
      materials := [];
      materialBuffer := [];
      meshes := [];
    }

    /**
     * `loadTexture`: nothing when the material has no texture of the type;
     * the cached index on a hit; otherwise one new texture, appended and
     * cached under its path.
     */
    method LoadTexture(material: SceneMaterial, textureType: TextureType) returns (index: Option<nat>)
      requires Valid()
      modifies this`textures, this`loadedTextureCache
      ensures Valid()
      ensures Store() == StoreTexture(old(Store()), directory, material.Textures(textureType))
      ensures TextureLoaded(directory, loadedTextureCache, material.Textures(textureType), index)
    {
      StoreTextureConsistent(Store(), directory, material.Textures(textureType));
      var files := material.Textures(textureType);
      if |files| == 0 {
        return None;
      }
      var path := directory + files[0];
      if path in loadedTextureCache {
        return Some(loadedTextureCache[path]);
      }
      textures := textures + [Texture(path)];
      var textureIndex := |textures| - 1;
      loadedTextureCache := loadedTextureCache[path := textureIndex];
      index := Some(textureIndex);
    }

    /** The slot assignments of `loadMaterials`: a slot is set, with its flag, only when a texture was found. */
    static method FillSlots(diffuse: Option<nat>, specular: Option<nat>, normal: Option<nat>) returns (material: Material)
      ensures material.hasDiffuseMap == (if diffuse.Some? then 1 else 0)
      ensures material.diffuseMapIndex == (if diffuse.Some? then ToUint32(diffuse.value) else 0)
      ensures material.hasSpecularMap == (if specular.Some? then 1 else 0)
      ensures material.specularMapIndex == (if specular.Some? then ToUint32(specular.value) else 0)
      ensures material.hasNormalMap == (if normal.Some? then 1 else 0)
      ensures material.normalMapIndex == (if normal.Some? then ToUint32(normal.value) else 0)
    {
      material := Material(0, 0, 0, 0, 0, 0);
      if diffuse.Some? {
        material := material.(diffuseMapIndex := ToUint32(diffuse.value), hasDiffuseMap := 1);
      }
      if specular.Some? {
        material := material.(specularMapIndex := ToUint32(specular.value), hasSpecularMap := 1);
      }
      if normal.Some? {
        material := material.(normalMapIndex := ToUint32(normal.value), hasNormalMap := 1);
      }
    }

    /** One iteration of `loadMaterials`: resolves the three texture slots of `source`. */
    method LoadMaterial(source: SceneMaterial) returns (material: Material)
      requires Valid()
      modifies this`textures, this`loadedTextureCache
      ensures Valid()
      ensures Store() == MaterialStore(old(Store()), directory, source)
      ensures MaterialLoaded(directory, loadedTextureCache, material, source)
    {
      var diffuseMapIndex := LoadTexture(source, Diffuse);
      ghost var s1 := Store();
      var specularMapIndex := LoadTexture(source, Specular);
      ghost var s2 := Store();
      var normalMapIndex := LoadTexture(source, Height);
      StoreTextureExtends(s1, directory, source.Textures(Specular));
      StoreTextureExtends(s2, directory, source.Textures(Height));
      ExtendsTransitive(s1.cache, s2.cache, loadedTextureCache);

      material := FillSlots(diffuseMapIndex, specularMapIndex, normalMapIndex);
      SlotFromTexture(directory, s1.cache, loadedTextureCache, source.Textures(Diffuse), diffuseMapIndex,
                      material.hasDiffuseMap, material.diffuseMapIndex);
      SlotFromTexture(directory, s2.cache, loadedTextureCache, source.Textures(Specular), specularMapIndex,
                      material.hasSpecularMap, material.specularMapIndex);
      SlotFromTexture(directory, loadedTextureCache, loadedTextureCache, source.Textures(Height), normalMapIndex,
                      material.hasNormalMap, material.normalMapIndex);
    }

    /**
     * `loadMaterials`: one material per scene material, appended in scene
     * order, with its three slots resolved through the texture cache.
     */
    method LoadMaterials(scene: Scene)
      requires Valid()
      modifies this`textures, this`loadedTextureCache, this`materials
      ensures Valid()
      ensures Store() == SceneStore(old(Store()), directory, scene.materials)
      ensures old(materials) <= materials
      ensures MaterialsLoaded(directory, loadedTextureCache, materials[|old(materials)|..], scene.materials)
      ensures Extends(old(loadedTextureCache), loadedTextureCache)
      ensures loadedTextureCache.Keys == old(loadedTextureCache).Keys + ScenePaths(directory, scene.materials)
      ensures old(textures) <= textures
    {
      ghost var added: seq<Material> := [];
      var i := 0;
      while i < |scene.materials|
        invariant 0 <= i <= |scene.materials|
        invariant Valid()
        invariant Store() == SceneStore(old(Store()), directory, scene.materials[..i])
        invariant materials == old(materials) + added && |added| == i
        invariant MaterialsLoaded(directory, loadedTextureCache, added, scene.materials[..i])
      {
        var source := scene.materials[i];
        ghost var before := Store();
        var material := LoadMaterial(source);
        MaterialStoreExtends(before, directory, source);
        SceneStoreStep(old(Store()), directory, scene.materials, i);
        MaterialsLoadedExtend(directory, before.cache, loadedTextureCache, added, scene.materials[..i]);
        MaterialsLoadedAppend(directory, loadedTextureCache, added, scene.materials[..i], material, source);
        TakeStep(scene.materials, i);
        materials := materials + [material];
        added := added + [material];
        i := i + 1;
      }
      assert scene.materials[..i] == scene.materials;
      SceneStoreConsistent(old(Store()), directory, scene.materials);
      SceneStoreExtends(old(Store()), directory, scene.materials);
      SceneStoreKeys(old(Store()), directory, scene.materials);
      DropAppend(old(materials), added);
    }

    /** `createMaterialBuffer`: the storage buffer holds a copy of the materials. */
    method CreateMaterialBuffer()
      modifies this`materialBuffer
      ensures materialBuffer == materials
    {
      materialBuffer := materials;
    }

    /** `getIndices`: the corners of every face, face after face. */
    static method GetIndices(mesh: SceneMesh) returns (indices: seq<Uint32>)
      requires Triangulated(mesh.faces)
      ensures indices == TriangleIndices(mesh.faces)
      ensures |indices| == 3 * |mesh.faces|
      ensures forall i, k :: 0 <= i < |mesh.faces| && 0 <= k < 3 ==> indices[3 * i + k] == mesh.faces[i].indices[k]
    {
      var faceCount := |mesh.faces|;
      indices := [];
      var i := 0;
      while i < faceCount
        invariant 0 <= i <= faceCount
        invariant Triangulated(mesh.faces[..i])
        invariant indices == TriangleIndices(mesh.faces[..i])
      {
        var face := mesh.faces[i];
        assert face in mesh.faces;
        assert mesh.faces[..i + 1][..i] == mesh.faces[..i];
        indices := indices + [face.indices[0]];
        indices := indices + [face.indices[1]];
        indices := indices + [face.indices[2]];
        i := i + 1;
      }
      assert mesh.faces[..faceCount] == mesh.faces;
      forall i, k | 0 <= i < |mesh.faces| && 0 <= k < 3
        ensures |indices| == 3 * |mesh.faces| && indices[3 * i + k] == mesh.faces[i].indices[k]
      {
        TriangleIndicesAt(mesh.faces, i, k);
      }
      if faceCount == 0 {
        assert |indices| == 0;
      } else {
        TriangleIndicesAt(mesh.faces, 0, 0);
      }
    }

    /** `processMesh`: appends the mesh built from the scene mesh. */
    method ProcessMesh(mesh: SceneMesh)
      requires Triangulated(mesh.faces)
      modifies this`meshes
      ensures meshes == old(meshes) + [BuiltMesh(mesh)]
    {
      var indices := GetIndices(mesh);
      meshes := meshes + [Mesh(mesh.vertexCount, indices, mesh.materialIndex)];
    }

    /** The mesh loop of `processNode`: builds the referenced scene meshes in order. */
    method ProcessMeshes(scene: Scene, ids: seq<Uint32>)
      requires SceneWellFormed(scene) && RefsBelow(ids, |scene.meshes|)
      modifies this`meshes
      ensures meshes == old(meshes) + BuiltMeshes(scene, ids)
    {
      var i := 0;
      while i < |ids|
        invariant 0 <= i <= |ids|
        invariant meshes == old(meshes) + BuiltMeshes(scene, ids[..i])
      {
        assert ids[..i + 1][..i] == ids[..i];
        ProcessMesh(scene.meshes[ids[i]]);
        i := i + 1;
      }
      assert ids[..i] == ids;
    }

    /**
     * `processNode`: appends one mesh per mesh reference of the subtree, in
     * pre-order: the node's own meshes, then each child subtree, left to right.
     */
    method ProcessNode(scene: Scene, node: Node)
      requires SceneWellFormed(scene) && RefsBelow(PreorderMeshes(node), |scene.meshes|)
      modifies this`meshes
      ensures meshes == old(meshes) + BuiltMeshes(scene, PreorderMeshes(node))
      decreases node
    {
      NodeRefsBelow(node, |scene.meshes|);
      ChildrenRefsBelow(node, |node.children|, |scene.meshes|);
      ProcessMeshes(scene, node.meshes);
      assert node.meshes + ChildrenMeshes(node, 0) == node.meshes;
      var i := 0;
      while i < |node.children|
        invariant 0 <= i <= |node.children|
        invariant RefsBelow(node.meshes + ChildrenMeshes(node, i), |scene.meshes|)
        invariant meshes == old(meshes) + BuiltMeshes(scene, node.meshes + ChildrenMeshes(node, i))
      {
        ChildStep(scene, node, i);
        ghost var before := BuiltMeshes(scene, node.meshes + ChildrenMeshes(node, i));
        ghost var added := BuiltMeshes(scene, PreorderMeshes(node.children[i]));
        ProcessNode(scene, node.children[i]);
        assert meshes == (old(meshes) + before) + added;
        AppendAssociative(old(meshes), before, added);
        i := i + 1;
      }
    }

    /**
     * `createModel`: sets the directory, then either raises when the import
     * failed (no scene, an incomplete scene or no root node) or loads the
     * materials, fills the material buffer and walks the node tree.
     */
    method CreateModel(filename: string, imported: Option<Scene>) returns (r: Outcome<Error>)
      requires Valid() && |filename| < NPOS
      requires imported.Some? ==> SceneWellFormed(imported.value)
      modifies this
      ensures Valid()
      ensures directory == Directory(filename)
      ensures r.Fail? <==> imported.None? || imported.value.incomplete || imported.value.root.None?
      ensures r.Fail? ==>
        && r == LoadFailure()
        && textures == old(textures) && loadedTextureCache == old(loadedTextureCache)
        && materials == old(materials) && materialBuffer == old(materialBuffer) && meshes == old(meshes)
      ensures r.Pass? ==>
        var scene := imported.value;
        && old(materials) <= materials
        && MaterialsLoaded(directory, loadedTextureCache, materials[|old(materials)|..], scene.materials)
        && materialBuffer == materials
        && meshes == old(meshes) + BuiltMeshes(scene, PreorderMeshes(scene.root.value))
        && Store() == SceneStore(old(Store()), directory, scene.materials)
        && Extends(old(loadedTextureCache), loadedTextureCache)
        && loadedTextureCache.Keys == old(loadedTextureCache).Keys + ScenePaths(directory, scene.materials)
        && old(textures) <= textures
    {
      directory := Directory(filename);
      if imported.None? || imported.value.incomplete || imported.value.root.None? {
        return LoadFailure();
      }
      var scene := imported.value;
      LoadMaterials(scene);
      CreateMaterialBuffer();
      ProcessNode(scene, scene.root.value);
      r := Pass;
    }
  }
}
