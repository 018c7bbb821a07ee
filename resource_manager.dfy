/** The process-wide resource cache: texture and mesh paths kept in vectors
    parallel to the loaded values, searched front to back, and appended to on
    a miss.  The DDS texture loader and the OBJ mesh loader are parameters:
    the first may fail, the second always yields a mesh record. */
module Resources {
  import opened Structures

  predicate NoDuplicates<T(==)>(s: seq<T>)
  {
    forall i, j :: 0 <= i < j < |s| ==> s[i] != s[j]
  }

  /** The index the linear scan stops at: the first one holding `p`. */
  function Find(paths: seq<string>, p: string): (r: Option<nat>)
    ensures r.None? <==> p !in paths
    ensures r.Some? ==> r.value < |paths| && paths[r.value] == p && p !in paths[..r.value]
    decreases |paths|
  {
    if |paths| == 0 then None
    else if paths[0] == p then Some(0)
    else match Find(paths[1..], p)
      case None => None
      case Some(i) =>
        assert paths[1..][..i] == paths[1..i + 1];
        assert paths[..i + 1] == [paths[0]] + paths[1..i + 1];
        Some(i + 1)
  }

  /** One cache: paths and the values loaded for them, at the same indices. */
  datatype Cache<V> = Cache(paths: seq<string>, values: seq<V>)
  {
    /** The two vectors have equal length and no path is stored twice. */
    ghost predicate WellFormed()
    {
      |paths| == |values| && NoDuplicates(paths)
    }
  }

  /** What one load call leaves behind: the cache, the value handed back
      (`None` is a null texture) and whether the loader was run. */
  datatype LoadOutcome<V> = LoadOutcome(cache: Cache<V>, result: Option<V>, loaderRan: bool)

  /** One `LoadTexture`/`LoadMesh` call on path `p`, where `onMiss` is what the
      loader would produce for `p` (`None` when it fails). */
  function Load<V>(c: Cache<V>, p: string, onMiss: Option<V>): (o: LoadOutcome<V>)
    requires |c.paths| == |c.values|
    ensures |o.cache.paths| == |o.cache.values|
    // a hit hands back the value stored at the first matching index and
    // neither runs the loader nor changes the cache
    ensures p in c.paths ==>
      !o.loaderRan && o.cache == c && o.result == Some(c.values[Find(c.paths, p).value])
    // a miss runs the loader; only a successful load is remembered
    ensures p !in c.paths ==> o.loaderRan && o.result == onMiss
    ensures p !in c.paths && onMiss.Some? ==>
      o.cache == Cache(c.paths + [p], c.values + [onMiss.value])
    ensures p !in c.paths && onMiss.None? ==> o.cache == c
  {
    match Find(c.paths, p)
    case Some(i) => LoadOutcome(c, Some(c.values[i]), false)
    case None =>
      if onMiss.None? then LoadOutcome(c, None, true)
      else LoadOutcome(Cache(c.paths + [p], c.values + [onMiss.value]), onMiss, true)
  }

  /** Appending only after a full scan has missed keeps every path unique. */
  lemma LoadKeepsWellFormed<V>(c: Cache<V>, p: string, onMiss: Option<V>)
    requires c.WellFormed()
    ensures Load(c, p, onMiss).cache.WellFormed()
  {
    var o := Load(c, p, onMiss);
    if p !in c.paths && onMiss.Some? {
      var s := c.paths + [p];
      forall i, j | 0 <= i < j < |s| ensures s[i] != s[j] {
        if j == |c.paths| {
          assert s[i] == c.paths[i];
        }
      }
    }
  }

  /** A path just stored is found at the end of the vector. */
  lemma FindAppended(paths: seq<string>, p: string)
    requires p !in paths
    ensures Find(paths + [p], p) == Some(|paths|)
  {
    var r := Find(paths + [p], p);
    assert (paths + [p])[|paths|] == p;
  }

  /** Loading a path a second time, after a load that produced a value,
      hands back the same value, leaves the cache alone and does not run the
      loader, whatever the loader would produce now. */
  lemma LoadIsIdempotent<V>(c: Cache<V>, p: string, first: Option<V>, second: Option<V>)
    requires |c.paths| == |c.values|
    requires Load(c, p, first).result.Some?
    ensures var o1 := Load(c, p, first);
            Load(o1.cache, p, second) == LoadOutcome(o1.cache, o1.result, false)
  {
    var o1 := Load(c, p, first);
    if p !in c.paths {
      FindAppended(c.paths, p);
      assert o1.cache.values[|c.paths|] == first.value;
    }
  }

  /** A failed texture load leaves nothing behind, so the next request for
      the same path runs the loader again. */
  lemma FailedLoadIsRetried<V>(c: Cache<V>, p: string, second: Option<V>)
    requires |c.paths| == |c.values|
    requires p !in c.paths
    ensures Load(c, p, None).cache == c
    ensures Load(Load(c, p, None).cache, p, second).loaderRan
  {
  }

  /** `ResourceManager`: the two caches as four parallel vectors.  The ghost
      logs record every run of each loader. */
  class ResourceManager {
    var texturePaths: seq<string>
    var textures: seq<Handle>
    var meshPaths: seq<string>
    var meshes: seq<MeshData>
    ghost var textureLoads: seq<string>
    ghost var meshLoads: seq<string>

    ghost function TextureCache(): Cache<Handle>
      reads this
    {
      Cache(texturePaths, textures)
    }

    ghost function MeshCache(): Cache<MeshData>
      reads this
    {
      Cache(meshPaths, meshes)
    }

    ghost predicate Valid()
      reads this
    {
      TextureCache().WellFormed() && MeshCache().WellFormed()
    }

    constructor ()
      ensures Valid()
      ensures texturePaths == [] && textures == [] && meshPaths == [] && meshes == []
      ensures textureLoads == [] && meshLoads == []
    {
      texturePaths, textures := [], [];
      meshPaths, meshes := [], [];
      textureLoads, meshLoads := [], [];
    }

    /** `LoadTexture`: scan for `path`; on a miss run the DDS loader and keep
        its texture only if it succeeded. */
    method LoadTexture(path: string, createDDS: string -> Option<Handle>) returns (texture: Option<Handle>)
      requires Valid()
      modifies this
      ensures Valid()
      ensures var o := Load(old(TextureCache()), path, createDDS(path));
              TextureCache() == o.cache && texture == o.result &&
              textureLoads == old(textureLoads) + (if o.loaderRan then [path] else [])
      ensures MeshCache() == old(MeshCache()) && meshLoads == old(meshLoads)
    {
      ghost var before := TextureCache();
      var i := 0;
      while i < |texturePaths|
        invariant 0 <= i <= |texturePaths|
        invariant path !in texturePaths[..i]
      {
        if texturePaths[i] == path {
          return Some(textures[i]);
        }
        assert texturePaths[..i + 1] == texturePaths[..i] + [texturePaths[i]];
        i := i + 1;
      }
      assert texturePaths[..i] == texturePaths;
      var loaded := createDDS(path);
      textureLoads := textureLoads + [path];
      if loaded.None? {
        return None;
      }
      texturePaths := texturePaths + [path];
      textures := textures + [loaded.value];
      LoadKeepsWellFormed(before, path, loaded);
      return loaded;
    }

    /** `LoadMesh`: scan for `path`; on a miss run the OBJ loader, which has
        no failure result, and always keep what it returns. */
    method LoadMesh(path: string, loadOBJ: string -> MeshData) returns (mesh: MeshData)
      requires Valid()
      modifies this
      ensures Valid()
      ensures var o := Load(old(MeshCache()), path, Some(loadOBJ(path)));
              MeshCache() == o.cache && Some(mesh) == o.result &&
              meshLoads == old(meshLoads) + (if o.loaderRan then [path] else [])
      ensures TextureCache() == old(TextureCache()) && textureLoads == old(textureLoads)
    {
      ghost var before := MeshCache();
      var i := 0;
      while i < |meshPaths|
        invariant 0 <= i <= |meshPaths|
        invariant path !in meshPaths[..i]
      {
        if meshPaths[i] == path {
          return meshes[i];
        }
        assert meshPaths[..i + 1] == meshPaths[..i] + [meshPaths[i]];
        i := i + 1;
      }
      assert meshPaths[..i] == meshPaths;
      mesh := loadOBJ(path);
      meshLoads := meshLoads + [path];
      meshPaths := meshPaths + [path];
      meshes := meshes + [mesh];
      LoadKeepsWellFormed(before, path, Some(mesh));
    }
  }
}
