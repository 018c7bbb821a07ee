/** `GameObject`: a named, textured mesh with a position, rotation and
    scale.  Its texture and mesh come from the shared resource cache, except
    that the path "NULL" means "none"; drawing writes the object's world
    matrix into a copy of the caller's constant-buffer record. */
module Entities {
  import opened Structures
  import opened Resources
  import opened Pipeline

  /** The path that stands for "no resource". */
  const NullPath := "NULL"

  /** The world matrix the constructor stores: translate, then rotate about
      X, Y and Z, then scale (the reverse of the order `Draw` uses). */
  function ConstructionWorld(position: Vec3, rotation: Vec3, scale: Vec3): Matrix
  {
    Product([Translate(position), RotateX(rotation.x), RotateY(rotation.y), RotateZ(rotation.z), Scaling(scale)])
  }

  /** The factors the constructor multiplies are those `Draw` multiplies,
      with translation and scaling swapped: the stored matrix is replaced
      by the first draw and never used before it. */
  lemma ConstructionSwapsEnds(position: Vec3, rotation: Vec3, scale: Vec3)
    ensures var c := ConstructionWorld(position, rotation, scale).factors;
            var d := DrawWorld(position, rotation, scale).factors;
            |c| == |d| == 5 && c[0] == d[4] && c[4] == d[0] && c[1..4] == d[1..4]
  {
  }

  class GameObject {
    var position: Vec3
    var rotation: Vec3
    var scale: Vec3
    const id: int
    const name: string
    var texture: Option<Handle>
    var meshData: MeshData
    var worldMatrix: Matrix
    const objPath: string
    const texPath: string

    /** What `Draw` reads of the object. */
    ghost function View(): ObjectView
      reads this`texture, this`meshData, this`position, this`rotation, this`scale
    {
      ObjectView(name, texture, meshData, position, rotation, scale)
    }

    /** Stores the arguments, computes the construction world matrix, then
        loads the texture and the mesh (the source does the two loads on two
        threads and joins both before returning; they touch disjoint halves
        of the cache). */
    constructor (rm: ResourceManager, objPath: string, texPath: string,
                 position: Vec3, rotation: Vec3, scale: Vec3, id: int, name: string,
                 createDDS: string -> Option<Handle>, loadOBJ: string -> MeshData)
      requires rm.Valid()
      modifies rm
      ensures rm.Valid()
      ensures this.objPath == objPath && this.texPath == texPath && this.id == id && this.name == name
      ensures this.position == position && this.rotation == rotation && this.scale == scale
      ensures worldMatrix == ConstructionWorld(position, rotation, scale)
      ensures texPath == NullPath ==>
        texture == None && rm.TextureCache() == old(rm.TextureCache()) && rm.textureLoads == old(rm.textureLoads)
      ensures texPath != NullPath ==>
        var o := Load(old(rm.TextureCache()), texPath, createDDS(texPath));
        texture == o.result && rm.TextureCache() == o.cache
      ensures objPath == NullPath ==>
        meshData == EmptyMesh && rm.MeshCache() == old(rm.MeshCache()) && rm.meshLoads == old(rm.meshLoads)
      ensures objPath != NullPath ==>
        var o := Load(old(rm.MeshCache()), objPath, Some(loadOBJ(objPath)));
        Some(meshData) == o.result && rm.MeshCache() == o.cache
    {
      this.objPath := objPath;
      this.texPath := texPath;
      this.position := position;
      this.rotation := rotation;
      this.scale := scale;
      this.id := id;
      this.name := name;
      texture := None;
      meshData := EmptyMesh;
      worldMatrix := ConstructionWorld(position, rotation, scale);
      new;
      LoadTexture(rm, createDDS);
      LoadMesh(rm, loadOBJ);
    }

    /** `LoadTexture`: nothing for the "NULL" path, otherwise whatever the
        cache hands back (possibly no texture). */
    method LoadTexture(rm: ResourceManager, createDDS: string -> Option<Handle>)
      requires rm.Valid()
      modifies this`texture, rm
      ensures rm.Valid()
      ensures texPath == NullPath ==>
        texture == old(texture) && rm.TextureCache() == old(rm.TextureCache()) && rm.textureLoads == old(rm.textureLoads)
      ensures texPath != NullPath ==>
        var o := Load(old(rm.TextureCache()), texPath, createDDS(texPath));
        texture == o.result && rm.TextureCache() == o.cache
      ensures rm.MeshCache() == old(rm.MeshCache()) && rm.meshLoads == old(rm.meshLoads)
    {
      if texPath == NullPath {
        return;
      }
      texture := rm.LoadTexture(texPath, createDDS);
    }

    /** `LoadMesh`: nothing for the "NULL" path, otherwise the cached mesh. */
    method LoadMesh(rm: ResourceManager, loadOBJ: string -> MeshData)
      requires rm.Valid()
      modifies this`meshData, rm
      ensures rm.Valid()
      ensures objPath == NullPath ==>
        meshData == old(meshData) && rm.MeshCache() == old(rm.MeshCache()) && rm.meshLoads == old(rm.meshLoads)
      ensures objPath != NullPath ==>
        var o := Load(old(rm.MeshCache()), objPath, Some(loadOBJ(objPath)));
        Some(meshData) == o.result && rm.MeshCache() == o.cache
      ensures rm.TextureCache() == old(rm.TextureCache()) && rm.textureLoads == old(rm.textureLoads)
    {
      if objPath == NullPath {
        return;
      }
      meshData := rm.LoadMesh(objPath, loadOBJ);
    }

    /** `Draw`: recompute the world matrix from the current transform, then
        bind the texture (even when there is none), upload the caller's
        record with only its world matrix replaced, bind the mesh buffers and
        draw its indices.  The caller's record is passed by value. */
    method Draw(cb: ConstantBuffer, ctx: DeviceContext)
      modifies this`worldMatrix, ctx
      ensures worldMatrix == DrawWorld(position, rotation, scale)
      ensures ctx.commands == old(ctx.commands) + ObjectCommands(View(), cb)
    {
      worldMatrix := DrawWorld(position, rotation, scale);
      var payload := cb.(world := Transposed(worldMatrix));
      ctx.Emit(BindTexture(texture));
      ctx.Emit(Upload(payload));
      ctx.Emit(BindMesh(meshData));
      ctx.Emit(DrawIndexed(Mesh(name), meshData.indexCount));
    }

    method SetPosition(p: Vec3)
      modifies this`position
      ensures position == p && GetPosition() == p
    {
      position := p;
    }

    method SetRotation(r: Vec3)
      modifies this`rotation
      ensures rotation == r && GetRotation() == r
    {
      rotation := r;
    }

    method SetScale(s: Vec3)
      modifies this`scale
      ensures scale == s
    {
      scale := s;
    }

    method SetWorldMatrix(m: Matrix)
      modifies this`worldMatrix
      ensures worldMatrix == m
    {
      worldMatrix := m;
    }

    method SetShaderResource(t: Option<Handle>)
      modifies this`texture
      ensures texture == t
    {
      texture := t;
    }

    method SetMeshData(m: MeshData)
      modifies this`meshData
      ensures meshData == m
    {
      meshData := m;
    }

    function GetPosition(): Vec3
      reads this
    {
      position
    }

    function GetRotation(): Vec3
      reads this
    {
      rotation
    }

    function GetShaderResource(): Option<Handle>
      reads this
    {
      texture
    }

    function GetMeshData(): MeshData
      reads this
    {
      meshData
    }
  }
}
