/** `OBJExporterWithMTL`: writes the meshes of a scene as OBJ text and
    collects their materials, by name, for the MTL text it builds next. */
module ObjExporter {
  import opened Common
  import opened SceneGraph

  /** The lines of the OBJ text; numbers are kept as numbers. */
  datatype ObjLine =
    | MtlLib
    | ObjectName(name: string)
    | UseMtl(name: string)
    | VertexLine(v: Vertex)
    | FaceLine(a: int, b: int, c: int)

  /** A key of the `materials` record, with the material it holds. */
  datatype Entry = Entry(name: string, mat: Material)

  /** The material a mesh is written with: the first of an array. */
  predicate HasMaterial(o: Object3D)
    requires o.Mesh?
  {
    o.material.Single? || (o.material.Multi? && |o.material.ms| > 0)
  }

  function FirstMaterial(o: Object3D): Material
    requires o.Mesh? && HasMaterial(o)
  {
    if o.material.Single? then o.material.m else o.material.ms[0]
  }

  /** `mat.name || \`material_${mat.id}\`` */
  function MaterialName(m: Material): (r: string)
    ensures r != ""
  {
    if m.name != "" then m.name else Label("material_", m.id)
  }

  /** `mesh.name || "mesh_" + mesh.id` */
  function MeshName(o: Object3D): string
    requires o.Mesh?
  {
    if o.name != "" then o.name else Label("mesh_", o.id)
  }

  /** What `parse` needs of the meshes: a material to read the name of, and
      index arrays made of whole triangles. */
  predicate Parsable(scene: seq<Object3D>) {
    forall k :: 0 <= k < |scene| && scene[k].Mesh? ==>
      HasMaterial(scene[k]) && (scene[k].geometry.index.Some? ==> |scene[k].geometry.index.value| % 3 == 0)
  }

  // ---------------------------------------------------------------------
  // The material record

  /** Whether the record has a key with this name. */
  predicate Named(reg: seq<Entry>, name: string) {
    exists k :: 0 <= k < |reg| && reg[k].name == name
  }

  predicate DistinctNames(reg: seq<Entry>) {
    forall k, l :: 0 <= k < l < |reg| ==> reg[k].name != reg[l].name
  }

  /** `this.materials[name] = mat`: a new key goes last, an existing key
      keeps its place and takes the new material. */
  function Register(reg: seq<Entry>, name: string, mat: Material): (r: seq<Entry>)
    ensures |r| == if Named(reg, name) then |reg| else |reg| + 1
    ensures forall k :: 0 <= k < |r| ==> r[k] == (if k < |reg| && reg[k].name != name then reg[k] else Entry(name, mat))
    ensures Named(r, name)
    ensures DistinctNames(reg) ==> DistinctNames(r)
  {
    if Named(reg, name) then
      seq(|reg|, k requires 0 <= k < |reg| => if reg[k].name == name then Entry(name, mat) else reg[k])
    else
      var r := reg + [Entry(name, mat)];
      assert r[|reg|].name == name;
      r
  }

  /** The record after the first n visited objects. */
  function Registry(scene: seq<Object3D>, n: nat): seq<Entry>
    requires n <= |scene| && Parsable(scene)
  {
    if n == 0 then []
    else
      var reg := Registry(scene, n - 1);
      var o := scene[n - 1];
      if o.Mesh? then Register(reg, MaterialName(FirstMaterial(o)), FirstMaterial(o)) else reg
  }

  /** Whether mesh k is the last of the first n meshes whose material
      carries this name. */
  predicate LastNamed(scene: seq<Object3D>, n: nat, k: nat, name: string)
    requires k < n <= |scene| && Parsable(scene)
  {
    scene[k].Mesh? && MaterialName(FirstMaterial(scene[k])) == name &&
    forall j :: k < j < n && scene[j].Mesh? ==> MaterialName(FirstMaterial(scene[j])) != name
  }

  /** The record has one entry per name, and a name's entry holds the
      material of the last mesh that used the name. */
  lemma {:induction false} RegistryLastWins(scene: seq<Object3D>, n: nat, k: nat, name: string)
    requires k < n <= |scene| && Parsable(scene) && LastNamed(scene, n, k, name)
    ensures DistinctNames(Registry(scene, n))
    ensures Entry(name, FirstMaterial(scene[k])) in Registry(scene, n)
  {
    RegistryDistinct(scene, n);
    var reg := Registry(scene, n - 1);
    if k == n - 1 {
      var r := Register(reg, name, FirstMaterial(scene[k]));
      var j :| 0 <= j < |r| && r[j].name == name;
      assert r[j] == Entry(name, FirstMaterial(scene[k]));
      assert r[j] in r;
    } else {
      RegistryLastWins(scene, n - 1, k, name);
      var e := Entry(name, FirstMaterial(scene[k]));
      var j :| 0 <= j < |reg| && reg[j] == e;
      var o := scene[n - 1];
      if o.Mesh? {
        var other := MaterialName(FirstMaterial(o));
        assert other != name;
        var r := Register(reg, other, FirstMaterial(o));
        assert j < |reg| && reg[j].name != other;
        assert r[j] == e;
        assert r[j] in r;
      }
    }
  }

  lemma {:induction false} RegistryDistinct(scene: seq<Object3D>, n: nat)
    requires n <= |scene| && Parsable(scene)
    ensures DistinctNames(Registry(scene, n))
  {
    if n > 0 {
      RegistryDistinct(scene, n - 1);
    }
  }

  // ---------------------------------------------------------------------
  // The OBJ text

  function VertexLines(vs: seq<Vertex>): (r: seq<ObjLine>)
    ensures |r| == |vs|
  {
    seq(|vs|, k requires 0 <= k < |vs| => VertexLine(vs[k]))
  }

  /** One face per index triple, each index shifted to 1-based and past
      the vertices written before. */
  function IndexedFaces(idx: seq<nat>, offset: int): (r: seq<ObjLine>)
    requires |idx| % 3 == 0
    ensures |r| == |idx| / 3
  {
    seq(|idx| / 3, k requires 0 <= k < |idx| / 3 =>
      FaceLine(idx[3 * k] + 1 + offset, idx[3 * k + 1] + 1 + offset, idx[3 * k + 2] + 1 + offset))
  }

  /** One face per step of 3 over the vertices: `(offset+i+1, +2, +3)`. */
  function SequentialFaces(count: nat, offset: int): (r: seq<ObjLine>)
    ensures |r| == (count + 2) / 3
  {
    seq((count + 2) / 3, k requires 0 <= k < (count + 2) / 3 => FaceLine(offset + 3 * k + 1, offset + 3 * k + 2, offset + 3 * k + 3))
  }

  function FaceLines(g: Geometry, offset: int): seq<ObjLine>
    requires g.index.Some? ==> |g.index.value| % 3 == 0
  {
    if g.index.Some? then IndexedFaces(g.index.value, offset) else SequentialFaces(|g.positions|, offset)
  }

  /** What one mesh writes when `offset` vertices came before it. */
  function MeshLines(o: Object3D, offset: int): seq<ObjLine>
    requires o.Mesh? && HasMaterial(o) && (o.geometry.index.Some? ==> |o.geometry.index.value| % 3 == 0)
  {
    [ObjectName(MeshName(o)), UseMtl(MaterialName(FirstMaterial(o)))] +
    VertexLines(o.geometry.positions) + FaceLines(o.geometry, offset)
  }

  /** `vertexOffset` after the first n visited objects. */
  function Offset(scene: seq<Object3D>, n: nat): (r: nat)
    requires n <= |scene|
  {
    if n == 0 then 0
    else Offset(scene, n - 1) + (if scene[n - 1].Mesh? then |scene[n - 1].geometry.positions| else 0)
  }

  /** `objOutput` after the first n visited objects. */
  function ObjText(scene: seq<Object3D>, n: nat): seq<ObjLine>
    requires n <= |scene| && Parsable(scene)
  {
    if n == 0 then [MtlLib]
    else
      var o := scene[n - 1];
      ObjText(scene, n - 1) + (if o.Mesh? then MeshLines(o, Offset(scene, n - 1)) else [])
  }

  function CountVertices(ls: seq<ObjLine>): nat {
    if ls == [] then 0 else CountVertices(ls[..|ls| - 1]) + (if ls[|ls| - 1].VertexLine? then 1 else 0)
  }

  lemma {:induction false} CountVerticesAppend(a: seq<ObjLine>, b: seq<ObjLine>)
    ensures CountVertices(a + b) == CountVertices(a) + CountVertices(b)
    decreases |b|
  {
    if b == [] {
      assert a + b == a;
    } else {
      assert (a + b)[..|a + b| - 1] == a + b[..|b| - 1];
      CountVerticesAppend(a, b[..|b| - 1]);
    }
  }

  lemma {:induction false} CountOnly(ls: seq<ObjLine>, vertices: bool)
    requires forall k :: 0 <= k < |ls| ==> ls[k].VertexLine? == vertices
    ensures CountVertices(ls) == if vertices then |ls| else 0
  {
    if ls != [] {
      CountOnly(ls[..|ls| - 1], vertices);
    }
  }

  lemma MeshLinesCount(o: Object3D, offset: int)
    requires o.Mesh? && HasMaterial(o) && (o.geometry.index.Some? ==> |o.geometry.index.value| % 3 == 0)
    ensures CountVertices(MeshLines(o, offset)) == |o.geometry.positions|
  {
    var head := [ObjectName(MeshName(o)), UseMtl(MaterialName(FirstMaterial(o)))];
    var vs := VertexLines(o.geometry.positions);
    var fs := FaceLines(o.geometry, offset);
    CountOnly(head, false);
    CountOnly(vs, true);
    CountOnly(fs, false);
    CountVerticesAppend(head, vs);
    CountVerticesAppend(head + vs, fs);
  }

  /** The vertex offset always equals the number of vertex lines written so
      far, so every face refers to vertices by their position in the file. */
  lemma {:induction false} OffsetCountsVertices(scene: seq<Object3D>, n: nat)
    requires n <= |scene| && Parsable(scene)
    ensures CountVertices(ObjText(scene, n)) == Offset(scene, n)
  {
    if n == 0 {
      assert CountVertices([MtlLib]) == CountVertices([]) + 0;
    } else {
      OffsetCountsVertices(scene, n - 1);
      var o := scene[n - 1];
      if o.Mesh? {
        var off := Offset(scene, n - 1);
        MeshLinesCount(o, off);
        CountVerticesAppend(ObjText(scene, n - 1), MeshLines(o, off));
      } else {
        assert ObjText(scene, n - 1) + [] == ObjText(scene, n - 1);
      }
    }
  }

  /** The text always opens with the `mtllib` line. */
  lemma {:induction false} ObjTextOpens(scene: seq<Object3D>, n: nat)
    requires n <= |scene| && Parsable(scene)
    ensures |ObjText(scene, n)| > 0 && ObjText(scene, n)[0] == MtlLib
  {
    if n > 0 {
      ObjTextOpens(scene, n - 1);
    }
  }

  predicate FaceWithin(l: ObjLine, lo: int, hi: int) {
    l.FaceLine? && lo <= l.a <= hi && lo <= l.b <= hi && lo <= l.c <= hi
  }

  /** Indices below the vertex count give faces on the mesh's own vertices. */
  lemma IndexedFacesWithin(idx: seq<nat>, count: nat, offset: int)
    requires |idx| % 3 == 0 && forall k :: 0 <= k < |idx| ==> idx[k] < count
    ensures forall k :: 0 <= k < |IndexedFaces(idx, offset)| ==>
              FaceWithin(IndexedFaces(idx, offset)[k], offset + 1, offset + count)
  {
    forall k | 0 <= k < |idx| / 3
      ensures FaceWithin(IndexedFaces(idx, offset)[k], offset + 1, offset + count)
    {
      assert 3 * k + 2 < |idx|;
    }
  }

  /** Without an index, the faces stay on the mesh's own vertices exactly
      when the vertex count is a multiple of 3; otherwise the last face
      reaches past them. */
  lemma SequentialFacesWithin(count: nat, offset: int)
    requires count > 0
    ensures (forall k :: 0 <= k < |SequentialFaces(count, offset)| ==>
               FaceWithin(SequentialFaces(count, offset)[k], offset + 1, offset + count))
            <==> count % 3 == 0
  {
    var fs := SequentialFaces(count, offset);
    var last := (count + 2) / 3 - 1;
    if count % 3 == 0 {
      forall k | 0 <= k < |fs|
        ensures FaceWithin(fs[k], offset + 1, offset + count)
      {
        assert 3 * k + 3 <= count;
      }
    } else {
      assert fs[last].c == offset + 3 * last + 3 > offset + count;
    }
  }

  // ---------------------------------------------------------------------
  // The MTL text

  /** `buildMTL` for one record entry: the colour of standard and Phong
      materials, white for the others. */
  function EntryBlock(e: Entry): (r: seq<MtlLine>)
    ensures |r| == 6 && r[0] == NewMtl(e.name)
  {
    var color := if e.mat.kind == Standard || e.mat.kind == Phong then e.mat.color.GetOr(WhiteColor) else WhiteColor;
    [NewMtl(e.name), Diffuse(color), Ambient, Specular, Dissolve, Blank]
  }

  function MtlText(reg: seq<Entry>): (r: seq<MtlLine>)
    ensures |r| == 6 * |reg|
  {
    if reg == [] then [] else MtlText(reg[..|reg| - 1]) + EntryBlock(reg[|reg| - 1])
  }

  /** The MTL text is one block per record entry, in record order. */
  lemma {:induction false} MtlBlocks(reg: seq<Entry>, k: nat)
    requires k < |reg|
    ensures MtlText(reg)[6 * k..6 * k + 6] == EntryBlock(reg[k])
  {
    var init := reg[..|reg| - 1];
    if k < |init| {
      MtlBlocks(init, k);
      assert MtlText(reg)[..6 * |init|] == MtlText(init);
      assert MtlText(reg)[6 * k..6 * k + 6] == MtlText(init)[6 * k..6 * k + 6];
    } else {
      assert MtlText(reg)[6 * k..] == EntryBlock(reg[k]);
    }
  }

  // ---------------------------------------------------------------------
  // The exporter object

  class ObjExporterWithMtl {
    var objOutput: seq<ObjLine>
    var materials: seq<Entry>

    constructor ()
      ensures objOutput == [] && materials == []
    {
      objOutput := [];
      materials := [];
    }

    /** `parse`: both fields are reset first, so the result depends on the
        scene alone. */
    method Parse(scene: seq<Object3D>) returns (obj: seq<ObjLine>, mtl: seq<MtlLine>)
      requires Parsable(scene)
      modifies this
      ensures objOutput == ObjText(scene, |scene|) && materials == Registry(scene, |scene|)
      ensures obj == objOutput && mtl == MtlText(materials)
      ensures DistinctNames(materials)
    {
      objOutput := [];
      materials := [];
      objOutput := objOutput + [MtlLib];
      var vertexOffset := 0;
      var i := 0;
      while i < |scene|
        invariant 0 <= i <= |scene|
        invariant objOutput == ObjText(scene, i) && materials == Registry(scene, i)
        invariant vertexOffset == Offset(scene, i)
      {
        var child := scene[i];
        if child.Mesh? {
          WriteMesh(child, vertexOffset);
          vertexOffset := vertexOffset + |child.geometry.positions|;
        }
        i := i + 1;
      }
      obj := objOutput;
      mtl := BuildMtl();
      RegistryDistinct(scene, |scene|);
    }

    /** The body of the `traverse` callback for a mesh. */
    method WriteMesh(child: Object3D, vertexOffset: int)
      requires child.Mesh? && HasMaterial(child)
      requires child.geometry.index.Some? ==> |child.geometry.index.value| % 3 == 0
      modifies this
      ensures objOutput == old(objOutput) + MeshLines(child, vertexOffset)
      ensures materials == Register(old(materials), MaterialName(FirstMaterial(child)), FirstMaterial(child))
    {
      var mat := FirstMaterial(child);
      var matName := MaterialName(mat);
      materials := Register(materials, matName, mat);
      objOutput := objOutput + [ObjectName(MeshName(child)), UseMtl(matName)];
      AppendVertices(child.geometry.positions);
      if child.geometry.index.Some? {
        AppendIndexedFaces(child.geometry.index.value, vertexOffset);
      } else {
        AppendSequentialFaces(|child.geometry.positions|, vertexOffset);
      }
    }

    method AppendVertices(vs: seq<Vertex>)
      modifies this
      ensures objOutput == old(objOutput) + VertexLines(vs) && materials == old(materials)
    {
      var i := 0;
      while i < |vs|
        invariant 0 <= i <= |vs|
        invariant objOutput == old(objOutput) + VertexLines(vs[..i]) && materials == old(materials)
      {
        objOutput := objOutput + [VertexLine(vs[i])];
        i := i + 1;
      }
      assert vs[..|vs|] == vs;
    }

    method AppendIndexedFaces(idx: seq<nat>, vertexOffset: int)
      requires |idx| % 3 == 0
      modifies this
      ensures objOutput == old(objOutput) + IndexedFaces(idx, vertexOffset) && materials == old(materials)
    {
      var i := 0;
      while i < |idx|
        invariant 0 <= i <= |idx| && i % 3 == 0
        invariant objOutput == old(objOutput) + IndexedFaces(idx[..i], vertexOffset) && materials == old(materials)
      {
        var a := idx[i] + 1 + vertexOffset;
        var b := idx[i + 1] + 1 + vertexOffset;
        var c := idx[i + 2] + 1 + vertexOffset;
        assert IndexedFaces(idx[..i + 3], vertexOffset) == IndexedFaces(idx[..i], vertexOffset) + [FaceLine(a, b, c)];
        objOutput := objOutput + [FaceLine(a, b, c)];
        i := i + 3;
      }
      assert idx[..|idx|] == idx;
    }

    method AppendSequentialFaces(count: nat, vertexOffset: int)
      modifies this
      ensures objOutput == old(objOutput) + SequentialFaces(count, vertexOffset) && materials == old(materials)
    {
      var i := 0;
      while i < count
        invariant 0 <= i && i % 3 == 0 && i <= count + 2
        invariant objOutput == old(objOutput) + SequentialFaces(i, vertexOffset) && materials == old(materials)
      {
        assert SequentialFaces(i + 3, vertexOffset) == SequentialFaces(i, vertexOffset) +
          [FaceLine(vertexOffset + i + 1, vertexOffset + i + 2, vertexOffset + i + 3)];
        objOutput := objOutput + [FaceLine(vertexOffset + i + 1, vertexOffset + i + 2, vertexOffset + i + 3)];
        i := i + 3;
      }
      assert (i + 2) / 3 == (count + 2) / 3;
    }

    /** `buildMTL`: one block per record entry. */
    method BuildMtl() returns (mtlOutput: seq<MtlLine>)
      ensures mtlOutput == MtlText(materials)
    {
      mtlOutput := [];
      var k := 0;
      while k < |materials|
        invariant 0 <= k <= |materials|
        invariant mtlOutput == MtlText(materials[..k])
      {
        assert materials[..k + 1][..k] == materials[..k];
        mtlOutput := mtlOutput + EntryBlock(materials[k]);
        k := k + 1;
      }
      assert materials[..|materials|] == materials;
    }
  }
}
