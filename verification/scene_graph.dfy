/** The part of a three.js scene graph the two exporters read. A scene is
    given as the sequence of objects its `traverse` visits, root first;
    only meshes carry geometry and materials. */
module SceneGraph {
  import opened Common

  datatype Color = Color(r: real, g: real, b: real)

  const WhiteColor: Color := Color(1.0, 1.0, 1.0)

  /** The material classes the exporters tell apart. */
  datatype MaterialKind = Standard | Phong | OtherKind

  /** A material: its numeric id, its name (possibly empty), its class and
      its colour, when it has one. */
  datatype Material = Material(id: nat, name: string, kind: MaterialKind, color: Option<Color>)

  datatype Vertex = Vertex(x: real, y: real, z: real)

  /** A buffer geometry: the position attribute and the optional index. */
  datatype Geometry = Geometry(positions: seq<Vertex>, index: Option<seq<nat>>)

  /** `mesh.material`: one material, an array of them, or nothing. */
  datatype MeshMaterial = Single(m: Material) | Multi(ms: seq<Material>) | Unset

  /** A visited object: a mesh, or any other object (group, light, camera). */
  datatype Object3D =
    | Mesh(id: nat, name: string, geometry: Geometry, material: MeshMaterial)
    | OtherObject

  /** The lines of an MTL file; number formatting is left abstract. */
  datatype MtlLine =
    | NewMtl(name: string)
    | Diffuse(c: Color)
    | Ambient
    | Specular
    | Dissolve
    | Shininess
    | Illumination
    | Blank
}
