/** `MTLExporter`: one MTL block per material name met while visiting the
    meshes, the first material with a name deciding its block. The name
    registry lives only for one `parse` call. */
module MtlExporter {
  import opened Common
  import opened SceneGraph

  /** A material together with the name the exporter gives it. */
  datatype Candidate = Candidate(name: string, mat: Material)

  /** `${child.name}_mat${idx}` for array materials, `${child.name}_mat`
      for a single one, nothing for a mesh without material. */
  function MeshCandidates(o: Object3D): (r: seq<Candidate>)
    requires o.Mesh?
  {
    match o.material
    case Multi(ms) => Numbered(o.name, ms, |ms|)
    case Single(m) => [Candidate(o.name + "_mat", m)]
    case Unset => []
  }

  /** The first n materials of an array, material k named `<name>_mat<k>`. */
  function Numbered(name: string, ms: seq<Material>, n: nat): (r: seq<Candidate>)
    requires n <= |ms|
    ensures |r| == n
  {
    if n == 0 then [] else Numbered(name, ms, n - 1) + [Candidate(name + "_mat" + Decimal(n - 1), ms[n - 1])]
  }

  lemma {:induction false} NumberedAt(name: string, ms: seq<Material>, n: nat, k: nat)
    requires k < n <= |ms|
    ensures Numbered(name, ms, n)[k] == Candidate(name + "_mat" + Decimal(k), ms[k])
  {
    if k < n - 1 {
      NumberedAt(name, ms, n - 1, k);
    }
  }

  /** Material k of an array is named `<name>_mat<k>`, a single material
      `<name>_mat`, and a mesh without material contributes nothing. */
  lemma MeshCandidateNames(o: Object3D)
    requires o.Mesh?
    ensures var r := MeshCandidates(o);
            (o.material.Multi? ==>
               |r| == |o.material.ms| &&
               forall k :: 0 <= k < |r| ==> r[k] == Candidate(o.name + "_mat" + Decimal(k), o.material.ms[k])) &&
            (o.material.Single? ==> r == [Candidate(o.name + "_mat", o.material.m)]) &&
            (o.material.Unset? ==> r == [])
  {
    if o.material.Multi? {
      var ms := o.material.ms;
      forall k | 0 <= k < |ms|
        ensures MeshCandidates(o)[k] == Candidate(o.name + "_mat" + Decimal(k), ms[k])
      {
        NumberedAt(o.name, ms, |ms|, k);
      }
    }
  }

  /** The candidates of the first n visited objects, in visiting order. */
  function Candidates(scene: seq<Object3D>, n: nat): seq<Candidate>
    requires n <= |scene|
  {
    if n == 0 then [] else Candidates(scene, n - 1) + ObjectCandidates(scene[n - 1])
  }

  /** The candidates the traversal meets at one object: a mesh's, or none. */
  function ObjectCandidates(o: Object3D): seq<Candidate> {
    if o.Mesh? then MeshCandidates(o) else []
  }

  function NamesOf(cs: seq<Candidate>): (r: set<string>)
    ensures forall k :: 0 <= k < |cs| ==> cs[k].name in r
  {
    if cs == [] then {} else NamesOf(cs[..|cs| - 1]) + {cs[|cs| - 1].name}
  }

  /** The candidates that produce a block: those whose name was not met
      before. */
  function Kept(cs: seq<Candidate>): (r: seq<Candidate>)
    ensures |r| <= |cs|
  {
    if cs == [] then []
    else
      var init := Kept(cs[..|cs| - 1]);
      var c := cs[|cs| - 1];
      if c.name in NamesOf(cs[..|cs| - 1]) then init else init + [c]
  }

  /** The kept candidates come from the input, carry every name of it, and
      no two of them share a name. */
  lemma {:induction false} KeptDistinct(cs: seq<Candidate>)
    ensures forall k :: 0 <= k < |Kept(cs)| ==> Kept(cs)[k] in cs
    ensures NamesOf(Kept(cs)) == NamesOf(cs)
    ensures forall k, l :: 0 <= k < l < |Kept(cs)| ==> Kept(cs)[k].name != Kept(cs)[l].name
  {
    if cs != [] {
      var init, c := cs[..|cs| - 1], cs[|cs| - 1];
      KeptDistinct(init);
      var ki := Kept(init);
      assert forall k :: 0 <= k < |init| ==> init[k] in cs;
      if c.name !in NamesOf(init) {
        var r := ki + [c];
        assert r[..|ki|] == ki;
        assert NamesOf(r) == NamesOf(ki) + {c.name};
        forall k, l | 0 <= k < l < |r|
          ensures r[k].name != r[l].name
        {
          if l == |ki| {
            assert r[k] == ki[k];
            assert ki[k].name in NamesOf(ki);
          }
        }
      }
    }
  }

  /** `buildMaterial` output for a new name: its colour when the material
      has one (printed to 6 decimals), white otherwise. */
  function Block(c: Candidate): (r: seq<MtlLine>)
    ensures |r| == 7 && r[0] == NewMtl(c.name)
  {
    [NewMtl(c.name), Diffuse(c.mat.color.GetOr(WhiteColor)), Ambient, Specular, Shininess, Illumination, Blank]
  }

  function Blocks(cs: seq<Candidate>): (r: seq<MtlLine>)
    ensures |r| == 7 * |cs|
  {
    if cs == [] then [] else Blocks(cs[..|cs| - 1]) + Block(cs[|cs| - 1])
  }

  /** A kept candidate is the first one carrying its name. */
  lemma {:induction false} KeptIsFirst(cs: seq<Candidate>, k: nat)
    requires k < |cs| && forall j :: 0 <= j < k ==> cs[j].name != cs[k].name
    ensures cs[k] in Kept(cs)
  {
    var init, c := cs[..|cs| - 1], cs[|cs| - 1];
    if k < |init| {
      assert forall j :: 0 <= j < k ==> init[j] == cs[j];
      KeptIsFirst(init, k);
      assert cs[k] == init[k];
      assert Kept(cs) == Kept(init) || Kept(cs) == Kept(init) + [c];
    } else {
      assert forall j :: 0 <= j < |init| ==> init[j] == cs[j];
      NotYetNamed(init, c.name);
      assert Kept(cs) == Kept(init) + [c];
    }
  }

  lemma {:induction false} NotYetNamed(cs: seq<Candidate>, name: string)
    requires forall j :: 0 <= j < |cs| ==> cs[j].name != name
    ensures name !in NamesOf(cs)
  {
    if cs != [] {
      NotYetNamed(cs[..|cs| - 1], name);
    }
  }

  /** `buildMaterial`: a name already in the registry gives no text;
      otherwise it is registered and its block returned. */
  method BuildMaterial(material: Material, defaultName: string, registry: set<string>)
    returns (text: seq<MtlLine>, registry': set<string>)
    ensures registry' == registry + {defaultName}
    ensures text == if defaultName in registry then [] else Block(Candidate(defaultName, material))
  {
    if defaultName in registry {
      return [], registry;
    }
    registry' := registry + {defaultName};
    var lines := [NewMtl(defaultName)];
    if material.color.Some? {
      lines := lines + [Diffuse(material.color.value)];
    } else {
      lines := lines + [Diffuse(WhiteColor)];
    }
    lines := lines + [Ambient];
    lines := lines + [Specular];
    lines := lines + [Shininess];
    lines := lines + [Illumination];
    lines := lines + [Blank];
    text := lines;
  }

  /** The exporter's state after meeting the candidates cs: the blocks of
      the kept ones, and the registry of every name met. */
  predicate Exported(cs: seq<Candidate>, output: seq<MtlLine>, registry: set<string>) {
    output == Blocks(Kept(cs)) && registry == NamesOf(cs)
  }

  /** One candidate through `buildMaterial` keeps the exporter's state in
      step with the candidates met. */
  lemma ExportStep(seen: seq<Candidate>, c: Candidate, output: seq<MtlLine>, registry: set<string>,
                   text: seq<MtlLine>, registry': set<string>)
    requires Exported(seen, output, registry)
    requires registry' == registry + {c.name}
    requires text == if c.name in registry then [] else Block(c)
    ensures Exported(seen + [c], output + text, registry')
  {
    assert (seen + [c])[..|seen|] == seen;
    assert (Kept(seen) + [c])[..|Kept(seen)|] == Kept(seen);
    assert output + [] == output;
  }

  /** `buildMaterial` called for one candidate. */
  method BuildOne(c: Candidate, ghost seen: seq<Candidate>, output0: seq<MtlLine>, registry0: set<string>)
    returns (output: seq<MtlLine>, registry: set<string>)
    requires Exported(seen, output0, registry0)
    ensures Exported(seen + [c], output, registry)
  {
    var text;
    text, registry := BuildMaterial(c.mat, c.name, registry0);
    ExportStep(seen, c, output0, registry0, text, registry);
    output := output0 + text;
  }

  lemma PrefixStep(done: seq<Candidate>, cs: seq<Candidate>, j: nat)
    requires j < |cs|
    ensures done + cs[..j + 1] == (done + cs[..j]) + [cs[j]]
  {
    assert cs[..j + 1] == cs[..j] + [cs[j]];
  }

  /** The `forEach` over one mesh's candidates. */
  method BuildAll(cs: seq<Candidate>, ghost done: seq<Candidate>, output0: seq<MtlLine>, registry0: set<string>)
    returns (output: seq<MtlLine>, registry: set<string>)
    requires Exported(done, output0, registry0)
    ensures Exported(done + cs, output, registry)
  {
    output, registry := output0, registry0;
    assert done + cs[..0] == done;
    var j := 0;
    while j < |cs|
      invariant 0 <= j <= |cs|
      invariant Exported(done + cs[..j], output, registry)
    {
      output, registry := BuildOne(cs[j], done + cs[..j], output, registry);
      PrefixStep(done, cs, j);
      j := j + 1;
    }
    assert cs[..|cs|] == cs;
  }

  lemma CandidatesStep(scene: seq<Object3D>, i: nat)
    requires i < |scene|
    ensures Candidates(scene, i + 1) == Candidates(scene, i) + ObjectCandidates(scene[i])
  {
  }

  /** The traversal's visit of one object: `next` is what has been met
      once the object is visited. */
  method Visit(child: Object3D, ghost done: seq<Candidate>, ghost next: seq<Candidate>,
               output0: seq<MtlLine>, registry0: set<string>)
    returns (output: seq<MtlLine>, registry: set<string>)
    requires next == done + ObjectCandidates(child)
    requires Exported(done, output0, registry0)
    ensures Exported(next, output, registry)
  {
    if child.Mesh? {
      output, registry := BuildAll(MeshCandidates(child), done, output0, registry0);
    } else {
      assert next == done;
      output, registry := output0, registry0;
    }
  }

  /** `parse`: the registry starts empty, and the output is the blocks of
      the kept candidates, in order. */
  method Parse(scene: seq<Object3D>) returns (output: seq<MtlLine>)
    ensures output == Blocks(Kept(Candidates(scene, |scene|)))
  {
    output := [];
    var materials: set<string> := {};
    ghost var done: seq<Candidate> := [];
    var i := 0;
    while i < |scene|
      invariant 0 <= i <= |scene|
      invariant done == Candidates(scene, i)
      invariant Exported(done, output, materials)
    {
      ghost var next := done + ObjectCandidates(scene[i]);
      output, materials := Visit(scene[i], done, next, output, materials);
      CandidatesStep(scene, i);
      done := next;
      i := i + 1;
    }
  }

  /** Each name gets at most one block, and the block of a name is built
      from the first material that carried it. */
  lemma OneBlockPerName(scene: seq<Object3D>, k: nat)
    requires k < |Candidates(scene, |scene|)|
    requires var cs := Candidates(scene, |scene|); forall j :: 0 <= j < k ==> cs[j].name != cs[k].name
    ensures var kept := Kept(Candidates(scene, |scene|));
            Candidates(scene, |scene|)[k] in kept &&
            forall a, b :: 0 <= a < b < |kept| ==> kept[a].name != kept[b].name
  {
    KeptIsFirst(Candidates(scene, |scene|), k);
    KeptDistinct(Candidates(scene, |scene|));
  }
}
