/** The drag-and-drop model viewer: which files it accepts, and how its
    handlers change the loaded file, the error, the selected mesh and the
    per-mesh colours. */
module Drop {
  import opened Common
  import opened Text

  const RejectMessage: string := "File harus berformat STL atau OBJ"
  const DefaultMeshColor: string := "white"

  /** `file.name.toLowerCase().split(".").pop()` */
  function Extension(name: string): string
  {
    AfterLastDot(Lower(name))
  }

  /** A non-empty extension that is `stl` or `obj`. */
  predicate Accepted(name: string) {
    Extension(name) == "stl" || Extension(name) == "obj"
  }

  lemma {:induction false} LowerAppend(a: string, b: string)
    ensures Lower(a + b) == Lower(a) + Lower(b)
  {
    if a != [] {
      assert (a + b)[1..] == a[1..] + b;
      LowerAppend(a[1..], b);
    } else {
      assert a + b == b;
    }
  }

  lemma {:induction false} LowerKeepsNoDot(s: string)
    requires '.' !in s
    ensures '.' !in Lower(s)
  {
    if s != [] {
      LowerKeepsNoDot(s[1..]);
      assert Lower(s) == Lower([s[0]]) + Lower(s[1..]) by {
        LowerAppend([s[0]], s[1..]);
        assert [s[0]] + s[1..] == s;
      }
    }
  }

  lemma {:induction false} AfterLastDotOfSuffix(base: string, ext: string)
    requires '.' !in ext
    ensures AfterLastDot(base + "." + ext) == ext
    decreases |ext|
  {
    var s := base + "." + ext;
    if ext == [] {
      assert s[|s| - 1] == '.';
    } else {
      var init, last := ext[..|ext| - 1], ext[|ext| - 1];
      assert '.' !in init by {
        forall k | 0 <= k < |init| ensures init[k] != '.' {
          assert init[k] == ext[k];
        }
      }
      AfterLastDotOfSuffix(base, init);
      var front := base + "." + init;
      assert s == front + [last] by {
        assert ext == init + [last];
      }
      assert s[..|s| - 1] == front;
      assert AfterLastDot(s) == AfterLastDot(front) + [last];
    }
  }

  /** The extension of a name is the lower-cased text after its last dot. */
  lemma ExtensionOfName(base: string, ext: string)
    requires '.' !in ext
    ensures Extension(base + "." + ext) == Lower(ext)
  {
    var lowered := Lower(base + "." + ext);
    assert lowered == Lower(base) + "." + Lower(ext) by {
      LowerAppend(base + ".", ext);
      LowerAppend(base, ".");
      assert Lower(".") == ".";
    }
    LowerKeepsNoDot(ext);
    AfterLastDotOfSuffix(Lower(base), Lower(ext));
  }

  /** A name without a dot is its own extension, lower-cased. */
  lemma ExtensionOfDotlessName(name: string)
    requires '.' !in name
    ensures Extension(name) == Lower(name)
  {
    LowerKeepsNoDot(name);
    NoDotIsWhole(Lower(name));
  }

  lemma NoDotIsWhole(s: string)
    requires '.' !in s
    ensures AfterLastDot(s) == s
  {
    AfterLastDotSuffix(s);
    assert forall j :: 0 <= j < |s| ==> s[j] != '.';
    assert s[0..] == s;
  }

  /** `meshColors?.[meshId] || "white"` */
  function MeshColor(colors: map<string, string>, meshId: string): (r: string)
    ensures r != ""
    ensures meshId in colors && colors[meshId] != "" ==> r == colors[meshId]
    ensures !(meshId in colors && colors[meshId] != "") ==> r == DefaultMeshColor
  {
    if meshId in colors && colors[meshId] != "" then colors[meshId] else DefaultMeshColor
  }

  /** A colour set for one mesh is what that mesh shows, and no other mesh
      changes. */
  lemma ColorSetIsShown(colors: map<string, string>, meshId: string, color: string, other: string)
    requires color != "" && other != meshId
    ensures MeshColor(colors[meshId := color], meshId) == color
    ensures MeshColor(colors[meshId := color], other) == MeshColor(colors, other)
  {
  }

  /** `selectedMesh` is truthy: set and not the empty string. */
  predicate IsSelected(s: Option<string>) {
    s.Some? && s.value != ""
  }

  class ModelDragDrop {
    var modelUrl: Option<string>
    var fileType: Option<string>
    var fileName: Option<string>
    var error: Option<string>
    /** None is `null`; `Some("")` is the empty selection the colour
        handler leaves behind. */
    var selectedMesh: Option<string>
    var meshColors: map<string, string>

    constructor ()
      ensures modelUrl.None? && fileType.None? && fileName.None? && error.None?
      ensures selectedMesh.None? && meshColors == map[]
    {
      modelUrl, fileType, fileName, error := None, None, None, None;
      selectedMesh, meshColors := None, map[];
    }

    method HandleMeshClick(meshId: string)
      modifies this
      ensures selectedMesh == Some(meshId)
      ensures meshColors == old(meshColors) && modelUrl == old(modelUrl) && fileType == old(fileType)
      ensures fileName == old(fileName) && error == old(error)
    {
      selectedMesh := Some(meshId);
    }

    /** With a selected mesh, it takes the colour and the selection becomes
        `""`; without one, nothing changes. */
    method HandleColorChange(color: string)
      modifies this
      ensures IsSelected(old(selectedMesh)) ==>
                meshColors == old(meshColors)[old(selectedMesh).value := color] && selectedMesh == Some("")
      ensures !IsSelected(old(selectedMesh)) ==> meshColors == old(meshColors) && selectedMesh == old(selectedMesh)
      ensures modelUrl == old(modelUrl) && fileType == old(fileType) && fileName == old(fileName) && error == old(error)
    {
      if IsSelected(selectedMesh) {
        meshColors := meshColors[selectedMesh.value := color];
        selectedMesh := Some("");
      }
    }

    method ResetColors()
      modifies this
      ensures meshColors == map[] && selectedMesh.None?
      ensures modelUrl == old(modelUrl) && fileType == old(fileType) && fileName == old(fileName) && error == old(error)
    {
      meshColors := map[];
      selectedMesh := None;
    }

    /** `processFile`, with `url` the object URL made for the file. A
        rejected file only sets the error; an accepted one replaces the
        model and clears the error, the selection and the colours. */
    method ProcessFile(name: string, url: string)
      modifies this
      ensures error == if Accepted(name) then None else Some(RejectMessage)
      ensures !Accepted(name) ==> modelUrl == old(modelUrl) && fileType == old(fileType) && fileName == old(fileName)
      ensures !Accepted(name) ==> selectedMesh == old(selectedMesh) && meshColors == old(meshColors)
      ensures Accepted(name) ==> modelUrl == Some(url) && fileType == Some(Extension(name)) && fileName == Some(name)
      ensures Accepted(name) ==> selectedMesh.None? && meshColors == map[]
    {
      error := None;
      var extension := Extension(name);
      if extension == "stl" || extension == "obj" {
        Load(name, url, extension);
      } else {
        error := Some(RejectMessage);
      }
    }

    /** The accepted branch of `processFile`: the new model replaces the
        old one, and the selection and the colours are cleared. */
    method Load(name: string, url: string, extension: string)
      modifies this
      ensures modelUrl == Some(url) && fileType == Some(extension) && fileName == Some(name)
      ensures selectedMesh.None? && meshColors == map[] && error == old(error)
    {
      modelUrl := Some(url);
      fileType := Some(extension);
      fileName := Some(name);
      selectedMesh := None;
      meshColors := map[];
    }

    method HandleClear()
      modifies this
      ensures modelUrl.None? && fileType.None? && fileName.None? && error.None?
      ensures selectedMesh.None? && meshColors == map[]
    {
      modelUrl := None;
      fileType := None;
      fileName := None;
      error := None;
      selectedMesh := None;
      meshColors := map[];
    }
  }

  /** After a reset or a newly accepted file, every mesh shows white. */
  lemma FreshColorsAreWhite(meshId: string)
    ensures MeshColor(map[], meshId) == DefaultMeshColor
  {
  }
}
