/** Where the arguments of the style table come from: the image mode
    (`_generate_image_properties`), the preset list (`_load_list`) and one
    preset's entry (`_get_style_properties`, `_get_image_property`).

    The plugin's surroundings are a parameter: the plugin directory, the path
    separator of the platform, the set of paths that exist on disk, and the
    `styles` list of the parsed preset file, each entry a string dictionary. */
module Presets {
  import opened Base
  import opened Tables
  import opened Paths
  import opened Synth

  /** One entry of the preset file's `styles` list. */
  type Entry = map<string, string>

  datatype Env = Env(pluginDir: string, sep: char, existing: set<string>, styles: seq<Entry>)

  /** A separator `os.path.join` may use: "/" on POSIX systems, a backslash on Windows. */
  predicate ValidSep(env: Env)
  {
    env.sep == '/' || env.sep == '\\'
  }

  // ---------------------------------------------------------------- image mode

  /** The text colour of the image mode: black when the black font is chosen,
      white otherwise. */
  function CharColor(fontBlack: bool): string
  {
    if fontBlack then "black" else "white"
  }

  /** The layer tree background that goes with a text colour: light behind black
      text, dark behind any other. */
  function TreeColor(charColor: string): string
  {
    if charColor == "black" then "rgba(230, 230, 230, 0.6)" else "rgba(64, 64, 64, 0.6)"
  }

  /** The arguments the image mode passes: the text colour, its tree colour and
      the resized copy of the image as main window background; every other
      argument keeps its default. */
  function ImageArgs(env: Env, charColor: string): StyleArgs
  {
    DefaultArgs(charColor, TreeColor(charColor)).(mainImage := Url(ResizedPath(env.pluginDir, env.sep, "main")))
  }

  /** `_generate_image_properties`. */
  function ImageProperties(env: Env, charColor: string): (r: StyleTable)
    ensures Keys(r) == Selectors
  {
    GenerateStyleDict(env.pluginDir, env.sep, ImageArgs(env, charColor))
  }

  /** In image mode the main window shows the resized copy `image_main.png` of
      the plugin directory, on a transparent background, at the left, unrepeated. */
  lemma {:induction false} ImageMainWindow(env: Env, charColor: string)
    requires ValidSep(env)
    ensures var path := ResizedPath(env.pluginDir, env.sep, "main");
      && Find(ImageProperties(env, charColor), "QMainWindow") == Some([
           ("background-color", "transparent"),
           ("background-image", "url(" + path + ")"),
           ("background-position", "left"),
           ("background-repeat", "no-repeat")])
      && '\\' !in path
      && |path| >= 14 && path[|path| - 14..] == "image_main.png"
  {
    var a := ImageArgs(env, charColor);
    assert a.mainColor == "transparent" && a.mainPosition == "left";
    assert Find(ImageProperties(env, charColor), "QMainWindow") == Some([
      ("background-color", a.mainColor),
      ("background-image", a.mainImage),
      ("background-position", a.mainPosition),
      ("background-repeat", "no-repeat")]) by {
      MainWindowBlock(env.pluginDir, env.sep, a);
    }
    var path := ResizedPath(env.pluginDir, env.sep, "main");
    assert '\\' !in path && |path| >= 14 && path[|path| - 14..] == "image_" + "main" + ".png" by {
      ResizedPathShape(env.pluginDir, env.sep, "main");
    }
    MainFileName();
  }

  lemma MainFileName()
    ensures "image_" + "main" + ".png" == "image_main.png"
  {
  }

  /** In image mode the layer tree is light behind black text and dark behind
      white text, and the tool buttons keep their transparent, centred default. */
  lemma {:induction false} ImageTreeAndButtons(env: Env, fontBlack: bool)
    ensures var charColor := CharColor(fontBlack);
      var t := ImageProperties(env, charColor);
      && Find(t, "QTreeView") == Some([
           ("color", charColor),
           ("background-color", if fontBlack then "rgba(230, 230, 230, 0.6)" else "rgba(64, 64, 64, 0.6)")])
      && Find(t, "QToolButton") == Some([
           ("color", charColor),
           ("background-color", "rgba(255, 255, 255, 0)"),
           ("background-image", "transparent"),
           ("background-position", "center")])
  {
    var charColor := CharColor(fontBlack);
    assert fontBlack <==> charColor == "black" by {
      assert !fontBlack ==> charColor[0] == 'w';
    }
    TreeViewBlock(env.pluginDir, env.sep, ImageArgs(env, charColor));
    ToolButtonBlock(env.pluginDir, env.sep, ImageArgs(env, charColor));
  }

  // --------------------------------------------------------------- preset list

  /** Every entry has a `name`. */
  predicate AllNamed(styles: seq<Entry>)
  {
    forall i :: 0 <= i < |styles| ==> "name" in styles[i]
  }

  /** `_load_list`: the names of the presets in file order. An entry without a
      `name` stops the loop with `KeyError: 'name'`. */
  method LoadList(styles: seq<Entry>) returns (r: Result<seq<string>>)
    ensures r.Ok? <==> AllNamed(styles)
    ensures r.Ok? ==> |r.value| == |styles| && forall i :: 0 <= i < |styles| ==> r.value[i] == styles[i]["name"]
    ensures r.Err? ==> r.error == KeyError("name")
  {
    var presetList: seq<string> := [];
    for i := 0 to |styles|
      invariant AllNamed(styles[..i])
      invariant |presetList| == i
      invariant forall j :: 0 <= j < i ==> presetList[j] == styles[j]["name"]
    {
      if "name" !in styles[i] {
        return Err(KeyError("name"));
      }
      presetList := presetList + [styles[i]["name"]];
    }
    assert styles[..|styles|] == styles;
    return Ok(presetList);
  }

  // ------------------------------------------------------------- preset lookup

  /** No entry of `styles` has the name `name`, and every entry has a name. */
  predicate Unmatched(styles: seq<Entry>, name: string)
  {
    forall j :: 0 <= j < |styles| ==> "name" in styles[j] && styles[j]["name"] != name
  }

  /** The preset lookup of `_get_style_properties`: the first entry named
      `name`, or the empty dictionary when there is none. The search reads the
      `name` of every entry up to the match, so an entry without one before the
      match raises `KeyError: 'name'`. */
  function FindPreset(styles: seq<Entry>, name: string): (r: Result<Entry>)
    ensures r.Err? ==> r.error == KeyError("name")
    ensures r.Ok? && "name" in r.value ==> r.value in styles && r.value["name"] == name
    ensures r.Ok? && "name" !in r.value ==> r.value == map[] && Unmatched(styles, name)
  {
    if styles == [] then Ok(map[])
    else if "name" !in styles[0] then Err(KeyError("name"))
    else if styles[0]["name"] == name then Ok(styles[0])
    else
      var r := FindPreset(styles[1..], name);
      assert r.Ok? && "name" in r.value ==> r.value in styles by {
        if r.Ok? && "name" in r.value {
          assert r.value in styles[1..];
        }
      }
      r
  }

  /** Behind entries that all have another name, the entry at position i decides:
      it is the result when it has the name, and the lookup fails when it has no name. */
  lemma {:induction false} FindPresetAt(styles: seq<Entry>, name: string, i: nat)
    requires i < |styles|
    requires Unmatched(styles[..i], name)
    ensures "name" in styles[i] && styles[i]["name"] == name ==> FindPreset(styles, name) == Ok(styles[i])
    ensures "name" !in styles[i] ==> FindPreset(styles, name) == Err(KeyError("name"))
  {
    if i > 0 {
      assert styles[0] == styles[..i][0];
      assert styles[1..][..i - 1] == styles[..i][1..];
      FindPresetAt(styles[1..], name, i - 1);
    }
  }

  /** A name no entry has gives the empty dictionary. */
  lemma {:induction false} FindPresetNone(styles: seq<Entry>, name: string)
    requires Unmatched(styles, name)
    ensures FindPreset(styles, name) == Ok(map[])
  {
    if styles != [] {
      FindPresetNone(styles[1..], name);
    }
  }

  /** A name the preset list shows is found: when every entry has a name, the
      lookup of a listed name returns an entry with that name. */
  lemma {:induction false} ListedPresetFound(styles: seq<Entry>, name: string, i: nat)
    requires AllNamed(styles)
    requires i < |styles| && styles[i]["name"] == name
    ensures FindPreset(styles, name).Ok?
    ensures "name" in FindPreset(styles, name).value && FindPreset(styles, name).value["name"] == name
  {
    if styles[0]["name"] != name {
      assert AllNamed(styles[1..]) by {
        forall j | 0 <= j < |styles[1..]| ensures "name" in styles[1..][j] {
          assert styles[1..][j] == styles[j + 1];
        }
      }
      ListedPresetFound(styles[1..], name, i - 1);
    }
  }

  // --------------------------------------------------------- preset properties

  /** `_get_image_property`: a preset image that exists under the plugin's
      `preset/images` directory is replaced by its resized copy for the mode;
      any other value (a colour, `transparent`, a missing file) passes through. */
  function GetImageProperty(env: Env, mode: string, prop: string): string
  {
    if PresetImagePath(env.pluginDir, env.sep, prop) in env.existing
    then Url(ResizedPath(env.pluginDir, env.sep, mode))
    else prop
  }

  /** A value naming an existing preset image becomes the url of a file
      `image_<mode>.png`, with "/" separators; any other value is kept as it is. */
  lemma {:induction false} ImagePropertyShape(env: Env, mode: string, prop: string)
    requires ValidSep(env) && '\\' !in mode
    ensures var r := GetImageProperty(env, mode, prop);
      && (PresetImagePath(env.pluginDir, env.sep, prop) !in env.existing ==> r == prop)
      && (PresetImagePath(env.pluginDir, env.sep, prop) in env.existing ==>
            exists path :: r == Url(path) && '\\' !in path && |path| >= |mode| + 10
                           && path[|path| - |mode| - 10..] == "image_" + mode + ".png")
  {
    var path := ResizedPath(env.pluginDir, env.sep, mode);
    ResizedPathShape(env.pluginDir, env.sep, mode);
    if PresetImagePath(env.pluginDir, env.sep, prop) in env.existing {
      assert GetImageProperty(env, mode, prop) == Url(path);
    }
  }

  /** The resized copy depends on the mode and not on the image, and the main
      window image and the button image go to different files. */
  lemma {:induction false} ImagePropertyFiles(env: Env, p: string, q: string)
    requires ValidSep(env)
    requires PresetImagePath(env.pluginDir, env.sep, p) in env.existing
    requires PresetImagePath(env.pluginDir, env.sep, q) in env.existing
    ensures GetImageProperty(env, "main", p) == GetImageProperty(env, "main", q)
    ensures GetImageProperty(env, "main", p) != GetImageProperty(env, "btn", q)
  {
    var main := "image_" + "main" + ".png";
    var btn := "image_" + "btn" + ".png";
    assert |main| == 14 && |btn| == 13;
    var m := Join(env.sep, env.pluginDir, main);
    var b := Join(env.sep, env.pluginDir, btn);
    assert |m| == |b| + 1;
    SlashedSpec(m);
    SlashedSpec(b);
    assert GetImageProperty(env, "main", p) == Url(Slashed(m));
    assert GetImageProperty(env, "btn", q) == Url(Slashed(b));
    assert |Url(Slashed(m))| != |Url(Slashed(b))|;
  }


  /** The keys `_get_style_properties` reads from an entry, in the order it reads them. */
  const PresetKeys: seq<string> := [
    "main-image", "btn-image", "char-color", "treeview-color",
    "main-color", "main-position", "btn-color", "btn-position"]

  /** The entry has every key of `PresetKeys`. The keys are spelled out so
      that each lookup in a complete entry is checked cheaply; the contract of
      `PresetArgs` proves this agrees with `PresetKeys`. */
  predicate Complete(p: Entry)
  {
    && "main-image" in p && "btn-image" in p && "char-color" in p && "treeview-color" in p
    && "main-color" in p && "main-position" in p && "btn-color" in p && "btn-position" in p
  }

  /** The first of `keys` that `p` lacks, if any. */
  function FirstMissing(p: Entry, keys: seq<string>): (r: Option<string>)
    ensures r.None? ==> forall k :: k in keys ==> k in p
    ensures r.Some? ==> r.value in keys && r.value !in p
  {
    if keys == [] then None
    else if keys[0] !in p then Some(keys[0])
    else FirstMissing(p, keys[1..])
  }

  /** The missing key reported is the first one in reading order: every key
      read before it is present. */
  lemma {:induction false} FirstMissingIsFirst(p: Entry, keys: seq<string>)
    requires FirstMissing(p, keys).Some?
    ensures exists i :: 0 <= i < |keys| && keys[i] == FirstMissing(p, keys).value
                        && forall j :: 0 <= j < i ==> keys[j] in p
  {
    if keys[0] in p {
      FirstMissingIsFirst(p, keys[1..]);
      var i :| 0 <= i < |keys[1..]| && keys[1..][i] == FirstMissing(p, keys[1..]).value
               && forall j :: 0 <= j < i ==> keys[1..][j] in p;
      assert keys[i + 1] == FirstMissing(p, keys).value;
      assert forall j :: 0 <= j < i + 1 ==> keys[j] in p by {
        forall j | 0 <= j < i + 1 ensures keys[j] in p {
          if j > 0 {
            assert keys[j] == keys[1..][j - 1];
          }
        }
      }
    } else {
      assert keys[0] == FirstMissing(p, keys).value;
    }
  }

  /** The arguments a preset entry gives `_generate_style_dict`: its two images
      through `GetImageProperty`, every other value as written. A key the entry
      lacks raises `KeyError` with that key, the first in reading order. */
  function PresetArgs(env: Env, p: Entry): (r: Result<StyleArgs>)
    ensures r.Ok? <==> Complete(p)
    ensures r.Err? ==> r.error.key in PresetKeys && r.error.key !in p
  {
    match FirstMissing(p, PresetKeys)
    case Some(k) => Err(KeyError(k))
    case None =>
      Ok(StyleArgs(
        p["char-color"], p["treeview-color"], p["main-color"],
        GetImageProperty(env, "main", p["main-image"]), p["main-position"],
        p["btn-color"], GetImageProperty(env, "btn", p["btn-image"]), p["btn-position"]))
  }

  /** `_get_style_properties`: look the preset up by name and build its table. */
  function PresetProperties(env: Env, name: string): (r: Result<StyleTable>)
    ensures r.Err? ==> r.error == KeyError("name") || r.error.key in PresetKeys
    ensures r.Ok? ==> Keys(r.value) == Selectors
  {
    match FindPreset(env.styles, name)
    case Err(e) => Err(e)
    case Ok(p) =>
      match PresetArgs(env, p)
      case Err(e) => Err(e)
      case Ok(a) => Ok(GenerateStyleDict(env.pluginDir, env.sep, a))
  }

  /** A name that is not in a fully named preset list finds the empty dictionary,
      and reading its first key fails: `KeyError: 'main-image'`. */
  lemma {:induction false} UnknownPresetFails(env: Env, name: string)
    requires Unmatched(env.styles, name)
    ensures PresetProperties(env, name) == Err(KeyError("main-image"))
  {
    FindPresetNone(env.styles, name);
    var none: Entry := map[];
    assert PresetKeys[0] !in none;
  }

  /** A preset entry that lacks a key fails with the first key it lacks, in
      reading order, and builds no table. */
  lemma {:induction false} IncompletePresetFails(env: Env, name: string, i: nat)
    requires i < |env.styles| && Unmatched(env.styles[..i], name)
    requires "name" in env.styles[i] && env.styles[i]["name"] == name
    requires FirstMissing(env.styles[i], PresetKeys).Some?
    ensures PresetProperties(env, name) == Err(KeyError(FirstMissing(env.styles[i], PresetKeys).value))
    ensures FirstMissing(env.styles[i], PresetKeys).value in PresetKeys
  {
    FindPresetAt(env.styles, name, i);
  }

  /** A complete preset entry found by name is applied as written: its colours
      and positions land in the main window, the tool buttons and the layer tree,
      and its images are the ones `GetImageProperty` gives. */
  lemma {:induction false} PresetApplied(env: Env, name: string, i: nat)
    requires i < |env.styles| && Unmatched(env.styles[..i], name)
    requires "name" in env.styles[i] && env.styles[i]["name"] == name
    requires Complete(env.styles[i])
    ensures PresetProperties(env, name).Ok?
    ensures var p := env.styles[i];
      var t := PresetProperties(env, name).value;
      && Find(t, "QMainWindow") == Some([
           ("background-color", p["main-color"]),
           ("background-image", GetImageProperty(env, "main", p["main-image"])),
           ("background-position", p["main-position"]),
           ("background-repeat", "no-repeat")])
      && Find(t, "QToolButton") == Some([
           ("color", p["char-color"]),
           ("background-color", p["btn-color"]),
           ("background-image", GetImageProperty(env, "btn", p["btn-image"])),
           ("background-position", p["btn-position"])])
      && Find(t, "QTreeView") == Some([("color", p["char-color"]), ("background-color", p["treeview-color"])])
  {
    FindPresetAt(env.styles, name, i);
    var p := env.styles[i];
    var a := PresetArgs(env, p).value;
    MainWindowBlock(env.pluginDir, env.sep, a);
    ToolButtonBlock(env.pluginDir, env.sep, a);
    TreeViewBlock(env.pluginDir, env.sep, a);
  }
}
