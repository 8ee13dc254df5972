/** The dialog (`QGISDresserGUI`, plugin_dialog.py:26-86): a preset combo box,
    two group boxes the preset radio button switches between, and the buttons
    that apply a style to the QGIS main window.

    The state of the widgets a user sets (which radio buttons are checked, the
    chosen preset, the image path) is read when a button is pressed, so it is a
    parameter of the operations. */
module Dialog {
  import opened Base
  import opened Tables
  import opened Stylesheet
  import opened Synth
  import opened Paths
  import opened Presets

  /** The QGIS main window: the dialog replaces its whole style sheet. */
  class MainWindow {
    var styleSheet: string
    ghost var sets: seq<string>  // every style sheet set so far, oldest first

    constructor(styleSheet: string)
      ensures this.styleSheet == styleSheet && sets == []
    {
      this.styleSheet := styleSheet;
      sets := [];
    }

    /** `setStyleSheet`: replaces the style sheet and records the call. */
    method SetStyleSheet(s: string)
      modifies this
      ensures styleSheet == s
      ensures sets == old(sets) + [s]
    {
      styleSheet := s;
      sets := sets + [s];
    }
  }

  /** What the user has set in the dialog when a button is pressed. */
  datatype Controls = Controls(
    presetChecked: bool,  // radioButtonPreset, against the image radio button
    presetName: string,   // comboBoxPreset's current text
    imagePath: string,    // qgsFileWidgetImage's path
    fontBlack: bool)      // radioButtonFontBlack, against white text

  /** How a press of Apply ends. `Failed` is an exception that leaves `apply_style`. */
  datatype Outcome = Reset | Applied | ImageNotFound | Failed(error: Error)

  /** What `apply_style` does to the main window. */
  datatype Action =
    | Clear                         // the "default" preset: an empty style sheet
    | NotFound                      // the image is missing: a message, no change
    | Raise(error: Error)           // a preset lookup failed: no change
    | SetSheet(table: StyleTable)   // the rendered table replaces the style sheet

  /** The decision `apply_style` takes (plugin_dialog.py:49-73): "default"
      clears, a missing image only warns, a failed preset lookup raises, and
      otherwise a table over the 23 selectors is applied. */
  function Decide(c: Controls, env: Env): (r: Action)
    ensures r == Clear <==> c.presetChecked && c.presetName == "default"
    ensures r == NotFound <==> !c.presetChecked && c.imagePath !in env.existing
    ensures r.Raise? <==> c.presetChecked && c.presetName != "default" && PresetProperties(env, c.presetName).Err?
    ensures r.Raise? ==> r.error == KeyError("name") || r.error.key in PresetKeys
    ensures r.SetSheet? ==> Keys(r.table) == Selectors
  {
    if c.presetChecked then
      if c.presetName == "default" then Clear
      else
        match PresetProperties(env, c.presetName)
        case Err(e) => Raise(e)
        case Ok(t) => SetSheet(t)
    else if c.imagePath !in env.existing then NotFound
    else SetSheet(ImageProperties(env, CharColor(c.fontBlack)))
  }

  /** The message box text shown for a missing image. */
  const ImageNotFoundMessage := "Image file not found."

  class Dialog {
    const window: MainWindow
    var items: seq<string>          // the entries of comboBoxPreset
    var presetGroupEnabled: bool    // groupBoxPreset
    var imageGroupEnabled: bool     // groupBoxImage
    var messages: seq<string>       // the information boxes shown, oldest first
    var closed: bool

    /** `__init__`: fills the preset list and enables the group box of the
        checked mode. */
    constructor(window: MainWindow, presetChecked: bool, styles: seq<Entry>)
      ensures this.window == window
      ensures AllNamed(styles) ==> |items| == |styles| + 1 && items[0] == "default"
                                   && forall i :: 0 <= i < |styles| ==> items[i + 1] == styles[i]["name"]
      ensures !AllNamed(styles) ==> items == ["default"]
      ensures presetGroupEnabled == presetChecked && imageGroupEnabled == !presetChecked
      ensures messages == [] && !closed
    {
      this.window := window;
      messages := [];
      closed := false;
      new;
      var _ := SetStyleList(styles);
      ChangeGroupboxStatus(presetChecked);
    }

    /** `set_style_list`: "default" first, then the preset names in file order.
        An entry without a name stops the list after "default". */
    method SetStyleList(styles: seq<Entry>) returns (r: Result<seq<string>>)
      modifies this`items
      ensures r.Ok? <==> AllNamed(styles)
      ensures r.Ok? ==> items == ["default"] + r.value && |r.value| == |styles|
                        && forall i :: 0 <= i < |styles| ==> r.value[i] == styles[i]["name"]
      ensures r.Err? ==> items == ["default"] && r.error == KeyError("name")
    {
      items := ["default"];
      r := LoadList(styles);
      if r.Ok? {
        items := items + r.value;
      }
    }

    /** `change_groupbox_status`: exactly one group box is enabled, the one of
        the checked mode. */
    method ChangeGroupboxStatus(presetChecked: bool)
      modifies this`presetGroupEnabled, this`imageGroupEnabled
      ensures presetGroupEnabled == presetChecked
      ensures imageGroupEnabled == !presetChecked
      ensures presetGroupEnabled != imageGroupEnabled
    {
      presetGroupEnabled := presetChecked;
      imageGroupEnabled := !presetChecked;
    }

    /** `apply_style`: carries out `Decide`, rendering the table with
        `GenerateStylesheet`. A cleared or applied style sets the main window's
        style sheet exactly once; a failed lookup or a missing image never sets
        it, and only a missing image shows a message. */
    method ApplyStyle(c: Controls, env: Env) returns (outcome: Outcome)
      modifies window, this`messages
      ensures Decide(c, env) == Clear ==> outcome == Reset && window.styleSheet == ""
      ensures Decide(c, env).SetSheet? ==> outcome == Applied && window.styleSheet == Render(Decide(c, env).table)
      ensures Decide(c, env) == NotFound ==> outcome == ImageNotFound
      ensures Decide(c, env).Raise? ==> outcome == Failed(Decide(c, env).error)
      ensures outcome == Reset || outcome == Applied || window.styleSheet == old(window.styleSheet)
      ensures Decide(c, env) == Clear ==> window.sets == old(window.sets) + [""]
      ensures Decide(c, env).SetSheet? ==> window.sets == old(window.sets) + [Render(Decide(c, env).table)]
      ensures !Decide(c, env).SetSheet? && Decide(c, env) != Clear ==> window.sets == old(window.sets)
      ensures outcome == ImageNotFound ==> messages == old(messages) + [ImageNotFoundMessage]
      ensures outcome != ImageNotFound ==> messages == old(messages)
    {
      var styleDict: StyleTable;
      if c.presetChecked {
        var styleName := c.presetName;
        if styleName == "default" {
          window.SetStyleSheet("");
          return Reset;
        }
        var r := PresetProperties(env, styleName);
        if r.Err? {
          return Failed(r.error);
        }
        styleDict := r.value;
      } else {
        var charColor := CharColor(c.fontBlack);
        if c.imagePath !in env.existing {
          messages := messages + [ImageNotFoundMessage];
          return ImageNotFound;
        }
        styleDict := ImageProperties(env, charColor);
      }
      var styleStr := GenerateStylesheet(styleDict);
      window.SetStyleSheet(styleStr);
      return Applied;
    }

    /** `accept_style` (OK): applies the style, then closes the dialog. A failed
        apply leaves by its exception before the dialog is closed. */
    method AcceptStyle(c: Controls, env: Env) returns (outcome: Outcome)
      modifies window, this`messages, this`closed
      ensures Decide(c, env) == Clear ==> outcome == Reset && window.styleSheet == ""
      ensures Decide(c, env).SetSheet? ==> outcome == Applied && window.styleSheet == Render(Decide(c, env).table)
      ensures Decide(c, env) == NotFound ==> outcome == ImageNotFound
      ensures Decide(c, env).Raise? ==> outcome == Failed(Decide(c, env).error)
      ensures outcome == Reset || outcome == Applied || window.styleSheet == old(window.styleSheet)
      ensures Decide(c, env) == Clear ==> window.sets == old(window.sets) + [""]
      ensures Decide(c, env).SetSheet? ==> window.sets == old(window.sets) + [Render(Decide(c, env).table)]
      ensures !Decide(c, env).SetSheet? && Decide(c, env) != Clear ==> window.sets == old(window.sets)
      ensures outcome == ImageNotFound ==> messages == old(messages) + [ImageNotFoundMessage]
      ensures outcome != ImageNotFound ==> messages == old(messages)
      ensures outcome.Failed? ==> closed == old(closed)
      ensures !outcome.Failed? ==> closed
    {
      outcome := ApplyStyle(c, env);
      if outcome.Failed? {
        return;
      }
      Close();
    }

    /** `close` (Cancel): the main window keeps its style sheet. */
    method Close()
      modifies this`closed
      ensures closed
    {
      closed := true;
    }
  }

  /** The rendered table of any arguments starts with the text of its main window block. */
  lemma {:induction false} SheetStartsWithMainWindow(dir: string, sep: char, a: StyleArgs)
    ensures RenderBlock(("QMainWindow", MainWindowDecls(a.mainColor, a.mainImage, a.mainPosition)))
            <= Render(GenerateStyleDict(dir, sep, a))
  {
    var t := GenerateStyleDict(dir, sep, a);
    assert t[0] == ("QMainWindow", MainWindowDecls(a.mainColor, a.mainImage, a.mainPosition)) by {
      MainWindowBlock(dir, sep, a);
      assert t[0].0 == Keys(t)[0];
    }
    RenderFirst(t);
  }

  /** Applying a complete preset found by name writes a style sheet that
      starts with the preset's main window colour, image and position. */
  lemma {:induction false} PresetSheet(c: Controls, env: Env, i: nat)
    requires c.presetChecked && c.presetName != "default"
    requires i < |env.styles| && Unmatched(env.styles[..i], c.presetName)
    requires "name" in env.styles[i] && env.styles[i]["name"] == c.presetName
    requires Complete(env.styles[i])
    ensures Decide(c, env).SetSheet?
    ensures var p := env.styles[i];
      RenderBlock(("QMainWindow", MainWindowDecls(
        p["main-color"], GetImageProperty(env, "main", p["main-image"]), p["main-position"])))
      <= Render(Decide(c, env).table)
  {
    PresetApplied(env, c.presetName, i);
    FindPresetAt(env.styles, c.presetName, i);
    var a := PresetArgs(env, env.styles[i]).value;
    SheetStartsWithMainWindow(env.pluginDir, env.sep, a);
  }

  /** Applying an existing image writes a style sheet that starts with the
      resized copy `image_main.png` as the main window's background, on a
      transparent colour, at the left. */
  lemma {:induction false} ImageSheet(c: Controls, env: Env)
    requires !c.presetChecked && c.imagePath in env.existing
    ensures Decide(c, env).SetSheet?
    ensures RenderBlock(("QMainWindow", MainWindowDecls(
              "transparent", Url(ResizedPath(env.pluginDir, env.sep, "main")), "left")))
            <= Render(Decide(c, env).table)
  {
    var a := ImageArgs(env, CharColor(c.fontBlack));
    assert Decide(c, env) == SetSheet(GenerateStyleDict(env.pluginDir, env.sep, a));
    assert a.mainColor == "transparent" && a.mainPosition == "left";
    SheetStartsWithMainWindow(env.pluginDir, env.sep, a);
  }

  /** The "default" preset always clears the style sheet, whatever the preset
      file holds; an unknown name in a fully named preset file always fails
      with `KeyError: 'main-image'` and leaves the style sheet alone. */
  lemma {:induction false} PresetEdgeCases(c: Controls, env: Env)
    requires c.presetChecked
    ensures c.presetName == "default" ==> Decide(c, env) == Clear
    ensures c.presetName != "default" && Unmatched(env.styles, c.presetName)
            ==> Decide(c, env) == Raise(KeyError("main-image"))
  {
    if c.presetName != "default" && Unmatched(env.styles, c.presetName) {
      UnknownPresetFails(env, c.presetName);
    }
  }
}
