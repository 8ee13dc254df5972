/** Style table synthesis (`_generate_style_dict`, plugin_dialog.py:105-225):
    the one table both the preset path and the image path go through. */
module Synth {
  import opened Base
  import opened Tables
  import opened Paths

  /** The arguments of `_generate_style_dict`. */
  datatype StyleArgs = StyleArgs(
    charColor: string,
    treeviewColor: string,
    mainColor: string,
    mainImage: string,
    mainPosition: string,
    buttonColor: string,
    buttonImage: string,
    buttonPosition: string)

  /** A call that passes only the two required arguments: every keyword argument
      keeps its default (plugin_dialog.py:109-114). */
  function DefaultArgs(charColor: string, treeviewColor: string): StyleArgs
  {
    StyleArgs(charColor, treeviewColor, "transparent", "transparent", "left",
              "rgba(255, 255, 255, 0)", "transparent", "center")
  }

  /** The selectors of every synthesized table, in insertion order. */
  const Selectors: seq<string> := [
    "QMainWindow",
    "QDockWidget",
    "QMenuBar",
    "QToolBar",
    "QToolButton",
    "QToolButton:hover",
    "QToolButton:pressed",
    "QToolButton:checked",
    "QTreeView",
    "QTreeView:branch:selected:active",
    "QTreeView:branch:selected:!active",
    "QTreeView:branch:has-children:closed",
    "QTreeView:branch:open:has-children",
    "QTreeView:item",
    "QTreeView:item:selected:active",
    "QTreeView:item:selected:!active",
    "QTreeView:indicator:checked",
    "QTreeView:indicator:unchecked",
    "QLabel",
    "QLineEdit",
    "QComboBox",
    "QDoubleSpinBox",
    "QCheckBox"
  ]

  /** The selectors whose `color` is the text colour argument. */
  const CharColorSelectors: seq<string> := [
    "QDockWidget", "QMenuBar", "QToolButton", "QTreeView", "QTreeView:item", "QLabel", "QCheckBox"
  ]

  /** The input widgets, which keep black text on near-white whatever the arguments. */
  const InputSelectors: seq<string> := ["QLineEdit", "QComboBox", "QDoubleSpinBox"]

  /** The slots that receive an argument or an icon path, as (selector
      position, declaration position) in the table. Every other declaration is a
      literal. */
  predicate ArgumentSlot(i: int, k: int)
  {
    // QMainWindow: background colour, image and position
    || (i == 0 && 0 <= k < 3)
    // QToolButton: text colour, background colour, image and position
    || (i == 4 && 0 <= k < 4)
    // QTreeView: text colour and background colour
    || (i == 8 && 0 <= k < 2)
    // the text colour of QDockWidget, QMenuBar, QTreeView:item, QLabel and
    // QCheckBox, and the two branch arrows
    || (k == 0 && (i == 1 || i == 2 || i == 11 || i == 12 || i == 13 || i == 18 || i == 22))
    // the tick of a checked layer box
    || (i == 16 && k == 2)
  }

  /** A style sheet reference to the file at `path`. */
  function Url(path: string): string
  {
    "url(" + path + ")"
  }

  /** The three icon files the table refers to, computed before the table is
      built (plugin_dialog.py:126-136): the tick of a checked layer box and the
      two branch arrows in the text colour. */
  datatype Icons = Icons(check: string, arrowClosed: string, arrowOpened: string)

  function IconsFor(dir: string, sep: char, charColor: string): Icons
  {
    Icons(
      IconPath(dir, sep, "icon-check.png"),
      IconPath(dir, sep, "icon-arrow-right-" + charColor + ".svg"),
      IconPath(dir, sep, "icon-arrow-down-" + charColor + ".svg"))
  }

  /** `_generate_style_dict`: the same 23 selectors in the same order whatever
      the arguments, each with its declarations in the source's order. The
      declaration lists below follow `Selectors` one for one. */
  function GenerateStyleDict(dir: string, sep: char, a: StyleArgs): (r: StyleTable)
    ensures Keys(r) == Selectors
  {
    Zip(Selectors, Declarations(a, IconsFor(dir, sep, a.charColor)))
  }

  /** Whatever the arguments, the table has 23 selectors, none of them twice. */
  lemma {:induction false} StyleDictSelectors(dir: string, sep: char, a: StyleArgs)
    ensures |GenerateStyleDict(dir, sep, a)| == 23
    ensures Distinct(Keys(GenerateStyleDict(dir, sep, a)))
  {
    SelectorsDistinct();
  }

  /** The declaration lists of `GenerateStyleDict`, one per selector of `Selectors`. */
  function Declarations(a: StyleArgs, icons: Icons): (ds: seq<seq<Decl>>)
    ensures |ds| == |Selectors|
  {
    [
      /* QMainWindow */ [
        ("background-color", a.mainColor),
        ("background-image", a.mainImage),
        ("background-position", a.mainPosition),
        ("background-repeat", "no-repeat")],
      /* QDockWidget */ [("color", a.charColor)],
      /* QMenuBar */ [("color", a.charColor), ("background-color", "transparent")],
      /* QToolBar */ [("background-color", "transparent")],
      /* QToolButton */ [
        ("color", a.charColor),
        ("background-color", a.buttonColor),
        ("background-image", a.buttonImage),
        ("background-position", a.buttonPosition)],
      /* QToolButton:hover */ [("background-color", "rgba(230, 230, 230, 0.6)")],
      /* QToolButton:pressed */ [("background-color", "rgba(220, 220, 220, 0.6)")],
      /* QToolButton:checked */ [("background-color", "rgba(220, 220, 220, 0.6)")],
      /* QTreeView */ [("color", a.charColor), ("background-color", a.treeviewColor)],
      /* QTreeView:branch:selected:active */ [("background-color", "rgba(0, 105, 255, 1.0)")],
      /* QTreeView:branch:selected:!active */ [("background-color", "rgba(200, 200, 200, 1.0)")],
      /* QTreeView:branch:has-children:closed */ [("image", Url(icons.arrowClosed))],
      /* QTreeView:branch:open:has-children */ [("image", Url(icons.arrowOpened))],
      /* QTreeView:item */ [("color", a.charColor)],
      /* QTreeView:item:selected:active */ [
        ("color", "white"),
        ("background-color", "rgba(0, 105, 255, 1.0)")],
      /* QTreeView:item:selected:!active */ [("background-color", "rgba(200, 200, 200, 1.0)")],
      /* QTreeView:indicator:checked */ [
        ("background-color", "white"),
        ("border", "1px solid gray"),
        ("image", Url(icons.check))],
      /* QTreeView:indicator:unchecked */ [
        ("background-color", "white"),
        ("border", "1px solid gray")],
      /* QLabel */ [("color", a.charColor)],
      /* QLineEdit */ [("color", "black"), ("background-color", "rgba(255, 255, 255, 0.9)")],
      /* QComboBox */ [("color", "black"), ("background-color", "rgba(255, 255, 255, 0.9)")],
      /* QDoubleSpinBox */ [("color", "black"), ("background-color", "rgba(255, 255, 255, 0.9)")],
      /* QCheckBox */ [("color", a.charColor), ("background-color", "transparent")]
    ]
  }

  /** A short summary of a selector that already tells the 23 selectors apart. */
  function Fingerprint(s: string): (int, char, char, char)
    requires |s| >= 3
  {
    (|s|, s[1], s[2], s[|s| - 3])
  }

  /** The fingerprints of the selectors, in order. */
  const Fingerprints: seq<(int, char, char, char)> := [(11, 'M', 'a', 'd'), (11, 'D', 'o', 'g'), (8, 'M', 'e', 'B'), (8, 'T', 'o', 'B'), (11, 'T', 'o', 't'), (17, 'T', 'o', 'v'), (19, 'T', 'o', 's'), (19, 'T', 'o', 'k'), (9, 'T', 'r', 'i'), (32, 'T', 'r', 'i'), (33, 'T', 'r', 'i'), (36, 'T', 'r', 's'), (34, 'T', 'r', 'r'), (14, 'T', 'r', 't'), (30, 'T', 'r', 'i'), (31, 'T', 'r', 'i'), (27, 'T', 'r', 'k'), (29, 'T', 'r', 'k'), (6, 'L', 'a', 'b'), (9, 'L', 'i', 'd'), (9, 'C', 'o', 'B'), (14, 'D', 'o', 'B'), (9, 'C', 'h', 'B')]

  lemma {:induction false} FingerprintsOfSelectors()
    ensures |Fingerprints| == |Selectors|
    ensures forall i :: 0 <= i < |Selectors| ==> Fingerprint(Selectors[i]) == Fingerprints[i]
  {
    FingerprintsBetween(0, 8);
    FingerprintsBetween(8, 16);
    FingerprintsBetween(16, 23);
  }

  lemma {:induction false} FingerprintsBetween(lo: nat, hi: nat)
    requires (lo, hi) == (0, 8) || (lo, hi) == (8, 16) || (lo, hi) == (16, 23)
    ensures |Fingerprints| == |Selectors| == 23
    ensures forall i :: lo <= i < hi ==> Fingerprint(Selectors[i]) == Fingerprints[i]
  {
    if lo == 0 {
    } else if lo == 8 {
    } else {
    }
  }

  lemma {:induction false} FingerprintsDistinct()
    ensures forall i, j :: 0 <= i < j < |Fingerprints| ==> Fingerprints[i] != Fingerprints[j]
  {
  }

  /** No selector occurs twice. */
  lemma {:induction false} SelectorsDistinct()
    ensures |Selectors| == 23 && Distinct(Selectors)
  {
    FingerprintsOfSelectors();
    FingerprintsDistinct();
  }

  /** Looking up the i-th selector finds the i-th declaration list. */
  lemma {:induction false} BlockAt(dir: string, sep: char, a: StyleArgs, i: nat)
    requires i < |Selectors|
    ensures Find(GenerateStyleDict(dir, sep, a), Selectors[i])
         == Some(Declarations(a, IconsFor(dir, sep, a.charColor))[i])
  {
    SelectorsDistinct();
    FindZip(Selectors, Declarations(a, IconsFor(dir, sep, a.charColor)), i);
  }

  /** `char_color` is the `color` of the dock widgets, the menu bar, the tool
      buttons, the layer tree and its items, the labels and the check boxes. */
  lemma {:induction false} CharColorSlots(dir: string, sep: char, a: StyleArgs)
    ensures forall k :: 0 <= k < |CharColorSelectors| ==>
      Value(GenerateStyleDict(dir, sep, a), CharColorSelectors[k], "color") == Some(a.charColor)
  {
    CharColorDocks(dir, sep, a);
    CharColorButtonsAndTree(dir, sep, a);
    CharColorItemsAndLabels(dir, sep, a);
  }

  /** `CharColorSlots` for the dock widgets and the menu bar. */
  lemma {:induction false} CharColorDocks(dir: string, sep: char, a: StyleArgs)
    ensures forall k :: 0 <= k < 2 ==>
      Value(GenerateStyleDict(dir, sep, a), CharColorSelectors[k], "color") == Some(a.charColor)
  {
    forall k | 0 <= k < 2
      ensures Value(GenerateStyleDict(dir, sep, a), CharColorSelectors[k], "color") == Some(a.charColor)
    {
      var i := [1, 2, 4, 8, 13, 18, 22][k];
      assert CharColorSelectors[k] == Selectors[i];
      BlockAt(dir, sep, a, i);
    }
  }

  /** `CharColorSlots` for the tool buttons and the layer tree. */
  lemma {:induction false} CharColorButtonsAndTree(dir: string, sep: char, a: StyleArgs)
    ensures forall k :: 2 <= k < 4 ==>
      Value(GenerateStyleDict(dir, sep, a), CharColorSelectors[k], "color") == Some(a.charColor)
  {
    forall k | 2 <= k < 4
      ensures Value(GenerateStyleDict(dir, sep, a), CharColorSelectors[k], "color") == Some(a.charColor)
    {
      var i := [1, 2, 4, 8, 13, 18, 22][k];
      assert CharColorSelectors[k] == Selectors[i];
      BlockAt(dir, sep, a, i);
    }
  }

  /** `CharColorSlots` for the tree items, the labels and the check boxes. */
  lemma {:induction false} CharColorItemsAndLabels(dir: string, sep: char, a: StyleArgs)
    ensures forall k :: 4 <= k < 7 ==>
      Value(GenerateStyleDict(dir, sep, a), CharColorSelectors[k], "color") == Some(a.charColor)
  {
    forall k | 4 <= k < 7
      ensures Value(GenerateStyleDict(dir, sep, a), CharColorSelectors[k], "color") == Some(a.charColor)
    {
      var i := [1, 2, 4, 8, 13, 18, 22][k];
      assert CharColorSelectors[k] == Selectors[i];
      BlockAt(dir, sep, a, i);
    }
  }

  /** Line edits, combo boxes and spin boxes always get black text on
      `rgba(255, 255, 255, 0.9)`, whatever the arguments. */
  lemma {:induction false} InputWidgetsFixed(dir: string, sep: char, a: StyleArgs)
    ensures forall k :: 0 <= k < |InputSelectors| ==>
      Find(GenerateStyleDict(dir, sep, a), InputSelectors[k])
      == Some([("color", "black"), ("background-color", "rgba(255, 255, 255, 0.9)")])
  {
    forall k | 0 <= k < |InputSelectors|
      ensures Find(GenerateStyleDict(dir, sep, a), InputSelectors[k])
           == Some([("color", "black"), ("background-color", "rgba(255, 255, 255, 0.9)")])
    {
      assert InputSelectors[k] == Selectors[19 + k];
      BlockAt(dir, sep, a, 19 + k);
    }
  }

  /** The main window block, the first one of every synthesized table: the
      colour, image and position arguments, then `no-repeat`. */
  function MainWindowDecls(color: string, image: string, position: string): seq<Decl>
  {
    [("background-color", color), ("background-image", image),
     ("background-position", position), ("background-repeat", "no-repeat")]
  }

  /** The main window carries the colour, image and position arguments
      unchanged, in that order, and never repeats its background image. */
  lemma {:induction false} MainWindowBlock(dir: string, sep: char, a: StyleArgs)
    ensures Find(GenerateStyleDict(dir, sep, a), "QMainWindow")
         == Some(MainWindowDecls(a.mainColor, a.mainImage, a.mainPosition))
  {
    BlockAt(dir, sep, a, 0);
  }

  /** The tool buttons carry the text colour and the button colour, image and
      position arguments unchanged, in that order. */
  lemma {:induction false} ToolButtonBlock(dir: string, sep: char, a: StyleArgs)
    ensures Find(GenerateStyleDict(dir, sep, a), "QToolButton") == Some([
      ("color", a.charColor),
      ("background-color", a.buttonColor),
      ("background-image", a.buttonImage),
      ("background-position", a.buttonPosition)])
  {
    BlockAt(dir, sep, a, 4);
  }

  /** The layer tree takes the text colour and, as background, the tree colour argument. */
  lemma {:induction false} TreeViewBlock(dir: string, sep: char, a: StyleArgs)
    ensures Find(GenerateStyleDict(dir, sep, a), "QTreeView")
         == Some([("color", a.charColor), ("background-color", a.treeviewColor)])
  {
    BlockAt(dir, sep, a, 8);
  }

  /** The branch arrows are the right and down arrow icons in the text colour,
      under the plugin's images directory and with every backslash rewritten to "/". */
  lemma {:induction false} BranchArrows(dir: string, sep: char, a: StyleArgs)
    requires sep == '/' || sep == '\\'
    requires '\\' !in a.charColor
    ensures var t := GenerateStyleDict(dir, sep, a);
      var images := Slashed(Join(sep, dir, "images"));
      && Value(t, "QTreeView:branch:has-children:closed", "image")
         == Some(Url(images + "/" + ("icon-arrow-right-" + a.charColor + ".svg")))
      && Value(t, "QTreeView:branch:open:has-children", "image")
         == Some(Url(images + "/" + ("icon-arrow-down-" + a.charColor + ".svg")))
  {
    var t := GenerateStyleDict(dir, sep, a);
    var images := Slashed(Join(sep, dir, "images"));
    var right := "icon-arrow-right-" + a.charColor + ".svg";
    var down := "icon-arrow-down-" + a.charColor + ".svg";
    assert Value(t, "QTreeView:branch:has-children:closed", "image") == Some(Url(images + "/" + right)) by {
      BlockAt(dir, sep, a, 11);
      NoBackslashIn("icon-arrow-right-", a.charColor, ".svg");
      IconPathShape(dir, sep, right);
    }
    assert Value(t, "QTreeView:branch:open:has-children", "image") == Some(Url(images + "/" + down)) by {
      BlockAt(dir, sep, a, 12);
      NoBackslashIn("icon-arrow-down-", a.charColor, ".svg");
      IconPathShape(dir, sep, down);
    }
  }

  /** The tick of a checked layer box is the `icon-check.png` icon under the
      plugin's images directory, with every backslash rewritten to "/". */
  lemma {:induction false} CheckedIndicator(dir: string, sep: char, a: StyleArgs)
    requires sep == '/' || sep == '\\'
    ensures Value(GenerateStyleDict(dir, sep, a), "QTreeView:indicator:checked", "image")
            == Some(Url(Slashed(Join(sep, dir, "images")) + "/" + "icon-check.png"))
  {
    var t := GenerateStyleDict(dir, sep, a);
    var check := IconPath(dir, sep, "icon-check.png");
    assert Find(t, "QTreeView:indicator:checked") == Some([
      ("background-color", "white"), ("border", "1px solid gray"), ("image", Url(check))]) by {
      BlockAt(dir, sep, a, 16);
    }
    var ds: seq<Decl> := [("background-color", "white"), ("border", "1px solid gray"), ("image", Url(check))];
    assert Find(ds, "image") == Some(Url(check)) by {
      assert ds[0].0 != "image" && ds[1].0 != "image";
      assert Find(ds, "image") == Find(ds[1..], "image");
      assert Find(ds[1..], "image") == Find(ds[1..][1..], "image");
      assert ds[1..][1..] == [("image", Url(check))];
    }
    IconPathShape(dir, sep, "icon-check.png");
  }

  lemma {:induction false} NoBackslashIn(x: string, y: string, z: string)
    requires '\\' !in x && '\\' !in y && '\\' !in z
    ensures '\\' !in x + y + z
  {
    assert forall c :: c in x + y + z ==> c in x || c in y || c in z;
  }

  /** The arguments and icon paths reach only their own slots: the declaration
      lists built from any two of them have the same property names in the same
      order, and every declaration outside `ArgumentSlot` is the same literal in both. */
  lemma {:induction false} ArgumentsOnlyInSlots(a: StyleArgs, ia: Icons, b: StyleArgs, ib: Icons)
    ensures var da: seq<seq<Decl>>, db: seq<seq<Decl>> := Declarations(a, ia), Declarations(b, ib);
      forall i, k :: 0 <= i < |da| && 0 <= k < |da[i]| ==>
        && k < |db[i]|
        && da[i][k].0 == db[i][k].0
        && (!ArgumentSlot(i, k) ==> da[i][k].1 == db[i][k].1)
  {
    SlotsBetween(a, ia, b, ib, 0, 8);
    SlotsBetween(a, ia, b, ib, 8, 16);
    SlotsBetween(a, ia, b, ib, 16, 23);
  }

  /** `ArgumentsOnlyInSlots` for the blocks at positions lo to hi - 1. */
  lemma {:induction false} SlotsBetween(a: StyleArgs, ia: Icons, b: StyleArgs, ib: Icons, lo: nat, hi: nat)
    requires (lo, hi) == (0, 8) || (lo, hi) == (8, 16) || (lo, hi) == (16, 23)
    ensures var da: seq<seq<Decl>>, db: seq<seq<Decl>> := Declarations(a, ia), Declarations(b, ib);
      forall i, k :: lo <= i < hi && 0 <= k < |da[i]| ==>
        && k < |db[i]|
        && da[i][k].0 == db[i][k].0
        && (!ArgumentSlot(i, k) ==> da[i][k].1 == db[i][k].1)
  {
    var da: seq<seq<Decl>>, db: seq<seq<Decl>> := Declarations(a, ia), Declarations(b, ib);
    forall i, k | lo <= i < hi && 0 <= k < |da[i]|
      ensures k < |db[i]| && da[i][k].0 == db[i][k].0 && (!ArgumentSlot(i, k) ==> da[i][k].1 == db[i][k].1)
    {
      if lo == 0 {
      if i == 0 {
      } else if i == 1 {
      } else if i == 2 {
      } else if i == 3 {
      } else if i == 4 {
      } else if i == 5 {
      } else if i == 6 {
      } else {
      }
      } else if lo == 8 {
      if i == 8 {
      } else if i == 9 {
      } else if i == 10 {
      } else if i == 11 {
      } else if i == 12 {
      } else if i == 13 {
      } else if i == 14 {
      } else {
      }
      } else {
      if i == 16 {
      } else if i == 17 {
      } else if i == 18 {
      } else if i == 19 {
      } else if i == 20 {
      } else if i == 21 {
      } else {
      }
      }
    }
  }
}
