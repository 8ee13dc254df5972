/** File paths the dialog builds: Python's `os.path.join`, the
    backslash-to-slash rewrite applied to every path handed to Qt, and the
    fixed locations of the icon files, the preset images and the resized images.
    `dir` stands for `os.path.dirname(__file__)` and `sep` for `os.sep`. */
module Paths {

  /** `os.path.join(a, b)` for a relative `b`: a separator is put between the
      two unless `a` is empty or already ends with one. */
  function Join(sep: char, a: string, b: string): string
  {
    if a == [] || a[|a| - 1] == sep || a[|a| - 1] == '/' then a + b else a + [sep] + b
  }

  /** A joined path starts with its first part and ends with its second. */
  lemma {:induction false} JoinShape(sep: char, a: string, b: string)
    ensures var r := Join(sep, a, b);
      |r| >= |a| + |b| && r[..|a|] == a && r[|r| - |b|..] == b
  {
  }

  /** The rewrite of every backslash in a path to "/". */
  function Slashed(s: string): string
  {
    if s == [] then "" else [if s[0] == '\\' then '/' else s[0]] + Slashed(s[1..])
  }

  /** The rewrite replaces every backslash by "/" and keeps every other character
      where it was, so no backslash is left. */
  lemma {:induction false} SlashedSpec(s: string)
    ensures |Slashed(s)| == |s|
    ensures forall i :: 0 <= i < |s| ==> Slashed(s)[i] == (if s[i] == '\\' then '/' else s[i])
    ensures '\\' !in Slashed(s)
  {
    if s != [] {
      SlashedSpec(s[1..]);
      assert Slashed(s) == [Slashed(s)[0]] + Slashed(s[1..]);
    }
  }

  lemma {:induction false} SlashedConcat(a: string, b: string)
    ensures Slashed(a + b) == Slashed(a) + Slashed(b)
  {
    if a == [] {
      assert a + b == b;
    } else {
      assert (a + b)[1..] == a[1..] + b;
      SlashedConcat(a[1..], b);
    }
  }

  /** A string without backslashes is left as it is. */
  lemma {:induction false} SlashedIdentity(s: string)
    requires '\\' !in s
    ensures Slashed(s) == s
  {
    if s != [] {
      SlashedIdentity(s[1..]);
    }
  }

  /** The path of an icon file: `<dir>/images/<name>` with every backslash
      rewritten (plugin_dialog.py:126-136). */
  function IconPath(dir: string, sep: char, name: string): string
  {
    Slashed(Join(sep, Join(sep, dir, "images"), name))
  }

  /** `Join(sep, dir, last)` followed by the rewrite, for a last component that
      holds no backslash and does not end with a separator: the rewritten
      directory, one "/" and the component. */
  lemma {:induction false} SlashedJoin(dir: string, sep: char, last: string)
    requires sep == '/' || sep == '\\'
    requires '\\' !in last
    ensures Slashed(Join(sep, dir, last)) == Slashed(dir) + (if dir == [] || dir[|dir| - 1] == sep || dir[|dir| - 1] == '/' then "" else "/") + last
  {
    if dir == [] || dir[|dir| - 1] == sep || dir[|dir| - 1] == '/' {
      calc {
        Slashed(Join(sep, dir, last));
        Slashed(dir + last);
        { SlashedConcat(dir, last); }
        Slashed(dir) + Slashed(last);
        { SlashedIdentity(last); }
        Slashed(dir) + last;
      }
    } else {
      calc {
        Slashed(Join(sep, dir, last));
        Slashed((dir + [sep]) + last);
        { SlashedConcat(dir + [sep], last); }
        Slashed(dir + [sep]) + Slashed(last);
        { SlashedConcat(dir, [sep]); SlashedIdentity(last); }
        Slashed(dir) + Slashed([sep]) + last;
        { assert Slashed([sep]) == "/"; }
        Slashed(dir) + "/" + last;
      }
    }
  }

  /** With either separator, an icon path is the rewritten images directory, one
      "/" and the file name, when that name holds no backslash; it never holds a
      backslash itself. */
  lemma {:induction false} IconPathShape(dir: string, sep: char, name: string)
    requires sep == '/' || sep == '\\'
    requires '\\' !in name
    ensures IconPath(dir, sep, name) == Slashed(Join(sep, dir, "images")) + "/" + name
    ensures '\\' !in IconPath(dir, sep, name)
  {
    var images := Join(sep, dir, "images");
    JoinShape(sep, dir, "images");
    assert images[|images| - 1] == images[|images| - 6..][5] == 's';
    SlashedJoin(images, sep, name);
    SlashedSpec(Join(sep, images, name));
  }

  /** Where `_resize_image` writes the resized copy: `<dir>/image_<mode>.png`,
      backslashes rewritten (plugin_dialog.py:308-310). */
  function ResizedPath(dir: string, sep: char, mode: string): string
  {
    Slashed(Join(sep, dir, "image_" + mode + ".png"))
  }

  /** The resized copy lands in the plugin directory under a name fixed by the
      mode alone, so a second resize in the same mode overwrites the first. */
  lemma {:induction false} ResizedPathShape(dir: string, sep: char, mode: string)
    requires sep == '/' || sep == '\\'
    requires '\\' !in mode
    ensures var r := ResizedPath(dir, sep, mode);
      && '\\' !in r
      && |r| >= |mode| + 10
      && r[|r| - |mode| - 10..] == "image_" + mode + ".png"
  {
    var file := "image_" + mode + ".png";
    assert forall c :: c in file ==> c in "image_" || c in mode || c in ".png";
    SlashedJoin(dir, sep, file);
    SlashedSpec(Join(sep, dir, file));
    var r := ResizedPath(dir, sep, mode);
    assert r[|r| - |file|..] == file;
  }

  /** Where a preset's image file is looked for: `<dir>/preset/images/<name>`
      (plugin_dialog.py:237-239). This path is not rewritten. */
  function PresetImagePath(dir: string, sep: char, name: string): string
  {
    Join(sep, Join(sep, Join(sep, dir, "preset"), "images"), name)
  }
}
