# QGISDresser dialog, modelled in Dafny

QGISDresser is a QGIS plugin that restyles the QGIS main window. Its dialog
offers two modes:

- **preset mode**: pick a named preset from `preset/list.yml`;
- **image mode**: pick an image file and a black or white text colour.

Either way the dialog builds a *style table* and renders it as Qt style sheet
text. A style table is an ordered dictionary from 23 fixed Qt selectors to
ordered `property: value` declarations. The rendered text replaces the main
window's style sheet. The "default" preset clears the style sheet instead.

This project models `QGISDresser/plugin_dialog.py`, with one file per part:

- `tables.dfy`: insertion-ordered dictionaries as sequences of pairs, with
  lookup `Find` and `Value`.
- `render.dfy`: `_generate_stylesheet`. It is the method `GenerateStylesheet`,
  whose nested loops are proved to produce `Render(table)`. Lemmas give the
  shape of the rendered text.
- `paths.dfy`: the `os.path.join` paths the dialog builds (icons, preset
  images, the resized image files) and the `replace("\\", "/")` rewrite.
- `synth.dfy`: `_generate_style_dict`, the 23-selector table. Lemmas show:
  - which argument lands in which declaration;
  - that every other declaration is a fixed literal;
  - that no selector repeats.
- `presets.dfy`: where the arguments come from:
  - the image mode (`_generate_image_properties`);
  - the preset list (`_load_list`);
  - preset lookup, including its `KeyError` cases (`_get_style_properties`);
  - image substitution (`_get_image_property`).
- `dialog.dfy`: the dialog object (`QGISDresserGUI`) as a class. Its
  operations are:
  - `SetStyleList`;
  - `ChangeGroupboxStatus`;
  - `ApplyStyle`, which writes the main window's style sheet;
  - `AcceptStyle`;
  - `Close`.

  `Decide` states, as a function, what `apply_style` does for given controls
  and surroundings.

The plugin's surroundings are a parameter, `Presets.Env`. It holds:

- the plugin directory (`os.path.dirname(__file__)`);
- the path separator;
- the set of paths that exist on disk (what `os.path.exists` answers);
- the parsed `styles` list of `preset/list.yml`.

The widget state read at a button press is a parameter too, `Dialog.Controls`.

One behaviour the lemmas make explicit: a preset named "default" in the preset
file can never be applied. The "default" test comes before the lookup, so that
name always clears the style sheet (`Dialog.PresetEdgeCases`).

Both the image path and the preset path call the same `_generate_style_dict`
(plugin_dialog.py:97-101 and 266-275), so both build the same 23 selectors in
the same order (the contracts of `Presets.ImageProperties` and
`Presets.PresetProperties`).

## Model

| member | source | states |
|---|---|---|
| Tables.FindSound | QGISDresser/plugin_dialog.py:139-223 | dictionary indexing fails exactly when the key is absent; a found value is stored under that key |
| Tables.FindZip | QGISDresser/plugin_dialog.py:139-223 | in a dictionary literal without repeated keys, the i-th key looks up the i-th value |
| Paths.JoinShape | QGISDresser/plugin_dialog.py:126-136 | a joined path starts with its first part and ends with its last |
| Paths.SlashedSpec | QGISDresser/plugin_dialog.py:128-136 | the backslash rewrite keeps the length, turns every backslash into "/", changes nothing else and leaves no backslash |
| Paths.IconPathShape | QGISDresser/plugin_dialog.py:126-136 | an icon path is the rewritten images directory, "/" and the file name, and holds no backslash, whichever separator the platform uses |
| Paths.ResizedPathShape | QGISDresser/plugin_dialog.py:308-310 | the resized copy ends in `image_<mode>.png` and holds no backslash; the mode alone fixes the file, so later resizes overwrite it |
| Stylesheet.Render | QGISDresser/plugin_dialog.py:227-234 | an empty table, and only an empty table, renders as empty text |
| Stylesheet.RenderConcat | QGISDresser/plugin_dialog.py:229-233 | rendering a concatenation of tables concatenates their renders, in order |
| Stylesheet.RenderAt | QGISDresser/plugin_dialog.py:229-233 | the text of block i sits between the render of the blocks before it and that of the blocks after it |
| Stylesheet.RenderFirst | QGISDresser/plugin_dialog.py:229-233 | the style sheet starts with its first block |
| Stylesheet.GenerateStylesheet | QGISDresser/plugin_dialog.py:227-234 | the two nested append loops produce exactly `Render(styles)`: each selector line, its declarations in order, then the closing brace |
| Synth.Declarations | QGISDresser/plugin_dialog.py:139-223 | there is one declaration list per selector |
| Synth.GenerateStyleDict | QGISDresser/plugin_dialog.py:105-225 | for any arguments the table's selectors are exactly the 23 of the source, in source order |
| Synth.StyleDictSelectors | QGISDresser/plugin_dialog.py:139-223 | for any arguments the table has 23 entries and no selector occurs twice |
| Synth.SelectorsDistinct | QGISDresser/plugin_dialog.py:139-223 | no selector of the literal occurs twice, so no entry of the dictionary display is overwritten |
| Synth.BlockAt | QGISDresser/plugin_dialog.py:139-223 | looking up the i-th selector finds the i-th declaration list |
| Synth.CharColorSlots | QGISDresser/plugin_dialog.py:146-222 | the text colour argument is the `color` of the dock widgets, menu bar, tool buttons, layer tree, tree items, labels and check boxes |
| Synth.InputWidgetsFixed | QGISDresser/plugin_dialog.py:207-218 | line edits, combo boxes and spin boxes always get black text on `rgba(255, 255, 255, 0.9)`, whatever the arguments |
| Synth.MainWindowBlock | QGISDresser/plugin_dialog.py:140-145 | the main window gets the colour, image and position arguments unchanged, then `no-repeat` |
| Synth.ToolButtonBlock | QGISDresser/plugin_dialog.py:154-159 | the tool buttons get the text colour and the button colour, image and position arguments unchanged |
| Synth.TreeViewBlock | QGISDresser/plugin_dialog.py:169-172 | the layer tree gets the text colour and the tree colour argument |
| Synth.BranchArrows | QGISDresser/plugin_dialog.py:129-184 | the closed and open branch images are the right and down arrow icons in the text colour, under the images directory, with "/" separators |
| Synth.CheckedIndicator | QGISDresser/plugin_dialog.py:126-199 | the tick of a checked layer box is `url(<images>/icon-check.png)` with "/" separators, on either platform |
| Synth.ArgumentsOnlyInSlots | QGISDresser/plugin_dialog.py:105-225 | the arguments and icon paths reach only their own declarations: any two argument sets give the same property names, and the same value outside the argument slots |
| Presets.ImageProperties | QGISDresser/plugin_dialog.py:88-103 | image mode builds a table over the same 23 selectors, in the same order, as every other call of `_generate_style_dict` |
| Presets.ImageMainWindow | QGISDresser/plugin_dialog.py:88-103 | image mode sets the main window background to the url of `image_main.png` in the plugin directory, on transparent, left, unrepeated |
| Presets.ImageTreeAndButtons | QGISDresser/plugin_dialog.py:89-101 | image mode gives a light tree behind black text and a dark tree behind white text; the tool buttons keep their transparent, centred defaults |
| Presets.LoadList | QGISDresser/plugin_dialog.py:286-297 | the result is the names of the presets in file order, and it fails with `KeyError: 'name'` exactly when some entry lacks a name |
| Presets.FindPreset | QGISDresser/plugin_dialog.py:254-257 | the lookup can fail only with `KeyError: 'name'`; a returned entry with a name is in the list and has the name asked for; otherwise it is the empty dictionary, and then no entry has the name |
| Presets.FindPresetAt | QGISDresser/plugin_dialog.py:254-257 | behind entries that have other names, the first entry with the name is returned, and a nameless entry raises `KeyError: 'name'` |
| Presets.FindPresetNone | QGISDresser/plugin_dialog.py:254-257 | a name no entry has gives the empty dictionary |
| Presets.ListedPresetFound | QGISDresser/plugin_dialog.py:254-257 | when every entry has a name, a name the preset list shows is found |
| Presets.ImagePropertyShape | QGISDresser/plugin_dialog.py:236-247 | a value naming an existing preset image becomes `url(<path>)` where the path ends in `image_<mode>.png` and holds no backslash; any other value, such as a colour, is returned unchanged |
| Presets.ImagePropertyFiles | QGISDresser/plugin_dialog.py:236-247 | the resized copy depends on the mode and not on which existing image was given; the main image and the button image go to different files |
| Presets.FirstMissing | QGISDresser/plugin_dialog.py:259-275 | no key is reported when every key is present; a reported key is one the entry lacks |
| Presets.FirstMissingIsFirst | QGISDresser/plugin_dialog.py:259-275 | the reported key is the first missing one in reading order |
| Presets.PresetArgs | QGISDresser/plugin_dialog.py:259-275 | the arguments are built exactly when the entry has all eight keys; otherwise the error names a key of the eight that the entry lacks |
| Presets.PresetProperties | QGISDresser/plugin_dialog.py:249-277 | a preset fails only with `KeyError` on `name` or on one of the eight keys it reads; a built table has the same 23 selectors in the same order as in image mode |
| Presets.UnknownPresetFails | QGISDresser/plugin_dialog.py:254-261 | a name that is not in a fully named preset file fails with `KeyError: 'main-image'` |
| Presets.IncompletePresetFails | QGISDresser/plugin_dialog.py:259-275 | a found entry that lacks a key fails with the first key it lacks in reading order, and no table is built |
| Presets.PresetApplied | QGISDresser/plugin_dialog.py:249-277 | a complete entry found by name builds a table whose main window, tool buttons and layer tree carry its values, with its images through `_get_image_property` |
| Dialog.Decide | QGISDresser/plugin_dialog.py:49-73 | "default" clears exactly when the preset mode is on with that name; a missing image is reported exactly in image mode; a raise happens exactly when the preset lookup fails, and only with `KeyError` on `name` or a preset key; an applied table has the 23 selectors in order |
| Dialog.Dialog.constructor | QGISDresser/plugin_dialog.py:28-43 | a new dialog lists "default" and then the preset names, enables the group box of the checked mode, has shown no message and is open |
| Dialog.Dialog.SetStyleList | QGISDresser/plugin_dialog.py:81-86 | the combo box holds "default" and then the preset names in file order; a nameless entry leaves only "default" and raises `KeyError: 'name'` |
| Dialog.Dialog.ChangeGroupboxStatus | QGISDresser/plugin_dialog.py:75-79 | exactly one group box is enabled, the one of the checked mode |
| Dialog.Dialog.ApplyStyle | QGISDresser/plugin_dialog.py:49-73 | "default" sets the main window's style sheet once, to the empty text; a built table sets it once, to its render; a failed lookup or a missing image never sets it; only a missing image adds the "Image file not found." message |
| Dialog.Dialog.AcceptStyle | QGISDresser/plugin_dialog.py:45-47 | OK applies as `ApplyStyle` does, with the same single write or none, then closes the dialog, unless the apply raised |
| Dialog.Dialog.Close | QGISDresser/plugin_dialog.py:36 | Cancel closes the dialog and does not touch the main window |
| Dialog.SheetStartsWithMainWindow | QGISDresser/plugin_dialog.py:139-145 | every synthesized style sheet starts with the main window block: colour, image, position, `no-repeat` |
| Dialog.PresetSheet | QGISDresser/plugin_dialog.py:49-73 | applying a complete, found preset writes a style sheet that starts with the preset's main window colour, image and position |
| Dialog.ImageSheet | QGISDresser/plugin_dialog.py:58-73 | applying an existing image writes a style sheet whose first block shows the resized `image_main.png` |
| Dialog.PresetEdgeCases | QGISDresser/plugin_dialog.py:49-57 | "default" always clears, whatever the preset file holds; an unknown name in a fully named file fails with `KeyError: 'main-image'` |

## Left out

- `QGISDresser/plugin.py` (the QGIS menu and toolbar plumbing that opens the dialog) is not part of this model.
- The tests under `tests/` are not part of this model.
- Image resizing with PIL is left out. The pixel contents, the host window's size at call time and the saving of the file cannot be modelled. The model keeps the path the resized copy is written to (`Paths.ResizedPath`), which is also what the style sheet refers to.
- Reading and parsing `preset/list.yml` (file I/O, `yaml.safe_load`, `data.get("styles", [])`) is left out. The parsed `styles` list is a parameter. Its entries are dictionaries from strings to strings, and a value of another YAML type is not modelled.
- The YAML file is read anew at every apply. The model reflects this only because each `ApplyStyle` call takes its own `Env`.
- `os.path.exists` is a set of existing paths in `Env`. Which files exist is up to the caller.
- `os.path.join` is modelled for relative components only. Its rule that an absolute later component discards the earlier ones is left out. This only matters for a preset image value that is an absolute path.
- Exceptions raised by PIL for a file that exists but is not an image are left out. So is the case of a preset image value naming a directory.
- The Qt widgets themselves are left out: loading the `.ui` file, signal wiring, the message box's appearance and `iface`. The message box is modelled only as the text appended to `Dialog.Dialog.messages`.
- `_image_url` (plugin_dialog.py:279-284) is never called by the dialog, so it is left out.
- Dialog.Dialog.constructor: when an entry of the preset file has no name, the source's `__init__` raises and no dialog is shown. The model's constructor cannot fail, so it returns a dialog whose list holds only "default".
- Dialog.Dialog.ApplyStyle: a preset's resize happens before a later missing key raises. That file write is not modelled, since the model has no file system state.
