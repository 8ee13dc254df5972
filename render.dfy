/** Rendering a style table as Qt stylesheet text
    (`_generate_stylesheet`, plugin_dialog.py:227-234). */
module Stylesheet {
  import opened Tables

  /** One declaration line: four spaces, `prop: value;` and a newline. */
  function RenderDecl(d: Decl): string
  {
    "    " + d.0 + ": " + d.1 + ";\n"
  }

  function RenderDecls(ds: seq<Decl>): (r: string)
    ensures ds == [] <==> r == []
  {
    if ds == [] then "" else RenderDecl(ds[0]) + RenderDecls(ds[1..])
  }

  /** One block: the selector line, its declarations in order, the closing brace. */
  function RenderBlock(b: Block): string
  {
    b.0 + " {\n" + RenderDecls(b.1) + "}\n"
  }

  /** The whole stylesheet: the blocks in insertion order. */
  function Render(t: StyleTable): (r: string)
    ensures t == [] <==> r == []
  {
    if t == [] then "" else RenderBlock(t[0]) + Render(t[1..])
  }

  lemma {:induction false} RenderDeclsConcat(a: seq<Decl>, b: seq<Decl>)
    ensures RenderDecls(a + b) == RenderDecls(a) + RenderDecls(b)
  {
    if a == [] {
      assert a + b == b;
    } else {
      assert (a + b)[1..] == a[1..] + b;
      RenderDeclsConcat(a[1..], b);
    }
  }

  /** Rendering distributes over concatenation of tables: the output keeps the
      tables' order, block for block. */
  lemma {:induction false} RenderConcat(a: StyleTable, b: StyleTable)
    ensures Render(a + b) == Render(a) + Render(b)
  {
    if a == [] {
      assert a + b == b;
    } else {
      assert (a + b)[1..] == a[1..] + b;
      RenderConcat(a[1..], b);
    }
  }

  /** The text of block i stands between the renders of the blocks before it and after it. */
  lemma {:induction false} RenderAt(t: StyleTable, i: nat)
    requires i < |t|
    ensures Render(t) == Render(t[..i]) + RenderBlock(t[i]) + Render(t[i + 1..])
  {
    assert t == t[..i] + [t[i]] + t[i + 1..];
    RenderConcat(t[..i] + [t[i]], t[i + 1..]);
    RenderConcat(t[..i], [t[i]]);
  }

  /** A rendered table starts with the text of its first block. */
  lemma {:induction false} RenderFirst(t: StyleTable)
    requires t != []
    ensures RenderBlock(t[0]) <= Render(t)
  {
    RenderAt(t, 0);
    assert t[..0] == [];
  }

  /** `_generate_stylesheet`: appends to the output in two nested loops, over the
      selectors and then over each selector's properties. */
  method GenerateStylesheet(styles: StyleTable) returns (stylesheet: string)
    ensures stylesheet == Render(styles)
  {
    stylesheet := "";
    for i := 0 to |styles|
      invariant stylesheet == Render(styles[..i])
    {
      var (selector, properties) := styles[i];
      ghost var done := stylesheet;
      stylesheet := stylesheet + (selector + " {\n");
      for j := 0 to |properties|
        invariant stylesheet == done + (selector + " {\n") + RenderDecls(properties[..j])
      {
        var (prop, value) := properties[j];
        var line := "    " + prop + ": " + value + ";\n";
        assert line == RenderDecl(properties[j]);
        DeclsStep(properties, j);
        AppendAssoc(done + (selector + " {\n"), RenderDecls(properties[..j]), line);
        stylesheet := stylesheet + line;
      }
      assert properties[..|properties|] == properties;
      AppendAssoc(done, selector + " {\n", RenderDecls(properties));
      AppendAssoc(done, selector + " {\n" + RenderDecls(properties), "}\n");
      BlocksStep(styles, i);
      stylesheet := stylesheet + "}\n";
    }
    assert styles[..|styles|] == styles;
  }

  lemma AppendAssoc<T>(a: seq<T>, b: seq<T>, c: seq<T>)
    ensures a + b + c == a + (b + c)
  {
  }

  lemma {:induction false} DeclsStep(ds: seq<Decl>, j: nat)
    requires j < |ds|
    ensures RenderDecls(ds[..j + 1]) == RenderDecls(ds[..j]) + RenderDecl(ds[j])
  {
    assert ds[..j + 1] == ds[..j] + [ds[j]];
    RenderDeclsConcat(ds[..j], [ds[j]]);
  }

  lemma {:induction false} BlocksStep(t: StyleTable, i: nat)
    requires i < |t|
    ensures Render(t[..i + 1]) == Render(t[..i]) + RenderBlock(t[i])
  {
    assert t[..i + 1] == t[..i] + [t[i]];
    RenderConcat(t[..i], [t[i]]);
  }
}
