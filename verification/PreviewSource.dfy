/** The module the preview plugin generates: one import per component, rendered with both keys quoted as JSON. */
module PreviewSource {
  import opened Basics

  datatype Component = Component(globKey: string, importPath: string)

  function Join(parts: seq<string>, sep: string): string
  {
    if parts == [] then ""
    else if |parts| == 1 then parts[0]
    else parts[0] + sep + Join(parts[1..], sep)
  }

  function Rendered(render: Component -> string, components: seq<Component>): seq<string>
  {
    seq(|components|, i requires 0 <= i < |components| => render(components[i]))
  }

  function Generate(render: Component -> string, components: seq<Component>): (source: string)
    ensures source != ""
  {
    Join(["// This file is auto-generated " + "by mockupPreviewPlugin.ts.",
          "type ModuleMap = Record<string, " + "() => Promise<Record<string, unknown>>>;",
          "export const modules: ModuleMap = {",
          Join(Rendered(render, components), ",\n"),
          "};",
          ""], "\n")
  }

  // ---- What a reader of the file sees, line by line ----

  function Lines(text: string): (lines: seq<string>)
    ensures lines != []
  {
    if text == "" then [""] else
      var rest := Lines(text[1..]);
      if text[0] == '\n' then [""] + rest else [[text[0]] + rest[0]] + rest[1..]
  }

  /** One line per component, in order, all but the last with a comma; an empty line when there is none. */
  function EntryLines(render: Component -> string, components: seq<Component>): (lines: seq<string>)
  {
    if components == [] then [""]
    else seq(|components|, i requires 0 <= i < |components| => render(components[i]) + (if i + 1 < |components| then "," else ""))
  }

  lemma {:induction false} FirstLine(line: string, rest: string)
    requires '\n' !in line
    ensures Lines(line + "\n" + rest) == [line] + Lines(rest)
    ensures Lines(line) == [line]
  {
    if line == "" {
      assert ("\n" + rest)[1..] == rest;
      assert line + "\n" + rest == "\n" + rest;
    } else {
      FirstLine(line[1..], rest);
      assert (line + "\n" + rest)[1..] == line[1..] + "\n" + rest;
      assert [line[0]] + line[1..] == line;
    }
  }

  lemma {:induction false} JoinedLines(lines: seq<string>)
    requires lines != [] && forall line | line in lines :: '\n' !in line
    ensures Lines(Join(lines, "\n")) == lines
  {
    if |lines| == 1 {
      FirstLine(lines[0], "");
    } else {
      JoinedLines(lines[1..]);
      FirstLine(lines[0], Join(lines[1..], "\n"));
      assert [lines[0]] + lines[1..] == lines;
    }
  }

  lemma Grouped(x: string, y: string, z: string)
    ensures x + y + z == x + (y + z)
  {
  }

  lemma {:induction false} JoinTwo(a: seq<string>, b: seq<string>, sep: string)
    requires a != [] && b != []
    ensures Join(a + b, sep) == Join(a, sep) + sep + Join(b, sep)
  {
    if |a| == 1 {
      assert (a + b)[1..] == b;
    } else {
      JoinTwo(a[1..], b, sep);
      assert (a + b)[1..] == a[1..] + b;
      Grouped(a[0] + sep, Join(a[1..], sep), sep + Join(b, sep));
      Grouped(a[0] + sep + Join(a[1..], sep), sep, Join(b, sep));
      Grouped(Join(a[1..], sep), sep, Join(b, sep));
    }
  }

  lemma Nested(a: seq<string>, b: seq<string>, c: seq<string>, sep: string)
    requires a != [] && b != [] && c != []
    ensures Join(a + [Join(b, sep)] + c, sep) == Join(a + b + c, sep)
  {
    JoinTwo(a + b, c, sep);
    JoinTwo(a, b, sep);
    JoinTwo(a + [Join(b, sep)], c, sep);
    JoinTwo(a, [Join(b, sep)], sep);
  }

  lemma {:induction false} CommaLines(render: Component -> string, components: seq<Component>)
    ensures Join(Rendered(render, components), ",\n") == Join(EntryLines(render, components), "\n")
  {
    var parts, lines := Rendered(render, components), EntryLines(render, components);
    if |components| > 1 {
      CommaLines(render, components[1..]);
      assert parts[1..] == Rendered(render, components[1..]);
      assert lines[1..] == EntryLines(render, components[1..]);
      assert lines[0] == parts[0] + ",";
      assert "," + "\n" == ",\n";
    }
  }

  ghost predicate OneLine(render: Component -> string)
  {
    forall c :: '\n' !in render(c)
  }

  lemma Framed(render: Component -> string, components: seq<Component>, l0: string, l1: string, l2: string, l3: string, l4: string)
    requires OneLine(render)
    requires '\n' !in l0 && '\n' !in l1 && '\n' !in l2 && '\n' !in l3 && '\n' !in l4
    ensures Lines(Join([l0, l1, l2, Join(Rendered(render, components), ",\n"), l3, l4], "\n")) ==
            [l0, l1, l2] + EntryLines(render, components) + [l3, l4]
  {
    var entries := EntryLines(render, components);
    CommaLines(render, components);
    Nested([l0, l1, l2], entries, [l3, l4], "\n");
    assert [l0, l1, l2] + [Join(entries, "\n")] + [l3, l4] == [l0, l1, l2, Join(entries, "\n"), l3, l4];
    JoinedLines([l0, l1, l2] + entries + [l3, l4]);
  }

  lemma NoteOneLine()
    ensures '\n' !in "// This file is auto-generated " + "by mockupPreviewPlugin.ts."
  {
  }

  lemma TypeOneLine()
    ensures '\n' !in "type ModuleMap = Record<string, " + "() => Promise<Record<string, unknown>>>;"
  {
  }

  /** The generated file, line by line: three fixed lines, one line per component, in order, and the end. */
  lemma SourceLines(render: Component -> string, components: seq<Component>)
    requires OneLine(render)
    ensures Lines(Generate(render, components)) ==
            ["// This file is auto-generated " + "by mockupPreviewPlugin.ts.",
             "type ModuleMap = Record<string, " + "() => Promise<Record<string, unknown>>>;",
             "export const modules: ModuleMap = {"] + EntryLines(render, components) + ["};", ""]
  {
    NoteOneLine();
    TypeOneLine();
    Framed(render, components,
           "// This file is auto-generated " + "by mockupPreviewPlugin.ts.",
           "type ModuleMap = Record<string, " + "() => Promise<Record<string, unknown>>>;",
           "export const modules: ModuleMap = {", "};", "");
  }

  ghost predicate Faithful(render: Component -> string)
  {
    && OneLine(render)
    && (forall c :: render(c) != "")
    && (forall c, d :: render(c) == render(d) ==> c == d)
  }

  /** Different components, or the same in another order, give different sources. */
  lemma SourcesDiffer(render: Component -> string, a: seq<Component>, b: seq<Component>)
    requires Faithful(render)
    ensures Generate(render, a) == Generate(render, b) <==> a == b
  {
    if Generate(render, a) == Generate(render, b) {
      SourceLines(render, a);
      SourceLines(render, b);
      var la, lb := EntryLines(render, a), EntryLines(render, b);
      var ga, gb := Lines(Generate(render, a)), Lines(Generate(render, b));
      assert la == ga[3..|ga| - 2] && lb == gb[3..|gb| - 2];
      SameEntries(render, a, b);
    }
  }

  lemma EntriesShow(render: Component -> string, components: seq<Component>)
    requires Faithful(render)
    ensures EntryLines(render, components) == [""] <==> components == []
  {
    if components != [] {
      assert EntryLines(render, components)[0][..|render(components[0])|] == render(components[0]);
    }
  }

  lemma SameEntries(render: Component -> string, a: seq<Component>, b: seq<Component>)
    requires Faithful(render) && EntryLines(render, a) == EntryLines(render, b)
    ensures a == b
  {
    var la, lb := EntryLines(render, a), EntryLines(render, b);
    EntriesShow(render, a);
    EntriesShow(render, b);
    if a != [] && b != [] {
      assert |a| == |la| == |lb| == |b|;
      forall i | 0 <= i < |a|
        ensures a[i] == b[i]
      {
        assert la[i] == lb[i];
        assert la[i][..|la[i]| - (if i + 1 < |a| then 1 else 0)] == render(a[i]);
        assert lb[i][..|lb[i]| - (if i + 1 < |b| then 1 else 0)] == render(b[i]);
      }
    }
  }

  // ---- How the plugin renders: both keys as JSON strings ----

  function Hex(n: nat): char
    requires n < 16
  {
    "0123456789abcdef"[n]
  }

  /** One character of a JSON string. */
  function Escape(c: char): string
  {
    if c == '"' then "\\\""
    else if c == '\\' then "\\\\"
    else if c == 8 as char then "\\b"
    else if c == 12 as char then "\\f"
    else if c == '\n' then "\\n"
    else if c == '\r' then "\\r"
    else if c == '\t' then "\\t"
    else if c < ' ' then "\\u00" + [Hex(c as int / 16), Hex(c as int % 16)]
    else [c]
  }

  function Body(s: string): string
  {
    if s == "" then "" else Escape(s[0]) + Body(s[1..])
  }

  function Quote(s: string): string
  {
    "\"" + Body(s) + "\""
  }

  function Render(c: Component): string
  {
    "  " + Quote(c.globKey) + ": () => import(" + Quote(c.importPath) + ")"
  }

  // ---- Reading it back, as RFC 8259, section 7, reads strings ----

  function HexValue(c: char): nat
  {
    if '0' <= c <= '9' then (c - '0') as nat
    else if 'a' <= c <= 'f' then (c - 'a') as nat + 10
    else if 'A' <= c <= 'F' then (c - 'A') as nat + 10
    else 16
  }

  /** The code unit four hexadecimal digits stand for; surrogates are no characters of their own. */
  function FromHex(digits: string): Option<char>
    requires |digits| == 4
  {
    var a, b, c, d := HexValue(digits[0]), HexValue(digits[1]), HexValue(digits[2]), HexValue(digits[3]);
    var unit := ((a * 16 + b) * 16 + c) * 16 + d;
    if a > 15 || b > 15 || c > 15 || d > 15 || 0xD800 <= unit <= 0xDFFF then None else Some(unit as char)
  }

  /** The first character of a string's text and the text after it. */
  function ReadChar(text: string): (r: Option<(char, string)>)
    ensures r.Some? ==> |r.value.1| < |text|
  {
    if text == "" || text[0] == '"' || text[0] < ' ' then None
    else if text[0] != '\\' then Some((text[0], text[1..]))
    else if |text| < 2 then None
    else if text[1] == 'u' then
      if |text| < 6 || FromHex(text[2..6]).None? then None else Some((FromHex(text[2..6]).value, text[6..]))
    else match text[1]
      case '"' => Some(('"', text[2..]))
      case '\\' => Some(('\\', text[2..]))
      case '/' => Some(('/', text[2..]))
      case 'b' => Some((8 as char, text[2..]))
      case 'f' => Some((12 as char, text[2..]))
      case 'n' => Some((10 as char, text[2..]))
      case 'r' => Some((13 as char, text[2..]))
      case 't' => Some((9 as char, text[2..]))
      case _ => None
  }

  /** From behind the opening quote: the string, and what follows its closing quote. */
  function ReadRest(text: string): Option<(string, string)>
    decreases |text|
  {
    if text == "" then None
    else if text[0] == '"' then Some(("", text[1..]))
    else match ReadChar(text)
      case None => None
      case Some((c, rest)) =>
        match ReadRest(rest)
        case None => None
        case Some((s, after)) => Some(([c] + s, after))
  }

  lemma ReadsChar(c: char, after: string)
    ensures ReadChar(Escape(c) + after) == Some((c, after))
    ensures Escape(c)[0] != '"'
  {
    var e := Escape(c);
    assert (e + after)[|e|..] == after;
    assert (e + after)[0] == e[0];
    if e[0] == '\\' {
      assert (e + after)[1] == e[1];
      if e[1] == 'u' {
        ReadsHex(c as nat);
        assert (e + after)[2..6] == e[2..6] == ['0', '0', Hex(c as nat / 16), Hex(c as nat % 16)];
      }
    }
  }

  lemma ReadsHex(n: nat)
    requires n < 32
    ensures FromHex(['0', '0', Hex(n / 16), Hex(n % 16)]) == Some(n as char)
  {
  }

  /** The rest of a quoted string after its opening quote, and what follows it. */
  function Rest(s: string, after: string): string
  {
    Body(s) + "\"" + after
  }

  /** Quoting and reading back gives the string, whatever follows. */
  lemma {:induction false} QuoteReadsBack(s: string, after: string)
    ensures ReadRest(Rest(s, after)) == Some((s, after))
  {
    var text := Rest(s, after);
    if s == "" {
      assert text == "\"" + after && text[1..] == after;
    } else {
      var rest := Rest(s[1..], after);
      assert text == Escape(s[0]) + rest;
      ReadsChar(s[0], rest);
      QuoteReadsBack(s[1..], after);
      assert text[0] == Escape(s[0])[0];
      assert [s[0]] + s[1..] == s;
    }
  }

  lemma SamePrefix(prefix: string, x: string, y: string)
    requires prefix + x == prefix + y
    ensures x == y
  {
    assert x == (prefix + x)[|prefix|..] && y == (prefix + y)[|prefix|..];
  }

  lemma Regroup(start: string, key: string, middle: string, path: string, end: string)
    ensures start + Quote(key) + middle + Quote(path) + end ==
            (start + "\"") + Rest(key, (middle + "\"") + Rest(path, end))
  {
  }

  lemma {:induction false} BodyOneLine(s: string)
    ensures '\n' !in Body(s)
  {
    if s == "" {
    } else {
      BodyOneLine(s[1..]);
    }
  }

  lemma RenderInjective(c: Component, d: Component)
    requires Render(c) == Render(d)
    ensures c == d
  {
    InPieces("  ", c, d, ": () => import(", ")");
  }

  lemma InPieces(start: string, c: Component, d: Component, middle: string, end: string)
    requires start + Quote(c.globKey) + middle + Quote(c.importPath) + end == start + Quote(d.globKey) + middle + Quote(d.importPath) + end
    ensures c == d
  {
    Regroup(start, c.globKey, middle, c.importPath, end);
    Regroup(start, d.globKey, middle, d.importPath, end);
    var x, y := (middle + "\"") + Rest(c.importPath, end), (middle + "\"") + Rest(d.importPath, end);
    SamePrefix(start + "\"", Rest(c.globKey, x), Rest(d.globKey, y));
    QuoteReadsBack(c.globKey, x);
    QuoteReadsBack(d.globKey, y);
    SamePrefix(middle + "\"", Rest(c.importPath, end), Rest(d.importPath, end));
    QuoteReadsBack(c.importPath, end);
    QuoteReadsBack(d.importPath, end);
  }

  lemma PiecesOneLine(start: string, c: Component, middle: string, end: string)
    requires '\n' !in start && '\n' !in middle && '\n' !in end
    ensures '\n' !in start + Quote(c.globKey) + middle + Quote(c.importPath) + end
    ensures start + Quote(c.globKey) + middle + Quote(c.importPath) + end != ""
  {
    BodyOneLine(c.globKey);
    BodyOneLine(c.importPath);
  }

  /** JSON quoting keeps every entry on one line and tells all components apart. */
  lemma RenderFaithful()
    ensures Faithful(Render)
  {
    forall c
      ensures '\n' !in Render(c) && Render(c) != ""
    {
      PiecesOneLine("  ", c, ": () => import(", ")");
    }
    forall c, d | Render(c) == Render(d)
      ensures c == d
    {
      RenderInjective(c, d);
    }
  }

  /** The plugin's own file: the entry of every component, on the line of its place, whole. */
  lemma OwnEntries(components: seq<Component>, i: nat)
    requires i < |components|
    ensures var lines, c := Lines(Generate(Render, components)), components[i];
            && |lines| == |components| + 5
            && lines[3 + i] == "  " + Quote(c.globKey) + ": () => import(" + Quote(c.importPath) + ")" +
                               (if i + 1 < |components| then "," else "")
  {
    RenderFaithful();
    SourceLines(Render, components);
  }
}
