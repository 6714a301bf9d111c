/** `generate_basic_types`: turns the type table into the Rust source of the
    basic-types module (wrapper structs plus `From`/`AsRef` conversions through
    `pxr::VtValue`). The program prints that text; here it is the value of
    `Generate`. */
module Generator {
  import opened Wrappers
  import opened Lines
  import opened RustFormat
  import opened TypeTable

  // ---------------------------------------------------------------------------
  // The include block: `.filter(|…, x| x.is_some()).map(|…, x| format!(…)).collect()`

  /** `"    #include \"{}\"\n"`: one `#include` line for a header. */
  const IncludeTemplate: Template := [Text("    #include \""), Arg(""), Text("\"\n")]

  /** The headers of the rows whose header is `Some`, unwrapped, in table
      order. */
  function HeaderPaths(t: seq<BasicType>): seq<string>
  {
    if t == [] then []
    else (if t[0].header.Some? then [t[0].header.value] else []) + HeaderPaths(t[1..])
  }

  function IncludeLine(h: string): string
  {
    Render(IncludeTemplate, map["" := h])
  }

  /** The `headers` string of the generator. */
  function IncludeBlock(t: seq<BasicType>): string
  {
    Concat(Map(IncludeLine, HeaderPaths(t)))
  }

  // ---------------------------------------------------------------------------
  // The struct block: `.map(|(name, typ, …)| format!(…)).collect()`

  /** `"pub struct {name}(pub {typ});\n"`. */
  const StructTemplate: Template :=
    [Text("pub struct "), Arg("name"), Text("(pub "), Arg("typ"), Text(");\n")]

  function StructLine(e: BasicType): string
  {
    Render(StructTemplate, map["name" := e.name, "typ" := e.storage])
  }

  /** The `names` string of the generator. */
  function StructBlock(t: seq<BasicType>): string
  {
    Concat(Map(StructLine, t))
  }

  // ---------------------------------------------------------------------------
  // The preamble: the first `println!`

  const FileHeader :=
    "//------------------------------------------------------------------------------\n"
    + "// Luke Titley : from+usd_rs@luketitley.com\n"
    + "//------------------------------------------------------------------------------\n"
    + "// AUTOMATICALLY GENERATED : Don't edit by hand.\n"
    + "// See usd-basic-types\n"

  const UseLines := "\nuse super::Value;\nuse cpp::*;\n\nuse half::f16; // Half is not a standard rust type\n"

  const TupleComment := "\n// To avoid a conflict between types, like vec4 and quat, we use named tuples.\n"

  const PragmasPush :=
    "\n    #pragma GCC diagnostic push\n"
    + "    #pragma GCC diagnostic ignored \"-Wunused-parameter\"\n"
    + "    #pragma GCC diagnostic ignored \"-Wmissing-field-initializers\"\n"

  /** The header of `pxr::VtValue`, written into the template by hand. */
  const ValueHeader := "pxr/base/vt/value.h"

  const ValueInclude := "    #include \"pxr/base/vt/value.h\"\n"

  const PragmaPop := "\n    #pragma GCC diagnostic pop\n"

  /** The preamble's format string: the struct block goes after the comment on
      named tuples, the include block inside `cpp! {{ … }}` after the
      `pxr/base/vt/value.h` include. */
  const PreambleTemplate: Template := PreambleHead + PreambleCpp

  const PreambleHead: Template :=
    [Text(FileHeader + UseLines + TupleComment), Arg("names"), Text("\n\ncpp! "), Open, Open]

  const PreambleCpp: Template :=
    [Text(PragmasPush + ValueInclude), Arg("headers"), Text(PragmaPop), Close, Close, Text("\n")]

  function Preamble(names: string, headers: string): string
  {
    assert Keys(PreambleTemplate) == {"names", "headers"};
    Render(PreambleTemplate, map["headers" := headers, "names" := names])
  }

  /** `println!` adds a line feed after the formatted text. */
  function Println(s: string): string
  {
    s + "\n"
  }

  // ---------------------------------------------------------------------------
  // The conversions: one `println!` per row in the `for` loop

  /** First half of the loop's format string, line by line:
      `impl From<&{name}> for Value`. */
  const FromHeadLine: Template := [Text("impl From<&"), Arg("name"), Text("> for Value "), Open]
  const FromFnLine: Template := [Text("\n    fn from(other: &"), Arg("name"), Text(") -> Self "), Open]
  const UnsafeLine: Template := [Text("\n        unsafe "), Open]
  const FromCppLine: Template :=
    [Text("\n            cpp!([other as \"const "), Arg("c"), Text(" *\"] -> Value as \"pxr::VtValue\" "), Open]
  const FromBodyLine: Template := [Text("\n                return pxr::VtValue(*other);\n            "), Close]
  /** The closing lines shared by both impls. */
  const ClosingLines: Template := [Text(")\n        "), Close, Text("\n    "), Close, Text("\n"), Close]

  const FromImplTemplate: Template :=
    FromHeadLine + FromFnLine + UnsafeLine + FromCppLine + FromBodyLine + ClosingLines

  /** Second half, after the blank line: `impl AsRef<{name}> for Value`. */
  const AsRefHeadLine: Template := [Text("\n\nimpl AsRef<"), Arg("name"), Text("> for Value "), Open]
  const AsRefFnLine: Template := [Text("\n    fn as_ref(&self) -> &"), Arg("name"), Text(" "), Open]
  const AsRefCppLine: Template := [
    Text("\n            cpp!([self as \"const pxr::VtValue *\"] -> &"), Arg("name"),
    Text(" as \"const "), Arg("c"), Text(" *\" "), Open
  ]
  const AsRefBodyLine: Template := [Text("\n                return &(self->Get<"), Arg("c"), Text(">());\n            "), Close]

  const AsRefImplTemplate: Template :=
    AsRefHeadLine + AsRefFnLine + UnsafeLine + AsRefCppLine + AsRefBodyLine + ClosingLines

  const ConversionTemplate: Template := FromImplTemplate + AsRefImplTemplate

  /** The `From` impl refers to the row's name and C++ type and to nothing
      else. */
  lemma FromImplKeys()
    ensures Keys(FromImplTemplate) == {"name", "c"}
  {
    var t := FromImplTemplate;
    assert t[1] == Arg("name") && t[11] == Arg("c");
    assert forall i :: 0 <= i < |t| && t[i].Arg? ==> t[i].key in {"name", "c"};
  }

  /** So does the `AsRef` impl. */
  lemma AsRefImplKeys()
    ensures Keys(AsRefImplTemplate) == {"name", "c"}
  {
    var t := AsRefImplTemplate;
    assert t[1] == Arg("name") && t[13] == Arg("c");
    assert forall i :: 0 <= i < |t| && t[i].Arg? ==> t[i].key in {"name", "c"};
  }

  /** One loop iteration refers to the row's name and C++ type, and not to its
      storage type. */
  lemma ConversionKeys()
    ensures Keys(ConversionTemplate) == {"name", "c"}
  {
    FromImplKeys();
    AsRefImplKeys();
    KeysAppend(FromImplTemplate, AsRefImplTemplate);
  }

  function ConversionArgs(e: BasicType): map<string, string>
  {
    map["name" := e.name, "c" := e.cppType]
  }

  function FromImpl(e: BasicType): string
  {
    Render(FromImplTemplate, ConversionArgs(e))
  }

  function AsRefImpl(e: BasicType): string
  {
    Render(AsRefImplTemplate, ConversionArgs(e))
  }

  /** What one iteration of the loop prints. */
  function ConversionPair(e: BasicType): string
  {
    ConversionKeys();
    Println(Render(ConversionTemplate, ConversionArgs(e)))
  }

  function Conversions(t: seq<BasicType>): string
  {
    Concat(Map(ConversionPair, t))
  }

  // ---------------------------------------------------------------------------
  // The whole output

  function Generate(t: seq<BasicType>): string
  {
    Println(Preamble(StructBlock(t), IncludeBlock(t))) + Conversions(t)
  }

  /** What `generate_basic_types` prints for the table. */
  function GenerateBasicTypes(): string
  {
    Generate(BasicTypes)
  }

  // ---------------------------------------------------------------------------
  // The include block

  /** The filter-map keeps table order: the headers of a table split in two are
      those of the first part followed by those of the second. */
  lemma {:induction false} HeaderPathsAppend(a: seq<BasicType>, b: seq<BasicType>)
    ensures HeaderPaths(a + b) == HeaderPaths(a) + HeaderPaths(b)
  {
    if a == [] {
      assert a + b == b;
    } else {
      assert (a + b)[1..] == a[1..] + b;
      HeaderPathsAppend(a[1..], b);
    }
  }

  /** A header is included exactly when some row names it. */
  lemma {:induction false} HeaderPathsMember(t: seq<BasicType>, h: string)
    ensures h in HeaderPaths(t) <==> exists i :: 0 <= i < |t| && t[i].header == Some(h)
  {
    if t != [] {
      HeaderPathsMember(t[1..], h);
      if exists i :: 0 <= i < |t[1..]| && t[1..][i].header == Some(h) {
        var i :| 0 <= i < |t[1..]| && t[1..][i].header == Some(h);
        assert t[i + 1].header == Some(h);
      }
      if exists i :: 0 <= i < |t| && t[i].header == Some(h) {
        var i :| 0 <= i < |t| && t[i].header == Some(h);
        if i > 0 {
          assert t[1..][i - 1].header == Some(h);
        }
      }
    }
  }

  /** Filtering a suffix of the table: its first row, then the rest. */
  lemma HeaderPathsStep(t: seq<BasicType>, k: nat)
    requires k < |t|
    ensures HeaderPaths(t[k..]) ==
      (if t[k].header.Some? then [t[k].header.value] else []) + HeaderPaths(t[k + 1..])
  {
    assert t[k..][1..] == t[k + 1..];
  }

  /** Where row `i`'s include line goes: after those of the rows before it. */
  ghost function IncludePosition(t: seq<BasicType>, i: nat): nat
    requires i <= |t|
  {
    |HeaderPaths(t[..i])|
  }

  /** A row with a header has its header at its position in the list. */
  lemma HeaderPathsAt(t: seq<BasicType>, i: nat)
    requires i < |t| && t[i].header.Some?
    ensures IncludePosition(t, i) < |HeaderPaths(t)|
    ensures HeaderPaths(t)[IncludePosition(t, i)] == t[i].header.value
  {
    assert t == t[..i] + t[i..];
    HeaderPathsAppend(t[..i], t[i..]);
    assert t[i..][0] == t[i];
  }

  /** Rows with headers keep their table order in the include list, at
      distinct positions. */
  lemma HeaderPathsInOrder(t: seq<BasicType>, i: nat, j: nat)
    requires i < j < |t| && t[i].header.Some? && t[j].header.Some?
    ensures IncludePosition(t, i) < IncludePosition(t, j) < |HeaderPaths(t)|
    ensures HeaderPaths(t)[IncludePosition(t, i)] == t[i].header.value
    ensures HeaderPaths(t)[IncludePosition(t, j)] == t[j].header.value
  {
    HeaderPathsAt(t, i);
    HeaderPathsAt(t, j);
    assert t[..j] == t[..i] + t[i..j];
    HeaderPathsAppend(t[..i], t[i..j]);
    assert t[i..j][0] == t[i];
  }

  /** The generator does not de-duplicate; the include list is free of
      repeats exactly because the rows' headers are. */
  lemma {:induction false} HeaderPathsDistinct(t: seq<BasicType>)
    requires HeadersDistinct(t)
    ensures forall p, q :: 0 <= p < q < |HeaderPaths(t)| ==> HeaderPaths(t)[p] != HeaderPaths(t)[q]
  {
    if t != [] {
      var rest := t[1..];
      assert HeadersDistinct(rest) by {
        forall i, j | 0 <= i < j < |rest| && rest[i].header.Some? && rest[j].header.Some?
          ensures rest[i].header.value != rest[j].header.value
        {
          assert rest[i] == t[i + 1] && rest[j] == t[j + 1];
        }
      }
      HeaderPathsDistinct(rest);
      if t[0].header.Some? {
        var h := t[0].header.value;
        HeaderPathsMember(rest, h);
        assert h !in HeaderPaths(rest) by {
          forall i | 0 <= i < |rest| ensures rest[i].header != Some(h) {
            assert rest[i] == t[i + 1];
          }
        }
      }
    }
  }

  /** Nor does it drop repeats: two rows naming one header put it twice into
      the include list. */
  lemma HeaderPathsKeepsRepeats(t: seq<BasicType>, i: nat, j: nat)
    requires i < j < |t| && t[i].header.Some? && t[i].header == t[j].header
    ensures exists p, q :: 0 <= p < q < |HeaderPaths(t)| && HeaderPaths(t)[p] == HeaderPaths(t)[q]
  {
    HeaderPathsInOrder(t, i, j);
    var p, q := IncludePosition(t, i), IncludePosition(t, j);
    assert HeaderPaths(t)[p] == HeaderPaths(t)[q];
  }

  /** Rows without a header add no text to the include block. */
  lemma IncludeBlockSkipsNone(t: seq<BasicType>, i: nat)
    requires i < |t| && t[i].header.None?
    ensures IncludeBlock(t[..i] + t[i + 1..]) == IncludeBlock(t)
  {
    assert t == t[..i] + ([t[i]] + t[i + 1..]);
    assert [t[i]][1..] == [];
    HeaderPathsAppend(t[..i], [t[i]] + t[i + 1..]);
    HeaderPathsAppend([t[i]], t[i + 1..]);
    HeaderPathsAppend(t[..i], t[i + 1..]);
    assert HeaderPaths(t[..i] + t[i + 1..]) == HeaderPaths(t);
  }

  /** An include line without its line feed. */
  function IncludeDirective(h: string): string
  {
    "    #include \"" + h + "\""
  }

  lemma IncludeLineText(h: string)
    ensures IncludeLine(h) == IncludeDirective(h) + "\n"
  {
    RenderPieces3(Text("    #include \""), Arg(""), Text("\"\n"), map["" := h]);
    AppendAssoc("    #include \"" + h, "\"", "\n");
  }

  /** The include block is one `#include "h"` line per header, in order, and
      nothing else. */
  lemma IncludeBlockLines(t: seq<BasicType>)
    requires HeadersSingleLine(t)
    ensures SplitLines(IncludeBlock(t)) == Map(IncludeDirective, HeaderPaths(t)) + [""]
  {
    var hs := HeaderPaths(t);
    forall k | 0 <= k < |hs| ensures IncludeLine(hs[k]) == IncludeDirective(hs[k]) + "\n" {
      IncludeLineText(hs[k]);
    }
    ConcatOfLines(Map(IncludeLine, hs), Map(IncludeDirective, hs));
    forall k | 0 <= k < |hs| ensures NoNewline(IncludeDirective(hs[k])) {
      HeaderPathsMember(t, hs[k]);
      assert NoNewline("    #include \"") && NoNewline("\"");
    }
    SplitJoin(Map(IncludeDirective, hs));
  }

  /** The piece template is what the source's format string reads as, so the
      include line is what `format!("    #include \"{}\"\n", h)` prints. */
  lemma IncludeFormat(h: string)
    ensures Format("    #include \"{}\"\n", map["" := h]) == Some(IncludeLine(h))
  {
    var t := IncludeTemplate;
    assert Source(t[2..]) == "\"\n";
    assert Source(t[1..]) == "{}" + "\"\n";
    assert Source(t) == "    #include \"{}\"\n";
    assert WellFormed(t);
    assert Keys(t) == {""} by {
      assert t[1] == Arg("");
    }
    FormatSource(t, map["" := h]);
  }

  /** The fixed `pxr/base/vt/value.h` include has the same shape as the
      generated ones and comes first: the `cpp!` block includes `value.h`, then
      the table's headers in table order. */
  lemma ValueIncludeFirst(t: seq<BasicType>)
    ensures ValueInclude + IncludeBlock(t) == Concat(Map(IncludeLine, [ValueHeader] + HeaderPaths(t)))
  {
    var hs := HeaderPaths(t);
    assert IncludeLine(ValueHeader) == ValueInclude;
    assert Map(IncludeLine, [ValueHeader] + hs) == [ValueInclude] + Map(IncludeLine, hs);
    ConcatAppend([ValueInclude], Map(IncludeLine, hs));
  }

  // ---------------------------------------------------------------------------
  // The struct block

  /** A struct line without its line feed. */
  function StructDecl(e: BasicType): string
  {
    "pub struct " + e.name + "(pub " + e.storage + ");"
  }

  lemma StructLineText(e: BasicType)
    ensures StructLine(e) == StructDecl(e) + "\n"
  {
    var m := map["name" := e.name, "typ" := e.storage];
    RenderPieces5(Text("pub struct "), Arg("name"), Text("(pub "), Arg("typ"), Text(");\n"), m);
    AppendAssoc("pub struct " + e.name + "(pub " + e.storage, ");", "\n");
  }

  /** The struct block is one `pub struct Name(pub Typ);` line per row, in
      table order: as many lines as the table has rows. */
  lemma StructBlockLines(t: seq<BasicType>)
    requires StructFieldsSingleLine(t)
    ensures SplitLines(StructBlock(t)) == Map(StructDecl, t) + [""]
    ensures |SplitLines(StructBlock(t))| == |t| + 1
  {
    forall k | 0 <= k < |t| ensures StructLine(t[k]) == StructDecl(t[k]) + "\n" {
      StructLineText(t[k]);
    }
    ConcatOfLines(Map(StructLine, t), Map(StructDecl, t));
    forall k | 0 <= k < |t| ensures NoNewline(StructDecl(t[k])) {
      assert NoNewline("pub struct ") && NoNewline("(pub ") && NoNewline(");");
    }
    SplitJoin(Map(StructDecl, t));
  }

  /** The struct line is what `format!("pub struct {name}(pub {typ});\n", …)`
      prints. */
  lemma StructFormat(e: BasicType)
    ensures Format("pub struct {name}(pub {typ});\n", map["name" := e.name, "typ" := e.storage])
      == Some(StructLine(e))
  {
    StructTemplateSource();
    StructTemplateWellFormed();
    var t := StructTemplate;
    assert Keys(t) == {"name", "typ"} by {
      assert t[1] == Arg("name") && t[3] == Arg("typ");
    }
    FormatSource(t, map["name" := e.name, "typ" := e.storage]);
  }

  lemma StructTemplateSource()
    ensures Source(StructTemplate) == "pub struct {name}(pub {typ});\n"
  {
    var t := StructTemplate;
    assert Source(t[4..]) == ");\n";
    assert Source(t[3..]) == "{typ}" + ");\n";
    assert Source(t[2..]) == "(pub " + "{typ}" + ");\n";
    assert Source(t[1..]) == "{name}" + "(pub " + "{typ}" + ");\n";
    assert Source(t) == "pub struct " + "{name}" + "(pub " + "{typ}" + ");\n";
    StructSourceSpelling();
  }

  lemma StructSourceSpelling()
    ensures "pub struct " + "{name}" + "(pub " + "{typ}" + ");\n" == "pub struct {name}(pub {typ});\n"
  {
  }

  lemma StructTemplateWellFormed()
    ensures WellFormed(StructTemplate)
  {
    assert BraceFree("pub struct ");
    assert BraceFree("(pub ");
    assert BraceFree(");\n");
    assert BraceFree("name") && BraceFree("typ");
  }

  // ---------------------------------------------------------------------------
  // The conversions

  /** One iteration prints the `From` impl, then the `AsRef` impl (the blank
      line between them opens the second half), then `println!`'s line feed. */
  lemma ConversionPairSplit(e: BasicType)
    ensures ConversionPair(e) == FromImpl(e) + AsRefImpl(e) + "\n"
  {
    RenderAppend(FromImplTemplate, AsRefImplTemplate, ConversionArgs(e));
  }

  /** The `From<&Name>` impl with the row's name and C++ type filled in; every
      doubled brace of the template prints as one brace. */
  lemma FromImplText(e: BasicType)
    ensures FromImpl(e) ==
      ("impl From<&" + e.name + "> for Value {")
      + ("\n    fn from(other: &" + e.name + ") -> Self {")
      + "\n        unsafe {"
      + ("\n            cpp!([other as \"const " + e.cppType + " *\"] -> Value as \"pxr::VtValue\" {")
      + "\n                return pxr::VtValue(*other);\n            }"
      + ")\n        }\n    }\n}"
  {
    var m := ConversionArgs(e);
    var a := FromHeadLine + FromFnLine + UnsafeLine + FromCppLine;
    RenderAppend(a + FromBodyLine, ClosingLines, m);
    RenderAppend(a, FromBodyLine, m);
    RenderAppend(FromHeadLine + FromFnLine + UnsafeLine, FromCppLine, m);
    RenderAppend(FromHeadLine + FromFnLine, UnsafeLine, m);
    RenderAppend(FromHeadLine, FromFnLine, m);
    FromLinesText(e);
    UnsafeLineText(m);
    ClosingLinesText(m);
  }

  lemma FromLinesText(e: BasicType)
    ensures Render(FromHeadLine, ConversionArgs(e)) == "impl From<&" + e.name + "> for Value {"
    ensures Render(FromFnLine, ConversionArgs(e)) == "\n    fn from(other: &" + e.name + ") -> Self {"
    ensures Render(FromCppLine, ConversionArgs(e))
      == "\n            cpp!([other as \"const " + e.cppType + " *\"] -> Value as \"pxr::VtValue\" {"
    ensures Render(FromBodyLine, ConversionArgs(e)) == "\n                return pxr::VtValue(*other);\n            }"
  {
    var m := ConversionArgs(e);
    HeadLineText(FromHeadLine, "impl From<&", "> for Value ", m);
    HeadLineText(FromFnLine, "\n    fn from(other: &", ") -> Self ", m);
    HeadLineText(FromCppLine, "\n            cpp!([other as \"const ", " *\"] -> Value as \"pxr::VtValue\" ", m);
    RenderPieces2(Text("\n                return pxr::VtValue(*other);\n            "), Close, m);
  }

  /** The `AsRef<Name>` impl with the row's name and C++ type filled in; it
      opens with the blank line that separates it from the `From` impl. */
  lemma AsRefImplText(e: BasicType)
    ensures AsRefImpl(e) ==
      ("\n\nimpl AsRef<" + e.name + "> for Value {")
      + ("\n    fn as_ref(&self) -> &" + e.name + " {")
      + "\n        unsafe {"
      + ("\n            cpp!([self as \"const pxr::VtValue *\"] -> &" + e.name + " as \"const " + e.cppType + " *\" {")
      + ("\n                return &(self->Get<" + e.cppType + ">());\n            }")
      + ")\n        }\n    }\n}"
  {
    var m := ConversionArgs(e);
    var a := AsRefHeadLine + AsRefFnLine + UnsafeLine + AsRefCppLine;
    RenderAppend(a + AsRefBodyLine, ClosingLines, m);
    RenderAppend(a, AsRefBodyLine, m);
    RenderAppend(AsRefHeadLine + AsRefFnLine + UnsafeLine, AsRefCppLine, m);
    RenderAppend(AsRefHeadLine + AsRefFnLine, UnsafeLine, m);
    RenderAppend(AsRefHeadLine, AsRefFnLine, m);
    AsRefLinesText(e);
    UnsafeLineText(m);
    ClosingLinesText(m);
  }

  lemma AsRefLinesText(e: BasicType)
    ensures Render(AsRefHeadLine, ConversionArgs(e)) == "\n\nimpl AsRef<" + e.name + "> for Value {"
    ensures Render(AsRefFnLine, ConversionArgs(e)) == "\n    fn as_ref(&self) -> &" + e.name + " {"
    ensures Render(AsRefCppLine, ConversionArgs(e))
      == "\n            cpp!([self as \"const pxr::VtValue *\"] -> &" + e.name + " as \"const " + e.cppType + " *\" {"
    ensures Render(AsRefBodyLine, ConversionArgs(e))
      == "\n                return &(self->Get<" + e.cppType + ">());\n            }"
  {
    var m := ConversionArgs(e);
    HeadLineText(AsRefHeadLine, "\n\nimpl AsRef<", "> for Value ", m);
    HeadLineText(AsRefFnLine, "\n    fn as_ref(&self) -> &", " ", m);
    AsRefCppLineText(e);
    AsRefBodyLineText(e);
  }

  lemma AsRefCppLineText(e: BasicType)
    ensures Render(AsRefCppLine, ConversionArgs(e))
      == "\n            cpp!([self as \"const pxr::VtValue *\"] -> &" + e.name + " as \"const " + e.cppType + " *\" {"
  {
    RenderPieces6(Text("\n            cpp!([self as \"const pxr::VtValue *\"] -> &"), Arg("name"),
      Text(" as \"const "), Arg("c"), Text(" *\" "), Open, ConversionArgs(e));
  }

  lemma AsRefBodyLineText(e: BasicType)
    ensures Render(AsRefBodyLine, ConversionArgs(e))
      == "\n                return &(self->Get<" + e.cppType + ">());\n            }"
  {
    RenderPieces4(Text("\n                return &(self->Get<"), Arg("c"), Text(">());\n            "), Close,
      ConversionArgs(e));
  }

  /** A line of the shape `<text>{key}<text>{{`. */
  lemma HeadLineText(t: Template, before: string, after: string, m: map<string, string>)
    requires |t| == 4 && t[0] == Text(before) && t[1].Arg? && t[2] == Text(after) && t[3] == Open
    ensures Render(t, m) == before + PieceText(t[1], m) + after + "{"
  {
    RenderPieces4(t[0], t[1], t[2], t[3], m);
    assert t == [t[0], t[1], t[2], t[3]];
  }

  lemma UnsafeLineText(m: map<string, string>)
    ensures Render(UnsafeLine, m) == "\n        unsafe {"
  {
    RenderPieces2(Text("\n        unsafe "), Open, m);
  }

  lemma ClosingLinesText(m: map<string, string>)
    ensures Render(ClosingLines, m) == ")\n        }\n    }\n}"
  {
    RenderPieces6(Text(")\n        "), Close, Text("\n    "), Close, Text("\n"), Close, m);
  }

  // ---------------------------------------------------------------------------
  // The whole output

  /** The preamble: the fixed comment and `use` lines, the struct block, then
      a `cpp! {{ … }}` block (the format string's `{{{{` and `}}}}` print two
      braces each) holding the pragmas, the `value.h` include and the include
      block. */
  lemma PreambleText(names: string, headers: string)
    ensures Preamble(names, headers) ==
      (FileHeader + UseLines + TupleComment) + names + "\n\ncpp! {{"
      + (PragmasPush + ValueInclude) + headers + PragmaPop + "}}\n"
  {
    PreambleShape(FileHeader + UseLines + TupleComment, PragmasPush + ValueInclude, PragmaPop, names, headers);
  }

  /** The preamble's shape, whatever its fixed text. */
  lemma PreambleShape(before: string, inside: string, after: string, names: string, headers: string)
    ensures
      var m := map["headers" := headers, "names" := names];
      Render([Text(before), Arg("names"), Text("\n\ncpp! "), Open, Open]
        + [Text(inside), Arg("headers"), Text(after), Close, Close, Text("\n")], m)
      == before + names + "\n\ncpp! {{" + inside + headers + after + "}}\n"
  {
    var m := map["headers" := headers, "names" := names];
    var a := [Text(before), Arg("names"), Text("\n\ncpp! "), Open, Open];
    var b := [Text(inside), Arg("headers"), Text(after), Close, Close, Text("\n")];
    RenderAppend(a, b, m);
    ArgThenBracesText(before, "names", "\n\ncpp! ", m);
    ArgThenClosesText(inside, "headers", after, m);
  }

  lemma ArgThenBracesText(before: string, k: string, after: string, m: map<string, string>)
    requires k in m
    ensures Render([Text(before), Arg(k), Text(after), Open, Open], m) == before + m[k] + after + "{{"
  {
    RenderPieces5(Text(before), Arg(k), Text(after), Open, Open, m);
    AppendAssoc(before + m[k] + after, "{", "{");
  }

  lemma ArgThenClosesText(before: string, k: string, after: string, m: map<string, string>)
    requires k in m
    ensures Render([Text(before), Arg(k), Text(after), Close, Close, Text("\n")], m)
      == before + m[k] + after + "}}\n"
  {
    RenderPieces6(Text(before), Arg(k), Text(after), Close, Close, Text("\n"), m);
    var x := before + m[k] + after;
    AppendAssoc(x + "}", "}", "\n");
    AppendAssoc(x, "}", "}\n");
  }


  /** The output in order: the fixed header comment and `use` lines, the
      struct block, the `cpp!` block with the `value.h` include ahead of the
      include block, a blank line (the first `println!`'s line feed after the
      format string's own), then the conversion pairs. */
  lemma GenerateLayout(t: seq<BasicType>)
    ensures Generate(t) ==
      (FileHeader + UseLines + TupleComment) + StructBlock(t) + "\n\ncpp! {{"
      + (PragmasPush + ValueInclude) + IncludeBlock(t) + PragmaPop + "}}\n" + "\n"
      + Conversions(t)
  {
    PreambleText(StructBlock(t), IncludeBlock(t));
  }

  /** The conversions of a table split in two are those of the first part
      followed by those of the second. */
  lemma ConversionsAppend(a: seq<BasicType>, b: seq<BasicType>)
    ensures Conversions(a + b) == Conversions(a) + Conversions(b)
  {
    assert Map(ConversionPair, a + b) == Map(ConversionPair, a) + Map(ConversionPair, b);
    ConcatAppend(Map(ConversionPair, a), Map(ConversionPair, b));
  }

  /** Row `i`'s `From` and `AsRef` impls come after those of the rows before it
      and before those of the rows after it. */
  lemma ConversionsAt(t: seq<BasicType>, i: nat)
    requires i < |t|
    ensures Conversions(t) ==
      Conversions(t[..i]) + FromImpl(t[i]) + AsRefImpl(t[i]) + "\n" + Conversions(t[i + 1..])
  {
    assert t == t[..i] + [t[i]] + t[i + 1..];
    ConversionsAppend(t[..i] + [t[i]], t[i + 1..]);
    ConversionsAppend(t[..i], [t[i]]);
    assert Conversions([t[i]]) == ConversionPair(t[i]) by {
      var p := ConversionPair(t[i]);
      assert Map(ConversionPair, [t[i]]) == [p];
      assert [p][1..] == [];
      assert Concat([p]) == p + Concat([]);
    }
    ConversionPairSplit(t[i]);
  }

  // ---------------------------------------------------------------------------
  // Which fields go where

  /** Two tables that differ at most in their rows' storage types. */
  predicate SameButStorage(t: seq<BasicType>, u: seq<BasicType>)
  {
    && |t| == |u|
    && forall i :: 0 <= i < |t| ==>
      t[i].name == u[i].name && t[i].cppType == u[i].cppType && t[i].header == u[i].header
  }

  /** The storage type appears in the struct block only: tables that differ
      only there have the same include block and the same conversions, so
      their outputs differ only in the struct block. */
  lemma {:induction false} StorageOnlyInStructBlock(t: seq<BasicType>, u: seq<BasicType>)
    requires SameButStorage(t, u)
    ensures IncludeBlock(t) == IncludeBlock(u)
    ensures Conversions(t) == Conversions(u)
  {
    SameButStorageHeaders(t, u);
    assert Map(ConversionPair, t) == Map(ConversionPair, u) by {
      forall i | 0 <= i < |t| ensures ConversionPair(t[i]) == ConversionPair(u[i]) {
        assert ConversionArgs(t[i]) == ConversionArgs(u[i]);
      }
    }
  }

  lemma {:induction false} SameButStorageHeaders(t: seq<BasicType>, u: seq<BasicType>)
    requires SameButStorage(t, u)
    ensures HeaderPaths(t) == HeaderPaths(u)
  {
    if t != [] {
      assert SameButStorage(t[1..], u[1..]) by {
        forall i | 0 <= i < |t| - 1
          ensures t[1..][i].name == u[1..][i].name && t[1..][i].cppType == u[1..][i].cppType
          ensures t[1..][i].header == u[1..][i].header
        {
          assert t[1..][i] == t[i + 1] && u[1..][i] == u[i + 1];
        }
      }
      SameButStorageHeaders(t[1..], u[1..]);
    }
  }

  /** Conversely the struct block reads only the names and storage types. */
  lemma StructBlockFields(t: seq<BasicType>, u: seq<BasicType>)
    requires |t| == |u|
    requires forall i :: 0 <= i < |t| ==> t[i].name == u[i].name && t[i].storage == u[i].storage
    ensures StructBlock(t) == StructBlock(u)
  {
    assert Map(StructLine, t) == Map(StructLine, u);
  }
}
