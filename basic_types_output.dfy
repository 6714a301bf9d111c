/** What the generator prints for the table it ships with. */
module BasicTypesOutput {
  import opened Lines
  import opened TypeTable
  import opened Generator

  /** A table with the rows of `BasicTypes`, seen through a variable so that
      the verifier unfolds the filter one row at a time. */
  predicate SameRows(t: seq<BasicType>)
  {
    |t| == |BasicTypes| && forall i :: 0 <= i < |t| ==> t[i] == BasicTypes[i]
  }

  /** The headers the `cpp!` block includes after `pxr/base/vt/value.h`, in
      table order: one per row with a header, from `Half` to `Vec4i`. */
  const IncludedHeaders: seq<string> := [
    "pxr/base/gf/half.h",
    "pxr/base/tf/token.h",
    "pxr/base/gf/matrix2d.h",
    "pxr/base/gf/matrix3d.h",
    "pxr/base/gf/matrix4d.h",
    "pxr/base/gf/quatd.h",
    "pxr/base/gf/quatf.h",
    "pxr/base/gf/quath.h",
    "pxr/base/gf/vec2d.h",
    "pxr/base/gf/vec2f.h",
    "pxr/base/gf/vec2h.h",
    "pxr/base/gf/vec2i.h",
    "pxr/base/gf/vec3d.h",
    "pxr/base/gf/vec3f.h",
    "pxr/base/gf/vec3h.h",
    "pxr/base/gf/vec3i.h",
    "pxr/base/gf/vec4d.h",
    "pxr/base/gf/vec4f.h",
    "pxr/base/gf/vec4h.h",
    "pxr/base/gf/vec4i.h"
  ]

  /** The include list has twenty lines, none of them repeated, although the
      generator does not de-duplicate: the table's headers are distinct. */
  lemma BasicTypesIncludes()
    ensures HeaderPaths(BasicTypes) == IncludedHeaders
    ensures |HeaderPaths(BasicTypes)| == 20
    ensures forall p, q :: 0 <= p < q < |HeaderPaths(BasicTypes)| ==>
      HeaderPaths(BasicTypes)[p] != HeaderPaths(BasicTypes)[q]
  {
    IncludesOf(BasicTypes);
    BasicTypesHeadersDistinct();
    HeaderPathsDistinct(BasicTypes);
  }

  lemma IncludesOf(t: seq<BasicType>)
    requires SameRows(t)
    ensures HeaderPaths(t) == IncludedHeaders
  {
    var hs := IncludedHeaders;
    assert t[28..] == [];
    IncludesFrom24(t);
    assert HeaderPaths(t[24..]) == hs[16..];
    IncludesFrom20(t);
    assert HeaderPaths(t[20..]) == hs[12..];
    IncludesFrom16(t);
    assert HeaderPaths(t[16..]) == hs[8..];
    IncludesFrom12(t);
    assert HeaderPaths(t[12..]) == hs[4..];
    IncludesFrom8(t);
    assert HeaderPaths(t[8..]) == hs[1..];
    IncludesFrom4(t);
    IncludesFrom0(t);
    assert t[0..] == t;
  }

  lemma IncludesFrom0(t: seq<BasicType>)
    requires SameRows(t)
    ensures HeaderPaths(t[0..]) == [] + HeaderPaths(t[4..])
  {
    assert t[3].header == BasicTypes[3].header;
    HeaderPathsStep(t, 3);
    assert t[2].header == BasicTypes[2].header;
    HeaderPathsStep(t, 2);
    assert t[1].header == BasicTypes[1].header;
    HeaderPathsStep(t, 1);
    assert t[0].header == BasicTypes[0].header;
    HeaderPathsStep(t, 0);
  }

  lemma IncludesFrom4(t: seq<BasicType>)
    requires SameRows(t)
    ensures HeaderPaths(t[4..]) == ["pxr/base/gf/half.h"] + HeaderPaths(t[8..])
  {
    assert t[7].header == BasicTypes[7].header;
    HeaderPathsStep(t, 7);
    assert t[6].header == BasicTypes[6].header;
    HeaderPathsStep(t, 6);
    assert t[5].header == BasicTypes[5].header;
    HeaderPathsStep(t, 5);
    assert t[4].header == BasicTypes[4].header;
    HeaderPathsStep(t, 4);
  }

  lemma IncludesFrom8(t: seq<BasicType>)
    requires SameRows(t)
    ensures HeaderPaths(t[8..]) == ["pxr/base/tf/token.h", "pxr/base/gf/matrix2d.h", "pxr/base/gf/matrix3d.h"] + HeaderPaths(t[12..])
  {
    assert t[11].header == BasicTypes[11].header;
    HeaderPathsStep(t, 11);
    assert t[10].header == BasicTypes[10].header;
    HeaderPathsStep(t, 10);
    assert t[9].header == BasicTypes[9].header;
    HeaderPathsStep(t, 9);
    assert t[8].header == BasicTypes[8].header;
    HeaderPathsStep(t, 8);
  }

  lemma IncludesFrom12(t: seq<BasicType>)
    requires SameRows(t)
    ensures HeaderPaths(t[12..]) == ["pxr/base/gf/matrix4d.h", "pxr/base/gf/quatd.h", "pxr/base/gf/quatf.h", "pxr/base/gf/quath.h"] + HeaderPaths(t[16..])
  {
    assert t[15].header == BasicTypes[15].header;
    HeaderPathsStep(t, 15);
    assert t[14].header == BasicTypes[14].header;
    HeaderPathsStep(t, 14);
    assert t[13].header == BasicTypes[13].header;
    HeaderPathsStep(t, 13);
    assert t[12].header == BasicTypes[12].header;
    HeaderPathsStep(t, 12);
  }

  lemma IncludesFrom16(t: seq<BasicType>)
    requires SameRows(t)
    ensures HeaderPaths(t[16..]) == ["pxr/base/gf/vec2d.h", "pxr/base/gf/vec2f.h", "pxr/base/gf/vec2h.h", "pxr/base/gf/vec2i.h"] + HeaderPaths(t[20..])
  {
    assert t[19].header == BasicTypes[19].header;
    HeaderPathsStep(t, 19);
    assert t[18].header == BasicTypes[18].header;
    HeaderPathsStep(t, 18);
    assert t[17].header == BasicTypes[17].header;
    HeaderPathsStep(t, 17);
    assert t[16].header == BasicTypes[16].header;
    HeaderPathsStep(t, 16);
  }

  lemma IncludesFrom20(t: seq<BasicType>)
    requires SameRows(t)
    ensures HeaderPaths(t[20..]) == ["pxr/base/gf/vec3d.h", "pxr/base/gf/vec3f.h", "pxr/base/gf/vec3h.h", "pxr/base/gf/vec3i.h"] + HeaderPaths(t[24..])
  {
    assert t[23].header == BasicTypes[23].header;
    HeaderPathsStep(t, 23);
    assert t[22].header == BasicTypes[22].header;
    HeaderPathsStep(t, 22);
    assert t[21].header == BasicTypes[21].header;
    HeaderPathsStep(t, 21);
    assert t[20].header == BasicTypes[20].header;
    HeaderPathsStep(t, 20);
  }

  lemma IncludesFrom24(t: seq<BasicType>)
    requires SameRows(t)
    ensures HeaderPaths(t[24..]) == ["pxr/base/gf/vec4d.h", "pxr/base/gf/vec4f.h", "pxr/base/gf/vec4h.h", "pxr/base/gf/vec4i.h"] + HeaderPaths(t[28..])
  {
    assert t[27].header == BasicTypes[27].header;
    HeaderPathsStep(t, 27);
    assert t[26].header == BasicTypes[26].header;
    HeaderPathsStep(t, 26);
    assert t[25].header == BasicTypes[25].header;
    HeaderPathsStep(t, 25);
    assert t[24].header == BasicTypes[24].header;
    HeaderPathsStep(t, 24);
  }

  /** The include block is twenty `#include` lines, one per entry of
      `IncludedHeaders`. */
  lemma BasicTypesIncludeBlock()
    ensures SplitLines(IncludeBlock(BasicTypes)) == Map(IncludeDirective, IncludedHeaders) + [""]
    ensures |SplitLines(IncludeBlock(BasicTypes))| == 21
  {
    BasicTypesSingleLine();
    BasicTypesIncludes();
    IncludeBlockLines(BasicTypes);
  }

  /** The struct block is 28 `pub struct` lines, one per row, in table order. */
  lemma BasicTypesStructBlock()
    ensures SplitLines(StructBlock(BasicTypes)) == Map(StructDecl, BasicTypes) + [""]
    ensures |SplitLines(StructBlock(BasicTypes))| == 29
  {
    BasicTypesSingleLine();
    BasicTypesSize();
    StructBlockLines(BasicTypes);
  }

  /** `Matrix2d` is declared over six doubles, as the table writes its
      storage (`[f64;2*3]`), although a 2x2 matrix holds four. */
  lemma BasicTypesMatrix2dLine()
    ensures StructDecl(BasicTypes[10]) == "pub struct Matrix2d(pub [f64;2*3]);"
    ensures BasicTypes[10].cppType == "pxr::GfMatrix2d"
  {
    var e := BasicTypes[10];
    assert e.name == "Matrix2d" && e.storage == "[f64;2*3]";
  }
}
