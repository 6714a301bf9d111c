/** The `BASIC_TYPES` table of `usd-basic-types`: the value types a USD
    attribute can hold that the binding supports, in the order the table
    lists them. */
module TypeTable {
  import opened Wrappers
  import opened Lines

  /** One row of the table: the name of the generated wrapper struct, the Rust
      type it wraps, the C++ type stored in a `pxr::VtValue`, and the C++
      header that declares that type (`None` for C++ built-ins). */
  datatype BasicType = BasicType(name: string, storage: string, cppType: string, header: Option<string>)

  /** The table exactly as the generator's source lists it, including the
      storage `[f64;2*3]` given for `Matrix2d`. */
  const BasicTypes: seq<BasicType> := [
    BasicType("Bool", "bool", "bool", None),
    BasicType("UChar", "u8", "uint8_t", None),
    BasicType("Int", "i32", "int32_t", None),
    BasicType("UInt", "u32", "uint32_t", None),
    BasicType("Int64", "i64", "int64_t", None),
    BasicType("UInt64", "u64", "uint64_t", None),
    BasicType("Half", "f16", "pxr::GfHalf", Some("pxr/base/gf/half.h")),
    BasicType("Float", "f32", "float", None),
    BasicType("Double", "f64", "double", None),
    BasicType("Token", "crate::pxr::tf::Token", "pxr::TfToken", Some("pxr/base/tf/token.h")),
    BasicType("Matrix2d", "[f64;2*3]", "pxr::GfMatrix2d", Some("pxr/base/gf/matrix2d.h")),
    BasicType("Matrix3d", "[f64;3*3]", "pxr::GfMatrix3d", Some("pxr/base/gf/matrix3d.h")),
    BasicType("Matrix4d", "[f64;4*4]", "pxr::GfMatrix4d", Some("pxr/base/gf/matrix4d.h")),
    BasicType("Quatd", "[f64;4]", "pxr::GfQuatd", Some("pxr/base/gf/quatd.h")),
    BasicType("Quatf", "[f32;4]", "pxr::GfQuatf", Some("pxr/base/gf/quatf.h")),
    BasicType("Quath", "[f16;4]", "pxr::GfQuath", Some("pxr/base/gf/quath.h")),
    BasicType("Vec2d", "[f64;2]", "pxr::GfVec2d", Some("pxr/base/gf/vec2d.h")),
    BasicType("Vec2f", "[f32;2]", "pxr::GfVec2f", Some("pxr/base/gf/vec2f.h")),
    BasicType("Vec2h", "[f16;2]", "pxr::GfVec2h", Some("pxr/base/gf/vec2h.h")),
    BasicType("Vec2i", "[i32;2]", "pxr::GfVec2i", Some("pxr/base/gf/vec2i.h")),
    BasicType("Vec3d", "[f64;3]", "pxr::GfVec3d", Some("pxr/base/gf/vec3d.h")),
    BasicType("Vec3f", "[f32;3]", "pxr::GfVec3f", Some("pxr/base/gf/vec3f.h")),
    BasicType("Vec3h", "[f16;3]", "pxr::GfVec3h", Some("pxr/base/gf/vec3h.h")),
    BasicType("Vec3i", "[i32;3]", "pxr::GfVec3i", Some("pxr/base/gf/vec3i.h")),
    BasicType("Vec4d", "[f64;4]", "pxr::GfVec4d", Some("pxr/base/gf/vec4d.h")),
    BasicType("Vec4f", "[f32;4]", "pxr::GfVec4f", Some("pxr/base/gf/vec4f.h")),
    BasicType("Vec4h", "[f16;4]", "pxr::GfVec4h", Some("pxr/base/gf/vec4h.h")),
    BasicType("Vec4i", "[i32;4]", "pxr::GfVec4i", Some("pxr/base/gf/vec4i.h"))
  ]

  /** No two rows share a wrapper name (two `pub struct`s of one name would
      not compile). */
  predicate NamesDistinct(t: seq<BasicType>)
  {
    forall i, j :: 0 <= i < j < |t| ==> t[i].name != t[j].name
  }

  /** No two rows name the same header. */
  predicate HeadersDistinct(t: seq<BasicType>)
  {
    forall i, j :: 0 <= i < j < |t| && t[i].header.Some? && t[j].header.Some? ==>
      t[i].header.value != t[j].header.value
  }

  /** No row's name or storage type contains a line feed. */
  predicate StructFieldsSingleLine(t: seq<BasicType>)
  {
    forall i :: 0 <= i < |t| ==> NoNewline(t[i].name) && NoNewline(t[i].storage)
  }

  /** No row's header contains a line feed. */
  predicate HeadersSingleLine(t: seq<BasicType>)
  {
    forall i :: 0 <= i < |t| && t[i].header.Some? ==> NoNewline(t[i].header.value)
  }

  /** No name, storage type or header of any row contains a line feed. */
  predicate SingleLineFields(t: seq<BasicType>)
  {
    StructFieldsSingleLine(t) && HeadersSingleLine(t)
  }

  lemma BasicTypesSize()
    ensures |BasicTypes| == 28
  {
  }

  lemma BasicTypesNamesDistinct()
    ensures NamesDistinct(BasicTypes)
  {
    var t := BasicTypes;
    assert forall i, j :: 0 <= i < j < |t| ==> t[i].name != t[j].name;
  }

  lemma BasicTypesHeadersDistinct()
    ensures HeadersDistinct(BasicTypes)
  {
    HeadersDistinctFrom(0, 7);
    HeadersDistinctFrom(7, 14);
    HeadersDistinctFrom(14, 21);
    HeadersDistinctFrom(21, 28);
  }

  /** The headers of rows `lo` up to `hi` differ from those of all later rows. */
  lemma HeadersDistinctFrom(lo: nat, hi: nat)
    requires (lo, hi) in {(0, 7), (7, 14), (14, 21), (21, 28)}
    ensures forall i, j ::
      && lo <= i < hi && i < j < |BasicTypes|
      && BasicTypes[i].header.Some? && BasicTypes[j].header.Some?
      ==> BasicTypes[i].header.value != BasicTypes[j].header.value
  {
  }

  lemma BasicTypesSingleLine()
    ensures SingleLineFields(BasicTypes)
  {
    NamesSingleLine();
    StoragesSingleLine();
    HeaderValuesSingleLine();
  }

  lemma NamesSingleLine()
    ensures forall i :: 0 <= i < |BasicTypes| ==> NoNewline(BasicTypes[i].name)
  {
    FirstNamesSingleLine();
    LastNamesSingleLine();
  }

  lemma FirstNamesSingleLine()
    ensures forall i :: 0 <= i < 14 ==> NoNewline(BasicTypes[i].name)
  {
  }

  lemma LastNamesSingleLine()
    ensures forall i :: 14 <= i < 28 ==> NoNewline(BasicTypes[i].name)
  {
  }

  lemma StoragesSingleLine()
    ensures forall i :: 0 <= i < |BasicTypes| ==> NoNewline(BasicTypes[i].storage)
  {
  }

  lemma HeaderValuesSingleLine()
    ensures forall i :: 0 <= i < |BasicTypes| && BasicTypes[i].header.Some? ==>
      NoNewline(BasicTypes[i].header.value)
  {
  }
}
