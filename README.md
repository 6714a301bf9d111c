# usd-basic-types generator, modelled in Dafny

`usd-basic-types` is the code generator behind the basic value types of the
`usd-rs` binding to Pixar's USD. A fixed table, `BASIC_TYPES`, lists the 28
value types the binding supports. Each row gives a wrapper name, the Rust
storage type, the C++ type held in a `pxr::VtValue`, and optionally the C++
header that declares that type. `generate_basic_types` prints a Rust module
made of:

- a fixed header comment and `use` lines;
- one `pub struct Name(pub Storage);` line per row;
- a `cpp! {{ … }}` block holding pragmas, the `pxr/base/vt/value.h` include and
  one `#include "…"` line per row that has a header;
- one `impl From<&Name> for Value` and one `impl AsRef<Name> for Value` per row.

The model is pure, like the source: iterator `filter`/`map`/`collect` chains
become recursive functions over `seq`, and each `format!`/`println!` becomes
the rendering of a parsed format string. The printed text is the value of
`Generator.Generate`. Module by module:

- `Wrappers` (`wrappers.dfy`): `Option`.
- `Lines` (`lines.dfy`): `collect::<String>()` as `Concat`, and line splitting
  as `str::split('\n')` does it, with its round trip against joining.
- `RustFormat` (`format.dfy`): the part of Rust's `format!` that the generator
  uses. This covers `{{` and `}}` as literal braces, `{}` and `{name}` as
  arguments, and compile-time rejection of lone braces and of arguments the
  string does not use. It includes a parser from format strings to token
  templates, the rendering of a template, and both round trips between
  templates and their source text.
- `TypeTable` (`type_table.dfy`): the table, row for row, with facts about it.
- `Generator` (`generator.dfy`): the include block, the struct block, the
  preamble, the conversion pairs and the whole output, with the ordering,
  filtering and counting facts about them.
- `BasicTypesOutput` (`basic_types_output.dfy`): what the generator prints for
  the table it ships with.

`generate_basic_types` does not de-duplicate headers and never inspects names.
It emits one include line per row with a header, repeats included
(`HeaderPathsKeepsRepeats`). For the shipped table the headers and the names
are pairwise distinct, so its output has no repeated include and no clashing
struct. That is proved about the table, not enforced by the generator.

The `Matrix2d` row stores `[f64;2*3]`, six doubles for a 2x2 matrix. The model
keeps the table as written (`BasicTypesOutput.BasicTypesMatrix2dLine`).

## Model

| member | source | states |
|---|---|---|
| TypeTable.BasicTypesSize | usd-basic-types/src/main.rs:50 | the table has 28 rows |
| TypeTable.BasicTypesNamesDistinct | usd-basic-types/src/main.rs:50-82 | no two rows share a wrapper name, so the named-tuple structs do not clash |
| TypeTable.BasicTypesHeadersDistinct | usd-basic-types/src/main.rs:50-82 | no two rows name the same header |
| TypeTable.BasicTypesSingleLine | usd-basic-types/src/main.rs:50-82 | no row's name, storage type or header contains a line feed |
| Generator.HeaderPathsAppend | usd-basic-types/src/main.rs:88-92 | the header filter is applied row by row: for a table split in two, the list is that of the first part followed by that of the second |
| Generator.HeaderPathsMember | usd-basic-types/src/main.rs:88-92 | a header is in the include list if and only if some row has it as `Some` |
| Generator.HeaderPathsAt | usd-basic-types/src/main.rs:88-92 | a row with a header has that header at its position in the list, after the headers of the rows before it |
| Generator.HeaderPathsInOrder | usd-basic-types/src/main.rs:88-92 | two rows with headers keep their table order in the include list, at distinct positions |
| Generator.HeaderPathsDistinct | usd-basic-types/src/main.rs:88-92 | if the rows' headers are distinct, the include list has no repeats |
| Generator.HeaderPathsKeepsRepeats | usd-basic-types/src/main.rs:88-92 | there is no de-duplication: two rows with one header put it into the list twice |
| Generator.IncludeBlockSkipsNone | usd-basic-types/src/main.rs:88-92 | a row whose header is `None` adds no text to the include block |
| Generator.IncludeLineText | usd-basic-types/src/main.rs:91 | an include line is `    #include "h"` followed by a line feed |
| Generator.IncludeFormat | usd-basic-types/src/main.rs:91 | the include template is what the literal format string `"    #include \"{}\"\n"` parses to, and `format!` prints the include line |
| Generator.IncludeBlockLines | usd-basic-types/src/main.rs:88-92 | split at line feeds, the include block is one `#include` line per header of the list, in order, then the empty rest |
| Generator.ValueIncludeFirst | usd-basic-types/src/main.rs:120-121 | the fixed `pxr/base/vt/value.h` include line is the first include, ahead of the generated ones |
| Generator.StructLineText | usd-basic-types/src/main.rs:97 | a struct line is `pub struct Name(pub Storage);` followed by a line feed |
| Generator.StructFormat | usd-basic-types/src/main.rs:97 | `format!("pub struct {name}(pub {typ});\n", …)` prints the struct line |
| Generator.StructTemplateSource | usd-basic-types/src/main.rs:97 | the struct template's source text is that format string |
| Generator.StructTemplateWellFormed | usd-basic-types/src/main.rs:97 | the struct template is well formed, so it is what the format string parses to |
| Generator.StructBlockLines | usd-basic-types/src/main.rs:94-99 | split at line feeds, the struct block is one `pub struct` line per row, in table order: as many lines as rows, then the empty rest |
| Generator.StructBlockFields | usd-basic-types/src/main.rs:96-97 | the struct block reads only the rows' names and storage types |
| Generator.PreambleText | usd-basic-types/src/main.rs:101-127 | the preamble is the header comment and `use` lines, the struct block, `cpp! {{`, the pragmas and `value.h` include, the include block, the closing pragma and `}}` |
| Generator.GenerateLayout | usd-basic-types/src/main.rs:87-154 | the whole output in order: header comment and `use` lines, struct block, `cpp!` block, the blank line from `println!`, then the conversion pairs |
| Generator.FromImplKeys | usd-basic-types/src/main.rs:131-139 | the `From` half of the loop template uses exactly the arguments `name` and `c` |
| Generator.AsRefImplKeys | usd-basic-types/src/main.rs:141-149 | the `AsRef` half uses exactly `name` and `c` |
| Generator.ConversionKeys | usd-basic-types/src/main.rs:130-151 | the loop's format string uses exactly `name` and `c`, the arguments the loop passes, and not the storage type |
| Generator.ConversionPairSplit | usd-basic-types/src/main.rs:129-153 | one iteration prints the `From` impl, then the `AsRef` impl, then `println!`'s line feed |
| Generator.FromImplText | usd-basic-types/src/main.rs:131-139 | the text of `impl From<&Name> for Value`, with the row's name and C++ type substituted and every doubled brace printed as one brace |
| Generator.AsRefImplText | usd-basic-types/src/main.rs:140-149 | the text of `impl AsRef<Name> for Value`, after a blank line, with the row's name and C++ type substituted and every doubled brace printed as one brace |
| Generator.ConversionsAppend | usd-basic-types/src/main.rs:129-153 | the loop prints row by row: for a table split in two, the conversions are those of the first part followed by those of the second |
| Generator.ConversionsAt | usd-basic-types/src/main.rs:129-153 | row `i`'s `From` and `AsRef` impls come after those of the rows before it and before those of the rows after it |
| Generator.StorageOnlyInStructBlock | usd-basic-types/src/main.rs:88-153 | tables that differ only in storage types have the same include block and the same conversions, so the storage type reaches only the struct block |
| RustFormat.SourceParse | usd-basic-types/src/main.rs:116 | a format string that `format!` accepts parses to a well-formed template whose source text is that string |
| RustFormat.ParseSource | usd-basic-types/src/main.rs:116 | a well-formed template's source text parses back to the template |
| RustFormat.FormatSource | usd-basic-types/src/main.rs:91 | `format!` on a template's source text with exactly its arguments prints the rendered template |
| RustFormat.FormatEscape | usd-basic-types/src/main.rs:123 | a text with every brace doubled and no arguments prints as the text itself: `{{` prints `{` and `}}` prints `}` |
| RustFormat.RenderAppend | usd-basic-types/src/main.rs:130-149 | rendering a template made of two parts prints the first part, then the second |
| RustFormat.RenderIgnoresOtherArgs | usd-basic-types/src/main.rs:150-151 | the printed text depends only on the arguments the format string names |
| BasicTypesOutput.BasicTypesIncludes | usd-basic-types/src/main.rs:50-92 | for the shipped table the include list is exactly twenty headers, `half.h` to `vec4i.h` in table order, none repeated |
| BasicTypesOutput.BasicTypesIncludeBlock | usd-basic-types/src/main.rs:88-92 | for the shipped table the include block is twenty `#include` lines |
| BasicTypesOutput.BasicTypesStructBlock | usd-basic-types/src/main.rs:94-99 | for the shipped table the struct block is 28 `pub struct` lines, one per row in table order |
| BasicTypesOutput.BasicTypesMatrix2dLine | usd-basic-types/src/main.rs:64 | `Matrix2d` is declared over `[f64;2*3]`, as the table writes it |

## Left out

- `usd-rs/src/pxr/usd/stage.rs` and `usd-rs/src/pxr/sdf/asset_path.rs` are not part of this model. They are thin `cpp!` wrappers around native USD calls, with no logic visible on the Rust side.
- The behaviour of the generated code is not modelled: storing into and reading out of `pxr::VtValue` happens in the native library.
- Half-precision and other floating-point values: the table holds only type names as strings, and no arithmetic happens.
- Standard output and `main`: the printed text is the value of `Generate`. `println!` appears as one line feed after each formatted block.
- Rust's `format!` is modelled only as far as the generator uses it. That covers `{}`, `{name}`, `{{` and `}}`. Format specs such as `{:>5}`, positional indices and implicitly captured variables are left out. A format string with an unmatched `{` or `}`, or whose arguments differ from those passed, becomes `None`; argument names are not checked to be Rust identifiers.
- Generator.PreambleText: the preamble and conversion templates are written as token sequences read off the format strings at usd-basic-types/src/main.rs:101-124 and 130-149. Unlike the include and struct strings, they are not proved to be what those literals parse to, because the verifier cannot evaluate such long literals.
- Generator.GenerateLayout: the line structure of the conversion section is not stated, because the C++ type column is not proved free of line feeds.
- Duplicate-name detection and header de-duplication are not modelled as checks, because the code performs neither. Distinctness is proved as a fact about the shipped table.
- Whether names and storage types are valid Rust identifiers and types is not modelled: the generator copies them as text.

