/** The part of Rust's `format!` / `println!` string syntax that the generator's
    templates use: literal text, `{{` and `}}` for literal braces, and `{key}`
    for a named argument (`{}`, the single positional argument, has the key
    `""`). */
module RustFormat {
  import opened Wrappers

  /** One token of a format string. */
  datatype Piece =
    | Text(s: string)     // literal text without braces
    | Open                // written `{{`, printed `{`
    | Close               // written `}}`, printed `}`
    | Arg(key: string)    // written `{key}`, printed as the argument's value

  type Template = seq<Piece>

  predicate BraceFree(s: string)
  {
    forall i :: 0 <= i < |s| ==> s[i] != '{' && s[i] != '}'
  }

  /** How a piece is spelled in the format string. */
  function PieceSource(p: Piece): string
  {
    match p
    case Text(s) => s
    case Open => "{{"
    case Close => "}}"
    case Arg(k) => "{" + k + "}"
  }

  /** The format string as written in the Rust source. */
  function Source(t: Template): string
  {
    if t == [] then "" else PieceSource(t[0]) + Source(t[1..])
  }

  /** A template as the parser produces it: text runs are non-empty, maximal
      and brace-free, and keys are brace-free. */
  predicate WellFormed(t: Template)
  {
    && (forall i :: 0 <= i < |t| && t[i].Text? ==> t[i].s != [] && BraceFree(t[i].s))
    && (forall i :: 0 <= i < |t| && t[i].Arg? ==> BraceFree(t[i].key))
    && (forall i :: 0 < i < |t| && t[i].Text? ==> !t[i - 1].Text?)
  }

  /** The argument names a template refers to. */
  function Keys(t: Template): set<string>
  {
    set p | p in t && p.Arg? :: p.key
  }

  lemma KeysAppend(a: Template, b: Template)
    ensures Keys(a + b) == Keys(a) + Keys(b)
  {
    assert forall p :: p in a + b <==> p in a || p in b;
  }

  /** What a piece prints. `Format` passes every key a template names, so the
      empty text for a missing argument is never printed. */
  function PieceText(p: Piece, args: map<string, string>): string
  {
    match p
    case Text(s) => s
    case Open => "{"
    case Close => "}"
    case Arg(k) => if k in args then args[k] else ""
  }

  /** The text `format!` prints for a template. */
  function Render(t: Template, args: map<string, string>): string
  {
    if t == [] then "" else PieceText(t[0], args) + Render(t[1..], args)
  }

  /** Index of the first `}` at or after `i`, or `|s|` when there is none. */
  function CloseIndex(s: string, i: nat): (j: nat)
    requires i <= |s|
    ensures i <= j <= |s|
    ensures forall k :: i <= k < j ==> s[k] != '}'
    ensures j < |s| ==> s[j] == '}'
    decreases |s| - i
  {
    if i == |s| || s[i] == '}' then i else CloseIndex(s, i + 1)
  }

  function Prepend(p: Piece, r: Option<Template>): Option<Template>
  {
    match r
    case None => None
    case Some(t) => Some([p] + t)
  }

  /** Adds one literal character in front, joining it to a leading text run. */
  function PushChar(c: char, r: Option<Template>): Option<Template>
  {
    match r
    case None => None
    case Some(t) =>
      if t != [] && t[0].Text? then Some([Text([c] + t[0].s)] + t[1..])
      else Some([Text([c])] + t)
  }

  /** Reads a format string; `None` for an unmatched `{` or `}` (which the Rust
      compiler rejects). */
  function Parse(s: string): Option<Template>
    decreases |s|
  {
    if s == [] then Some([])
    else if s[0] == '{' then
      if |s| >= 2 && s[1] == '{' then Prepend(Open, Parse(s[2..]))
      else
        var j := CloseIndex(s, 1);
        if j < |s| && BraceFree(s[1..j]) then Prepend(Arg(s[1..j]), Parse(s[j + 1..])) else None
    else if s[0] == '}' then
      if |s| >= 2 && s[1] == '}' then Prepend(Close, Parse(s[2..])) else None
    else PushChar(s[0], Parse(s[1..]))
  }

  /** `format!(s, args…)`: `None` when `s` is malformed or when the arguments
      passed are not exactly the ones `s` names (both compile errors in Rust). */
  function Format(s: string, args: map<string, string>): Option<string>
  {
    match Parse(s)
    case None => None
    case Some(t) => if Keys(t) == args.Keys then Some(Render(t, args)) else None
  }

  /** Writes every brace of `s` doubled, so that `s` can appear verbatim in a
      format string. */
  function Escape(s: string): string
  {
    if s == [] then ""
    else (if s[0] == '{' then "{{" else if s[0] == '}' then "}}" else [s[0]]) + Escape(s[1..])
  }

  lemma {:induction false} RenderAppend(a: Template, b: Template, args: map<string, string>)
    ensures Render(a + b, args) == Render(a, args) + Render(b, args)
  {
    if a == [] {
      assert a + b == b;
    } else {
      assert (a + b)[1..] == a[1..] + b;
      RenderAppend(a[1..], b, args);
    }
  }

  lemma RenderCons(p: Piece, t: Template, args: map<string, string>)
    ensures Render([p] + t, args) == PieceText(p, args) + Render(t, args)
  {
    assert ([p] + t)[1..] == t;
  }

  /** A short template prints its pieces one after another. */
  lemma RenderPieces2(a: Piece, b: Piece, args: map<string, string>)
    ensures Render([a, b], args) == PieceText(a, args) + PieceText(b, args)
  {
    RenderCons(a, [b], args);
    RenderCons(b, [], args);
    assert [a] + [b] == [a, b];
    assert [b] + [] == [b];
  }

  lemma RenderPieces3(a: Piece, b: Piece, c: Piece, args: map<string, string>)
    ensures Render([a, b, c], args) == PieceText(a, args) + PieceText(b, args) + PieceText(c, args)
  {
    RenderCons(a, [b, c], args);
    assert [a] + [b, c] == [a, b, c];
    RenderPieces2(b, c, args);
    AppendAssoc(PieceText(a, args), PieceText(b, args), PieceText(c, args));
  }

  lemma RenderPieces4(a: Piece, b: Piece, c: Piece, d: Piece, args: map<string, string>)
    ensures Render([a, b, c, d], args)
      == PieceText(a, args) + PieceText(b, args) + PieceText(c, args) + PieceText(d, args)
  {
    RenderPieces2(a, b, args);
    RenderPieces2(c, d, args);
    assert [a, b, c, d] == [a, b] + [c, d];
    RenderAppend([a, b], [c, d], args);
    AppendAssoc(PieceText(a, args) + PieceText(b, args), PieceText(c, args), PieceText(d, args));
  }

  lemma RenderPieces5(a: Piece, b: Piece, c: Piece, d: Piece, e: Piece, args: map<string, string>)
    ensures Render([a, b, c, d, e], args)
      == PieceText(a, args) + PieceText(b, args) + PieceText(c, args) + PieceText(d, args) + PieceText(e, args)
  {
    RenderPieces3(a, b, c, args);
    RenderPieces2(d, e, args);
    assert [a, b, c, d, e] == [a, b, c] + [d, e];
    RenderAppend([a, b, c], [d, e], args);
    var x := PieceText(a, args) + PieceText(b, args) + PieceText(c, args);
    AppendAssoc(x, PieceText(d, args), PieceText(e, args));
  }

  lemma RenderPieces6(a: Piece, b: Piece, c: Piece, d: Piece, e: Piece, f: Piece, args: map<string, string>)
    ensures Render([a, b, c, d, e, f], args)
      == PieceText(a, args) + PieceText(b, args) + PieceText(c, args)
        + PieceText(d, args) + PieceText(e, args) + PieceText(f, args)
  {
    RenderPieces3(a, b, c, args);
    RenderPieces3(d, e, f, args);
    assert [a, b, c, d, e, f] == [a, b, c] + [d, e, f];
    RenderAppend([a, b, c], [d, e, f], args);
    var x := PieceText(a, args) + PieceText(b, args) + PieceText(c, args);
    AppendAssoc(x, PieceText(d, args) + PieceText(e, args), PieceText(f, args));
    AppendAssoc(x, PieceText(d, args), PieceText(e, args));
  }

  lemma AppendAssoc(x: string, y: string, z: string)
    ensures x + (y + z) == x + y + z
  {
  }

  /** The printed text depends only on the arguments the template names. */
  lemma {:induction false} RenderIgnoresOtherArgs(t: Template, args: map<string, string>, args': map<string, string>)
    requires forall k :: k in Keys(t) ==> k in args && k in args' && args[k] == args'[k]
    ensures Render(t, args) == Render(t, args')
  {
    if t != [] {
      RenderIgnoresOtherArgs(t[1..], args, args');
    }
  }

  lemma {:induction false} ParseTextThen(s: string, rest: string, u: Template)
    requires s != [] && BraceFree(s)
    requires Parse(rest) == Some(u)
    requires u == [] || !u[0].Text?
    ensures Parse(s + rest) == Some([Text(s)] + u)
    decreases |s|
  {
    var x := s + rest;
    assert x[0] == s[0] && x[1..] == s[1..] + rest;
    assert x[0] != '{' && x[0] != '}';
    assert Parse(x) == PushChar(s[0], Parse(x[1..]));
    if |s| == 1 {
      assert x[1..] == rest;
      assert [s[0]] == s;
    } else {
      ParseTextThen(s[1..], rest, u);
      assert [s[0]] + s[1..] == s;
    }
  }

  /** Reading back the spelling of a well-formed template gives the template. */
  lemma {:induction false} ParseSource(t: Template)
    requires WellFormed(t)
    ensures Parse(Source(t)) == Some(t)
  {
    if t != [] {
      var rest := Source(t[1..]);
      WellFormedTail(t);
      ParseSource(t[1..]);
      assert t == [t[0]] + t[1..];
      match t[0]
      case Text(s) =>
        ParseTextThen(s, rest, t[1..]);
      case Open =>
        ParseBraceThen('{', rest, t[1..]);
      case Close =>
        ParseBraceThen('}', rest, t[1..]);
      case Arg(k) =>
        ParseArgThen(k, rest, t[1..]);
    }
  }

  lemma WellFormedTail(t: Template)
    requires WellFormed(t) && t != []
    ensures WellFormed(t[1..])
    ensures t[0].Text? ==> t[1..] == [] || !t[1..][0].Text?
  {
    forall i | 0 <= i < |t| - 1 ensures t[1..][i] == t[i + 1] {
    }
  }

  /** A doubled brace reads as one literal brace. */
  lemma ParseBraceThen(c: char, rest: string, u: Template)
    requires c == '{' || c == '}'
    requires Parse(rest) == Some(u)
    ensures Parse([c, c] + rest) == Some([if c == '{' then Open else Close] + u)
  {
    var x := [c, c] + rest;
    assert x[0] == c && x[1] == c && x[2..] == rest;
  }

  /** `{k}` reads as the argument `k`. */
  lemma ParseArgThen(k: string, rest: string, u: Template)
    requires BraceFree(k)
    requires Parse(rest) == Some(u)
    ensures Parse("{" + k + "}" + rest) == Some([Arg(k)] + u)
  {
    var x := "{" + k + "}" + rest;
    assert x[0] == '{';
    assert |k| == 0 || x[1] == k[0];
    var j := CloseIndex(x, 1);
    assert x[1 + |k|] == '}';
    assert forall i :: 1 <= i < 1 + |k| ==> x[i] == k[i - 1];
    assert j == 1 + |k|;
    assert x[1..j] == k;
    assert x[j + 1..] == rest;
  }

  lemma PrependWellFormed(p: Piece, u: Template)
    requires WellFormed(u) && !p.Text? && (p.Arg? ==> BraceFree(p.key))
    ensures WellFormed([p] + u) && Source([p] + u) == PieceSource(p) + Source(u)
  {
    assert ([p] + u)[1..] == u;
  }

  lemma PushCharWellFormed(c: char, u: Template)
    requires WellFormed(u) && c != '{' && c != '}'
    ensures PushChar(c, Some(u)).Some?
    ensures WellFormed(PushChar(c, Some(u)).value)
    ensures Source(PushChar(c, Some(u)).value) == [c] + Source(u)
  {
    if u != [] && u[0].Text? {
      PushCharJoins(c, u);
    } else {
      PushCharStarts(c, u);
    }
  }

  /** The character joins the leading text run. */
  lemma PushCharJoins(c: char, u: Template)
    requires WellFormed(u) && c != '{' && c != '}' && u != [] && u[0].Text?
    ensures WellFormed([Text([c] + u[0].s)] + u[1..])
    ensures Source([Text([c] + u[0].s)] + u[1..]) == [c] + Source(u)
  {
    var x := [c] + u[0].s;
    var t := [Text(x)] + u[1..];
    assert t[1..] == u[1..];
    assert Source(t) == x + Source(u[1..]);
    assert Source(u) == u[0].s + Source(u[1..]);
    PushCharJoinsWellFormed(c, u);
  }

  lemma PushCharJoinsWellFormed(c: char, u: Template)
    requires WellFormed(u) && c != '{' && c != '}' && u != [] && u[0].Text?
    ensures WellFormed([Text([c] + u[0].s)] + u[1..])
  {
    var x := [c] + u[0].s;
    var t := [Text(x)] + u[1..];
    assert BraceFree(x) by {
      forall k | 0 <= k < |x| ensures x[k] != '{' && x[k] != '}' {
        if k > 0 {
          assert x[k] == u[0].s[k - 1];
        }
      }
    }
    forall i | 0 < i < |t| ensures t[i] == u[i] {
    }
    assert t[0] == Text(x);
  }

  /** The character starts a new text run. */
  lemma PushCharStarts(c: char, u: Template)
    requires WellFormed(u) && c != '{' && c != '}' && !(u != [] && u[0].Text?)
    ensures WellFormed([Text([c])] + u)
    ensures Source([Text([c])] + u) == [c] + Source(u)
  {
    var t := [Text([c])] + u;
    assert t[1..] == u;
    forall i | 0 < i < |t| ensures t[i] == u[i - 1] {
    }
  }

  /** Whatever the parser accepts is well-formed and is spelled exactly as the
      input. */
  lemma {:induction false} SourceParse(s: string)
    ensures Parse(s).Some? ==> WellFormed(Parse(s).value) && Source(Parse(s).value) == s
    decreases |s|
  {
    if s != [] && Parse(s).Some? {
      if s[0] == '{' && |s| >= 2 && s[1] == '{' {
        SourceParse(s[2..]);
        SourceParseBrace(s);
      } else if s[0] == '{' {
        var j := CloseIndex(s, 1);
        SourceParse(s[j + 1..]);
        SourceParseArg(s);
      } else if s[0] == '}' {
        SourceParse(s[2..]);
        SourceParseBrace(s);
      } else {
        SourceParse(s[1..]);
        SourceParseChar(s);
      }
    }
  }

  lemma SourceParseBrace(s: string)
    requires |s| >= 2 && (s[0] == '{' || s[0] == '}') && s[1] == s[0]
    requires Parse(s[2..]).Some? ==> WellFormed(Parse(s[2..]).value) && Source(Parse(s[2..]).value) == s[2..]
    ensures Parse(s).Some? ==> WellFormed(Parse(s).value) && Source(Parse(s).value) == s
  {
    if Parse(s[2..]).Some? {
      var p := if s[0] == '{' then Open else Close;
      PrependWellFormed(p, Parse(s[2..]).value);
      assert s == PieceSource(p) + s[2..];
    }
  }

  lemma SourceParseArg(s: string)
    requires |s| >= 1 && s[0] == '{' && !(|s| >= 2 && s[1] == '{')
    requires
      var j := CloseIndex(s, 1);
      j < |s| ==> (Parse(s[j + 1..]).Some? ==>
        WellFormed(Parse(s[j + 1..]).value) && Source(Parse(s[j + 1..]).value) == s[j + 1..])
    ensures Parse(s).Some? ==> WellFormed(Parse(s).value) && Source(Parse(s).value) == s
  {
    var j := CloseIndex(s, 1);
    if Parse(s).Some? {
      var k, rest := s[1..j], s[j + 1..];
      assert j < |s| && BraceFree(k);
      assert Parse(s) == Prepend(Arg(k), Parse(rest));
      PrependWellFormed(Arg(k), Parse(rest).value);
      SplitAtClose(s, j);
    }
  }

  lemma SplitAtClose(s: string, j: nat)
    requires 1 <= j < |s| && s[0] == '{' && s[j] == '}'
    ensures s == "{" + s[1..j] + "}" + s[j + 1..]
  {
    assert s == s[..1] + s[1..j] + s[j..j + 1] + s[j + 1..];
  }

  lemma SourceParseChar(s: string)
    requires |s| >= 1 && s[0] != '{' && s[0] != '}'
    requires Parse(s[1..]).Some? ==> WellFormed(Parse(s[1..]).value) && Source(Parse(s[1..]).value) == s[1..]
    ensures Parse(s).Some? ==> WellFormed(Parse(s).value) && Source(Parse(s).value) == s
  {
    if Parse(s).Some? {
      PushCharWellFormed(s[0], Parse(s[1..]).value);
      assert s == [s[0]] + s[1..];
    }
  }

  /** Spelling a well-formed template and formatting it with exactly its own
      arguments prints the template's rendering. */
  lemma FormatSource(t: Template, args: map<string, string>)
    requires WellFormed(t) && Keys(t) == args.Keys
    ensures Format(Source(t), args) == Some(Render(t, args))
  {
    ParseSource(t);
  }

  lemma {:induction false} ParseEscape(s: string)
    ensures Parse(Escape(s)).Some?
    ensures Keys(Parse(Escape(s)).value) == {}
    ensures Render(Parse(Escape(s)).value, map[]) == s
  {
    if s != [] {
      ParseEscape(s[1..]);
      var e := Escape(s);
      var rest := Escape(s[1..]);
      var u := Parse(rest).value;
      if s[0] == '{' {
        assert e == "{{" + rest && e[2..] == rest;
        assert Parse(e) == Some([Open] + u);
        assert ([Open] + u)[1..] == u;
      } else if s[0] == '}' {
        assert e == "}}" + rest && e[2..] == rest;
        assert Parse(e) == Some([Close] + u);
        assert ([Close] + u)[1..] == u;
      } else {
        assert e == [s[0]] + rest && e[1..] == rest;
        if u != [] && u[0].Text? {
          var t := [Text([s[0]] + u[0].s)] + u[1..];
          assert Parse(e) == Some(t);
          assert t[1..] == u[1..];
          assert Keys(u[1..]) <= Keys(u);
          assert Render(u, map[]) == u[0].s + Render(u[1..], map[]);
          assert Keys(t) == Keys(u);
        } else {
          var t := [Text([s[0]])] + u;
          assert Parse(e) == Some(t);
          assert t[1..] == u;
        }
      }
      assert s == [s[0]] + s[1..];
    }
  }

  /** Doubled braces print as single braces: a text escaped by doubling its
      braces formats, with no arguments, back to itself. */
  lemma FormatEscape(s: string)
    ensures Format(Escape(s), map[]) == Some(s)
  {
    ParseEscape(s);
  }
}
