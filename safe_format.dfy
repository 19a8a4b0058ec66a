/** `safe_format(s, **kwargs)`: `str.format_map` over a dictionary whose
    missing keys answer with their own placeholder text, restricted to
    named fields and the `{{` / `}}` escapes. */
module SafeFormat {
  import opened Wrappers

  /** One unit of a parsed template: a literal character (an escaped brace
      is the single brace it stands for) or a named replacement field. */
  datatype Piece = Lit(c: char) | Field(name: string)

  /** A character that may appear in a field name. `{` and `}` delimit the
      field; `.`, `[`, `!` and `:` start attribute access, indexing, a
      conversion or a format spec, none of which the model covers. */
  predicate IsNameChar(c: char) {
    c != '{' && c != '}' && c != '.' && c != '[' && c != '!' && c != ':'
  }

  /** A decimal digit in Python's sense (`str.isdecimal`, Unicode general
      category Nd as of Unicode 15.0): one of the blocks of ten code points
      running from a zero to a nine. */
  predicate IsDecimalChar(c: char) {
    var n := c as int;
    || 0x30 <= n <= 0x39 || 0x660 <= n <= 0x669 || 0x6F0 <= n <= 0x6F9
    || 0x7C0 <= n <= 0x7C9 || 0x966 <= n <= 0x96F || 0x9E6 <= n <= 0x9EF
    || 0xA66 <= n <= 0xA6F || 0xAE6 <= n <= 0xAEF || 0xB66 <= n <= 0xB6F
    || 0xBE6 <= n <= 0xBEF || 0xC66 <= n <= 0xC6F || 0xCE6 <= n <= 0xCEF
    || 0xD66 <= n <= 0xD6F || 0xDE6 <= n <= 0xDEF || 0xE50 <= n <= 0xE59
    || 0xED0 <= n <= 0xED9 || 0xF20 <= n <= 0xF29 || 0x1040 <= n <= 0x1049
    || 0x1090 <= n <= 0x1099 || 0x17E0 <= n <= 0x17E9 || 0x1810 <= n <= 0x1819
    || 0x1946 <= n <= 0x194F || 0x19D0 <= n <= 0x19D9 || 0x1A80 <= n <= 0x1A89
    || 0x1A90 <= n <= 0x1A99 || 0x1B50 <= n <= 0x1B59 || 0x1BB0 <= n <= 0x1BB9
    || 0x1C40 <= n <= 0x1C49 || 0x1C50 <= n <= 0x1C59 || 0xA620 <= n <= 0xA629
    || 0xA8D0 <= n <= 0xA8D9 || 0xA900 <= n <= 0xA909 || 0xA9D0 <= n <= 0xA9D9
    || 0xA9F0 <= n <= 0xA9F9 || 0xAA50 <= n <= 0xAA59 || 0xABF0 <= n <= 0xABF9
    || 0xFF10 <= n <= 0xFF19 || 0x104A0 <= n <= 0x104A9 || 0x10D30 <= n <= 0x10D39
    || 0x11066 <= n <= 0x1106F || 0x110F0 <= n <= 0x110F9 || 0x11136 <= n <= 0x1113F
    || 0x111D0 <= n <= 0x111D9 || 0x112F0 <= n <= 0x112F9 || 0x11450 <= n <= 0x11459
    || 0x114D0 <= n <= 0x114D9 || 0x11650 <= n <= 0x11659 || 0x116C0 <= n <= 0x116C9
    || 0x11730 <= n <= 0x11739 || 0x118E0 <= n <= 0x118E9 || 0x11950 <= n <= 0x11959
    || 0x11C50 <= n <= 0x11C59 || 0x11D50 <= n <= 0x11D59 || 0x11DA0 <= n <= 0x11DA9
    || 0x11F50 <= n <= 0x11F59 || 0x16A60 <= n <= 0x16A69 || 0x16AC0 <= n <= 0x16AC9
    || 0x16B50 <= n <= 0x16B59 || 0x1D7CE <= n <= 0x1D7D7 || 0x1D7D8 <= n <= 0x1D7E1
    || 0x1D7E2 <= n <= 0x1D7EB || 0x1D7EC <= n <= 0x1D7F5 || 0x1D7F6 <= n <= 0x1D7FF
    || 0x1E140 <= n <= 0x1E149 || 0x1E2F0 <= n <= 0x1E2F9 || 0x1E4F0 <= n <= 0x1E4F9
    || 0x1E950 <= n <= 0x1E959 || 0x1FBF0 <= n <= 0x1FBF9
  }

  /** A name made of decimal digits only; Python's format parser reads it
      as a position, whatever script its digits come from. */
  predicate IsDecimal(s: string) {
    forall k :: 0 <= k < |s| ==> IsDecimalChar(s[k])
  }

  /** A field name looked up as a mapping key. An empty or all-digit name is
      a positional field, which `format_map` rejects. */
  predicate IsKey(name: string) {
    |name| > 0 && !IsDecimal(name) && forall k :: 0 <= k < |name| ==> IsNameChar(name[k])
  }

  predicate ValidPiece(p: Piece) {
    p.Field? ==> IsKey(p.name)
  }

  /** The number of name characters at the front of `s`. */
  function NameLength(s: string): (n: nat)
    ensures n <= |s|
    ensures forall k :: 0 <= k < n ==> IsNameChar(s[k])
    ensures n < |s| ==> !IsNameChar(s[n])
  {
    if s != [] && IsNameChar(s[0]) then 1 + NameLength(s[1..]) else 0
  }

  function Cons(p: Piece, rest: Option<seq<Piece>>): Option<seq<Piece>> {
    if rest.None? then None else Some([p] + rest.value)
  }

  /** Splits a template into pieces, or None where `format_map` raises
      (a lone `{` or `}`, an unterminated field, a positional field) or the
      field uses syntax outside the model. */
  function Parse(t: string): (r: Option<seq<Piece>>)
    ensures r.Some? ==> forall k :: 0 <= k < |r.value| ==> ValidPiece(r.value[k])
    decreases |t|
  {
    if t == [] then Some([])
    else if t[0] == '{' then
      if |t| > 1 && t[1] == '{' then Cons(Lit('{'), Parse(t[2..]))
      else
        var n := NameLength(t[1..]);
        if 1 + n < |t| && t[1 + n] == '}' && IsKey(t[1..1 + n]) then Cons(Field(t[1..1 + n]), Parse(t[2 + n..]))
        else None
    else if t[0] == '}' then
      if |t| > 1 && t[1] == '}' then Cons(Lit('}'), Parse(t[2..])) else None
    else Cons(Lit(t[0]), Parse(t[1..]))
  }

  /** The template text of one piece: braces are written doubled. */
  function PieceSource(p: Piece): string {
    match p
    case Lit(c) => if c == '{' || c == '}' then [c, c] else [c]
    case Field(n) => "{" + n + "}"
  }

  /** The template whose parse is `ps`. */
  function Unparse(ps: seq<Piece>): string {
    if ps == [] then [] else PieceSource(ps[0]) + Unparse(ps[1..])
  }

  /** The templates the model covers: those written with literal text,
      escaped braces and named fields only. */
  ghost predicate WellFormed(t: string) {
    exists ps :: (forall k :: 0 <= k < |ps| ==> ValidPiece(ps[k])) && Unparse(ps) == t
  }

  /** The value `_SafeDict` gives for a key: the supplied value, or for a
      missing key the placeholder text itself. */
  function Lookup(env: map<string, string>, name: string): string {
    if name in env then env[name] else "{" + name + "}"
  }

  /** The text a parsed template renders to with the values `env`. */
  function Expand(ps: seq<Piece>, env: map<string, string>): string {
    if ps == [] then [] else PieceText(ps[0], env) + Expand(ps[1..], env)
  }

  /** What one piece contributes to the rendered text. */
  function PieceText(p: Piece, env: map<string, string>): string {
    match p
    case Lit(c) => [c]
    case Field(n) => Lookup(env, n)
  }

  /** `safe_format(t, **env)`. */
  function Render(t: string, env: map<string, string>): Option<string> {
    var ps :- Parse(t);
    Some(Expand(ps, env))
  }

  // ----- Parsing round trips -----

  lemma {:induction false} NameLengthOfName(n: string, rest: string)
    requires forall k :: 0 <= k < |n| ==> IsNameChar(n[k])
    ensures NameLength(n + "}" + rest) == |n|
    decreases |n|
  {
    if n != [] {
      assert (n + "}" + rest)[1..] == n[1..] + "}" + rest;
      NameLengthOfName(n[1..], rest);
    }
  }

  lemma ParseLit(c: char, rest: string)
    requires c != '{' && c != '}'
    ensures Parse([c] + rest) == Cons(Lit(c), Parse(rest))
  {
    assert ([c] + rest)[1..] == rest;
  }

  lemma ParseEscaped(c: char, rest: string)
    requires c == '{' || c == '}'
    ensures Parse([c, c] + rest) == Cons(Lit(c), Parse(rest))
  {
    assert ([c, c] + rest)[2..] == rest;
  }

  lemma ParseField(n: string, rest: string)
    requires IsKey(n)
    ensures Parse("{" + n + "}" + rest) == Cons(Field(n), Parse(rest))
  {
    var t := "{" + n + "}" + rest;
    assert t[1..] == n + "}" + rest;
    NameLengthOfName(n, rest);
    assert t[1..1 + |n|] == n;
    assert t[2 + |n|..] == rest;
  }

  /** A field named by decimal digits alone (`{0}`, `{}`, or `{٣}` with an
      Arabic-Indic three) is positional: `format_map` raises on it. */
  lemma ParsePositional(digits: string, rest: string)
    requires IsDecimal(digits)
    ensures Parse("{" + digits + "}" + rest) == None
  {
    var t := "{" + digits + "}" + rest;
    assert t[1..] == digits + "}" + rest;
    NameLengthOfName(digits, rest);
    assert t[1..1 + |digits|] == digits;
  }

  /** Parsing the written form of valid pieces gives them back. */
  lemma {:induction false} ParseUnparse(ps: seq<Piece>)
    requires forall k :: 0 <= k < |ps| ==> ValidPiece(ps[k])
    ensures Parse(Unparse(ps)) == Some(ps)
    decreases |ps|
  {
    if ps != [] {
      var rest := Unparse(ps[1..]);
      ParseUnparse(ps[1..]);
      assert Unparse(ps) == PieceSource(ps[0]) + rest;
      if ps[0].Field? {
        ParseField(ps[0].name, rest);
      } else if ps[0].c == '{' || ps[0].c == '}' {
        assert PieceSource(ps[0]) == [ps[0].c, ps[0].c];
        ParseEscaped(ps[0].c, rest);
      } else {
        ParseLit(ps[0].c, rest);
      }
      assert [ps[0]] + ps[1..] == ps;
    }
  }

  /** The first piece the parser takes off a non-empty template, and the
      text it leaves. */
  lemma ParseStep(t: string) returns (p: Piece, rest: string)
    requires t != [] && Parse(t).Some?
    ensures t == PieceSource(p) + rest && |rest| < |t|
    ensures Parse(t) == Cons(p, Parse(rest))
  {
    if t[0] == '{' && |t| > 1 && t[1] == '{' {
      p, rest := Lit('{'), t[2..];
      assert t == [t[0], t[1]] + rest;
    } else if t[0] == '{' {
      var name;
      name, rest := FieldStep(t);
      p := Field(name);
    } else if t[0] == '}' {
      p, rest := Lit('}'), t[2..];
      assert t == [t[0], t[1]] + rest;
    } else {
      p, rest := Lit(t[0]), t[1..];
      assert t == [t[0]] + rest;
    }
  }

  lemma FieldStep(t: string) returns (name: string, rest: string)
    requires t != [] && t[0] == '{' && !(|t| > 1 && t[1] == '{') && Parse(t).Some?
    ensures t == "{" + name + "}" + rest && |rest| < |t|
    ensures Parse(t) == Cons(Field(name), Parse(rest))
  {
    var n := NameLength(t[1..]);
    name, rest := t[1..1 + n], t[2 + n..];
    assert t == "{" + name + "}" + rest;
  }

  /** Writing out the parse of a template gives back the template. */
  lemma {:induction false} UnparseParse(t: string)
    requires Parse(t).Some?
    ensures Unparse(Parse(t).value) == t
    decreases |t|
  {
    if t != [] {
      var p, rest := ParseStep(t);
      UnparseParse(rest);
      var ps := Parse(t).value;
      assert ps == [p] + Parse(rest).value;
      assert ps[0] == p && ps[1..] == Parse(rest).value;
    }
  }

  /** The parser accepts exactly the well-formed templates. */
  lemma ParseIffWellFormed(t: string)
    ensures Parse(t).Some? <==> WellFormed(t)
  {
    if Parse(t).Some? {
      UnparseParse(t);
    }
    if WellFormed(t) {
      var ps :| (forall k :: 0 <= k < |ps| ==> ValidPiece(ps[k])) && Unparse(ps) == t;
      ParseUnparse(ps);
    }
  }

  // ----- What rendering promises -----

  /** `safe_format` never fails for a missing key: whether it fails depends
      on the template alone, and a well-formed template always renders. */
  lemma RenderNeverFailsOnMissingKeys(t: string, env: map<string, string>)
    ensures Render(t, env).Some? <==> WellFormed(t)
  {
    ParseIffWellFormed(t);
  }

  /** The field names a piece list looks up. */
  function Names(ps: seq<Piece>): (r: set<string>)
    ensures forall k :: 0 <= k < |ps| && ps[k].Field? ==> ps[k].name in r
  {
    if ps == [] then {}
    else (if ps[0].Field? then {ps[0].name} else {}) + Names(ps[1..])
  }

  /** Two mappings that agree on the keys the template looks up. */
  predicate AgreeOn(names: set<string>, env1: map<string, string>, env2: map<string, string>) {
    forall n :: n in names ==> (n in env1 <==> n in env2) && (n in env1 ==> env1[n] == env2[n])
  }

  lemma {:induction false} ExpandAgree(ps: seq<Piece>, env1: map<string, string>, env2: map<string, string>)
    requires AgreeOn(Names(ps), env1, env2)
    ensures Expand(ps, env1) == Expand(ps, env2)
    decreases |ps|
  {
    if ps != [] {
      assert Names(ps[1..]) <= Names(ps);
      ExpandAgree(ps[1..], env1, env2);
    }
  }

  /** Supplied values whose keys the template never names do not affect the
      output: only the keys the template looks up matter. */
  lemma UnusedValuesIgnored(t: string, env1: map<string, string>, env2: map<string, string>)
    requires Parse(t).Some? && AgreeOn(Names(Parse(t).value), env1, env2)
    ensures Render(t, env1) == Render(t, env2)
  {
    ExpandAgree(Parse(t).value, env1, env2);
  }

  /** Literal pieces for each character of `s`. */
  function Lits(s: string): (ps: seq<Piece>)
    ensures |ps| == |s|
  {
    if s == [] then [] else [Lit(s[0])] + Lits(s[1..])
  }

  lemma {:induction false} LitsValid(s: string)
    ensures forall k :: 0 <= k < |s| ==> Lits(s)[k].Lit?
    decreases |s|
  {
    if s != [] {
      LitsValid(s[1..]);
      assert forall k :: 1 <= k < |s| ==> Lits(s)[k] == Lits(s[1..])[k - 1];
    }
  }

  /** Text with no brace at all: its template form is itself. */
  predicate BraceFree(s: string) {
    forall k :: 0 <= k < |s| ==> s[k] != '{' && s[k] != '}'
  }

  lemma {:induction false} UnparseAppend(ps: seq<Piece>, qs: seq<Piece>)
    ensures Unparse(ps + qs) == Unparse(ps) + Unparse(qs)
    decreases |ps|
  {
    if ps != [] {
      assert (ps + qs)[1..] == ps[1..] + qs;
      UnparseAppend(ps[1..], qs);
    } else {
      assert ps + qs == qs;
    }
  }

  lemma {:induction false} ExpandAppend(ps: seq<Piece>, qs: seq<Piece>, env: map<string, string>)
    ensures Expand(ps + qs, env) == Expand(ps, env) + Expand(qs, env)
    decreases |ps|
  {
    if ps != [] {
      var head := PieceText(ps[0], env);
      assert (ps + qs)[0] == ps[0];
      assert (ps + qs)[1..] == ps[1..] + qs;
      assert Expand(ps, env) == head + Expand(ps[1..], env);
      assert Expand(ps + qs, env) == head + Expand(ps[1..] + qs, env);
      ExpandAppend(ps[1..], qs, env);
      ConcatAssoc(head, Expand(ps[1..], env), Expand(qs, env));
    } else {
      assert ps + qs == qs;
    }
  }

  lemma {:induction false} LitsText(s: string, env: map<string, string>)
    requires BraceFree(s)
    ensures Unparse(Lits(s)) == s && Expand(Lits(s), env) == s
    decreases |s|
  {
    if s != [] {
      assert Lits(s)[1..] == Lits(s[1..]);
      LitsText(s[1..], env);
    }
  }

  /** A template written from valid pieces renders to their expansion. */
  lemma RenderPieces(ps: seq<Piece>, env: map<string, string>)
    requires forall k :: 0 <= k < |ps| ==> ValidPiece(ps[k])
    ensures Render(Unparse(ps), env) == Some(Expand(ps, env))
  {
    ParseUnparse(ps);
  }

  lemma UnparseField(name: string)
    ensures Unparse([Field(name)]) == "{" + name + "}"
  {
    assert [Field(name)][1..] == [];
  }

  lemma PlaceholderSource(before: seq<Piece>, name: string, after: seq<Piece>)
    ensures Unparse(before + [Field(name)] + after) == Unparse(before) + "{" + name + "}" + Unparse(after)
  {
    var mid := [Field(name)];
    UnparseField(name);
    UnparseAppend(before, mid);
    UnparseAppend(before + mid, after);
    assert Unparse(before + mid) == Unparse(before) + ("{" + name + "}");
    assert Unparse(before + mid + after) == Unparse(before) + ("{" + name + "}") + Unparse(after);
    ConcatAssoc(Unparse(before), "{" + name, "}");
    ConcatAssoc(Unparse(before), "{", name);
  }

  lemma ConcatAssoc(u: string, v: string, w: string)
    ensures u + (v + w) == u + v + w
  {
  }

  lemma PlaceholderExpand(before: string, name: string, after: string, env: map<string, string>)
    requires BraceFree(before) && BraceFree(after)
    ensures Expand(Lits(before) + [Field(name)] + Lits(after), env) == before + Lookup(env, name) + after
  {
    LitsText(before, env);
    LitsText(after, env);
    assert Expand([Field(name)], env) == Lookup(env, name);
    ExpandAppend(Lits(before), [Field(name)], env);
    ExpandAppend(Lits(before) + [Field(name)], Lits(after), env);
  }

  /** A placeholder between brace-free text: a supplied key becomes its
      value, a missing key is echoed as `{name}`, the text around it is
      kept as it is. */
  lemma RenderPlaceholder(before: string, name: string, after: string, env: map<string, string>)
    requires BraceFree(before) && BraceFree(after) && IsKey(name)
    ensures Render(before + "{" + name + "}" + after, env) == Some(before + Lookup(env, name) + after)
  {
    var ps := Lits(before) + [Field(name)] + Lits(after);
    LitsText(before, env);
    LitsText(after, env);
    PlaceholderSource(Lits(before), name, Lits(after));
    PlaceholderExpand(before, name, after, env);
    LitsValid(before);
    LitsValid(after);
    assert forall k :: 0 <= k < |ps| ==> ValidPiece(ps[k]);
    ParseUnparse(ps);
  }

  /** A template that is one field renders to that field's value. */
  lemma RenderField(name: string, env: map<string, string>)
    requires IsKey(name)
    ensures Render("{" + name + "}", env) == Some(Lookup(env, name))
  {
    var ps := [Field(name)];
    UnparseField(name);
    assert ValidPiece(ps[0]);
    ParseUnparse(ps);
    assert Parse("{" + name + "}") == Some(ps);
    assert ps[1..] == [];
    assert Expand(ps, env) == Lookup(env, name) + [];
    assert Lookup(env, name) + [] == Lookup(env, name);
  }

  lemma TwoFieldsSource(a: string, mid: string, b: string)
    requires BraceFree(mid)
    ensures Unparse([Field(a)] + Lits(mid) + [Field(b)]) == "{" + a + "}" + mid + "{" + b + "}"
  {
    var front := [Field(a)] + Lits(mid);
    LitsText(mid, map[]);
    UnparseField(a);
    UnparseAppend([Field(a)], Lits(mid));
    PlaceholderSource(front, b, []);
    assert front + [Field(b)] + [] == front + [Field(b)];
    assert Unparse(front) == "{" + a + "}" + mid;
  }

  lemma TwoFieldsExpand(a: string, mid: string, b: string, env: map<string, string>)
    requires BraceFree(mid)
    ensures Expand([Field(a)] + Lits(mid) + [Field(b)], env) == Lookup(env, a) + mid + Lookup(env, b)
  {
    var front := [Field(a)] + Lits(mid);
    LitsText(mid, env);
    assert Expand([Field(a)], env) == Lookup(env, a);
    assert Expand([Field(b)], env) == Lookup(env, b);
    ExpandAppend([Field(a)], Lits(mid), env);
    ExpandAppend(front, [Field(b)], env);
  }

  /** Two fields around brace-free text: each becomes its value, or is
      echoed when its key is missing (so `"{a} and {b}"` with only `a`
      supplied renders `a`'s value, `" and "`, then `"{b}"`). */
  lemma RenderTwoFields(a: string, mid: string, b: string, env: map<string, string>)
    requires IsKey(a) && BraceFree(mid) && IsKey(b)
    ensures Render("{" + a + "}" + mid + "{" + b + "}", env) == Some(Lookup(env, a) + mid + Lookup(env, b))
  {
    var ps := [Field(a)] + Lits(mid) + [Field(b)];
    TwoFieldsSource(a, mid, b);
    TwoFieldsExpand(a, mid, b, env);
    LitsValid(mid);
    assert forall k :: 0 <= k < |ps| ==> ValidPiece(ps[k]);
    RenderPieces(ps, env);
  }
}
