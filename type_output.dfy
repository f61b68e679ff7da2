/**
 * `outSchema` of the type generator: write the converted property lines out as TypeScript type
 * declarations, one line of text per line of each property, indented by two spaces.
 */
module TypeOutput {
  import Casing
  import TypeGen

  //////////////////////////
  // lines
  //////////////////////////

  /** `s.split(c)`: the pieces between the occurrences of `c`; the empty string gives `[""]`. */
  function Split(s: string, c: char): (r: seq<string>)
    ensures |r| >= 1
    ensures forall i :: 0 <= i < |r| ==> c !in r[i]
    decreases |s|
  {
    if |s| == 0 then [""]
    else
      var rest := Split(s[1..], c);
      if s[0] == c then [""] + rest else [[s[0]] + rest[0]] + rest[1..]
  }

  /** `ls.join(c)`, the inverse of Split. */
  function Join(ls: seq<string>, c: char): string
    requires |ls| >= 1
  {
    if |ls| == 1 then ls[0] else ls[0] + [c] + Join(ls[1..], c)
  }

  lemma {:induction false} JoinSplit(s: string, c: char)
    ensures Join(Split(s, c), c) == s
    decreases |s|
  {
    if |s| > 0 {
      JoinSplit(s[1..], c);
      var rest := Split(s[1..], c);
      if s[0] == c {
        assert s == [c] + s[1..];
      } else if |rest| == 1 {
        assert s == [s[0]] + s[1..];
      } else {
        assert ([[s[0]] + rest[0]] + rest[1..])[1..] == rest[1..];
        assert s == [s[0]] + s[1..];
      }
    }
  }

  /** Text without `c` glued to the front of `t` joins its first piece. */
  lemma {:induction false} SplitPrepend(p: string, t: string, c: char)
    requires c !in p
    ensures Split(p + t, c) == [p + Split(t, c)[0]] + Split(t, c)[1..]
    decreases |p|
  {
    if |p| > 0 {
      assert (p + t)[1..] == p[1..] + t;
      assert (p + t)[0] == p[0];
      SplitPrepend(p[1..], t, c);
      assert [p[0]] + (p[1..] + Split(t, c)[0]) == p + Split(t, c)[0];
    } else {
      assert p + t == t;
      assert p + Split(t, c)[0] == Split(t, c)[0];
      assert Split(t, c) == [Split(t, c)[0]] + Split(t, c)[1..];
    }
  }

  lemma SplitPiece(p: string, t: string, c: char)
    requires c !in p
    ensures Split(p + [c] + t, c) == [p] + Split(t, c)
  {
    assert p + [c] + t == p + ([c] + t);
    assert ([c] + t)[1..] == t;
    assert Split([c] + t, c) == [""] + Split(t, c);
    SplitPrepend(p, [c] + t, c);
    assert p + "" == p;
  }

  lemma {:induction false} SplitJoin(ls: seq<string>, c: char)
    requires |ls| >= 1 && forall i :: 0 <= i < |ls| ==> c !in ls[i]
    ensures Split(Join(ls, c), c) == ls
  {
    if |ls| == 1 {
      SplitPrepend(ls[0], "", c);
      assert ls[0] + "" == ls[0];
    } else {
      SplitJoin(ls[1..], c);
      SplitPiece(ls[0], Join(ls[1..], c), c);
    }
  }

  /** Each line followed by a newline. */
  function Terminated(ls: seq<string>): string {
    if ls == [] then "" else ls[0] + "\n" + Terminated(ls[1..])
  }

  lemma {:induction false} TerminatedAppend(a: seq<string>, b: seq<string>)
    ensures Terminated(a + b) == Terminated(a) + Terminated(b)
  {
    if a != [] {
      assert (a + b)[1..] == a[1..] + b;
      TerminatedAppend(a[1..], b);
    } else {
      assert a + b == b;
    }
  }

  /** The lines of newline-terminated text: the lines, and the empty piece after the last newline. */
  lemma {:induction false} SplitTerminated(ls: seq<string>)
    requires forall i :: 0 <= i < |ls| ==> '\n' !in ls[i]
    ensures Split(Terminated(ls), '\n') == ls + [""]
  {
    if ls != [] {
      SplitTerminated(ls[1..]);
      SplitPiece(ls[0], Terminated(ls[1..]), '\n');
      assert ls[0] + "\n" + Terminated(ls[1..]) == ls[0] + ['\n'] + Terminated(ls[1..]);
    }
  }

  //////////////////////////
  // the output text
  //////////////////////////

  /** All lines of all properties, in order: each property split at its newlines. */
  function PropertyLines(fields: seq<string>): (r: seq<string>)
    ensures forall i :: 0 <= i < |r| ==> '\n' !in r[i]
  {
    if fields == [] then []
    else PropertyLines(fields[..|fields| - 1]) + Split(fields[|fields| - 1], '\n')
  }

  function Indent(ls: seq<string>): (r: seq<string>)
    ensures |r| == |ls| && forall i :: 0 <= i < |ls| ==> r[i] == "  " + ls[i]
  {
    seq(|ls|, i requires 0 <= i < |ls| => "  " + ls[i])
  }

  /** `export type <typeName> = {`, the indented property lines, `}`, and an empty line. */
  function Declaration(typeName: string, fields: seq<string>): (r: seq<string>)
    ensures |r| == |PropertyLines(fields)| + 3
    ensures r[0] == "export type " + typeName + " = {"
    ensures forall i :: 0 <= i < |PropertyLines(fields)| ==> r[i + 1] == "  " + PropertyLines(fields)[i]
    ensures r[|r| - 2..] == ["}", ""]
  {
    ["export type " + typeName + " = {"] + Indent(PropertyLines(fields)) + ["}", ""]
  }

  /** The declarations of the blocks, in the order of `customSchemas`. */
  function CustomDeclarations(name: string, customs: seq<(string, seq<string>)>): seq<string> {
    if customs == [] then []
    else
      var n := |customs| - 1;
      CustomDeclarations(name, customs[..n]) + Declaration(TypeGen.BlockTypeName(name, customs[n].0), customs[n].1)
  }

  /** The lines `outSchema` writes: the main declaration, then one per block. */
  function OutputLines(name: string, c: TypeGen.Converted): seq<string> {
    Declaration(name, c.mainSchema) + CustomDeclarations(name, c.customSchemas)
  }

  //////////////////////////
  // the writer
  //////////////////////////

  /** `lines.forEach(s => buffer += `  ${s}\n`)` */
  method AppendLines(buffer: string, lines: seq<string>) returns (out: string)
    ensures out == buffer + Terminated(Indent(lines))
  {
    out := buffer;
    var j := 0;
    while j < |lines|
      invariant j <= |lines|
      invariant out == buffer + Terminated(Indent(lines[..j]))
    {
      ghost var done := Indent(lines[..j]);
      out := out + "  " + lines[j] + "\n";
      assert Indent(lines[..j + 1]) == done + ["  " + lines[j]];
      TerminatedAppend(done, ["  " + lines[j]]);
      j := j + 1;
    }
    assert lines[..j] == lines;
  }

  lemma PropertyLinesStep(fields: seq<string>, i: nat)
    requires i < |fields|
    ensures Terminated(Indent(PropertyLines(fields[..i + 1]))) ==
      Terminated(Indent(PropertyLines(fields[..i]))) + Terminated(Indent(Split(fields[i], '\n')))
  {
    assert fields[..i + 1][..i] == fields[..i];
    var lines := Split(fields[i], '\n');
    assert PropertyLines(fields[..i + 1]) == PropertyLines(fields[..i]) + lines;
    assert Indent(PropertyLines(fields[..i + 1])) == Indent(PropertyLines(fields[..i])) + Indent(lines);
    TerminatedAppend(Indent(PropertyLines(fields[..i])), Indent(lines));
  }

  /** `fields.forEach(field => field.split('\n').forEach(...))` */
  method AppendProperties(buffer: string, fields: seq<string>) returns (out: string)
    ensures out == buffer + Terminated(Indent(PropertyLines(fields)))
  {
    out := buffer;
    var i := 0;
    while i < |fields|
      invariant i <= |fields|
      invariant out == buffer + Terminated(Indent(PropertyLines(fields[..i])))
    {
      out := AppendLines(out, Split(fields[i], '\n'));
      PropertyLinesStep(fields, i);
      i := i + 1;
    }
    assert fields[..i] == fields;
  }

  /** One declaration written out. */
  method AppendDeclaration(buffer: string, typeName: string, fields: seq<string>) returns (out: string)
    ensures out == buffer + Terminated(Declaration(typeName, fields))
  {
    out := buffer + "export type " + typeName + " = {\n";
    out := AppendProperties(out, fields);
    out := out + "}\n\n";
    var body := Indent(PropertyLines(fields));
    TerminatedAppend(["export type " + typeName + " = {"], body);
    TerminatedAppend(["export type " + typeName + " = {"] + body, ["}", ""]);
  }

  lemma CustomDeclarationsStep(name: string, main: seq<string>, customs: seq<(string, seq<string>)>, k: nat)
    requires k < |customs|
    ensures Terminated(main + CustomDeclarations(name, customs[..k + 1])) ==
      Terminated(main + CustomDeclarations(name, customs[..k])) +
      Terminated(Declaration(TypeGen.BlockTypeName(name, customs[k].0), customs[k].1))
  {
    var cd := CustomDeclarations(name, customs[..k]);
    var d := Declaration(TypeGen.BlockTypeName(name, customs[k].0), customs[k].1);
    var next := customs[..k + 1];
    assert next[..k] == customs[..k] && next[k] == customs[k] && |next| - 1 == k;
    assert CustomDeclarations(name, next) == cd + d;
    assert main + (cd + d) == (main + cd) + d;
    TerminatedAppend(main + cd, d);
  }

  /** `outSchema`: the main declaration, then one declaration per entry of `customSchemas`. */
  method OutSchema(name: string, c: TypeGen.Converted) returns (buffer: string)
    ensures buffer == Terminated(OutputLines(name, c))
  {
    buffer := AppendDeclaration("", name, c.mainSchema);
    var customs := c.customSchemas;
    var k := 0;
    assert Declaration(name, c.mainSchema) + CustomDeclarations(name, customs[..0]) == Declaration(name, c.mainSchema);
    while k < |customs|
      invariant k <= |customs|
      invariant buffer == Terminated(Declaration(name, c.mainSchema) + CustomDeclarations(name, customs[..k]))
    {
      buffer := AppendDeclaration(buffer, TypeGen.BlockTypeName(name, customs[k].0), customs[k].1);
      CustomDeclarationsStep(name, Declaration(name, c.mainSchema), customs, k);
      k := k + 1;
    }
    assert customs[..k] == customs;
  }

  //////////////////////////
  // properties
  //////////////////////////

  /** pascalCase introduces no newline. */
  lemma {:induction false} ReplaceKeepsNewlines(s: string)
    requires '\n' !in s
    ensures '\n' !in Casing.ReplaceSeparators(s)
    decreases |s|
  {
    if |s| > 0 {
      if Casing.MatchAt(s, 0) {
        assert s[1] in s;
        ReplaceKeepsNewlines(s[2..]);
      } else {
        assert s[0] in s;
        ReplaceKeepsNewlines(s[1..]);
      }
    }
  }

  lemma PascalCaseKeepsNewlines(s: string)
    requires '\n' !in s
    ensures '\n' !in Casing.PascalCase(s)
  {
    if |s| > 0 {
      var lowered := [Casing.ToLower(s[0])] + s[1..];
      assert s[0] in s;
      assert forall i :: 0 <= i < |lowered| ==> lowered[i] != '\n';
      ReplaceKeepsNewlines(lowered);
    }
  }

  /** No line holds a newline. */
  predicate SingleLines(ls: seq<string>) {
    forall i :: 0 <= i < |ls| ==> '\n' !in ls[i]
  }

  lemma SingleLinesAppend(a: seq<string>, b: seq<string>)
    requires SingleLines(a) && SingleLines(b)
    ensures SingleLines(a + b)
  {
    assert forall i :: |a| <= i < |a + b| ==> (a + b)[i] == b[i - |a|];
  }

  /** A declaration's lines are single lines when its type name holds no newline. */
  lemma DeclarationSingleLines(typeName: string, fields: seq<string>)
    requires '\n' !in typeName
    ensures SingleLines(Declaration(typeName, fields))
  {
    var header := "export type " + typeName + " = {";
    assert '\n' !in "export type " && '\n' !in " = {";
    assert '\n' !in header;
    var body := Indent(PropertyLines(fields));
    forall i | 0 <= i < |body| ensures '\n' !in body[i] {
      assert '\n' !in "  ";
    }
    SingleLinesAppend([header], body);
    SingleLinesAppend([header] + body, ["}", ""]);
  }

  lemma {:induction false} CustomDeclarationsSingleLines(name: string, customs: seq<(string, seq<string>)>)
    requires '\n' !in name && forall i :: 0 <= i < |customs| ==> '\n' !in customs[i].0
    ensures SingleLines(CustomDeclarations(name, customs))
  {
    if customs != [] {
      var n := |customs| - 1;
      CustomDeclarationsSingleLines(name, customs[..n]);
      PascalCaseKeepsNewlines(customs[n].0);
      assert '\n' !in "CustomField";
      DeclarationSingleLines(TypeGen.BlockTypeName(name, customs[n].0), customs[n].1);
      SingleLinesAppend(CustomDeclarations(name, customs[..n]), Declaration(TypeGen.BlockTypeName(name, customs[n].0), customs[n].1));
    }
  }

  /**
   * The text `outSchema` writes splits at its newlines into exactly the declaration lines: the
   * header of each type, each line of each property indented by two spaces, `}` and an empty line,
   * followed by the empty piece after the final newline.
   */
  lemma OutSchemaLines(name: string, c: TypeGen.Converted)
    requires '\n' !in name && forall i :: 0 <= i < |c.customSchemas| ==> '\n' !in c.customSchemas[i].0
    ensures Split(Terminated(OutputLines(name, c)), '\n') == OutputLines(name, c) + [""]
  {
    CustomDeclarationsSingleLines(name, c.customSchemas);
    DeclarationSingleLines(name, c.mainSchema);
    SingleLinesAppend(Declaration(name, c.mainSchema), CustomDeclarations(name, c.customSchemas));
    SplitTerminated(OutputLines(name, c));
  }
}
