/** `astString` and `printField` in the form of the source, with their append loops. */
module Docgen {
  import opened Options
  import opened GoTypes

  /** The file being written; only its content is modelled. */
  class OutFile {
    var content: string

    constructor ()
      ensures content == ""
    {
      content := "";
    }

    method WriteString(text: string)
      modifies this
      ensures content == old(content) + text
    {
      content := content + text;
    }
  }

  method AstString(e: Expr) returns (s: string)
    ensures s == Print(e)
    decreases e, 1
  {
    match e
    case Ident(name) => s := name;
    case Star(x) =>
      var t := AstString(x);
      s := "*" + t;
    case Array(_, elt) =>
      var t := AstString(elt);
      s := "[]" + t;
    case Selector(pkg, sel) =>
      var t := AstString(pkg);
      s := t + "." + sel;
    case Map(key, value) =>
      var k := AstString(key);
      var v := AstString(value);
      s := "map[" + k + "]" + v;
    case Func(funcParams, funcResults) =>
      var params, results := "", "";
      if funcParams.List? {
        params := FieldListString(funcParams.fields);
      }
      if funcResults.List? {
        results := FieldListString(funcResults.fields);
        results := " " + results;
      }
      s := "func" + params + results;
    case Chan(dir, value) =>
      var text := "";
      match dir {
        case Send => text := "chan<- ";
        case Recv => text := "<-chan ";
        case Both => text := "chan ";
      }
      var v := AstString(value);
      s := text + v;
    case Ellipsis(opt) =>
      var t := "";
      if opt.Some? {
        t := AstString(opt.value);
      }
      s := "..." + t;
  }

  /** The case of `astString` for a field list. */
  method FieldListString(fs: seq<Field>) returns (s: string)
    ensures s == PrintFields(fs)
    decreases fs, 0
  {
    if |fs| == 0 {
      return "()";
    }
    var fields: seq<string> := [];
    for i := 0 to |fs|
      invariant fields + FieldTexts(fs[i..]) == FieldTexts(fs)
    {
      var typeStr := AstString(fs[i].typ);
      FieldTextsFrom(fs, i);
      if |fs[i].names| > 0 {
        var names := CopyNames(fs[i].names);
        fields := fields + [Join(names, SEP) + " " + typeStr];
      } else {
        assert "" + typeStr == typeStr;
        fields := fields + [typeStr];
      }
    }
    assert fs[|fs|..] == [];
    assert fields == FieldTexts(fs);
    return "(" + Join(fields, SEP) + ")";
  }

  lemma FieldTextsFrom(fs: seq<Field>, i: nat)
    requires i < |fs|
    ensures FieldTexts(fs[i..]) == [NamesText(fs[i].names) + Print(fs[i].typ)] + FieldTexts(fs[i + 1..])
  {
    assert fs[i..][0] == fs[i] && fs[i..][1..] == fs[i + 1..];
  }

  /** The loop that both functions run over the identifiers of a field. */
  method CopyNames(idents: seq<string>) returns (names: seq<string>)
    ensures names == idents
  {
    names := [];
    for i := 0 to |idents|
      invariant names == idents[..i]
    {
      names := names + [idents[i]];
    }
  }

  method PrintField(file: OutFile, f: Field, tag: Option<string>)
    modifies file
    ensures file.content == old(file.content) + FieldLine(f, tag)
  {
    var names := CopyNames(f.names);
    var fieldStr := "\t";
    if |names| > 0 {
      fieldStr := fieldStr + (Join(names, SEP) + " ");
    }
    var t := AstString(f.typ);
    fieldStr := fieldStr + t;
    if tag.Some? {
      fieldStr := fieldStr + (" " + tag.value);
    }
    fieldStr := fieldStr + "\n";
    file.WriteString(fieldStr);
  }
}
