/** The type expressions of a Go syntax tree and the text that `astString` gives them. */
module GoTypes {
  import opened Options

  datatype ChanDir = Send | Recv | Both

  /** The node kinds that `astString` prints itself. `len` is the text of an array
      length; nil pointers of the syntax tree are None. */
  datatype Expr =
    | Ident(name: string)
    | Star(x: Expr)
    | Array(len: Option<string>, elt: Expr)
    | Selector(pkg: Expr, sel: string)
    | Map(key: Expr, value: Expr)
    | Func(params: FieldList, results: FieldList)
    | Chan(dir: ChanDir, value: Expr)
    | Ellipsis(opt: Option<Expr>)

  datatype Field = Field(names: seq<string>, typ: Expr)

  /** A pointer to a field list; the syntax tree has nil for an absent one. */
  datatype FieldList = Nil | List(fields: seq<Field>)

  const SEP := ", "

  // ----- printing -----

  function Join(parts: seq<string>, sep: string): string {
    if |parts| == 0 then ""
    else if |parts| == 1 then parts[0]
    else parts[0] + sep + Join(parts[1..], sep)
  }

  function DirText(dir: ChanDir): string {
    match dir
    case Send => "chan<- "
    case Recv => "<-chan "
    case Both => "chan "
  }

  function Print(e: Expr): string
    decreases e
  {
    match e
    case Ident(name) => name
    case Star(x) => "*" + Print(x)
    case Array(_, elt) => "[]" + Print(elt)
    case Selector(pkg, sel) => Print(pkg) + "." + sel
    case Map(key, value) => "map[" + Print(key) + "]" + Print(value)
    case Func(params, results) =>
      "func" + ParamsText(params) + ResultsText(results)
    case Chan(dir, value) => DirText(dir) + Print(value)
    case Ellipsis(opt) => "..." + (if opt.Some? then Print(opt.value) else "")
  }

  function ParamsText(params: FieldList): string
    decreases params
  {
    if params.Nil? then "" else PrintFields(params.fields)
  }

  function ResultsText(results: FieldList): string
    decreases results
  {
    if results.Nil? then "" else " " + PrintFields(results.fields)
  }

  function PrintFields(fs: seq<Field>): string
    decreases fs, 1
  {
    if |fs| == 0 then "()" else "(" + Join(FieldTexts(fs), SEP) + ")"
  }

  function FieldTexts(fs: seq<Field>): (texts: seq<string>)
    ensures |texts| == |fs|
    decreases fs, 0
  {
    if |fs| == 0 then []
    else [NamesText(fs[0].names) + Print(fs[0].typ)] + FieldTexts(fs[1..])
  }

  /** The names of a field and the space after them, nothing for a field without names. */
  function NamesText(names: seq<string>): string {
    if |names| == 0 then "" else Join(names, SEP) + " "
  }

  /** The line that `printField` writes for a struct field or an interface method. */
  function FieldLine(f: Field, tag: Option<string>): string {
    "\t" + NamesText(f.names) + Print(f.typ)
    + (if tag.Some? then " " + tag.value else "") + "\n"
  }

  // ----- what a parsed tree satisfies -----

  const PUNCTUATION := " .,()[]*<-`\"\t\n"

  predicate NameChar(c: char) {
    c !in PUNCTUATION
  }

  /** The words that begin a printed type without being a name. */
  datatype Word = MapWord | ChanWord | FuncWord | NameWord

  function WordOf(s: string): Word {
    if s == "map" then MapWord
    else if s == "chan" then ChanWord
    else if s == "func" then FuncWord
    else NameWord
  }

  /** Non-empty, without any character the printer uses itself, and not a keyword. Every Go
      identifier is such a name. */
  predicate IsName(s: string) {
    |s| > 0 && (forall i :: 0 <= i < |s| ==> NameChar(s[i])) && WordOf(s) == NameWord
  }

  /** The names are names, and what stands before the dot of a selector is one as well. */
  predicate WellFormed(e: Expr)
    decreases e
  {
    match e
    case Ident(name) => IsName(name)
    case Star(x) => WellFormed(x)
    case Array(_, elt) => WellFormed(elt)
    case Selector(pkg, sel) => pkg.Ident? && IsName(pkg.name) && IsName(sel)
    case Map(key, value) => WellFormed(key) && WellFormed(value)
    case Func(params, results) =>
      && (params.List? ==> WellFormedFields(params.fields))
      && (results.List? ==> WellFormedFields(results.fields))
    case Chan(_, value) => WellFormed(value)
    case Ellipsis(opt) => opt.Some? ==> WellFormed(opt.value)
  }

  predicate WellFormedFields(fs: seq<Field>)
    decreases fs
  {
    |fs| > 0 ==>
      && (forall i :: 0 <= i < |fs[0].names| ==> IsName(fs[0].names[i]))
      && WellFormed(fs[0].typ)
      && WellFormedFields(fs[1..])
  }
}
