/** A reader for the text of type expressions: the inverse that shows what the text determines. */
module TypeDecoder {
  import opened Options
  import opened GoTypes
  import opened FieldItems

  /** What the reader expects between the items of a list. */
  const COMMA := ", "

  predicate Starts(prefix: string, s: string) {
    prefix <= s
  }

  function TakeName(s: string): (name: string)
    ensures name <= s
  {
    if |s| > 0 && NameChar(s[0]) then [s[0]] + TakeName(s[1..]) else ""
  }

  predicate StartsTag(s: string) {
    |s| > 0 && (s[0] == '`' || s[0] == '"')
  }

  function ParseType(s: string): (r: Option<(Expr, string)>)
    ensures r.Some? ==> |r.value.1| < |s|
    decreases |s|, 7
  {
    if s == "" then None
    else if s[0] == '*' then ParseStar(s)
    else if s[0] == '[' then ParseArray(s)
    else if s[0] == '.' then ParseEllipsis(s)
    else if s[0] == '<' then ParseRecv(s)
    else ParseWord(s)
  }

  function ParseStar(s: string): (r: Option<(Expr, string)>)
    requires s != ""
    ensures r.Some? ==> |r.value.1| < |s|
    decreases |s|, 6
  {
    var (x, rest) :- ParseType(s[1..]);
    Some((Star(x), rest))
  }

  function ParseArray(s: string): (r: Option<(Expr, string)>)
    ensures r.Some? ==> |r.value.1| < |s|
    decreases |s|, 6
  {
    if !Starts("[]", s) then None else
    var (elt, rest) :- ParseType(s[2..]);
    Some((Array(None, elt), rest))
  }

  function ParseEllipsis(s: string): (r: Option<(Expr, string)>)
    ensures r.Some? ==> |r.value.1| < |s|
    decreases |s|, 6
  {
    if !Starts("...", s) then None else
    match ParseType(s[3..])
    case None => Some((Ellipsis(None), s[3..]))
    case Some((elt, rest)) => Some((Ellipsis(Some(elt)), rest))
  }

  function ParseRecv(s: string): (r: Option<(Expr, string)>)
    ensures r.Some? ==> |r.value.1| < |s|
    decreases |s|, 6
  {
    if !Starts("<-chan ", s) then None else
    var (value, rest) :- ParseType(s[7..]);
    Some((Chan(Recv, value), rest))
  }

  function ParseWord(s: string): (r: Option<(Expr, string)>)
    ensures r.Some? ==> |r.value.1| < |s|
    decreases |s|, 6
  {
    var word := TakeName(s);
    if word == "" then None else ParseAfter(word, s[|word|..])
  }

  /** What follows a leading word depends on the word. */
  function ParseAfter(word: string, s: string): (r: Option<(Expr, string)>)
    ensures r.Some? ==> |r.value.1| <= |s|
    decreases |s|, 12
  {
    match WordOf(word)
    case MapWord => ParseMap(s)
    case ChanWord => ParseChan(s)
    case FuncWord => ParseSignature(s)
    case NameWord =>
      if Starts(".", s) then
        var sel := TakeName(s[1..]);
        if sel == "" then None else Some((Selector(Ident(word), sel), s[1 + |sel|..]))
      else Some((Ident(word), s))
  }

  function ParseMap(s: string): (r: Option<(Expr, string)>)
    ensures r.Some? ==> |r.value.1| <= |s|
    decreases |s|, 11
  {
    if !Starts("[", s) then None else
    var (key, t) :- ParseType(s[1..]);
    if !Starts("]", t) then None else
    var (value, rest) :- ParseType(t[1..]);
    Some((Map(key, value), rest))
  }

  function ParseChan(s: string): (r: Option<(Expr, string)>)
    ensures r.Some? ==> |r.value.1| <= |s|
    decreases |s|, 11
  {
    if |s| > 0 && s[0] == '<' && Starts("<- ", s) then
      var (value, rest) :- ParseType(s[3..]);
      Some((Chan(Send, value), rest))
    else if Starts(" ", s) then
      var (value, rest) :- ParseType(s[1..]);
      Some((Chan(Both, value), rest))
    else None
  }

  function ParseSignature(s: string): (r: Option<(Expr, string)>)
    ensures r.Some? ==> |r.value.1| <= |s|
    decreases |s|, 11
  {
    if Starts("(", s) then
      var (params, t) :- ParseFields(s);
      ParseResults(List(params), t)
    else ParseResults(Nil, s)
  }

  function ParseResults(params: FieldList, s: string): (r: Option<(Expr, string)>)
    ensures r.Some? ==> |r.value.1| <= |s|
    decreases |s|, 1
  {
    if Starts(" (", s) then
      var (results, rest) :- ParseFields(s[1..]);
      Some((Func(params, List(results)), rest))
    else Some((Func(params, Nil), s))
  }

  function ParseFields(s: string): (r: Option<(seq<Field>, string)>)
    ensures r.Some? ==> |r.value.1| < |s|
    decreases |s|, 10
  {
    if Starts("()", s) then Some(([], s[2..]))
    else if Starts("(", s) then
      var (items, t) :- ParseItems(s[1..]);
      if Starts(")", t) then Some((Group(items), t[1..])) else None
    else None
  }

  function ParseItems(s: string): (r: Option<(seq<Item>, string)>)
    ensures r.Some? ==> |r.value.1| < |s|
    decreases |s|, 9
  {
    var (item, t) :- ParseItem(s);
    if Starts(COMMA, t) then
      var (items, rest) :- ParseItems(t[|COMMA|..]);
      Some(([item] + items, rest))
    else Some(([item], t))
  }

  function ParseItem(s: string): (r: Option<(Item, string)>)
    ensures r.Some? ==> |r.value.1| < |s|
    decreases |s|, 8
  {
    var name := TakeName(s);
    var t := s[|name|..];
    if IsName(name) && Starts(" ", t) && !StartsTag(t[1..]) then
      var (typ, rest) :- ParseType(t[1..]);
      Some((Named(name, typ), rest))
    else
      var (typ, rest) :- ParseType(s);
      Some((Bare(typ), rest))
  }

  function Decode(s: string): Option<Expr> {
    match ParseType(s)
    case Some((e, rest)) => if rest == "" then Some(e) else None
    case None => None
  }

  /** Reads a line of `printField`: a tab, one field, a tag after a space, a newline. */
  function DecodeLine(s: string): Option<(Field, Option<string>)> {
    if !Starts("\t", s) then None else
    var (items, t) :- ParseItems(s[1..]);
    var fs := Group(items);
    if |fs| != 1 || |t| == 0 || t[|t| - 1] != '\n' then None
    else if |t| == 1 then Some((fs[0], None))
    else if t[0] == ' ' then Some((fs[0], Some(t[1..|t| - 1])))
    else None
  }

  // ----- what decoding can give back: the normal form -----

  /** Array lengths forgotten, every field list regrouped from its items. */
  function Normal(e: Expr): Expr
    decreases e
  {
    match e
    case Ident(_) => e
    case Star(x) => Star(Normal(x))
    case Array(_, elt) => Array(None, Normal(elt))
    case Selector(_, _) => e
    case Map(key, value) => Map(Normal(key), Normal(value))
    case Func(params, results) => Func(NormalList(params), NormalList(results))
    case Chan(dir, value) => Chan(dir, Normal(value))
    case Ellipsis(opt) => Ellipsis(if opt.Some? then Some(Normal(opt.value)) else None)
  }

  function NormalList(fl: FieldList): FieldList
    decreases fl
  {
    if fl.Nil? then Nil else List(Group(Items(NormalTypes(fl.fields))))
  }

  function NormalTypes(fs: seq<Field>): (r: seq<Field>)
    ensures |r| == |fs|
    ensures forall i :: 0 <= i < |fs| ==> r[i].names == fs[i].names
    decreases fs
  {
    if |fs| == 0 then []
    else [Field(fs[0].names, Normal(fs[0].typ))] + NormalTypes(fs[1..])
  }

  function NormalItem(item: Item): Item {
    match item
    case Bare(typ) => Bare(Normal(typ))
    case Named(name, typ) => Named(name, Normal(typ))
  }

  function NormalItems(items: seq<Item>): (r: seq<Item>)
    ensures |r| == |items|
  {
    if |items| == 0 then [] else [NormalItem(items[0])] + NormalItems(items[1..])
  }
}
