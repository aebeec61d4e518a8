/** Decoding what was printed: the reader follows the printer through every node kind, for every
    text that may follow a type expression. */
module TypeRoundTrip {
  import opened Options
  import opened GoTypes
  import opened FieldItems
  import opened TypeDecoder

  /** The texts that may follow a type: the end, a separator or closing bracket, the end of a
      line, or a space and a tag. */
  predicate Follow(r: string) {
    r == "" || r[0] == ',' || r[0] == ')' || r[0] == ']' || r[0] == '\n'
    || (r[0] == ' ' && StartsTag(r[1..]))
  }

  ghost predicate Recovers(e: Expr) {
    forall r: string {:trigger ParseType(Print(e) + r)} :: Follow(r) ==> ParseType(Print(e) + r) == Some((Normal(e), r))
  }

  ghost predicate ItemRecovers(item: Item) {
    Recovers(item.typ) && (item.Named? ==> IsName(item.name))
  }

  // ----- names -----

  lemma {:induction false} TakeNameExact(name: string, r: string)
    requires forall i :: 0 <= i < |name| ==> NameChar(name[i])
    requires r == "" || !NameChar(r[0])
    ensures TakeName(name + r) == name
    ensures (name + r)[|name|..] == r
  {
    if |name| > 0 {
      assert (name + r)[1..] == name[1..] + r;
      TakeNameExact(name[1..], r);
    } else {
      assert name + r == r;
    }
  }

  /** A text whose first character is a name character takes none of the symbol branches. */
  lemma WordFirst(word: string, r: string)
    requires |word| > 0 && (forall i :: 0 <= i < |word| ==> NameChar(word[i]))
    requires r == "" || !NameChar(r[0])
    ensures ParseType(word + r) == ParseAfter(word, r)
  {
    TakeNameExact(word, r);
    var s := word + r;
    assert NameChar(s[0]);
    assert ParseType(s) == ParseWord(s);
  }

  lemma KeywordFirst(kind: Word, word: string, r: string)
    requires kind != NameWord && WordOf(word) == kind
    requires r == "" || !NameChar(r[0])
    ensures ParseType(word + r) == match kind
                                   case MapWord => ParseMap(r)
                                   case ChanWord => ParseChan(r)
                                   case _ => ParseSignature(r)
  {
    WordFirst(word, r);
  }

  lemma IdentRecovers(name: string)
    requires IsName(name)
    ensures Recovers(Ident(name))
  {
    forall r: string | Follow(r)
      ensures ParseType(Print(Ident(name)) + r) == Some((Normal(Ident(name)), r))
    {
      WordFirst(name, r);
    }
  }

  // ----- items -----

  function PrintItem(item: Item): string {
    match item
    case Bare(typ) => Print(typ)
    case Named(name, typ) => name + " " + Print(typ)
  }

  function PrintItems(items: seq<Item>): string {
    if |items| == 0 then ""
    else if |items| == 1 then PrintItem(items[0])
    else PrintItem(items[0]) + SEP + PrintItems(items[1..])
  }

  /** No printed type begins with a quote, so a name before one is never taken for a tag. */
  lemma PrintNotTag(e: Expr, r: string)
    requires Recovers(e) && Follow(r)
    ensures !StartsTag(Print(e) + r)
  {
    var s := Print(e) + r;
    assert ParseType(s).Some?;
    if StartsTag(s) {
      QuoteIsNoType(s);
    }
  }

  lemma QuoteIsNoType(s: string)
    requires StartsTag(s)
    ensures ParseType(s).None?
  {
    assert TakeName(s) == "";
    assert ParseType(s) == ParseWord(s);
  }

  lemma NamedRoundTrip(name: string, typ: Expr, r: string)
    requires IsName(name) && Recovers(typ) && Follow(r)
    ensures ParseItem(PrintItem(Named(name, typ)) + r) == Some((Named(name, Normal(typ)), r))
  {
    var u := Print(typ) + r;
    var t := " " + u;
    assert PrintItem(Named(name, typ)) + r == name + t;
    TakeNameExact(name, t);
    assert t[1..] == u;
    PrintNotTag(typ, r);
    assert ParseType(u) == Some((Normal(typ), r));
  }

  lemma BareRoundTrip(typ: Expr, r: string)
    requires Recovers(typ) && Follow(r)
    ensures ParseItem(Print(typ) + r) == Some((Bare(Normal(typ)), r))
  {
    var s := Print(typ) + r;
    assert ParseType(s) == Some((Normal(typ), r));
    NotBound(s, Normal(typ), r);
  }

  /** When a text reads as a type up to `r`, its leading word is not the name of a named item. */
  lemma NotBound(s: string, typ: Expr, r: string)
    requires ParseType(s) == Some((typ, r)) && Follow(r)
    ensures var name := TakeName(s);
            !(IsName(name) && Starts(" ", s[|name|..]) && !StartsTag(s[|name|..][1..]))
  {
    var name := TakeName(s);
    var t := s[|name|..];
    if IsName(name) && Starts(" ", t) {
      assert s == name + t;
      WordFirst(name, t);
      assert ParseAfter(name, t) == Some((Ident(name), t));
    }
  }

  lemma ItemRoundTrip(item: Item, r: string)
    requires ItemRecovers(item) && Follow(r)
    ensures ParseItem(PrintItem(item) + r) == Some((NormalItem(item), r))
  {
    match item
    case Named(name, typ) => NamedRoundTrip(name, typ, r);
    case Bare(typ) => BareRoundTrip(typ, r);
  }

  lemma {:induction false} NamePrefix(s: string)
    ensures forall i :: 0 <= i < |TakeName(s)| ==> NameChar(TakeName(s)[i])
    ensures |TakeName(s)| < |s| ==> !NameChar(s[|TakeName(s)|])
  {
    if |s| > 0 && NameChar(s[0]) {
      NamePrefix(s[1..]);
    }
  }

  /** The printer's separator is the one that the reader expects. */
  lemma SeparatorIsRead()
    ensures SEP == COMMA == ", "
  {}

  lemma {:induction false} ItemsRoundTrip(items: seq<Item>, r: string)
    requires |items| > 0 && forall i :: 0 <= i < |items| ==> ItemRecovers(items[i])
    requires Follow(r) && !Starts(COMMA, r)
    ensures ParseItems(PrintItems(items) + r) == Some((NormalItems(items), r))
    decreases |items|
  {
    SeparatorIsRead();
    if |items| == 1 {
      ItemRoundTrip(items[0], r);
      LastItem(PrintItem(items[0]) + r, NormalItem(items[0]), r);
      assert NormalItems(items) == [NormalItem(items[0])];
    } else {
      var rest := PrintItems(items[1..]) + r;
      assert PrintItems(items) + r == PrintItem(items[0]) + (SEP + rest);
      ItemRoundTrip(items[0], SEP + rest);
      ItemsRoundTrip(items[1..], r);
      MoreItems(PrintItem(items[0]) + (SEP + rest), NormalItem(items[0]), rest, NormalItems(items[1..]), r);
    }
  }

  lemma LastItem(s: string, item: Item, r: string)
    requires ParseItem(s) == Some((item, r)) && !Starts(COMMA, r)
    ensures ParseItems(s) == Some(([item], r))
  {}

  lemma MoreItems(s: string, item: Item, t: string, items: seq<Item>, r: string)
    requires ParseItem(s) == Some((item, COMMA + t)) && ParseItems(t) == Some((items, r))
    ensures ParseItems(s) == Some(([item] + items, r))
  {
    assert (COMMA + t)[|COMMA|..] == t;
  }

  // ----- the source's two joins print the items -----

  lemma {:induction false} PrintItemsAppend(a: seq<Item>, b: seq<Item>)
    requires |a| > 0 && |b| > 0
    ensures PrintItems(a + b) == PrintItems(a) + SEP + PrintItems(b)
  {
    assert (a + b)[0] == a[0] && (a + b)[1..] == a[1..] + b;
    if |a| == 1 {
      assert a[1..] + b == b;
    } else {
      PrintItemsAppend(a[1..], b);
      assert PrintItem(a[0]) + SEP + (PrintItems(a[1..]) + SEP + PrintItems(b))
          == (PrintItem(a[0]) + SEP + PrintItems(a[1..])) + SEP + PrintItems(b);
    }
  }

  lemma {:induction false} NameItemsText(names: seq<string>, typ: Expr)
    requires |names| > 0
    ensures PrintItems(NameItems(names, typ)) == Join(names, SEP) + " " + Print(typ)
  {
    if |names| > 1 {
      NameItemsText(names[1..], typ);
      var tail := NameItems(names[1..], typ);
      assert NameItems(names, typ)[1..] == tail;
      assert names[0] + SEP + (Join(names[1..], SEP) + " " + Print(typ))
          == (names[0] + SEP + Join(names[1..], SEP)) + " " + Print(typ);
    }
  }

  lemma FieldItemsText(f: Field)
    ensures PrintItems(ItemsOf(f)) == NamesText(f.names) + Print(f.typ)
  {
    if |f.names| > 0 {
      NameItemsText(f.names, f.typ);
    } else {
      assert "" + Print(f.typ) == Print(f.typ);
    }
  }

  lemma {:induction false} FieldsText(fs: seq<Field>)
    requires |fs| > 0
    ensures |Items(fs)| > 0
    ensures Join(FieldTexts(fs), SEP) == PrintItems(Items(fs))
  {
    FieldItemsText(fs[0]);
    if |fs| == 1 {
      assert Items(fs) == ItemsOf(fs[0]);
    } else {
      FieldsText(fs[1..]);
      assert FieldTexts(fs)[1..] == FieldTexts(fs[1..]);
      PrintItemsAppend(ItemsOf(fs[0]), Items(fs[1..]));
    }
  }

  // ----- normal items -----

  lemma {:induction false} NormalItemsAppend(a: seq<Item>, b: seq<Item>)
    ensures NormalItems(a + b) == NormalItems(a) + NormalItems(b)
  {
    if |a| == 0 {
      assert a + b == b;
    } else {
      assert (a + b)[1..] == a[1..] + b;
      NormalItemsAppend(a[1..], b);
    }
  }

  lemma {:induction false} NormalNameItems(names: seq<string>, typ: Expr)
    requires |names| > 0
    ensures NormalItems(NameItems(names, typ)) == NameItems(names, Normal(typ))
  {
    if |names| > 1 {
      NormalNameItems(names[1..], typ);
      assert NameItems(names, typ)[1..] == NameItems(names[1..], typ);
    }
  }

  lemma {:induction false} ItemsOfNormalTypes(fs: seq<Field>)
    ensures Items(NormalTypes(fs)) == NormalItems(Items(fs))
  {
    if |fs| > 0 {
      ItemsOfNormalTypes(fs[1..]);
      NormalItemsAppend(ItemsOf(fs[0]), Items(fs[1..]));
      if |fs[0].names| > 0 {
        NormalNameItems(fs[0].names, fs[0].typ);
      } else {
        assert NormalItems([Bare(fs[0].typ)]) == [Bare(Normal(fs[0].typ))];
      }
    }
  }

  // ----- the round trip -----

  lemma {:induction false} NameItemsRecover(names: seq<string>, typ: Expr)
    requires |names| > 0 && (forall i :: 0 <= i < |names| ==> IsName(names[i])) && Recovers(typ)
    ensures forall i :: 0 <= i < |names| ==> ItemRecovers(NameItems(names, typ)[i])
  {
    if |names| > 1 {
      IdentRecovers(names[0]);
      NameItemsRecover(names[1..], typ);
    }
  }

  lemma {:induction false} FieldsRecover(fs: seq<Field>)
    requires WellFormedFields(fs)
    ensures forall i :: 0 <= i < |Items(fs)| ==> ItemRecovers(Items(fs)[i])
    decreases fs, 0
  {
    if |fs| > 0 {
      TypeRecovers(fs[0].typ);
      FieldsRecover(fs[1..]);
      if |fs[0].names| > 0 {
        NameItemsRecover(fs[0].names, fs[0].typ);
      }
    }
  }

  lemma {:induction false} FieldListRoundTrip(fs: seq<Field>, r: string)
    requires WellFormedFields(fs)
    ensures ParseFields(PrintFields(fs) + r) == Some((NormalList(List(fs)).fields, r))
    decreases fs, 1
  {
    var s := PrintFields(fs) + r;
    if |fs| == 0 {
      assert s[2..] == r;
    } else {
      FieldsRecover(fs);
      FieldsText(fs);
      ListText(PrintItems(Items(fs)), r);
      CloseFollows(r);
      ItemsRoundTrip(Items(fs), ")" + r);
      ItemsOfNormalTypes(fs);
      ListStep(PrintItems(Items(fs)) + (")" + r), NormalItems(Items(fs)), r);
    }
  }

  lemma ListText(inner: string, r: string)
    ensures "(" + inner + ")" + r == "(" + (inner + (")" + r))
  {}

  lemma CloseFollows(r: string)
    ensures Follow(")" + r) && !Starts(COMMA, ")" + r)
  {}

  lemma ListStep(t: string, items: seq<Item>, r: string)
    requires ParseItems(t) == Some((items, ")" + r))
    ensures ParseFields("(" + t) == Some((Group(items), r))
  {
    var s := "(" + t;
    assert s[1..] == t && (")" + r)[1..] == r;
    if t != "" && t[0] == ')' {
      ItemStart(t);
    }
  }

  lemma ItemStart(s: string)
    requires |s| > 0 && s[0] == ')'
    ensures ParseItems(s).None?
  {
    assert TakeName(s) == "";
    assert ParseType(s).None?;
  }

  /** The reader recovers the normal form of every well-formed type from its text, whatever
      admissible text follows. */
  lemma {:induction false} TypeRecovers(e: Expr)
    requires WellFormed(e)
    ensures Recovers(e)
    decreases e, 2
  {
    match e
    case Ident(name) => IdentRecovers(name);
    case Star(x) =>
      TypeRecovers(x);
      forall r: string | Follow(r) ensures ParseType(Print(e) + r) == Some((Normal(e), r)) {
        assert Print(e) + r == "*" + (Print(x) + r);
        StarStep(Print(x) + r, Normal(x), r);
      }
    case Array(_, elt) =>
      TypeRecovers(elt);
      forall r: string | Follow(r) ensures ParseType(Print(e) + r) == Some((Normal(e), r)) {
        assert Print(e) + r == "[]" + (Print(elt) + r);
        ArrayStep(Print(elt) + r, Normal(elt), r);
      }
    case Selector(pkg, sel) =>
      forall r: string | Follow(r) ensures ParseType(Print(e) + r) == Some((Normal(e), r)) {
        SelectorRecovers(pkg.name, sel, r);
      }
    case Map(key, value) =>
      TypeRecovers(key);
      TypeRecovers(value);
      forall r: string | Follow(r) ensures ParseType(Print(e) + r) == Some((Normal(e), r)) {
        MapRecovers(key, value, r);
      }
    case Func(params, results) =>
      forall r: string | Follow(r) ensures ParseType(Print(e) + r) == Some((Normal(e), r)) {
        FuncRecovers(params, results, r);
      }
    case Chan(dir, value) =>
      TypeRecovers(value);
      forall r: string | Follow(r) ensures ParseType(Print(e) + r) == Some((Normal(e), r)) {
        ChanRecovers(dir, value, r);
      }
    case Ellipsis(opt) =>
      if opt.Some? {
        TypeRecovers(opt.value);
      }
      forall r: string | Follow(r) ensures ParseType(Print(e) + r) == Some((Normal(e), r)) {
        EllipsisRecovers(opt, r);
      }
  }

  lemma StarStep(t: string, x: Expr, r: string)
    requires ParseType(t) == Some((x, r))
    ensures ParseType("*" + t) == Some((Star(x), r))
  {
    assert ("*" + t)[1..] == t;
    assert ParseType("*" + t) == ParseStar("*" + t);
  }

  lemma ArrayStep(t: string, elt: Expr, r: string)
    requires ParseType(t) == Some((elt, r))
    ensures ParseType("[]" + t) == Some((Array(None, elt), r))
  {
    assert ("[]" + t)[2..] == t;
    assert ParseType("[]" + t) == ParseArray("[]" + t);
  }

  lemma SelectorRecovers(pkg: string, sel: string, r: string)
    requires IsName(pkg) && IsName(sel) && Follow(r)
    ensures ParseType(Print(Selector(Ident(pkg), sel)) + r) == Some((Selector(Ident(pkg), sel), r))
  {
    var t := "." + (sel + r);
    assert Print(Selector(Ident(pkg), sel)) + r == pkg + t;
    WordFirst(pkg, t);
    TakeNameExact(sel, r);
    assert t[1..] == sel + r && t[1 + |sel|..] == r;
  }

  lemma MapRecovers(key: Expr, value: Expr, r: string)
    requires Recovers(key) && Recovers(value) && Follow(r)
    ensures ParseType(Print(Map(key, value)) + r) == Some((Normal(Map(key, value)), r))
  {
    var u := "]" + (Print(value) + r);
    var t := "[" + (Print(key) + u);
    MapText(Print(key), Print(value), r);
    KeywordFirst(MapWord, "map", t);
    assert Follow(u);
    assert ParseType(Print(key) + u) == Some((Normal(key), u));
    assert ParseType(Print(value) + r) == Some((Normal(value), r));
    MapStep(Print(key) + u, Normal(key), Print(value) + r, Normal(value), r);
  }

  lemma MapText(key: string, value: string, r: string)
    ensures "map[" + key + "]" + value + r == "map" + ("[" + (key + ("]" + (value + r))))
  {}

  lemma MapStep(s: string, key: Expr, t: string, value: Expr, r: string)
    requires ParseType(s) == Some((key, "]" + t)) && ParseType(t) == Some((value, r))
    ensures ParseMap("[" + s) == Some((Map(key, value), r))
  {
    assert ("[" + s)[1..] == s && ("]" + t)[1..] == t;
  }

  lemma ChanRecovers(dir: ChanDir, value: Expr, r: string)
    requires Recovers(value) && Follow(r)
    ensures ParseType(Print(Chan(dir, value)) + r) == Some((Normal(Chan(dir, value)), r))
  {
    var v := Print(value) + r;
    assert ParseType(v) == Some((Normal(value), r));
    ChanText(Print(value), r);
    match dir
    case Recv => RecvStep(v, Normal(value), r);
    case Send =>
      KeywordFirst(ChanWord, "chan", "<- " + v);
      ChanStep(Send, v, Normal(value), r);
    case Both =>
      KeywordFirst(ChanWord, "chan", " " + v);
      ChanStep(Both, v, Normal(value), r);
  }

  lemma ChanText(value: string, r: string)
    ensures "<-chan " + value + r == "<-chan " + (value + r)
    ensures "chan<- " + value + r == "chan" + ("<- " + (value + r))
    ensures "chan " + value + r == "chan" + (" " + (value + r))
  {}

  lemma RecvStep(t: string, value: Expr, r: string)
    requires ParseType(t) == Some((value, r))
    ensures ParseType("<-chan " + t) == Some((Chan(Recv, value), r))
  {
    var s := "<-chan " + t;
    assert s[7..] == t && s[0] == '<';
    assert ParseType(s) == ParseRecv(s);
  }

  lemma ChanStep(dir: ChanDir, t: string, value: Expr, r: string)
    requires dir != Recv && ParseType(t) == Some((value, r))
    ensures ParseChan((if dir == Send then "<- " else " ") + t) == Some((Chan(dir, value), r))
  {
    assert ("<- " + t)[3..] == t && (" " + t)[1..] == t;
  }

  lemma EllipsisRecovers(opt: Option<Expr>, r: string)
    requires (opt.Some? ==> Recovers(opt.value)) && Follow(r)
    ensures ParseType(Print(Ellipsis(opt)) + r) == Some((Normal(Ellipsis(opt)), r))
  {
    var t := (if opt.Some? then Print(opt.value) else "") + r;
    assert Print(Ellipsis(opt)) + r == "..." + t;
    if opt.None? {
      assert t == r;
      FollowIsNoType(r);
    } else {
      assert ParseType(t) == Some((Normal(opt.value), r));
    }
    EllipsisStep(t);
  }

  lemma EllipsisStep(t: string)
    ensures ParseType("..." + t) == match ParseType(t)
                                    case None => Some((Ellipsis(None), t))
                                    case Some((elt, rest)) => Some((Ellipsis(Some(elt)), rest))
  {
    var s := "..." + t;
    assert s[3..] == t && s[0] == '.';
    assert ParseType(s) == ParseEllipsis(s);
  }

  lemma FollowIsNoType(r: string)
    requires Follow(r)
    ensures ParseType(r).None?
  {
    assert r != "" ==> TakeName(r) == "";
  }

  lemma {:induction false} FuncRecovers(params: FieldList, results: FieldList, r: string)
    requires params.List? ==> WellFormedFields(params.fields)
    requires results.List? ==> WellFormedFields(results.fields)
    requires Follow(r)
    ensures ParseType(Print(Func(params, results)) + r) == Some((Normal(Func(params, results)), r))
    decreases Func(params, results), 1
  {
    SignatureRecovers(params, results, r);
    FuncText(ParamsText(params), ResultsText(results), r);
    KeywordFirst(FuncWord, "func", ParamsText(params) + (ResultsText(results) + r));
  }

  lemma FuncText(params: string, results: string, r: string)
    ensures "func" + params + results + r == "func" + (params + (results + r))
  {}

  lemma {:induction false} SignatureRecovers(params: FieldList, results: FieldList, r: string)
    requires params.List? ==> WellFormedFields(params.fields)
    requires results.List? ==> WellFormedFields(results.fields)
    requires Follow(r)
    ensures var t := ParamsText(params) + (ResultsText(results) + r);
            && (t == "" || !NameChar(t[0]))
            && ParseSignature(t) == Some((Func(NormalList(params), NormalList(results)), r))
    decreases Func(params, results), 0
  {
    var u := ResultsText(results) + r;
    var t := ParamsText(params) + u;
    ResultsRecover(NormalList(params), results, r);
    if params.List? {
      FieldListRoundTrip(params.fields, u);
      SignatureStep(t, NormalList(params).fields, u);
    } else {
      assert t == u;
      NoParamsStep(u);
    }
  }

  lemma SignatureStep(t: string, params: seq<Field>, u: string)
    requires ParseFields(t) == Some((params, u))
    ensures t != "" && !NameChar(t[0]) && ParseSignature(t) == ParseResults(List(params), u)
  {}

  lemma NoParamsStep(t: string)
    requires t == "" || t[0] != '('
    ensures ParseSignature(t) == ParseResults(Nil, t)
  {}

  lemma {:induction false} ResultsRecover(params: FieldList, results: FieldList, r: string)
    requires results.List? ==> WellFormedFields(results.fields)
    requires Follow(r)
    ensures var u := ResultsText(results) + r;
            && (u == "" || (!NameChar(u[0]) && u[0] != '('))
            && ParseResults(params, u) == Some((Func(params, NormalList(results)), r))
    decreases results, 2
  {
    var u := ResultsText(results) + r;
    if results.List? {
      FieldListRoundTrip(results.fields, r);
      assert u == " " + (PrintFields(results.fields) + r);
      ResultsStep(params, PrintFields(results.fields) + r, NormalList(results).fields, r);
    } else {
      assert u == r;
    }
  }

  lemma ResultsStep(params: FieldList, t: string, results: seq<Field>, r: string)
    requires ParseFields(t) == Some((results, r))
    ensures ParseResults(params, " " + t) == Some((Func(params, List(results)), r))
  {
    var u := " " + t;
    assert u[1..] == t;
  }
}
