/** What the text of a type expression determines, what it forgets, and that it is balanced. */
module PrinterTheorems {
  import opened Options
  import opened GoTypes
  import opened FieldItems
  import opened TypeDecoder
  import opened TypeRoundTrip

  // ----- the tree is recovered up to its normal form -----

  lemma DecodePrint(e: Expr)
    requires WellFormed(e)
    ensures Decode(Print(e)) == Some(Normal(e))
  {
    TypeRecovers(e);
    assert Print(e) + "" == Print(e);
    assert Follow("");
    assert ParseType(Print(e) + "") == Some((Normal(e), ""));
  }

  lemma {:induction false} NormalPrintsAlike(e: Expr)
    ensures Print(Normal(e)) == Print(e)
    decreases e, 2
  {
    match e
    case Ident(_) =>
    case Star(x) => NormalPrintsAlike(x);
    case Array(_, elt) => NormalPrintsAlike(elt);
    case Selector(_, _) =>
    case Map(key, value) => NormalPrintsAlike(key); NormalPrintsAlike(value);
    case Func(params, results) =>
      if params.List? { NormalFieldsPrintAlike(params.fields); }
      if results.List? { NormalFieldsPrintAlike(results.fields); }
    case Chan(_, value) => NormalPrintsAlike(value);
    case Ellipsis(opt) => if opt.Some? { NormalPrintsAlike(opt.value); }
  }

  lemma {:induction false} NormalFieldsPrintAlike(fs: seq<Field>)
    ensures PrintFields(NormalList(List(fs)).fields) == PrintFields(fs)
    decreases fs, 1
  {
    var types := NormalTypes(fs);
    var grouped := Group(Items(types));
    ItemsOfGroup(Items(types));
    NormalTypesPrintAlike(fs);
    if |fs| > 0 {
      FieldsText(types);
      assert Items(grouped) == Items(types);
      FieldsText(grouped);
    }
  }

  lemma {:induction false} NormalTypesPrintAlike(fs: seq<Field>)
    ensures FieldTexts(NormalTypes(fs)) == FieldTexts(fs)
    decreases fs, 0
  {
    if |fs| > 0 {
      NormalPrintsAlike(fs[0].typ);
      NormalTypesPrintAlike(fs[1..]);
      assert NormalTypes(fs)[1..] == NormalTypes(fs[1..]);
    }
  }

  /** Two types have the same text exactly when they have the same normal form. */
  lemma SameTextIffSameNormal(a: Expr, b: Expr)
    requires WellFormed(a) && WellFormed(b)
    ensures Print(a) == Print(b) <==> Normal(a) == Normal(b)
  {
    DecodePrint(a);
    DecodePrint(b);
    NormalPrintsAlike(a);
    NormalPrintsAlike(b);
  }

  // ----- exactly which trees are recovered -----

  /** No array has a length, and no field list puts an unnamed identifier before a named field. */
  predicate Faithful(e: Expr)
    decreases e
  {
    match e
    case Ident(_) => true
    case Star(x) => Faithful(x)
    case Array(len, elt) => len.None? && Faithful(elt)
    case Selector(_, _) => true
    case Map(key, value) => Faithful(key) && Faithful(value)
    case Func(params, results) => FaithfulList(params) && FaithfulList(results)
    case Chan(_, value) => Faithful(value)
    case Ellipsis(opt) => opt.Some? ==> Faithful(opt.value)
  }

  predicate FaithfulList(fl: FieldList)
    decreases fl
  {
    fl.List? ==> Separable(fl.fields) && FaithfulTypes(fl.fields)
  }

  predicate FaithfulTypes(fs: seq<Field>)
    decreases fs
  {
    |fs| > 0 ==> Faithful(fs[0].typ) && FaithfulTypes(fs[1..])
  }

  lemma {:induction false} NormalIffFaithful(e: Expr)
    ensures Normal(e) == e <==> Faithful(e)
    decreases e, 2
  {
    match e
    case Ident(_) =>
    case Star(x) => NormalIffFaithful(x);
    case Array(_, elt) => NormalIffFaithful(elt);
    case Selector(_, _) =>
    case Map(key, value) => NormalIffFaithful(key); NormalIffFaithful(value);
    case Func(params, results) => NormalListIffFaithful(params); NormalListIffFaithful(results);
    case Chan(_, value) => NormalIffFaithful(value);
    case Ellipsis(opt) => if opt.Some? { NormalIffFaithful(opt.value); }
  }

  lemma {:induction false} NormalListIffFaithful(fl: FieldList)
    ensures NormalList(fl) == fl <==> FaithfulList(fl)
    decreases fl, 1
  {
    if fl.List? {
      var fs, types := fl.fields, NormalTypes(fl.fields);
      NormalTypesIffFaithful(fs);
      if Group(Items(types)) == fs {
        GroupIsSeparable([], Items(types));
        ItemsOfGroup(Items(types));
        ItemsDetermineTypes(types, fs);
      }
      GroupInverse(fs);
    }
  }

  lemma {:induction false} NormalTypesIffFaithful(fs: seq<Field>)
    ensures NormalTypes(fs) == fs <==> FaithfulTypes(fs)
    decreases fs, 0
  {
    if |fs| > 0 {
      NormalIffFaithful(fs[0].typ);
      NormalTypesIffFaithful(fs[1..]);
      assert NormalTypes(fs)[1..] == NormalTypes(fs[1..]);
      assert NormalTypes(fs)[0] == Field(fs[0].names, Normal(fs[0].typ));
      assert fs == [fs[0]] + fs[1..];
    }
  }

  /** With the names of the fields fixed, the items leave no choice of types. */
  lemma {:induction false} ItemsDetermineTypes(a: seq<Field>, b: seq<Field>)
    requires |a| == |b| && forall i :: 0 <= i < |a| ==> a[i].names == b[i].names
    requires Items(a) == Items(b)
    ensures a == b
  {
    if |a| > 0 {
      ItemsOfLength(a[0]);
      ItemsOfLength(b[0]);
      var k := |ItemsOf(a[0])|;
      assert ItemsOf(a[0]) == Items(a)[..k] == Items(b)[..k] == ItemsOf(b[0]);
      assert Items(a[1..]) == Items(a)[k..] == Items(b)[k..] == Items(b[1..]);
      LastItemType(a[0]);
      LastItemType(b[0]);
      ItemsDetermineTypes(a[1..], b[1..]);
      assert a == [a[0]] + a[1..] && b == [b[0]] + b[1..];
    }
  }

  lemma ItemsOfLength(f: Field)
    ensures |ItemsOf(f)| == if |f.names| == 0 then 1 else |f.names|
  {}

  lemma {:induction false} LastItemType(f: Field)
    ensures ItemsOf(f)[|ItemsOf(f)| - 1].typ == f.typ
    decreases |f.names|
  {
    if |f.names| > 1 {
      LastItemType(Field(f.names[1..], f.typ));
    }
  }

  /** Reading the text back gives the very tree exactly when the tree is faithful. */
  lemma DecodeInverse(e: Expr)
    requires WellFormed(e)
    ensures Decode(Print(e)) == Some(e) <==> Faithful(e)
  {
    DecodePrint(e);
    NormalIffFaithful(e);
  }

  /** Distinct faithful types have distinct texts. */
  lemma PrintInjective(a: Expr, b: Expr)
    requires WellFormed(a) && WellFormed(b) && Faithful(a) && Faithful(b)
    requires Print(a) == Print(b)
    ensures a == b
  {
    DecodeInverse(a);
    DecodeInverse(b);
  }

  // ----- trees as Go's parser builds them: only array lengths are forgotten -----

  /** Every field list is all named or all unnamed. */
  predicate UniformTree(e: Expr)
    decreases e
  {
    match e
    case Ident(_) => true
    case Star(x) => UniformTree(x)
    case Array(_, elt) => UniformTree(elt)
    case Selector(_, _) => true
    case Map(key, value) => UniformTree(key) && UniformTree(value)
    case Func(params, results) => UniformList(params) && UniformList(results)
    case Chan(_, value) => UniformTree(value)
    case Ellipsis(opt) => opt.Some? ==> UniformTree(opt.value)
  }

  predicate UniformList(fl: FieldList)
    decreases fl
  {
    fl.List? ==> Uniform(fl.fields) && UniformTypes(fl.fields)
  }

  predicate UniformTypes(fs: seq<Field>)
    decreases fs
  {
    |fs| > 0 ==> UniformTree(fs[0].typ) && UniformTypes(fs[1..])
  }

  function Erase(e: Expr): Expr
    decreases e
  {
    match e
    case Ident(_) => e
    case Star(x) => Star(Erase(x))
    case Array(_, elt) => Array(None, Erase(elt))
    case Selector(_, _) => e
    case Map(key, value) => Map(Erase(key), Erase(value))
    case Func(params, results) => Func(EraseList(params), EraseList(results))
    case Chan(dir, value) => Chan(dir, Erase(value))
    case Ellipsis(opt) => Ellipsis(if opt.Some? then Some(Erase(opt.value)) else None)
  }

  function EraseList(fl: FieldList): FieldList
    decreases fl
  {
    if fl.Nil? then Nil else List(EraseTypes(fl.fields))
  }

  function EraseTypes(fs: seq<Field>): (r: seq<Field>)
    ensures |r| == |fs|
    ensures forall i :: 0 <= i < |fs| ==> r[i].names == fs[i].names
    decreases fs
  {
    if |fs| == 0 then [] else [Field(fs[0].names, Erase(fs[0].typ))] + EraseTypes(fs[1..])
  }

  lemma {:induction false} UniformNormalIsErased(e: Expr)
    requires UniformTree(e)
    ensures Normal(e) == Erase(e)
    decreases e, 2
  {
    match e
    case Ident(_) =>
    case Star(x) => UniformNormalIsErased(x);
    case Array(_, elt) => UniformNormalIsErased(elt);
    case Selector(_, _) =>
    case Map(key, value) => UniformNormalIsErased(key); UniformNormalIsErased(value);
    case Func(params, results) => UniformListIsErased(params); UniformListIsErased(results);
    case Chan(_, value) => UniformNormalIsErased(value);
    case Ellipsis(opt) => if opt.Some? { UniformNormalIsErased(opt.value); }
  }

  lemma {:induction false} UniformListIsErased(fl: FieldList)
    requires UniformList(fl)
    ensures NormalList(fl) == EraseList(fl)
    decreases fl, 1
  {
    if fl.List? {
      UniformTypesAreErased(fl.fields);
      UniformIsSeparable(NormalTypes(fl.fields));
      GroupInverse(NormalTypes(fl.fields));
    }
  }

  lemma {:induction false} UniformTypesAreErased(fs: seq<Field>)
    requires UniformTypes(fs)
    ensures NormalTypes(fs) == EraseTypes(fs)
    decreases fs, 0
  {
    if |fs| > 0 {
      UniformNormalIsErased(fs[0].typ);
      UniformTypesAreErased(fs[1..]);
    }
  }

  /** What the printer forgets of a parsed type: its array lengths and nothing else. */
  lemma SameTextIffSameErased(a: Expr, b: Expr)
    requires WellFormed(a) && WellFormed(b) && UniformTree(a) && UniformTree(b)
    ensures Print(a) == Print(b) <==> Erase(a) == Erase(b)
  {
    SameTextIffSameNormal(a, b);
    UniformNormalIsErased(a);
    UniformNormalIsErased(b);
  }

  // ----- inputs outside the fragment collide -----

  /** A field list that mixes an unnamed identifier with a named field prints like another. */
  lemma MixedListsCollide()
    ensures var a := Func(List([Field([], Ident("a")), Field(["b"], Ident("T"))]), Nil);
            var b := Func(List([Field(["a", "b"], Ident("T"))]), Nil);
            a != b && Print(a) == Print(b)
  {
    var bT := Field(["b"], Ident("T"));
    var mixed, named := [Field([], Ident("a")), bT], [Field(["a", "b"], Ident("T"))];
    var items := [Bare(Ident("a")), Named("b", Ident("T"))];
    assert mixed[1..] == [bT] && ["a", "b"][1..] == ["b"];
    assert Items([bT]) == [Named("b", Ident("T"))];
    assert Items(mixed) == items == Items(named);
    FieldsText(mixed);
    FieldsText(named);
  }

  /** A selector on something other than an identifier prints like another tree. */
  lemma SelectorsCollide()
    ensures var a := Star(Selector(Ident("p"), "T"));
            var b := Selector(Star(Ident("p")), "T");
            a != b && Print(a) == Print(b) == "*p.T"
  {}

  // ----- brackets -----

  /** Reads brackets off the text against a stack of the closing ones awaited. */
  function Scan(s: string, open: seq<char>): Option<seq<char>> {
    if s == "" then Some(open)
    else if s[0] == '(' then Scan(s[1..], [')'] + open)
    else if s[0] == '[' then Scan(s[1..], [']'] + open)
    else if s[0] == ')' || s[0] == ']' then
      if |open| > 0 && open[0] == s[0] then Scan(s[1..], open[1..]) else None
    else Scan(s[1..], open)
  }

  predicate Balanced(s: string) {
    Scan(s, []) == Some([])
  }

  predicate Neutral(c: char) {
    c != '(' && c != ')' && c != '[' && c != ']'
  }

  /** Reading the text leaves the stack as it was, whatever the stack and the text after it. */
  ghost predicate Transparent(s: string) {
    forall r: string, open: seq<char> {:trigger Scan(s + r, open)} :: Scan(s + r, open) == Scan(r, open)
  }

  lemma {:induction false} NeutralTransparent(w: string)
    requires forall i :: 0 <= i < |w| ==> Neutral(w[i])
    ensures Transparent(w)
  {
    forall r: string, open: seq<char> ensures Scan(w + r, open) == Scan(r, open) {
      if w == "" {
        assert w + r == r;
      } else {
        NeutralTransparent(w[1..]);
        assert (w + r)[0] == w[0] && (w + r)[1..] == w[1..] + r;
      }
    }
  }

  lemma TransparentAppend(a: string, b: string)
    requires Transparent(a) && Transparent(b)
    ensures Transparent(a + b)
  {
    forall r: string, open: seq<char> ensures Scan((a + b) + r, open) == Scan(r, open) {
      assert (a + b) + r == a + (b + r);
    }
  }

  lemma TransparentBrackets(opening: char, s: string, closing: char)
    requires (opening == '(' && closing == ')') || (opening == '[' && closing == ']')
    requires Transparent(s)
    ensures Transparent([opening] + s + [closing])
  {
    forall r: string, open: seq<char> ensures Scan([opening] + s + [closing] + r, open) == Scan(r, open) {
      var u := [closing] + r;
      var t := s + u;
      assert [opening] + s + [closing] + r == [opening] + t;
      assert ([opening] + t)[1..] == t && u[1..] == r;
      assert ([closing] + open)[1..] == open;
      assert Scan(t, [closing] + open) == Scan(u, [closing] + open);
    }
  }

  lemma {:induction false} PrintTransparent(e: Expr)
    requires WellFormed(e)
    ensures Transparent(Print(e))
    decreases e, 2
  {
    match e
    case Ident(name) => NeutralTransparent(name);
    case Star(x) => PrintTransparent(x); PrefixTransparent("*", Print(x));
    case Array(_, elt) =>
      NeutralTransparent("");
      TransparentBrackets('[', "", ']');
      assert ['['] + "" + [']'] == "[]";
      PrintTransparent(elt);
      TransparentAppend("[]", Print(elt));
    case Selector(pkg, sel) =>
      assert forall i :: 0 <= i < |pkg.name| ==> Neutral(pkg.name[i]);
      assert forall i :: 0 <= i < |sel| ==> Neutral(sel[i]);
      NeutralTransparent(pkg.name + "." + sel);
    case Map(key, value) =>
      PrintTransparent(key);
      PrintTransparent(value);
      MapTransparent(Print(key), Print(value));
    case Func(params, results) =>
      NeutralTransparent("");
      if params.List? { FieldsTransparent(params.fields); }
      if results.List? {
        FieldsTransparent(results.fields);
        PrefixTransparent(" ", PrintFields(results.fields));
      }
      PrefixTransparent("func", ParamsText(params));
      TransparentAppend("func" + ParamsText(params), ResultsText(results));
    case Chan(dir, value) => PrintTransparent(value); PrefixTransparent(DirText(dir), Print(value));
    case Ellipsis(opt) =>
      NeutralTransparent("");
      if opt.Some? { PrintTransparent(opt.value); }
      PrefixTransparent("...", if opt.Some? then Print(opt.value) else "");
  }

  lemma PrefixTransparent(w: string, s: string)
    requires (forall i :: 0 <= i < |w| ==> Neutral(w[i])) && Transparent(s)
    ensures Transparent(w + s)
  {
    NeutralTransparent(w);
    TransparentAppend(w, s);
  }

  lemma MapTransparent(key: string, value: string)
    requires Transparent(key) && Transparent(value)
    ensures Transparent("map[" + key + "]" + value)
  {
    TransparentBrackets('[', key, ']');
    PrefixTransparent("map", ['['] + key + [']']);
    assert "map" + (['['] + key + [']']) == "map[" + key + "]";
    TransparentAppend("map[" + key + "]", value);
  }

  lemma {:induction false} FieldsTransparent(fs: seq<Field>)
    requires WellFormedFields(fs)
    ensures Transparent(PrintFields(fs))
    decreases fs, 1
  {
    NeutralTransparent("");
    TextsTransparent(fs);
    TransparentBrackets('(', Join(FieldTexts(fs), SEP), ')');
    assert ['('] + Join(FieldTexts(fs), SEP) + [')'] == PrintFields(fs);
  }

  lemma {:induction false} TextsTransparent(fs: seq<Field>)
    requires WellFormedFields(fs)
    ensures Transparent(Join(FieldTexts(fs), SEP))
    decreases fs, 0
  {
    NeutralTransparent("");
    if |fs| > 0 {
      NamesNeutral(fs[0].names);
      PrintTransparent(fs[0].typ);
      PrefixTransparent(NamesText(fs[0].names), Print(fs[0].typ));
      if |fs| > 1 {
        TextsTransparent(fs[1..]);
        NeutralTransparent(SEP);
        TransparentAppend(FieldTexts(fs)[0], SEP);
        TransparentAppend(FieldTexts(fs)[0] + SEP, Join(FieldTexts(fs[1..]), SEP));
        assert FieldTexts(fs)[1..] == FieldTexts(fs[1..]);
      }
    }
  }

  lemma {:induction false} NamesNeutral(names: seq<string>)
    requires forall i :: 0 <= i < |names| ==> IsName(names[i])
    ensures forall i :: 0 <= i < |NamesText(names)| ==> Neutral(NamesText(names)[i])
  {
    if |names| > 1 {
      NamesNeutral(names[1..]);
      assert forall i :: 0 <= i < |Join(names[1..], SEP)| ==> Join(names[1..], SEP)[i] == NamesText(names[1..])[i];
    }
  }

  /** Every printed type closes the brackets it opens, in order. */
  lemma PrintBalanced(e: Expr)
    requires WellFormed(e)
    ensures Balanced(Print(e))
  {
    PrintTransparent(e);
    assert Print(e) + "" == Print(e);
    assert Scan(Print(e) + "", []) == Scan("", []);
  }

  // ----- the text of lists, by its characters -----

  lemma {:induction false} JoinSnoc(parts: seq<string>, sep: string, last: string)
    requires |parts| > 0
    ensures Join(parts + [last], sep) == Join(parts, sep) + sep + last
  {
    assert (parts + [last])[1..] == parts[1..] + [last];
    if |parts| > 1 {
      JoinSnoc(parts[1..], sep, last);
      JoinedText(parts[0], sep, Join(parts[1..], sep), last);
    } else {
      assert parts[1..] + [last] == [last];
    }
  }

  lemma JoinedText(first: string, sep: string, middle: string, last: string)
    ensures first + sep + (middle + sep + last) == (first + sep + middle) + sep + last
  {}

  lemma {:induction false} FieldTextsSnoc(fs: seq<Field>, f: Field)
    ensures FieldTexts(fs + [f]) == FieldTexts(fs) + [NamesText(f.names) + Print(f.typ)]
    decreases |fs|
  {
    if |fs| > 0 {
      assert (fs + [f])[1..] == fs[1..] + [f];
      FieldTextsSnoc(fs[1..], f);
    } else {
      assert fs + [f] == [f] && [f][1..] == [];
    }
  }

  /** One more name: a comma and a space before it, one space after all. */
  lemma NamesTextSnoc(names: seq<string>, name: string)
    ensures NamesText([]) == "" && NamesText([name]) == name + " "
    ensures |names| > 0 ==> |NamesText(names)| > 0
    ensures |names| > 0 ==> NamesText(names + [name]) == NamesText(names)[..|NamesText(names)| - 1] + ", " + name + " "
  {
    if |names| > 0 {
      JoinSnoc(names, SEP, name);
    }
  }

  lemma ReplaceLast(inner: string, more: string)
    ensures var t := "(" + inner + ")"; "(" + (inner + more) + ")" == t[..|t| - 1] + more + ")"
  {}

  lemma SingleField(f: Field)
    ensures PrintFields([f]) == "(" + (NamesText(f.names) + Print(f.typ)) + ")"
  {
    FieldTextsSnoc([], f);
    assert [] + [f] == [f] && FieldTexts([f]) == [NamesText(f.names) + Print(f.typ)];
  }

  /** One more field: before the closing parenthesis a comma, a space and its text. */
  lemma PrintFieldsSnoc(fs: seq<Field>, f: Field)
    requires |fs| > 0
    ensures |PrintFields(fs)| > 0
    ensures PrintFields(fs + [f])
         == PrintFields(fs)[..|PrintFields(fs)| - 1] + (", " + (NamesText(f.names) + Print(f.typ))) + ")"
  {
    var text, inner := NamesText(f.names) + Print(f.typ), Join(FieldTexts(fs), SEP);
    FieldTextsSnoc(fs, f);
    JoinSnoc(FieldTexts(fs), SEP, text);
    SeparatorIsRead();
    assert inner + SEP + text == inner + (SEP + text);
    ReplaceLast(inner, SEP + text);
  }

  /** The text of a signature, letter by letter. */
  lemma SignatureText()
    ensures Print(Func(List([Field(["a", "b"], Ident("int"))]), List([Field([], Star(Ident("T")))])))
         == "func(a, b int) (*T)"
  {
    var ab, t := Field(["a", "b"], Ident("int")), Field([], Star(Ident("T")));
    SingleField(ab);
    SingleField(t);
    NamesTextSnoc(["a"], "b");
    NamesTextSnoc([], "a");
    assert ["a"] + ["b"] == ["a", "b"];
    assert PrintFields([ab]) == "(a, b int)";
    assert PrintFields([t]) == "(*T)";
  }

  // ----- lines of a struct or an interface -----

  predicate ValidTag(tag: Option<string>) {
    tag.Some? ==> StartsTag(tag.value)
  }

  /** A printed field line gives back its names, its type up to normal form, and its tag. */
  lemma DecodeFieldLine(f: Field, tag: Option<string>)
    requires WellFormedFields([f]) && ValidTag(tag)
    ensures DecodeLine(FieldLine(f, tag)) == Some((Field(f.names, Normal(f.typ)), tag))
  {
    var end := (if tag.Some? then " " + tag.value else "") + "\n";
    var s := FieldLine(f, tag);
    var g := Field(f.names, Normal(f.typ));
    FieldItemsText(f);
    assert s == "\t" + (PrintItems(ItemsOf(f)) + end);
    LineItems(f, end);
    GroupInverse([g]);
    LineStep(PrintItems(ItemsOf(f)) + end, Items([g]), g, tag);
  }

  lemma LineStep(t: string, items: seq<Item>, g: Field, tag: Option<string>)
    requires ParseItems(t) == Some((items, (if tag.Some? then " " + tag.value else "") + "\n"))
    requires Group(items) == [g]
    ensures DecodeLine("\t" + t) == Some((g, tag))
  {
    var end := (if tag.Some? then " " + tag.value else "") + "\n";
    assert ("\t" + t)[1..] == t;
    if tag.Some? {
      assert end[1..|end| - 1] == tag.value;
    }
  }

  lemma LineItems(f: Field, end: string)
    requires WellFormedFields([f]) && Follow(end) && !Starts(COMMA, end)
    ensures ParseItems(PrintItems(ItemsOf(f)) + end) == Some((Items([Field(f.names, Normal(f.typ))]), end))
  {
    assert Items([f]) == ItemsOf(f);
    FieldsRecover([f]);
    ItemsRoundTrip(ItemsOf(f), end);
    ItemsOfNormalTypes([f]);
    assert NormalTypes([f]) == [Field(f.names, Normal(f.typ))];
  }
}
