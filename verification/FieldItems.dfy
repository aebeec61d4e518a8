/** A printed field list is a comma-separated sequence of items: a type alone, or a name and a
    type. This module relates the two views and says which field lists the items determine. */
module FieldItems {
  import opened GoTypes

  /** `Bare(Ident(a))` is either an unnamed field of type a or a name whose type comes later. */
  datatype Item = Bare(typ: Expr) | Named(name: string, typ: Expr)

  function NameItems(names: seq<string>, typ: Expr): (items: seq<Item>)
    requires |names| > 0
    ensures |items| == |names|
  {
    if |names| == 1 then [Named(names[0], typ)]
    else [Bare(Ident(names[0]))] + NameItems(names[1..], typ)
  }

  function ItemsOf(f: Field): (items: seq<Item>)
    ensures |items| > 0
  {
    if |f.names| == 0 then [Bare(f.typ)] else NameItems(f.names, f.typ)
  }

  function Items(fs: seq<Field>): seq<Item> {
    if |fs| == 0 then [] else ItemsOf(fs[0]) + Items(fs[1..])
  }

  /** One unnamed field per pending identifier. */
  function Unnamed(names: seq<string>): seq<Field> {
    if |names| == 0 then [] else [Field([], Ident(names[0]))] + Unnamed(names[1..])
  }

  /** Reads items back as fields: identifiers wait for a named item to close their field. */
  function GroupFrom(pending: seq<string>, items: seq<Item>): seq<Field>
    decreases |items|
  {
    if |items| == 0 then Unnamed(pending)
    else match items[0]
      case Named(name, typ) => [Field(pending + [name], typ)] + GroupFrom([], items[1..])
      case Bare(typ) =>
        if typ.Ident? then GroupFrom(pending + [typ.name], items[1..])
        else Unnamed(pending) + [Field([], typ)] + GroupFrom([], items[1..])
  }

  function Group(items: seq<Item>): seq<Field> {
    GroupFrom([], items)
  }

  function BareNames(names: seq<string>): (items: seq<Item>)
    ensures |items| == |names|
  {
    if |names| == 0 then [] else [Bare(Ident(names[0]))] + BareNames(names[1..])
  }

  // ----- the items of the grouping are the items again -----

  lemma {:induction false} ItemsAppend(a: seq<Field>, b: seq<Field>)
    ensures Items(a + b) == Items(a) + Items(b)
  {
    if |a| == 0 {
      assert a + b == b;
    } else {
      assert (a + b)[1..] == a[1..] + b;
      ItemsAppend(a[1..], b);
    }
  }

  lemma {:induction false} ItemsOfUnnamed(names: seq<string>)
    ensures Items(Unnamed(names)) == BareNames(names)
  {
    if |names| > 0 {
      assert Unnamed(names)[1..] == Unnamed(names[1..]);
      ItemsOfUnnamed(names[1..]);
    }
  }

  lemma {:induction false} BareNamesSnoc(names: seq<string>, name: string)
    ensures BareNames(names + [name]) == BareNames(names) + [Bare(Ident(name))]
  {
    if |names| > 0 {
      assert (names + [name])[1..] == names[1..] + [name];
      BareNamesSnoc(names[1..], name);
    } else {
      assert names + [name] == [name];
    }
  }

  lemma {:induction false} NameItemsSplit(names: seq<string>, name: string, typ: Expr)
    ensures NameItems(names + [name], typ) == BareNames(names) + [Named(name, typ)]
  {
    if |names| > 0 {
      assert (names + [name])[1..] == names[1..] + [name];
      NameItemsSplit(names[1..], name, typ);
    } else {
      assert names + [name] == [name];
    }
  }

  lemma ItemsOfClosed(pending: seq<string>, name: string, typ: Expr, fs: seq<Field>)
    ensures Items([Field(pending + [name], typ)] + fs) == BareNames(pending) + [Named(name, typ)] + Items(fs)
  {
    var all := [Field(pending + [name], typ)] + fs;
    assert all[1..] == fs;
    NameItemsSplit(pending, name, typ);
  }

  lemma ItemsOfFlushed(pending: seq<string>, typ: Expr, fs: seq<Field>)
    ensures Items(Unnamed(pending) + [Field([], typ)] + fs) == BareNames(pending) + [Bare(typ)] + Items(fs)
  {
    var one := [Field([], typ)];
    assert Items(one) == [Bare(typ)];
    ItemsOfUnnamed(pending);
    ItemsAppend(Unnamed(pending), one);
    ItemsAppend(Unnamed(pending) + one, fs);
  }

  lemma {:induction false} ItemsOfGroupFrom(pending: seq<string>, items: seq<Item>)
    ensures Items(GroupFrom(pending, items)) == BareNames(pending) + items
    decreases |items|
  {
    if |items| == 0 {
      ItemsOfUnnamed(pending);
    } else {
      var rest := items[1..];
      assert items == [items[0]] + rest;
      match items[0]
      case Named(name, typ) =>
        ItemsOfGroupFrom([], rest);
        ItemsOfClosed(pending, name, typ, GroupFrom([], rest));
      case Bare(typ) =>
        if typ.Ident? {
          ItemsOfGroupFrom(pending + [typ.name], rest);
          BareNamesSnoc(pending, typ.name);
        } else {
          ItemsOfGroupFrom([], rest);
          ItemsOfFlushed(pending, typ, GroupFrom([], rest));
        }
    }
  }

  /** Grouping loses no item: what it returns prints as the same items. */
  lemma ItemsOfGroup(items: seq<Item>)
    ensures Items(Group(items)) == items
  {
    ItemsOfGroupFrom([], items);
  }

  // ----- which field lists are groupings -----

  /** No unnamed identifier stands directly before a named field. Lists whose fields are all
      named, or all unnamed, are of this kind; Go's parser builds no others. */
  predicate Separable(fs: seq<Field>) {
    forall i :: 0 <= i && i + 1 < |fs| ==>
      !(|fs[i].names| == 0 && fs[i].typ.Ident? && |fs[i + 1].names| > 0)
  }

  predicate Uniform(fs: seq<Field>) {
    (forall i :: 0 <= i < |fs| ==> |fs[i].names| == 0)
    || (forall i :: 0 <= i < |fs| ==> |fs[i].names| > 0)
  }

  lemma UniformIsSeparable(fs: seq<Field>)
    requires Uniform(fs)
    ensures Separable(fs)
  {}

  lemma {:induction false} UnnamedSnoc(names: seq<string>, name: string)
    ensures Unnamed(names + [name]) == Unnamed(names) + [Field([], Ident(name))]
  {
    if |names| > 0 {
      assert (names + [name])[1..] == names[1..] + [name];
      UnnamedSnoc(names[1..], name);
    } else {
      assert names + [name] == [name];
    }
  }

  lemma {:induction false} GroupNames(pending: seq<string>, names: seq<string>, typ: Expr, items: seq<Item>)
    requires |names| > 0
    ensures GroupFrom(pending, NameItems(names, typ) + items)
         == [Field(pending + names, typ)] + GroupFrom([], items)
    decreases |names|
  {
    var all := NameItems(names, typ) + items;
    if |names| == 1 {
      assert all[1..] == items;
      assert pending + names == pending + [names[0]];
    } else {
      assert all[1..] == NameItems(names[1..], typ) + items;
      GroupNames(pending + [names[0]], names[1..], typ, items);
      assert pending + names == (pending + [names[0]]) + names[1..];
    }
  }

  lemma SeparableTail(fs: seq<Field>)
    requires |fs| > 0 && Separable(fs)
    ensures Separable(fs[1..])
  {
    var rest := fs[1..];
    forall i | 0 <= i && i + 1 < |rest|
      ensures !(|rest[i].names| == 0 && rest[i].typ.Ident? && |rest[i + 1].names| > 0)
    {
      assert rest[i] == fs[i + 1] && rest[i + 1] == fs[i + 1 + 1];
    }
  }

  lemma GroupFirst(pending: seq<string>, f: Field, rest: seq<Field>)
    requires |f.names| > 0 ==> pending == []
    ensures GroupFrom(pending, ItemsOf(f) + Items(rest)) ==
            if |f.names| > 0 then [f] + GroupFrom([], Items(rest))
            else if f.typ.Ident? then GroupFrom(pending + [f.typ.name], Items(rest))
            else Unnamed(pending) + [f] + GroupFrom([], Items(rest))
  {
    if |f.names| > 0 {
      GroupNames([], f.names, f.typ, Items(rest));
      assert [] + f.names == f.names;
    } else {
      assert (ItemsOf(f) + Items(rest))[1..] == Items(rest);
    }
  }

  lemma {:induction false} GroupOfItemsFrom(pending: seq<string>, fs: seq<Field>)
    requires Separable(fs)
    requires |pending| > 0 && |fs| > 0 ==> |fs[0].names| == 0
    ensures GroupFrom(pending, Items(fs)) == Unnamed(pending) + fs
    decreases |fs|
  {
    if |fs| > 0 {
      var f, rest := fs[0], fs[1..];
      assert fs == [f] + rest;
      SeparableTail(fs);
      GroupFirst(pending, f, rest);
      if |f.names| == 0 && f.typ.Ident? {
        assert |rest| > 0 ==> rest[0] == fs[0 + 1];
        GroupOfItemsFrom(pending + [f.typ.name], rest);
        UnnamedSnoc(pending, f.typ.name);
      } else {
        GroupOfItemsFrom([], rest);
      }
    }
  }

  /** Grouping never leaves an unnamed identifier before a named field. */
  lemma {:induction false} GroupIsSeparable(pending: seq<string>, items: seq<Item>)
    ensures Separable(GroupFrom(pending, items))
    decreases |items|
  {
    UnnamedFields(pending);
    if |items| > 0 {
      var rest := items[1..];
      match items[0]
      case Named(name, typ) =>
        GroupIsSeparable([], rest);
        var tail := GroupFrom([], rest);
        SeparableAppend([Field(pending + [name], typ)], tail);
      case Bare(typ) =>
        if typ.Ident? {
          GroupIsSeparable(pending + [typ.name], rest);
        } else {
          GroupIsSeparable([], rest);
          var tail := GroupFrom([], rest);
          SeparableAppend(Unnamed(pending) + [Field([], typ)], tail);
        }
    }
  }

  lemma {:induction false} UnnamedFields(names: seq<string>)
    ensures |Unnamed(names)| == |names|
    ensures forall i :: 0 <= i < |names| ==> |Unnamed(names)[i].names| == 0
  {
    if |names| > 0 {
      UnnamedFields(names[1..]);
    }
  }

  lemma SeparableAppend(a: seq<Field>, b: seq<Field>)
    requires |a| > 0 && Separable(a) && Separable(b)
    requires |a[|a| - 1].names| > 0 || !a[|a| - 1].typ.Ident?
    ensures Separable(a + b)
  {
    var c := a + b;
    forall i | 0 <= i && i + 1 < |c|
      ensures !(|c[i].names| == 0 && c[i].typ.Ident? && |c[i + 1].names| > 0)
    {
      if i >= |a| {
        var j := i - |a|;
        assert c[i] == b[j] && c[i + 1] == b[j + 1];
      }
    }
  }

  /** Exactly the separable lists come back from their items. */
  lemma GroupInverse(fs: seq<Field>)
    ensures Group(Items(fs)) == fs <==> Separable(fs)
  {
    GroupIsSeparable([], Items(fs));
    if Separable(fs) {
      GroupOfItemsFrom([], fs);
    }
  }
}
