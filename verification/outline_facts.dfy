/** Properties of the outline the structure visitor builds. */
module OutlineFacts {
  import opened Wrappers
  import opened SourceModel
  import opened Syntax
  import opened Outline
  import opened SeqUtil

  /* ----------------- use declarations ----------------- */

  /**
   * A simple `use` writes nothing exactly when its path has no segment, and
   * shows an `as` clause exactly when the name it binds is not the path's last segment.
   */
  lemma UseSimpleSpec(ident: Ident, path: Path)
    ensures UseSpec(ViewPathSimple(ident, path)).None? <==> |path.segments| == 0
    ensures UseSpec(ViewPathSimple(ident, path)) == Some(path.text + " as " + ident)
        <==> |path.segments| > 0 && path.segments[|path.segments| - 1] != ident
  {
    if |path.segments| > 0 && path.segments[|path.segments| - 1] == ident {
      assert |path.text + " as " + ident| > |path.text|;
    }
  }

  lemma {:induction false} PathListTextAppend(a: seq<PathListItem>, b: seq<PathListItem>)
    ensures PathListText(a + b) == PathListText(a) + PathListText(b)
    decreases |b|
  {
    if b == [] {
      assert a + b == a;
    } else {
      var b', last := b[..|b| - 1], b[|b| - 1];
      assert PathListText(a + b) == PathListText(a + b') + PathListItemText(last) by {
        assert (a + b)[..|a + b| - 1] == a + b';
        assert (a + b)[|a + b| - 1] == last;
      }
      PathListTextAppend(a, b');
      JoinRegroup(PathListText(a), PathListText(b'), PathListItemText(last));
    }
  }

  /** Each item of a list `use` is followed by `, `, the last one included. */
  lemma PathListTextTrailingSeparator(items: seq<PathListItem>)
    requires items != []
    ensures |PathListText(items)| >= 2
    ensures PathListText(items)[|PathListText(items)| - 2..] == ", "
  {
  }

  /** `use ::blah::foo as myfoo;` and `use blah;`, with the parser's printed paths. */
  lemma UseSimpleExamples()
    ensures UseSpec(ViewPathSimple("blah", Path("blah", ["blah"]))) == Some("blah")
    ensures UseSpec(ViewPathSimple("foo", Path("blah", ["blah"]))) == Some("blah as foo")
    ensures UseSpec(ViewPathSimple("myfoo", Path("::blah::foo", ["blah", "foo"])))
         == Some("::blah::foo as myfoo")
    ensures UseSpec(ViewPathGlob(Path("::blah::foo", ["blah", "foo"]))) == Some("::blah::foo::*")
  {
    assert "blah" != "foo" by { assert "blah"[0] != "foo"[0]; }
    assert "foo" != "myfoo" by { assert "foo"[0] != "myfoo"[0]; }
    assert "blah" + " as " + "foo" == "blah as foo";
    assert "::blah::foo" + " as " + "myfoo" == "::blah::foo as myfoo";
    assert "::blah::foo" + "::*" == "::blah::foo::*";
  }

  /** `use blah::foo:: { One as OtherOne, self as Two };` */
  lemma UseListExample()
    ensures UseSpec(ViewPathList(Path("blah::foo", ["blah", "foo"]),
                                 [PathListIdent("One", Some("OtherOne")), PathListMod(Some("Two"))]))
         == Some("blah::foo::{ One as OtherOne, self as Two, }")
  {
    var items := [PathListIdent("One", Some("OtherOne")), PathListMod(Some("Two"))];
    assert items[..1] == [PathListIdent("One", Some("OtherOne"))];
    assert PathListText(items[..1]) == "One as OtherOne, ";
    assert PathListText(items) == "One as OtherOne, " + "self as Two, ";
    assert "blah::foo" + "::{ " + ("One as OtherOne, " + "self as Two, ") + "}"
        == "blah::foo::{ One as OtherOne, self as Two, }";
  }

  /** A `use` yields at most one element: a `Use` leaf without description. */
  lemma UseElementsShape(vp: ViewPath, range: SourceRange)
    ensures |UseElements(vp, range)| == (if UseSpec(vp).Some? then 1 else 0)
    ensures forall e :: e in UseElements(vp, range) ==>
      e.kind == StructureElementKind.Use && e.typeDesc == "" && e.children == [] && e.sourcerange == range
  {
  }

  /* ----------------- signatures ----------------- */

  function ArgTextsLength(args: seq<Arg>): nat
  {
    if args == [] then 0 else ArgTextsLength(args[..|args| - 1]) + |ArgText(args[|args| - 1])|
  }

  /**
   * Every parameter after the first takes a two-character separator, whether or
   * not its text could be extracted.
   */
  lemma {:induction false} ArgsTextLength(args: seq<Arg>)
    requires args != []
    ensures |ArgsText(args)| == ArgTextsLength(args) + 2 * (|args| - 1)
    decreases |args|
  {
    if |args| == 1 {
      assert args[..0] == [];
    } else {
      ArgsTextLength(args[..|args| - 1]);
    }
  }

  lemma TypeDescExamples()
    ensures TypeDesc(FnDecl([], DefaultReturn)) == "()"
    ensures TypeDesc(FnDecl([Arg(Some("a"), Some("&str"))], ReturnTy(Some("u32")))) == "(&str) -> u32"
    ensures TypeDesc(FnDecl([Arg(Some("blah"), Some("Vec<u32>")), Arg(Some("x"), Some("&'v str"))],
                            ReturnTy(Some("u32"))))
         == "(Vec<u32>, &'v str) -> u32"
    ensures TypeDesc(FnDecl([Arg(Some("self"), Some("&self"))], DefaultReturn)) == "(self)"
    ensures TypeDesc(FnDecl([Arg(None, None), Arg(Some("p"), Some("u8"))], ReturnTy(None))) == "(, u8)"
  {
    var two := [Arg(Some("blah"), Some("Vec<u32>")), Arg(Some("x"), Some("&'v str"))];
    assert two[..1] == [Arg(Some("blah"), Some("Vec<u32>"))];
    var holes := [Arg(None, None), Arg(Some("p"), Some("u8"))];
    assert holes[..1] == [Arg(None, None)];
    assert "a" != "self" by { assert "a"[0] != "self"[0]; }
    assert "blah" != "self" by { assert "blah"[0] != "self"[0]; }
    assert "x" != "self" by { assert |"x"| != |"self"|; }
    assert "p" != "self" by { assert |"p"| != |"self"|; }
  }

  /* ----------------- the outline ----------------- */

  /** The outline of a sequence of items is the concatenation of theirs, in order. */
  lemma {:induction false} ItemsElementsAppend(a: seq<Item>, b: seq<Item>)
    ensures ItemsElements(a + b) == ItemsElements(a) + ItemsElements(b)
    decreases |b|
  {
    if b == [] {
      assert a + b == a;
    } else {
      var b' := b[..|b| - 1];
      assert (a + b)[..|a + b| - 1] == a + b';
      assert (a + b)[|a + b| - 1] == b[|b| - 1];
      ItemsElementsAppend(a, b');
    }
  }

  function NamedFieldCount(fields: seq<StructField>): nat
  {
    if fields == [] then 0
    else NamedFieldCount(fields[..|fields| - 1]) + (if fields[|fields| - 1].ident.Some? then 1 else 0)
  }

  /** The fields of a struct or variant become one `Var` leaf per named field. */
  lemma {:induction false} FieldsElementsAreVars(fields: seq<StructField>)
    ensures |FieldsElements(fields)| == NamedFieldCount(fields)
    ensures forall e :: e in FieldsElements(fields) ==> e.kind == Var && e.typeDesc == "" && e.children == []
    decreases |fields|
  {
    if fields != [] {
      FieldsElementsAreVars(fields[..|fields| - 1]);
    }
  }

  /** An enum has one `EnumVariant` element per variant, in declaration order. */
  lemma {:induction false} VariantsElementsShape(variants: seq<Variant>)
    ensures |VariantsElements(variants)| == |variants|
    ensures forall k :: 0 <= k < |variants| ==>
      VariantsElements(variants)[k].kind == EnumVariant &&
      VariantsElements(variants)[k].name == variants[k].name &&
      VariantsElements(variants)[k].sourcerange == variants[k].range &&
      VariantsElements(variants)[k].children == FieldsElements(variants[k].data.fields)
    decreases |variants|
  {
    if variants != [] {
      var prefix := variants[..|variants| - 1];
      VariantsElementsShape(prefix);
      forall k | 0 <= k < |variants| - 1
        ensures variants[k] == prefix[k]
      {
      }
    }
  }

  /** A struct item gets no element of its own: its fields' element, labelled `Struct`, stands for it. */
  lemma StructItemOutline(ident: Ident, range: SourceRange, data: VariantData)
    ensures ItemElements(Item(ident, range, ItemKind.Struct(data)))
         == [StructureElement(ident, StructureElementKind.Struct, range, "", FieldsElements(data.fields))]
  {
  }

  /** `mod myMod { static xx : u32 = 2; }` */
  lemma ModExample(modRange: SourceRange, varRange: SourceRange)
    ensures ItemElements(Item("myMod", modRange, ItemKind.Mod([Item("xx", varRange, Static(Some("u32")))])))
         == [StructureElement("myMod", StructureElementKind.Mod, modRange, "",
              [StructureElement("xx", Var, varRange, "u32", [])])]
  {
    var items := [Item("xx", varRange, Static(Some("u32")))];
    assert items[..0] == [];
    assert ItemsElements(items) == [StructureElement("xx", Var, varRange, "u32", [])];
  }

  /** `enum MyEnum { Alpha, Beta, }` */
  lemma EnumExample(r: SourceRange, ra: SourceRange, rb: SourceRange)
    ensures ItemElements(Item("MyEnum", r, ItemKind.Enum([Variant("Alpha", ra, VariantData([])),
                                                          Variant("Beta", rb, VariantData([]))])))
         == [StructureElement("MyEnum", StructureElementKind.Enum, r, "",
              [StructureElement("Alpha", EnumVariant, ra, "", []),
               StructureElement("Beta", EnumVariant, rb, "", [])])]
  {
    var vs := [Variant("Alpha", ra, VariantData([])), Variant("Beta", rb, VariantData([]))];
    var alpha := StructureElement("Alpha", EnumVariant, ra, "", []);
    assert VariantsElements(vs[..1]) == [alpha] by {
      assert vs[..1][..0] == [];
      assert VariantDataElement(VariantData([]), "Alpha", ra, false) == alpha;
    }
    var beta := StructureElement("Beta", EnumVariant, rb, "", []);
    assert VariantDataElement(VariantData([]), "Beta", rb, false) == beta;
    assert VariantsElements(vs) == [alpha, beta];
    assert WalkItemElements(Item("MyEnum", r, ItemKind.Enum(vs)), false) == [alpha, beta];
  }

  /** `struct MyStruct ( u32, blah<sdf> );` and `struct MyStruct { foo : u32, }` */
  lemma StructExamples(r: SourceRange, r1: SourceRange, r2: SourceRange)
    ensures ItemElements(Item("MyStruct", r, ItemKind.Struct(VariantData([StructField(None, r1), StructField(None, r2)]))))
         == [StructureElement("MyStruct", StructureElementKind.Struct, r, "", [])]
    ensures ItemElements(Item("MyStruct", r, ItemKind.Struct(VariantData([StructField(Some("foo"), r1)]))))
         == [StructureElement("MyStruct", StructureElementKind.Struct, r, "",
              [StructureElement("foo", Var, r1, "", [])])]
  {
    var tuple := [StructField(None, r1), StructField(None, r2)];
    assert FieldsElements(tuple[..1]) == [] by {
      assert tuple[..1][..0] == [];
    }
    assert FieldsElements(tuple) == [];
    var named := [StructField(Some("foo"), r1)];
    assert FieldsElements(named) == [StructureElement("foo", Var, r1, "", [])] by {
      assert named[..0] == [];
    }
  }

  /** `trait MyTrait : Foo { type N: fmt::Display; fn xxx(&self); const foo :u32 = 3; }` */
  lemma TraitExample(r: SourceRange, r1: SourceRange, r2: SourceRange, r3: SourceRange)
    ensures ItemElements(Item("MyTrait", r, ItemKind.Trait([
              TraitItem("N", r1, TraitType),
              TraitItem("xxx", r2, TraitMethod(FnDecl([Arg(Some("self"), Some("&self"))], DefaultReturn), Required)),
              TraitItem("foo", r3, TraitConst)])))
         == [StructureElement("MyTrait", StructureElementKind.Trait, r, "",
              [StructureElement("N", TypeAlias, r1, "", []),
               StructureElement("xxx", Function, r2, "(self)", []),
               StructureElement("foo", Var, r3, "", [])])]
  {
    var decl := FnDecl([Arg(Some("self"), Some("&self"))], DefaultReturn);
    var tis := [TraitItem("N", r1, TraitType), TraitItem("xxx", r2, TraitMethod(decl, Required)),
                TraitItem("foo", r3, TraitConst)];
    var n, x, f := StructureElement("N", TypeAlias, r1, "", []), StructureElement("xxx", Function, r2, "(self)", []),
                   StructureElement("foo", Var, r3, "", []);
    assert TypeDesc(decl) == "(self)" by {
      assert decl.inputs[..0] == [];
    }
    assert TraitItemsElements(tis[..1]) == [n] by {
      assert tis[..1][..0] == [] && tis[..1][0] == tis[0];
      assert WalkTraitItemElements(tis[0]) == [];
      assert TraitItemElements(tis[0]) == [n];
    }
    assert TraitItemsElements(tis[..2]) == [n, x] by {
      assert tis[..2][..1] == tis[..1];
      assert TraitItemElements(tis[1]) == [x];
    }
    assert TraitItemsElements(tis) == [n, x, f] by {
      assert tis[..2] == tis[..|tis| - 1];
      assert TraitItemElements(tis[2]) == [f];
    }
  }

  /**
   * `my_macro!(asf);` and `macro_rules! foo { ... }` give nothing. In `fn foo() { my_macro!(asf); }`
   * the walk hands back no item for the statement macro, so the body is the empty item list.
   */
  lemma MacroExamples(name: Ident, r: SourceRange)
    ensures ItemElements(Item(name, r, Mac)) == []
    ensures ItemElements(Item("foo", r, Fn(FnDecl([], DefaultReturn), [])))
         == [StructureElement("foo", Function, r, "()", [])]
  {
    assert TypeDesc(FnDecl([], DefaultReturn)) == "()";
  }

  /** `pub extern crate my_crate;` and `extern { fn ext(p : u32); static extVar: u8; }` */
  lemma ExternExamples(r: SourceRange, r1: SourceRange, r2: SourceRange)
    ensures ItemElements(Item("my_crate", r, ItemKind.ExternCrate))
         == [StructureElement("my_crate", StructureElementKind.ExternCrate, r, "", [])]
    ensures ItemElements(Item("", r, ForeignMod([ForeignItem("ext", r1, ForeignFn), ForeignItem("extVar", r2, ForeignStatic)])))
         == [StructureElement("", StructureElementKind.Mod, r, "",
              [StructureElement("ext", Function, r1, "", []),
               StructureElement("extVar", Var, r2, "", [])])]
  {
    var fis := [ForeignItem("ext", r1, ForeignFn), ForeignItem("extVar", r2, ForeignStatic)];
    assert ForeignItemsElements(fis[..1]) == [StructureElement("ext", Function, r1, "", [])] by {
      assert fis[..1][..0] == [];
    }
    assert ForeignItemsElements(fis) == [StructureElement("ext", Function, r1, "", []),
                                         StructureElement("extVar", Var, r2, "", [])];
  }

  /**
   * The shape every element of an outline has: kinds that stand for leaves
   * have no children, only variables and functions carry a description,
   * and structs and enum variants hold only variables.
   */
  predicate Shaped(e: StructureElement)
    decreases e
  {
    && (e.kind in {Var, StructureElementKind.Use, TypeAlias, StructureElementKind.ExternCrate} ==> e.children == [])
    && (e.kind != Var && e.kind != Function ==> e.typeDesc == "")
    && (e.kind == StructureElementKind.Struct || e.kind == EnumVariant ==>
         forall i :: 0 <= i < |e.children| ==> e.children[i].kind == Var)
    && forall i :: 0 <= i < |e.children| ==> Shaped(e.children[i])
  }

  predicate AllShaped(s: seq<StructureElement>)
  {
    forall i :: 0 <= i < |s| ==> Shaped(s[i])
  }

  lemma AllShapedConcat(a: seq<StructureElement>, b: seq<StructureElement>)
    requires AllShaped(a) && AllShaped(b)
    ensures AllShaped(a + b)
  {
    forall i | 0 <= i < |a + b|
      ensures Shaped((a + b)[i])
    {
      if i < |a| { assert (a + b)[i] == a[i]; } else { assert (a + b)[i] == b[i - |a|]; }
    }
  }

  lemma FieldsShaped(fields: seq<StructField>)
    ensures AllShaped(FieldsElements(fields))
  {
    FieldsElementsAreVars(fields);
    var r := FieldsElements(fields);
    forall i | 0 <= i < |r|
      ensures Shaped(r[i])
    {
      assert r[i] in r;
    }
  }

  lemma VariantDataShaped(data: VariantData, name: Ident, range: SourceRange, parentIsStruct: bool)
    ensures Shaped(VariantDataElement(data, name, range, parentIsStruct))
  {
    FieldsShaped(data.fields);
    FieldsElementsAreVars(data.fields);
    var children := FieldsElements(data.fields);
    forall i | 0 <= i < |children|
      ensures children[i].kind == Var
    {
      assert children[i] in children;
    }
  }

  lemma {:induction false} VariantsShaped(variants: seq<Variant>)
    ensures AllShaped(VariantsElements(variants))
    decreases |variants|
  {
    if variants != [] {
      var v := variants[|variants| - 1];
      VariantsShaped(variants[..|variants| - 1]);
      VariantDataShaped(v.data, v.name, v.range, false);
      AllShapedConcat(VariantsElements(variants[..|variants| - 1]), [VariantDataElement(v.data, v.name, v.range, false)]);
    }
  }

  lemma {:induction false} ForeignItemsShaped(fis: seq<ForeignItem>)
    ensures AllShaped(ForeignItemsElements(fis))
    decreases |fis|
  {
    if fis != [] {
      ForeignItemsShaped(fis[..|fis| - 1]);
      AllShapedConcat(ForeignItemsElements(fis[..|fis| - 1]), [ForeignItemElement(fis[|fis| - 1])]);
    }
  }

  /** Every element the visitor builds for a crate's items has the outline's shape. */
  lemma {:induction false} ItemsShaped(items: seq<Item>)
    ensures AllShaped(ItemsElements(items))
    decreases items, 0
  {
    if items != [] {
      ItemsShaped(items[..|items| - 1]);
      ItemShaped(items[|items| - 1]);
      AllShapedConcat(ItemsElements(items[..|items| - 1]), ItemElements(items[|items| - 1]));
    }
  }

  lemma {:induction false} ItemShaped(item: Item)
    ensures AllShaped(ItemElements(item))
    decreases item, 1
  {
    WalkItemShaped(item, false);
    match item.node {
      case Use(vp) =>
        UseElementsShape(vp, item.range);
        var r := UseElements(vp, item.range);
        forall i | 0 <= i < |r|
          ensures Shaped(r[i])
        {
          assert r[i] in r;
        }
      case Fn(decl, body) =>
        FnShaped(ItemFn(item.ident), decl, body, item.range);
      case Struct(_) =>
        WalkItemShaped(item, true);
      case _ =>
    }
  }

  lemma {:induction false} WalkItemShaped(item: Item, parentIsStruct: bool)
    ensures AllShaped(WalkItemElements(item, parentIsStruct))
    decreases item, 0
  {
    match item.node {
      case Fn(decl, body) => FnShaped(ItemFn(item.ident), decl, body, item.range);
      case Mod(items) => ItemsShaped(items);
      case ForeignMod(fis) => ForeignItemsShaped(fis);
      case Enum(variants) => VariantsShaped(variants);
      case Impl(iis) => ImplItemsShaped(iis);
      case Struct(data) => VariantDataShaped(data, item.ident, item.range, parentIsStruct);
      case Trait(tis) => TraitItemsShaped(tis);
      case _ =>
    }
  }

  lemma {:induction false} FnShaped(fk: FnKind, decl: FnDecl, body: seq<Item>, range: SourceRange)
    ensures AllShaped(FnElements(fk, decl, body, range))
    decreases body, 1
  {
    ItemsShaped(body);
  }

  lemma {:induction false} TraitItemShaped(ti: TraitItem)
    ensures AllShaped(TraitItemElements(ti))
    decreases ti, 1
  {
    WalkTraitItemShaped(ti);
  }

  lemma {:induction false} WalkTraitItemShaped(ti: TraitItem)
    ensures AllShaped(WalkTraitItemElements(ti))
    decreases ti, 0
  {
    match ti.node {
      case TraitMethod(decl, Provided(body)) => FnShaped(Method(ti.ident), decl, body, ti.range);
      case _ =>
    }
  }

  lemma {:induction false} TraitItemsShaped(tis: seq<TraitItem>)
    ensures AllShaped(TraitItemsElements(tis))
    decreases tis
  {
    if tis != [] {
      TraitItemsShaped(tis[..|tis| - 1]);
      TraitItemShaped(tis[|tis| - 1]);
      AllShapedConcat(TraitItemsElements(tis[..|tis| - 1]), TraitItemElements(tis[|tis| - 1]));
    }
  }

  lemma {:induction false} ImplItemShaped(ii: ImplItem)
    ensures AllShaped(ImplItemElements(ii))
    decreases ii, 1
  {
    WalkImplItemShaped(ii);
  }

  lemma {:induction false} WalkImplItemShaped(ii: ImplItem)
    ensures AllShaped(WalkImplItemElements(ii))
    decreases ii, 0
  {
    match ii.node {
      case ImplMethod(decl, body) => FnShaped(Method(ii.ident), decl, body, ii.range);
      case _ =>
    }
  }

  lemma {:induction false} ImplItemsShaped(iis: seq<ImplItem>)
    ensures AllShaped(ImplItemsElements(iis))
    decreases iis
  {
    if iis != [] {
      ImplItemsShaped(iis[..|iis| - 1]);
      ImplItemShaped(iis[|iis| - 1]);
      AllShapedConcat(ImplItemsElements(iis[..|iis| - 1]), ImplItemElements(iis[|iis| - 1]));
    }
  }
}
