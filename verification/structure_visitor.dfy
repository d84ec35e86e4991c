/**
 * The structure visitor: a depth-first walk over the syntax tree that keeps
 * the list of elements built so far and a one-shot flag telling the next
 * variant data it belongs to a struct.
 *
 * The parser's tree walker hands nodes back to the visitor through closures;
 * here a closure is a `Walk` value, and `RunWalk` performs what that closure
 * makes the walker do.
 */
module StructureVisiting {
  import opened Wrappers
  import opened SourceModel
  import opened Syntax
  import opened Outline
  import opened SeqUtil

  /** The closures `writeElement` receives, one per walk the visitor asks for. */
  datatype Walk =
    | NoWalk                                  // the no-op closure
    | ItemWalk(item: Item)                    // `walk_item`
    | StructDefWalk(data: VariantData)        // `walk_struct_def`
    | StructFieldWalk(field: StructField)     // `walk_struct_field`
    | TraitItemWalk(traitItem: TraitItem)     // `walk_trait_item`
    | ImplItemWalk(implItem: ImplItem)        // `walk_impl_item`
    | FnWalk(body: seq<Item>)                 // `walk_fn`: only the body's items reach the visitor
    | ForeignItemWalk(foreignItem: ForeignItem)  // `walk_foreign_item`

  /** The children a walk produces when the flag is clear. */
  function WalkElements(walk: Walk): seq<StructureElement>
  {
    match walk
    case NoWalk => []
    case ItemWalk(item) => WalkItemElements(item, false)
    case StructDefWalk(data) => FieldsElements(data.fields)
    case StructFieldWalk(_) => []
    case TraitItemWalk(ti) => WalkTraitItemElements(ti)
    case ImplItemWalk(ii) => WalkImplItemElements(ii)
    case FnWalk(body) => ItemsElements(body)
    case ForeignItemWalk(_) => []
  }

  /** A bound on the work a walk can do, for the termination of the visitor. */
  function WalkSize(walk: Walk): nat
  {
    match walk
    case NoWalk => 0
    case ItemWalk(item) => ItemSize(item)
    case StructDefWalk(data) => DataSize(data)
    case StructFieldWalk(_) => 1
    case TraitItemWalk(ti) => TraitItemSize(ti)
    case ImplItemWalk(ii) => ImplItemSize(ii)
    case FnWalk(body) => 1 + ItemsSize(body)
    case ForeignItemWalk(_) => 1
  }

  /** The result of `writeElement_do`. */
  datatype Void = Ok | Err(error: string)

  /** `get_type_desc_from_fndecl`. */
  method GetTypeDesc(decl: FnDecl) returns (typeDesc: string)
    ensures typeDesc == TypeDesc(decl)
  {
    typeDesc := "";
    typeDesc := typeDesc + "(";
    var needsSep := false;
    for i := 0 to |decl.inputs|
      invariant needsSep <==> i > 0
      invariant typeDesc == "(" + ArgsText(decl.inputs[..i])
    {
      var arg := decl.inputs[i];
      assert decl.inputs[..i + 1][..i] == decl.inputs[..i];
      if needsSep {
        typeDesc := typeDesc + ", ";
      }
      needsSep := true;
      if arg.patSnippet == Some("self") {
        typeDesc := typeDesc + "self";
        continue;
      }
      if arg.tySnippet.Some? {
        typeDesc := typeDesc + arg.tySnippet.value;
      }
    }
    assert decl.inputs[..|decl.inputs|] == decl.inputs;
    typeDesc := typeDesc + ")";
    if decl.output.ReturnTy? && decl.output.snippet.Some? {
      typeDesc := typeDesc + " -> " + decl.output.snippet.value;
    }
  }

  /** The loop of `write_ItemUse` over the items of a list `use`. */
  method AppendPathList(useSpec: string, items: seq<PathListItem>) returns (r: string)
    ensures r == useSpec + PathListText(items)
  {
    r := useSpec;
    PrefixEnds(items);
    for i := 0 to |items|
      invariant r == useSpec + PathListText(items[..i])
    {
      PrefixOfPrefix(items, i);
      ghost var start := r;
      var rename: Option<Ident>;
      match items[i] {
        case PathListIdent(name, rn) =>
          r := r + name;
          rename := rn;
        case PathListMod(rn) =>
          r := r + "self";
          rename := rn;
      }
      if rename.Some? {
        r := r + " as ";
        r := r + rename.value;
      }
      r := r + ", ";
      PathListItemPieces(start, items[i]);
      JoinRegroup(useSpec, PathListText(items[..i]), PathListItemText(items[i]));
    }
  }

  /** The appends of one pass of the loop in `AppendPathList` add the item's text. */
  lemma PathListItemPieces(start: string, item: PathListItem)
    ensures var name := if item.PathListIdent? then item.name else "self";
      && (item.rename.Some? ==> start + name + " as " + item.rename.value + ", " == start + PathListItemText(item))
      && (item.rename.None? ==> start + name + ", " == start + PathListItemText(item))
  {
    var name := if item.PathListIdent? then item.name else "self";
    if item.rename.Some? {
      assert PathListItemText(item) == name + (" as " + item.rename.value) + ", ";
    } else {
      assert PathListItemText(item) == name + "" + ", ";
    }
  }

  class StructureVisitor {
    var parentIsStruct: bool
    var elements: seq<StructureElement>

    constructor ()
      ensures !parentIsStruct && elements == []
    {
      parentIsStruct := false;
      elements := [];
    }

    /**
     * `writeElement_do`: the walk runs against an empty list, whose contents
     * become the children of one new element appended after the old siblings.
     */
    method WriteElementDo(ident: Ident, kind: StructureElementKind, range: SourceRange, typeDesc: string, walk: Walk)
      returns (r: Void)
      requires !parentIsStruct
      modifies this
      ensures !parentIsStruct
      ensures elements == old(elements) + [StructureElement(ident, kind, range, typeDesc, WalkElements(walk))]
      ensures r == Ok
      decreases WalkSize(walk), 4
    {
      var siblings := [];
      elements, siblings := siblings, elements;
      RunWalk(walk);
      elements, siblings := siblings, elements;
      var children := siblings;
      assert children == [] + WalkElements(walk) == WalkElements(walk);
      var element := StructureElement(ident, kind, range, typeDesc, children);
      elements := elements + [element];
      r := Ok;
    }

    /** `writeElement_handled`, and through it `writeElement` and `writeElement_TODO`. */
    method WriteElement(ident: Ident, kind: StructureElementKind, range: SourceRange, typeDesc: string, walk: Walk)
      requires !parentIsStruct
      modifies this
      ensures !parentIsStruct
      ensures elements == old(elements) + [StructureElement(ident, kind, range, typeDesc, WalkElements(walk))]
      decreases WalkSize(walk), 5
    {
      var r := WriteElementDo(ident, kind, range, typeDesc, walk);
      match r {
        case Ok =>
        case Err(_) =>
      }
    }

    /** Performs the walk a closure asks for. */
    method RunWalk(walk: Walk)
      requires !parentIsStruct
      modifies this
      ensures !parentIsStruct
      ensures elements == old(elements) + WalkElements(walk)
      decreases WalkSize(walk), 3
    {
      match walk {
        case NoWalk =>
        case ItemWalk(item) => WalkItem(item);
        case StructDefWalk(data) => WalkStructDef(data);
        case StructFieldWalk(_) =>
        case TraitItemWalk(ti) => WalkTraitItem(ti);
        case ImplItemWalk(ii) => WalkImplItem(ii);
        case FnWalk(body) => WalkFn(body);
        case ForeignItemWalk(_) =>
      }
    }

    /** `write_ItemUse`: rebuilds the declaration's text; a simple path without segments writes nothing. */
    method WriteItemUse(vp: ViewPath, range: SourceRange)
      requires !parentIsStruct
      modifies this
      ensures !parentIsStruct
      ensures elements == old(elements) + UseElements(vp, range)
      decreases 0, 6
    {
      var useSpec := "";
      match vp {
        case ViewPathSimple(ident, path) =>
          useSpec := useSpec + path.text;
          assert useSpec == path.text;
          if |path.segments| == 0 {
            return;
          }
          var lastSegment := path.segments[|path.segments| - 1];
          if lastSegment != ident {
            useSpec := useSpec + " as ";
            useSpec := useSpec + ident;
          }
        case ViewPathGlob(path) =>
          useSpec := useSpec + path.text;
          assert useSpec == path.text;
          useSpec := useSpec + "::*";
        case ViewPathList(path, items) =>
          useSpec := useSpec + path.text;
          assert useSpec == path.text;
          useSpec := useSpec + "::{ ";
          useSpec := AppendPathList(useSpec, items);
          useSpec := useSpec + "}";
      }
      assert UseSpec(vp) == Some(useSpec);
      WriteElement(useSpec, StructureElementKind.Use, range, "", NoWalk);
    }

    /** `write_function_element`: a function element described by its signature. */
    method WriteFunctionElement(ident: Ident, range: SourceRange, decl: FnDecl, walk: Walk)
      requires !parentIsStruct
      modifies this
      ensures !parentIsStruct
      ensures elements == old(elements) + [StructureElement(ident, Function, range, TypeDesc(decl), WalkElements(walk))]
      decreases WalkSize(walk), 6
    {
      var typeDesc := GetTypeDesc(decl);
      WriteElement(ident, Function, range, typeDesc, walk);
    }

    /** `visit_item`: classifies one item. */
    method VisitItem(item: Item)
      requires !parentIsStruct
      modifies this
      ensures !parentIsStruct
      ensures elements == old(elements) + ItemElements(item)
      decreases ItemSize(item), 7
    {
      var kind: StructureElementKind;
      var typeDesc := "";
      match item.node {
        case ExternCrate =>
          kind := StructureElementKind.ExternCrate;
        case Use(vp) =>
          WriteItemUse(vp, item.range);
          return;
        case Static(ty) =>
          if ty.Some? {
            typeDesc := typeDesc + ty.value;
          }
          assert typeDesc == SnippetText(ty);
          WriteElement(item.ident, Var, item.range, typeDesc, NoWalk);
          return;
        case Const(ty) =>
          if ty.Some? {
            typeDesc := typeDesc + ty.value;
          }
          assert typeDesc == SnippetText(ty);
          WriteElement(item.ident, Var, item.range, typeDesc, NoWalk);
          return;
        case Fn(decl, body) =>
          assert ItemSize(item) == 2 + ItemsSize(body);
          VisitFn(ItemFn(item.ident), decl, body, item.range);
          return;
        case Mod(_) =>
          kind := StructureElementKind.Mod;
        case ForeignMod(_) =>
          kind := StructureElementKind.Mod;
        case Ty =>
          kind := TypeAlias;
        case Enum(_) =>
          kind := StructureElementKind.Enum;
        case DefaultImpl =>
          kind := StructureElementKind.Impl;
        case Impl(_) =>
          kind := StructureElementKind.Impl;
        case Struct(_) =>
          parentIsStruct := true;
          WalkItem(item);
          return;
        case Trait(_) =>
          kind := StructureElementKind.Trait;
        case Mac =>
          return;
      }
      WriteElement(item.ident, kind, item.range, typeDesc, ItemWalk(item));
    }

    /** `walk_item`, as it calls back into the visitor. */
    method WalkItem(item: Item)
      requires parentIsStruct ==> item.node.Struct?
      modifies this
      ensures !parentIsStruct
      ensures elements == old(elements) + WalkItemElements(item, old(parentIsStruct))
      decreases ItemSize(item), 2
    {
      match item.node {
        case Fn(decl, body) =>
          assert ItemSize(item) == 2 + ItemsSize(body);
          VisitFn(ItemFn(item.ident), decl, body, item.range);
        case Mod(items) =>
          assert ItemSize(item) == 2 + ItemsSize(items);
          VisitItems(items);
        case ForeignMod(fis) =>
          assert ItemSize(item) == 2 + |fis|;
          VisitForeignItems(fis);
        case Enum(variants) =>
          assert ItemSize(item) == 2 + VariantsSize(variants);
          VisitVariants(variants);
        case Impl(iis) =>
          assert ItemSize(item) == 2 + ImplItemsSize(iis);
          VisitImplItems(iis);
        case Struct(data) =>
          assert ItemSize(item) == 2 + DataSize(data);
          VisitVariantData(data, item.ident, item.range);
        case Trait(tis) =>
          assert ItemSize(item) == 2 + TraitItemsSize(tis);
          VisitTraitItems(tis);
        case _ =>
      }
    }

    /** `visit_mod` and the walk of a block: each item in order. */
    method VisitItems(items: seq<Item>)
      requires !parentIsStruct
      modifies this
      ensures !parentIsStruct
      ensures elements == old(elements) + ItemsElements(items)
      decreases ItemsSize(items), 8
    {
      for i := 0 to |items|
        invariant !parentIsStruct
        invariant elements == old(elements) + ItemsElements(items[..i])
      {
        assert items[..i + 1][..i] == items[..i];
        ItemsSizeBound(items, i);
        VisitItem(items[i]);
      }
      assert items[..|items|] == items;
    }

    /** `visit_variant_data`: reads and clears the one-shot flag. */
    method VisitVariantData(data: VariantData, name: Ident, range: SourceRange)
      modifies this
      ensures !parentIsStruct
      ensures elements == old(elements) + [VariantDataElement(data, name, range, old(parentIsStruct))]
      decreases DataSize(data), 7
    {
      var kind := EnumVariant;
      if parentIsStruct {
        kind := StructureElementKind.Struct;
        parentIsStruct := false;
      }
      WriteElement(name, kind, range, "", StructDefWalk(data));
    }

    /** `walk_enum_def`: each variant's data, never a struct's. */
    method VisitVariants(variants: seq<Variant>)
      requires !parentIsStruct
      modifies this
      ensures !parentIsStruct
      ensures elements == old(elements) + VariantsElements(variants)
      decreases VariantsSize(variants), 8
    {
      for i := 0 to |variants|
        invariant !parentIsStruct
        invariant elements == old(elements) + VariantsElements(variants[..i])
      {
        assert variants[..i + 1][..i] == variants[..i];
        VariantsSizeBound(variants, i);
        var v := variants[i];
        VisitVariantData(v.data, v.name, v.range);
      }
      assert variants[..|variants|] == variants;
    }

    /** `walk_struct_def`: each field in order. */
    method WalkStructDef(data: VariantData)
      requires !parentIsStruct
      modifies this
      ensures !parentIsStruct
      ensures elements == old(elements) + FieldsElements(data.fields)
      decreases DataSize(data), 2
    {
      for i := 0 to |data.fields|
        invariant !parentIsStruct
        invariant elements == old(elements) + FieldsElements(data.fields[..i])
      {
        assert data.fields[..i + 1][..i] == data.fields[..i];
        VisitStructField(data.fields[i]);
      }
      assert data.fields[..|data.fields|] == data.fields;
    }

    /** `visit_struct_field`: only a named field is written. */
    method VisitStructField(field: StructField)
      requires !parentIsStruct
      modifies this
      ensures !parentIsStruct
      ensures elements == old(elements) + FieldElements(field)
      decreases 1, 7
    {
      if field.ident.Some? {
        WriteElement(field.ident.value, Var, field.range, "", StructFieldWalk(field));
      }
    }

    /** `visit_trait_item`. */
    method VisitTraitItem(ti: TraitItem)
      requires !parentIsStruct
      modifies this
      ensures !parentIsStruct
      ensures elements == old(elements) + TraitItemElements(ti)
      decreases TraitItemSize(ti), 7
    {
      var kind: StructureElementKind;
      match ti.node {
        case TraitConst =>
          kind := Var;
        case TraitMethod(decl, _) =>
          WriteFunctionElement(ti.ident, ti.range, decl, TraitItemWalk(ti));
          return;
        case TraitType =>
          kind := TypeAlias;
      }
      WriteElement(ti.ident, kind, ti.range, "", TraitItemWalk(ti));
    }

    /** `walk_trait_item`: a provided body is visited as a method. */
    method WalkTraitItem(ti: TraitItem)
      requires !parentIsStruct
      modifies this
      ensures !parentIsStruct
      ensures elements == old(elements) + WalkTraitItemElements(ti)
      decreases TraitItemSize(ti), 2
    {
      match ti.node {
        case TraitMethod(decl, Provided(body)) => VisitFn(Method(ti.ident), decl, body, ti.range);
        case _ =>
      }
    }

    method VisitTraitItems(tis: seq<TraitItem>)
      requires !parentIsStruct
      modifies this
      ensures !parentIsStruct
      ensures elements == old(elements) + TraitItemsElements(tis)
      decreases TraitItemsSize(tis), 8
    {
      for i := 0 to |tis|
        invariant !parentIsStruct
        invariant elements == old(elements) + TraitItemsElements(tis[..i])
      {
        assert tis[..i + 1][..i] == tis[..i];
        TraitItemsSizeBound(tis, i);
        VisitTraitItem(tis[i]);
      }
      assert tis[..|tis|] == tis;
    }

    /** `visit_impl_item`: methods and macros get no element of their own. */
    method VisitImplItem(ii: ImplItem)
      requires !parentIsStruct
      modifies this
      ensures !parentIsStruct
      ensures elements == old(elements) + ImplItemElements(ii)
      decreases ImplItemSize(ii), 7
    {
      var kind: StructureElementKind;
      match ii.node {
        case ImplConst =>
          kind := Var;
        case ImplType =>
          kind := TypeAlias;
        case _ =>
          WalkImplItem(ii);
          return;
      }
      WriteElement(ii.ident, kind, ii.range, "", ImplItemWalk(ii));
    }

    /** `walk_impl_item`: a method is visited as a function. */
    method WalkImplItem(ii: ImplItem)
      requires !parentIsStruct
      modifies this
      ensures !parentIsStruct
      ensures elements == old(elements) + WalkImplItemElements(ii)
      decreases ImplItemSize(ii), 2
    {
      match ii.node {
        case ImplMethod(decl, body) => VisitFn(Method(ii.ident), decl, body, ii.range);
        case _ =>
      }
    }

    method VisitImplItems(iis: seq<ImplItem>)
      requires !parentIsStruct
      modifies this
      ensures !parentIsStruct
      ensures elements == old(elements) + ImplItemsElements(iis)
      decreases ImplItemsSize(iis), 8
    {
      for i := 0 to |iis|
        invariant !parentIsStruct
        invariant elements == old(elements) + ImplItemsElements(iis[..i])
      {
        assert iis[..i + 1][..i] == iis[..i];
        ImplItemsSizeBound(iis, i);
        VisitImplItem(iis[i]);
      }
      assert iis[..|iis|] == iis;
    }

    /** `visit_fn`: closures are skipped. */
    method VisitFn(fk: FnKind, decl: FnDecl, body: seq<Item>, range: SourceRange)
      requires !parentIsStruct
      modifies this
      ensures !parentIsStruct
      ensures elements == old(elements) + FnElements(fk, decl, body, range)
      decreases 1 + ItemsSize(body), 7
    {
      var ident: Ident;
      match fk {
        case Method(id) => ident := id;
        case ItemFn(id) => ident := id;
        case Closure => return;
      }
      WriteFunctionElement(ident, range, decl, FnWalk(body));
    }

    /** `walk_fn`: the declarations of the body. */
    method WalkFn(body: seq<Item>)
      requires !parentIsStruct
      modifies this
      ensures !parentIsStruct
      ensures elements == old(elements) + ItemsElements(body)
      decreases 1 + ItemsSize(body), 2
    {
      VisitItems(body);
    }

    /** `visit_foreign_item`. */
    method VisitForeignItem(fi: ForeignItem)
      requires !parentIsStruct
      modifies this
      ensures !parentIsStruct
      ensures elements == old(elements) + [ForeignItemElement(fi)]
      decreases 1, 7
    {
      var kind: StructureElementKind;
      match fi.node {
        case ForeignFn => kind := Function;
        case ForeignStatic => kind := Var;
      }
      WriteElement(fi.ident, kind, fi.range, "", ForeignItemWalk(fi));
    }

    method VisitForeignItems(fis: seq<ForeignItem>)
      requires !parentIsStruct
      modifies this
      ensures !parentIsStruct
      ensures elements == old(elements) + ForeignItemsElements(fis)
      decreases |fis|, 8
    {
      for i := 0 to |fis|
        invariant !parentIsStruct
        invariant elements == old(elements) + ForeignItemsElements(fis[..i])
      {
        assert fis[..i + 1][..i] == fis[..i];
        VisitForeignItem(fis[i]);
      }
      assert fis[..|fis|] == fis;
    }
  }
}
