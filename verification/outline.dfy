/**
 * What the structure visitor produces, as functions of the syntax tree.
 *
 * One function per visitor entry point: `ItemElements` is what `visit_item`
 * appends to the element list, `WalkItemElements` what the parser's
 * `walk_item` makes the visitor append, and so on. The imperative visitor
 * is proved to append exactly these.
 */
module Outline {
  import opened Wrappers
  import opened SourceModel
  import opened Syntax

  /* ----------------- signatures ----------------- */

  function SnippetText(snippet: Option<string>): string
  {
    match snippet
    case Some(text) => text
    case None => ""
  }

  /** How one parameter shows in a signature: `self` for a receiver, else its type's snippet. */
  function ArgText(arg: Arg): string
  {
    if arg.patSnippet == Some("self") then "self" else SnippetText(arg.tySnippet)
  }

  /** The parameters' texts separated by `, `. */
  function ArgsText(args: seq<Arg>): string
  {
    if |args| == 0 then ""
    else if |args| == 1 then ArgText(args[0])
    else ArgsText(args[..|args| - 1]) + ", " + ArgText(args[|args| - 1])
  }

  function RetText(output: FunctionRetTy): string
  {
    match output
    case ReturnTy(Some(text)) => " -> " + text
    case _ => ""
  }

  /** The signature shown as a function element's type description. */
  function TypeDesc(decl: FnDecl): string
  {
    "(" + ArgsText(decl.inputs) + ")" + RetText(decl.output)
  }

  /* ----------------- use declarations ----------------- */

  function PathListItemText(item: PathListItem): string
  {
    var (name, rename) := match item
      case PathListIdent(name, rename) => (name, rename)
      case PathListMod(rename) => ("self", rename);
    name + (match rename case Some(r) => " as " + r case None => "") + ", "
  }

  function PathListText(items: seq<PathListItem>): string
  {
    if items == [] then ""
    else PathListText(items[..|items| - 1]) + PathListItemText(items[|items| - 1])
  }

  /** The text of a `use` element, or `None` when no element is written. */
  function UseSpec(vp: ViewPath): Option<string>
  {
    match vp
    case ViewPathSimple(ident, path) =>
      if |path.segments| == 0 then None
      else if path.segments[|path.segments| - 1] != ident then Some(path.text + " as " + ident)
      else Some(path.text)
    case ViewPathGlob(path) => Some(path.text + "::*")
    case ViewPathList(path, items) => Some(path.text + "::{ " + PathListText(items) + "}")
  }

  function UseElements(vp: ViewPath, range: SourceRange): seq<StructureElement>
  {
    match UseSpec(vp)
    case None => []
    case Some(text) => [StructureElement(text, StructureElementKind.Use, range, "", [])]
  }

  /* ----------------- the outline of a syntax tree ----------------- */

  /** What `visit_item` appends. */
  function ItemElements(item: Item): seq<StructureElement>
    decreases item, 1
  {
    var walked := WalkItemElements(item, false);
    match item.node
    case ExternCrate => [StructureElement(item.ident, StructureElementKind.ExternCrate, item.range, "", walked)]
    case Use(vp) => UseElements(vp, item.range)
    case Static(ty) => [StructureElement(item.ident, Var, item.range, SnippetText(ty), [])]
    case Const(ty) => [StructureElement(item.ident, Var, item.range, SnippetText(ty), [])]
    case Fn(decl, body) => FnElements(ItemFn(item.ident), decl, body, item.range)
    case Mod(_) => [StructureElement(item.ident, StructureElementKind.Mod, item.range, "", walked)]
    case ForeignMod(_) => [StructureElement(item.ident, StructureElementKind.Mod, item.range, "", walked)]
    case Ty => [StructureElement(item.ident, TypeAlias, item.range, "", walked)]
    case Enum(_) => [StructureElement(item.ident, StructureElementKind.Enum, item.range, "", walked)]
    case DefaultImpl => [StructureElement(item.ident, StructureElementKind.Impl, item.range, "", walked)]
    case Impl(_) => [StructureElement(item.ident, StructureElementKind.Impl, item.range, "", walked)]
    case Struct(_) => WalkItemElements(item, true)
    case Trait(_) => [StructureElement(item.ident, StructureElementKind.Trait, item.range, "", walked)]
    case Mac => []
  }

  /**
   * What the visitor appends while the parser walks into `item`; `parentIsStruct`
   * is the visitor's flag at the start of the walk.
   */
  function WalkItemElements(item: Item, parentIsStruct: bool): seq<StructureElement>
    decreases item, 0
  {
    match item.node
    case Fn(decl, body) => FnElements(ItemFn(item.ident), decl, body, item.range)
    case Mod(items) => ItemsElements(items)
    case ForeignMod(foreignItems) => ForeignItemsElements(foreignItems)
    case Enum(variants) => VariantsElements(variants)
    case Impl(implItems) => ImplItemsElements(implItems)
    case Struct(data) => [VariantDataElement(data, item.ident, item.range, parentIsStruct)]
    case Trait(traitItems) => TraitItemsElements(traitItems)
    case _ => []
  }

  /** `visit_mod`: the items of a module, in order. */
  function ItemsElements(items: seq<Item>): seq<StructureElement>
    decreases items, 0
  {
    if items == [] then []
    else ItemsElements(items[..|items| - 1]) + ItemElements(items[|items| - 1])
  }

  /** `visit_fn`: a function element whose children are the items declared in its body. */
  function FnElements(fk: FnKind, decl: FnDecl, body: seq<Item>, range: SourceRange): seq<StructureElement>
    decreases body, 1
  {
    match fk
    case Closure => []
    case ItemFn(ident) => [StructureElement(ident, Function, range, TypeDesc(decl), ItemsElements(body))]
    case Method(ident) => [StructureElement(ident, Function, range, TypeDesc(decl), ItemsElements(body))]
  }

  /** `visit_variant_data`: a struct when the flag is set, an enum variant otherwise. */
  function VariantDataElement(data: VariantData, name: Ident, range: SourceRange, parentIsStruct: bool): StructureElement
  {
    var kind := if parentIsStruct then StructureElementKind.Struct else EnumVariant;
    StructureElement(name, kind, range, "", FieldsElements(data.fields))
  }

  /** `visit_struct_field`: a named field is a `Var` leaf, an unnamed one is skipped. */
  function FieldElements(field: StructField): seq<StructureElement>
  {
    match field.ident
    case Some(name) => [StructureElement(name, Var, field.range, "", [])]
    case None => []
  }

  function FieldsElements(fields: seq<StructField>): seq<StructureElement>
  {
    if fields == [] then []
    else FieldsElements(fields[..|fields| - 1]) + FieldElements(fields[|fields| - 1])
  }

  function VariantsElements(variants: seq<Variant>): seq<StructureElement>
  {
    if variants == [] then []
    else
      var v := variants[|variants| - 1];
      VariantsElements(variants[..|variants| - 1]) + [VariantDataElement(v.data, v.name, v.range, false)]
  }

  /** `visit_trait_item`. */
  function TraitItemElements(ti: TraitItem): seq<StructureElement>
    decreases ti, 1
  {
    var walked := WalkTraitItemElements(ti);
    match ti.node
    case TraitConst => [StructureElement(ti.ident, Var, ti.range, "", walked)]
    case TraitMethod(decl, _) => [StructureElement(ti.ident, Function, ti.range, TypeDesc(decl), walked)]
    case TraitType => [StructureElement(ti.ident, TypeAlias, ti.range, "", walked)]
  }

  /** `walk_trait_item`: a provided method body is visited as a function of its own. */
  function WalkTraitItemElements(ti: TraitItem): seq<StructureElement>
    decreases ti, 0
  {
    match ti.node
    case TraitMethod(decl, Provided(body)) => FnElements(Method(ti.ident), decl, body, ti.range)
    case _ => []
  }

  function TraitItemsElements(tis: seq<TraitItem>): seq<StructureElement>
    decreases tis
  {
    if tis == [] then []
    else TraitItemsElements(tis[..|tis| - 1]) + TraitItemElements(tis[|tis| - 1])
  }

  /** `visit_impl_item`. */
  function ImplItemElements(ii: ImplItem): seq<StructureElement>
    decreases ii, 1
  {
    match ii.node
    case ImplConst => [StructureElement(ii.ident, Var, ii.range, "", WalkImplItemElements(ii))]
    case ImplType => [StructureElement(ii.ident, TypeAlias, ii.range, "", WalkImplItemElements(ii))]
    case _ => WalkImplItemElements(ii)
  }

  /** `walk_impl_item`: a method is visited as a function. */
  function WalkImplItemElements(ii: ImplItem): seq<StructureElement>
    decreases ii, 0
  {
    match ii.node
    case ImplMethod(decl, body) => FnElements(Method(ii.ident), decl, body, ii.range)
    case _ => []
  }

  function ImplItemsElements(iis: seq<ImplItem>): seq<StructureElement>
    decreases iis
  {
    if iis == [] then []
    else ImplItemsElements(iis[..|iis| - 1]) + ImplItemElements(iis[|iis| - 1])
  }

  /** `visit_foreign_item`: a foreign function or static, always a leaf without description. */
  function ForeignItemElement(fi: ForeignItem): StructureElement
  {
    var kind := if fi.node.ForeignFn? then Function else Var;
    StructureElement(fi.ident, kind, fi.range, "", [])
  }

  function ForeignItemsElements(fis: seq<ForeignItem>): seq<StructureElement>
  {
    if fis == [] then []
    else ForeignItemsElements(fis[..|fis| - 1]) + [ForeignItemElement(fis[|fis| - 1])]
  }
}
