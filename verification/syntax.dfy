/**
 * The part of the parser's syntax tree that the structure visitor looks at.
 *
 * The parser, its code map and its tree walker are external. Here every span
 * is already resolved to the range the code map gives for it, a source snippet
 * is `Some(text)` when the code map can extract it and `None` when it fails,
 * and a node lists exactly the sub-nodes the parser's walker hands back to the
 * visitor: types, patterns, generics, attributes and expressions never reach a
 * visitor method that emits anything, so they are not represented.
 */
module Syntax {
  import opened Wrappers
  import opened SourceModel

  type Ident = string

  /** A path: `text` is the parser's printed form of it, `segments` its identifiers. */
  datatype Path = Path(text: string, segments: seq<Ident>)

  datatype PathListItem =
    | PathListIdent(name: Ident, rename: Option<Ident>)   // `name` or `name as rename`
    | PathListMod(rename: Option<Ident>)                  // `self` or `self as rename`

  /** The three forms of a `use` declaration. */
  datatype ViewPath =
    | ViewPathSimple(ident: Ident, path: Path)            // `use a::b;` or `use a::b as c;`
    | ViewPathGlob(path: Path)                            // `use a::b::*;`
    | ViewPathList(path: Path, items: seq<PathListItem>)  // `use a::b::{ ... };`

  /** A function parameter: the snippets of its pattern and of its type. */
  datatype Arg = Arg(patSnippet: Option<string>, tySnippet: Option<string>)

  datatype FunctionRetTy =
    | DefaultReturn                        // no `-> T` written, or a diverging `-> !`
    | ReturnTy(snippet: Option<string>)    // `-> T` for a type `T`, with the snippet of `T`

  datatype FnDecl = FnDecl(inputs: seq<Arg>, output: FunctionRetTy)

  datatype StructField = StructField(ident: Option<Ident>, range: SourceRange)

  /** The fields of a struct or of an enum variant (none for a unit variant). */
  datatype VariantData = VariantData(fields: seq<StructField>)

  datatype Variant = Variant(name: Ident, range: SourceRange, data: VariantData)

  /** A trait method either only declares its signature or provides a default body. */
  datatype TraitMethodBody = Required | Provided(items: seq<Item>)

  datatype TraitItemKind =
    | TraitConst
    | TraitMethod(decl: FnDecl, body: TraitMethodBody)
    | TraitType

  datatype TraitItem = TraitItem(ident: Ident, range: SourceRange, node: TraitItemKind)

  datatype ImplItemKind =
    | ImplConst
    | ImplType
    | ImplMethod(decl: FnDecl, body: seq<Item>)
    | ImplMacro

  datatype ImplItem = ImplItem(ident: Ident, range: SourceRange, node: ImplItemKind)

  datatype ForeignItemKind = ForeignFn | ForeignStatic

  datatype ForeignItem = ForeignItem(ident: Ident, range: SourceRange, node: ForeignItemKind)

  /**
   * The kinds of item. A function body is given by the items declared at the
   * top level of its block, the only statements whose walk reaches the visitor.
   */
  datatype ItemKind =
    | ExternCrate
    | Use(vp: ViewPath)
    | Static(tySnippet: Option<string>)
    | Const(tySnippet: Option<string>)
    | Fn(decl: FnDecl, body: seq<Item>)
    | Mod(items: seq<Item>)
    | ForeignMod(foreignItems: seq<ForeignItem>)
    | Ty
    | Enum(variants: seq<Variant>)
    | DefaultImpl
    | Impl(implItems: seq<ImplItem>)
    | Struct(data: VariantData)
    | Trait(traitItems: seq<TraitItem>)
    | Mac

  datatype Item = Item(ident: Ident, range: SourceRange, node: ItemKind)

  /** The callable a function element is built for (`FnKind`). */
  datatype FnKind = ItemFn(ident: Ident) | Method(ident: Ident) | Closure

  /* ----------------- sizes, for termination of the visitor ----------------- */

  function ItemSize(item: Item): nat
    decreases item, 1
  {
    1 + KindSize(item.node)
  }

  function KindSize(k: ItemKind): nat
    decreases k
  {
    match k
    case Fn(_, body) => 1 + ItemsSize(body)
    case Mod(items) => 1 + ItemsSize(items)
    case ForeignMod(fis) => 1 + |fis|
    case Enum(vs) => 1 + VariantsSize(vs)
    case Impl(iis) => 1 + ImplItemsSize(iis)
    case Struct(data) => 1 + DataSize(data)
    case Trait(tis) => 1 + TraitItemsSize(tis)
    case _ => 1
  }

  function ItemsSize(s: seq<Item>): nat
    decreases s
  {
    if s == [] then 0 else ItemsSize(s[..|s| - 1]) + ItemSize(s[|s| - 1])
  }

  function DataSize(data: VariantData): nat
  {
    1 + |data.fields|
  }

  function VariantSize(v: Variant): nat
  {
    1 + DataSize(v.data)
  }

  function VariantsSize(s: seq<Variant>): nat
  {
    if s == [] then 0 else VariantsSize(s[..|s| - 1]) + VariantSize(s[|s| - 1])
  }

  function TraitItemSize(ti: TraitItem): nat
    decreases ti
  {
    match ti.node
    case TraitMethod(_, Provided(body)) => 2 + ItemsSize(body)
    case _ => 1
  }

  function TraitItemsSize(s: seq<TraitItem>): nat
    decreases s
  {
    if s == [] then 0 else TraitItemsSize(s[..|s| - 1]) + TraitItemSize(s[|s| - 1])
  }

  function ImplItemSize(ii: ImplItem): nat
    decreases ii
  {
    match ii.node
    case ImplMethod(_, body) => 2 + ItemsSize(body)
    case _ => 1
  }

  function ImplItemsSize(s: seq<ImplItem>): nat
    decreases s
  {
    if s == [] then 0 else ImplItemsSize(s[..|s| - 1]) + ImplItemSize(s[|s| - 1])
  }

  lemma {:induction false} ItemsSizeBound(s: seq<Item>, k: nat)
    requires k < |s|
    ensures ItemSize(s[k]) <= ItemsSize(s)
    decreases |s|
  {
    if k < |s| - 1 {
      assert s[..|s| - 1][k] == s[k];
      ItemsSizeBound(s[..|s| - 1], k);
    }
  }

  lemma {:induction false} VariantsSizeBound(s: seq<Variant>, k: nat)
    requires k < |s|
    ensures VariantSize(s[k]) <= VariantsSize(s)
    decreases |s|
  {
    if k < |s| - 1 {
      assert s[..|s| - 1][k] == s[k];
      VariantsSizeBound(s[..|s| - 1], k);
    }
  }

  lemma {:induction false} TraitItemsSizeBound(s: seq<TraitItem>, k: nat)
    requires k < |s|
    ensures TraitItemSize(s[k]) <= TraitItemsSize(s)
    decreases |s|
  {
    if k < |s| - 1 {
      assert s[..|s| - 1][k] == s[k];
      TraitItemsSizeBound(s[..|s| - 1], k);
    }
  }

  lemma {:induction false} ImplItemsSizeBound(s: seq<ImplItem>, k: nat)
    requires k < |s|
    ensures ImplItemSize(s[k]) <= ImplItemsSize(s)
    decreases |s|
  {
    if k < |s| - 1 {
      assert s[..|s| - 1][k] == s[k];
      ImplItemsSizeBound(s[..|s| - 1], k);
    }
  }
}
