/** The C header backend: for a bridge module, the text of the C header that
    declares every symbol Swift calls into Rust through.

    The functions below say what the header is; `GenerateCHeaderInner` builds
    it the way the generator does (appending to a string while collecting the
    include set and the slice element types, then prepending those) and is
    proved to build exactly that text. */
module CHeader {
  import opened Optional
  import opened Text
  import opened BridgedTypes
  import opened Ir
  import opened Collect

  /** The first line of every generated header. */
  const Notice: string := "// File automatically generated by swift-bridge."

  function FfiName(name: string): string { Prefix + "$" + name }
  function OptionFfiName(name: string): string { Prefix + "$Option$" + name }

  /** `typedef struct <opt> { bool is_some; <ffi> val; } <opt>;` */
  function OptionWrapper(ffi: string, opt: string): string
  {
    "typedef struct " + opt + " { bool is_some; " + ffi + " val; } " + opt + ";"
  }

  // ---------------------------------------------------------------- skipping

  /** The declarations the type walk emits nothing for. */
  predicate Skipped(t: TypeDecl)
  {
    match t
    case SharedStruct(_, declared, _) => declared
    case SharedEnum(_, declared, _) => declared
    case Opaque(_, host, declared, generic, _, _, _, _) => host == Swift || declared || generic
  }

  // ----------------------------------------------------------------- structs

  predicate NoFields(fields: StructFields)
  {
    match fields
    case Named(f) => f == []
    case Unnamed(f) => f == []
    case Unit => true
  }

  function FieldCount(fields: StructFields): nat
  {
    match fields
    case Named(f) => |f|
    case Unnamed(f) => |f|
    case Unit => 0
  }

  /** The name of field `j`; positional fields are named `_0`, `_1`, ... */
  function FieldName(fields: StructFields, j: nat): string
    requires j < FieldCount(fields)
  {
    match fields
    case Named(f) => f[j].name
    case Unnamed(_) => "_" + NatToString(j)
  }

  function FieldType(fields: StructFields, j: nat): Bridged
    requires j < FieldCount(fields)
  {
    match fields
    case Named(f) => f[j].ty
    case Unnamed(f) => f[j]
  }

  /** `ty name` for field `j`. */
  function FieldDecl(fields: StructFields, j: nat): string
    requires j < FieldCount(fields)
  {
    ToC(FieldType(fields, j)) + " " + FieldName(fields, j)
  }

  /** The field declarations of a struct that has fields. */
  function FieldDecls(fields: StructFields): seq<string>
  {
    seq(FieldCount(fields), j requires 0 <= j < FieldCount(fields) => FieldDecl(fields, j))
  }

  function FieldTypes(fields: StructFields): seq<Bridged>
  {
    seq(FieldCount(fields), j requires 0 <= j < FieldCount(fields) => FieldType(fields, j))
  }

  /** The headers the field types need, accumulated left to right. */
  function TypesIncludeSet(ts: seq<Bridged>): set<Include>
  {
    UnionOf(ts, IncludeSet)
  }

  lemma TypesIncludeSetStep(ts: seq<Bridged>, j: nat)
    requires j < |ts|
    ensures TypesIncludeSet(ts[..j + 1]) == TypesIncludeSet(ts[..j]) + IncludeSet(ts[j])
  {
    UnionOfStep(ts, IncludeSet, j);
  }

  /** The fields actually laid out: a one-byte placeholder when there are none. */
  function StructFieldDecls(fields: StructFields): seq<string>
  {
    if NoFields(fields) then ["uint8_t _private"] else FieldDecls(fields)
  }

  function StructIncludes(fields: StructFields): set<Include>
  {
    {StdBool} + if NoFields(fields) then {StdInt} else TypesIncludeSet(FieldTypes(fields))
  }

  /** `maybe_fields`: ` a; b; ` (or nothing when there are no declarations). */
  function MaybeFields(decls: seq<string>): string
  {
    if |decls| > 0 then " " + Join(decls, "; ") + "; " else ""
  }

  /** The struct typedef with the given field declarations, and its option
      wrapper (without the final newline). */
  function StructDeclOf(name: string, decls: seq<string>): string
  {
    "typedef struct " + FfiName(name) + " {" + MaybeFields(decls) + "} "
      + FfiName(name) + ";\n" + OptionWrapper(FfiName(name), OptionFfiName(name))
  }

  function StructDecl(name: string, fields: StructFields): string
  {
    StructDeclOf(name, StructFieldDecls(fields))
  }

  // ------------------------------------------------------------------- enums

  predicate HasVariantWithData(variants: seq<Variant>)
  {
    exists i :: 0 <= i < |variants| && variants[i].hasData
  }

  function TagName(name: string): string { FfiName(name) + "$Tag" }

  function VariantList(name: string, variants: seq<Variant>): string
  {
    Concat(seq(|variants|, i requires 0 <= i < |variants| => FfiName(name) + "$" + variants[i].name + ", "))
  }

  /** Tag enum, tagged struct and option wrapper of a shared enum. */
  function EnumCore(name: string, variants: seq<Variant>): string
  {
    "typedef enum " + TagName(name) + " { " + VariantList(name, variants) + "} " + TagName(name) + ";\n"
      + "typedef struct " + FfiName(name) + " { " + TagName(name) + " tag; } " + FfiName(name) + ";\n"
      + OptionWrapper(FfiName(name), OptionFfiName(name))
  }

  function VecName(n: string): string { Prefix + "$Vec_" + n }

  /** `vec_transparent_enum_c_support`: the Vec bundle of an enum stored by value. */
  function VecTransparentEnumSupport(n: string): string
  {
    "\n"
      + "void* " + VecName(n) + "$new(void);\n"
      + "void " + VecName(n) + "$drop(void* vec_ptr);\n"
      + "void " + VecName(n) + "$push(void* vec_ptr, " + FfiName(n) + " item);\n"
      + OptionFfiName(n) + " " + VecName(n) + "$pop(void* vec_ptr);\n"
      + OptionFfiName(n) + " " + VecName(n) + "$get(void* vec_ptr, uintptr_t index);\n"
      + OptionFfiName(n) + " " + VecName(n) + "$get_mut(void* vec_ptr, uintptr_t index);\n"
      + "uintptr_t " + VecName(n) + "$len(void* vec_ptr);\n"
      + "void* " + VecName(n) + "$as_ptr(void* vec_ptr);\n"
  }

  /** `vec_opaque_rust_type_c_support`: the Vec bundle of an opaque type stored by pointer. */
  function VecOpaqueSupport(n: string): string
  {
    "\n"
      + "void* " + VecName(n) + "$new(void);\n"
      + "void " + VecName(n) + "$drop(void* vec_ptr);\n"
      + "void " + VecName(n) + "$push(void* vec_ptr, void* item_ptr);\n"
      + "void* " + VecName(n) + "$pop(void* vec_ptr);\n"
      + "void* " + VecName(n) + "$get(void* vec_ptr, uintptr_t index);\n"
      + "void* " + VecName(n) + "$get_mut(void* vec_ptr, uintptr_t index);\n"
      + "uintptr_t " + VecName(n) + "$len(void* vec_ptr);\n"
      + "void* " + VecName(n) + "$as_ptr(void* vec_ptr);\n"
  }

  function EnumVecSupport(name: string, variants: seq<Variant>): string
  {
    if HasVariantWithData(variants) then "" else VecTransparentEnumSupport(name)
  }

  // ------------------------------------------------------------ opaque types

  /** Hash prototype; the generator appends it without a newline. */
  function HashDecl(name: string): string { "uint64_t " + Prefix + "$" + name + "$_hash(void* self);" }
  function EqDecl(name: string): string { "bool " + Prefix + "$" + name + "$_partial_eq(void* lhs, void* rhs);" }

  function CopyDecls(name: string, size: nat): string
  {
    "typedef struct " + FfiName(name) + " { uint8_t bytes[" + NatToString(size) + "]; } " + FfiName(name) + ";\n"
      + OptionWrapper(FfiName(name), OptionFfiName(name)) + "\n"
  }

  /** `$A$B` for generics `[A, B]`. */
  function DollarGenerics(generics: seq<string>): string
  {
    Concat(seq(|generics|, i requires 0 <= i < |generics| => "$" + generics[i]))
  }

  /** An opaque type held by pointer: an incomplete struct type named after
      the Rust type, and the function that drops the Rust value. */
  function PointerDecls(name: string, generics: seq<string>): string
  {
    OpaqueTypedef(name) + FreeDecl(name, generics)
  }

  function OpaqueTypedef(name: string): string { "typedef struct " + name + " " + name + ";\n" }

  function FreeDecl(name: string, generics: seq<string>): string
  {
    "void " + Prefix + "$" + name + DollarGenerics(generics) + "$_free(void* self);\n"
  }

  /** Vec support is only generated for non-copy, non-generic opaque types. */
  predicate HasOpaqueVecSupport(copySize: Option<nat>, generics: seq<string>)
  {
    copySize.None? && |generics| == 0
  }

  function HashPart(t: TypeDecl): string
    requires t.Opaque?
  {
    if t.hashable then HashDecl(t.name) else ""
  }

  function EqPart(t: TypeDecl): string
    requires t.Opaque?
  {
    if t.equatable then EqDecl(t.name) + "\n" else ""
  }

  /** By value (copy) or by pointer. */
  function ReprPart(t: TypeDecl): string
    requires t.Opaque?
  {
    match t.copySize
    case Some(size) => CopyDecls(t.name, size)
    case None => PointerDecls(t.name, t.generics)
  }

  function VecPart(t: TypeDecl): string
    requires t.Opaque?
  {
    if HasOpaqueVecSupport(t.copySize, t.generics) then VecOpaqueSupport(t.name) + "\n" else ""
  }

  /** The `Hashable` / `Equatable` prototypes. */
  function TraitPart(t: TypeDecl): string
    requires t.Opaque?
  {
    HashPart(t) + EqPart(t)
  }

  /** The representation typedefs and the Vec bundle. */
  function LayoutPart(t: TypeDecl): string
    requires t.Opaque?
  {
    ReprPart(t) + VecPart(t)
  }

  /** `_partial_eq` needs `bool`; the generator also inserts `stdint.h` there. */
  function TraitIncludes(t: TypeDecl): set<Include>
    requires t.Opaque?
  {
    if t.equatable then {StdInt, StdBool} else {}
  }

  /** The copy typedef needs `uint8_t` and its option wrapper `bool`. */
  function LayoutIncludes(t: TypeDecl): set<Include>
    requires t.Opaque?
  {
    if t.copySize.Some? then {StdInt, StdBool} else {}
  }


  // ------------------------------------------------------- one declaration

  /** What the type walk appends to the header for one declaration. */
  function TypeText(t: TypeDecl): string
  {
    if Skipped(t) then ""
    else match t
      case SharedStruct(name, _, fields) => StructDecl(name, fields) + "\n"
      case SharedEnum(name, _, variants) => EnumCore(name, variants) + EnumVecSupport(name, variants) + "\n"
      case Opaque(_, _, _, _, _, _, _, _) => TraitPart(t) + LayoutPart(t)
  }

  /** What the type walk adds to the include set for one declaration. */
  function TypeIncludes(t: TypeDecl): set<Include>
  {
    if Skipped(t) then {}
    else match t
      case SharedStruct(_, _, fields) => StructIncludes(fields)
      case SharedEnum(_, _, _) => {StdBool}
      case Opaque(_, _, _, _, _, _, _, _) => TraitIncludes(t) + LayoutIncludes(t)
  }

  // --------------------------------------------------------------- functions

  /** `ParsedExternFn::link_name`. */
  function LinkName(f: ExternFn): string
  {
    Prefix + "$" + (match f.associatedTo case Some(ty) => ty + "$" case None => "") + f.name
  }

  predicate HasSelf(f: ExternFn) { f.receiver != NoReceiver }

  /** `sig.inputs.is_empty()`: no receiver and no parameters. */
  predicate NoInputs(f: ExternFn) { !HasSelf(f) && f.params == [] }

  /** Every receiver kind is passed as `void* self`. */
  function ParamDecls(f: ExternFn): seq<string>
  {
    (if HasSelf(f) then ["void* self"] else [])
      + seq(|f.params|, i requires 0 <= i < |f.params| => ToC(f.params[i].ty) + " " + f.params[i].name)
  }

  /** `to_c_header_params`. */
  function ParamsText(f: ExternFn): string
  {
    if ParamDecls(f) == [] then "void" else Join(ParamDecls(f), ", ")
  }

  function ParamTypes(f: ExternFn): seq<Bridged>
  {
    seq(|f.params|, i requires 0 <= i < |f.params| => f.params[i].ty)
  }

  /** `c_includes`: the headers the parameter and return types need. */
  function FnIncludes(f: ExternFn): set<Include>
  {
    TypesIncludeSet(ParamTypes(f)) + IncludeSet(f.ret)
  }

  /** The slice element type a function returns, if it returns a slice. */
  function FnSlice(f: ExternFn): Option<string>
  {
    if f.ret.RefSlice? then Some(ToC(f.ret.elem)) else None
  }

  function AsyncRetPart(f: ExternFn): string
  {
    if IsNull(f.ret) then "" else ", " + ToC(f.ret) + " ret"
  }

  function AsyncParamsPart(f: ExternFn): string
  {
    if NoInputs(f) then "" else ", " + ParamsText(f)
  }

  /** `declare_func`: the prototype of a Rust-hosted function. */
  function DeclareFunc(f: ExternFn): string
  {
    if f.isAsync then
      "void " + LinkName(f) + "(void* callback_wrapper, void " + LinkName(f) + "$async(void* callback_wrapper"
        + AsyncRetPart(f) + ")" + AsyncParamsPart(f) + ");\n"
    else
      ToC(f.ret) + " " + LinkName(f) + "(" + ParamsText(f) + ");\n"
  }

  /** A boxed-closure argument with neither parameters nor return gets no declarations. */
  predicate BoxedFnNeedsDecl(t: Bridged)
  {
    t.BoxedFn? && !(t.fnParams == [] && IsNull(t.fnRet))
  }

  /** `boxed_fn_to_c_header_fns`: the call and free entry points of the boxed
      closure passed as argument `idx` of a Swift-hosted function. */
  function BoxedFnDecls(f: ExternFn, idx: nat, t: Bridged): string
    requires t.BoxedFn?
  {
    ToC(t.fnRet) + " " + LinkName(f) + "$param" + NatToString(idx) + "(void* boxed_fn"
      + Concat(seq(|t.fnParams|, i requires 0 <= i < |t.fnParams| => ", " + ToC(t.fnParams[i]) + " arg" + NatToString(i)))
      + ");\nvoid " + LinkName(f) + "$_free$param" + NatToString(idx) + "(void* boxed_fn);"
  }

  /** The declarations for the boxed-closure arguments among the first `k` parameters. */
  function BoxedFnsText(f: ExternFn, k: nat): string
    requires k <= |f.params|
  {
    if k == 0 then ""
    else
      var t := f.params[k - 1].ty;
      BoxedFnsText(f, k - 1) + if BoxedFnNeedsDecl(t) then BoxedFnDecls(f, k - 1, t) + "\n" else ""
  }

  /** What the function walk appends for one function. */
  function FuncText(f: ExternFn): string
  {
    if f.host == Swift then BoxedFnsText(f, |f.params|) else DeclareFunc(f)
  }

  function FuncIncludes(f: ExternFn): set<Include>
  {
    if f.host == Swift then {} else FnIncludes(f)
  }

  function FuncSlice(f: ExternFn): Option<string>
  {
    if f.host == Swift then None else FnSlice(f)
  }

  // ---------------------------------------------------------- the two walks

  function TypesText(ts: seq<TypeDecl>): string
  {
    if ts == [] then "" else TypesText(ts[..|ts| - 1]) + TypeText(ts[|ts| - 1])
  }

  function TypesIncludes(ts: seq<TypeDecl>): set<Include>
  {
    UnionOf(ts, TypeIncludes)
  }

  function FuncsText(fs: seq<ExternFn>): string
  {
    if fs == [] then "" else FuncsText(fs[..|fs| - 1]) + FuncText(fs[|fs| - 1])
  }

  function FuncsIncludes(fs: seq<ExternFn>): set<Include>
  {
    UnionOf(fs, FuncIncludes)
  }

  /** The slice-type set, kept in first-insertion order. */
  function FuncsSlices(fs: seq<ExternFn>): seq<string>
  {
    InsertAll(fs, FuncSlice)
  }

  // ---------------------------------------------------- prepended material

  function SliceTypedef(s: string): string
  {
    "typedef struct FfiSlice_" + s + " { " + s + "* start; uintptr_t len; } FfiSlice_" + s + ";\n"
  }

  /** Prepending the typedefs one at a time, in iteration order. */
  function SliceBlock(slices: seq<string>): string
  {
    if slices == [] then "" else SliceTypedef(slices[|slices| - 1]) + SliceBlock(slices[..|slices| - 1])
  }

  function IncludeLine(i: Include): string { "#include <" + IncludeName(i) + ">\n" }

  /** The include names in ascending (sorted) order. */
  const SortedIncludes: seq<Include> := [StdBool, StdInt]

  /** Prepending the include lines of `order` one at a time. */
  function IncludeBlockOf(order: seq<Include>, includes: set<Include>): string
  {
    if order == [] then ""
    else
      var i := order[|order| - 1];
      (if i in includes then IncludeLine(i) else "") + IncludeBlockOf(order[..|order| - 1], includes)
  }

  function IncludeBlock(includes: set<Include>): string
  {
    IncludeBlockOf(SortedIncludes, includes)
  }

  // ------------------------------------------------------------- the header

  function ModuleIncludes(m: BridgeModule): set<Include>
  {
    TypesIncludes(m.types) + FuncsIncludes(m.functions)
  }

  /** `generate_c_header_inner`; `compiled` is `module_will_be_compiled(config)`. */
  function InnerHeader(m: BridgeModule, compiled: bool): string
  {
    if !compiled then ""
    else
      IncludeBlock(ModuleIncludes(m)) + SliceBlock(FuncsSlices(m.functions))
      + TypesText(m.types) + FuncsText(m.functions)
  }

  /** `generate_c_header`: the notice line, then the inner header. */
  function GenerateCHeader(m: BridgeModule, compiled: bool): (r: string)
    ensures |r| > |Notice| && r[..|Notice|] == Notice && r[|Notice|] == '\n'
    ensures r[|Notice| + 1..] == InnerHeader(m, compiled)
  {
    Notice + "\n" + InnerHeader(m, compiled)
  }

  // ----------------------------------------------------- the generator itself

  /** The field loop of a struct that has fields: one `<c type> <name>` per
      field, collecting the headers the field types need. */
  method StructFieldList(fields: StructFields) returns (decls: seq<string>, includes: set<Include>)
    requires !NoFields(fields)
    ensures decls == FieldDecls(fields)
    ensures includes == TypesIncludeSet(FieldTypes(fields))
  {
    decls, includes := [], {};
    var tys := FieldTypes(fields);
    for j := 0 to |tys|
      invariant decls == FieldDecls(fields)[..j]
      invariant includes == TypesIncludeSet(tys[..j])
    {
      ghost var all := FieldDecls(fields);
      assert all[..j + 1] == all[..j] + [all[j]];
      TypesIncludeSetStep(tys, j);
      includes := includes + IncludeSet(tys[j]);
      decls := decls + [FieldDecl(fields, j)];
    }
    assert tys[..|tys|] == tys;
  }

  /** The struct arm of the type walk. */
  method DeclareStruct(name: string, fields: StructFields) returns (text: string, includes: set<Include>)
    ensures text == StructDecl(name, fields) + "\n"
    ensures includes == StructIncludes(fields)
  {
    // Used by the option wrapper's `bool is_some`.
    includes := {StdBool};
    var decls: seq<string>;
    if NoFields(fields) {
      includes := includes + {StdInt};
      decls := ["uint8_t _private"];
    } else {
      var fieldIncludes;
      decls, fieldIncludes := StructFieldList(fields);
      includes := includes + fieldIncludes;
    }
    text := StructDeclOf(name, decls) + "\n";
  }

  /** The enum arm of the type walk. */
  method DeclareEnum(name: string, variants: seq<Variant>) returns (text: string, includes: set<Include>)
    ensures text == EnumCore(name, variants) + EnumVecSupport(name, variants) + "\n"
    ensures includes == {StdBool}
  {
    includes := {StdBool};
    var maybeVecSupport := if HasVariantWithData(variants) then "" else VecTransparentEnumSupport(name);
    text := EnumCore(name, variants) + maybeVecSupport + "\n";
  }

  /** The `Hashable` / `Equatable` part of the opaque-type arm. */
  method DeclareOpaqueTraits(ty: TypeDecl) returns (text: string, includes: set<Include>)
    requires ty.Opaque?
    ensures text == TraitPart(ty)
    ensures includes == TraitIncludes(ty)
  {
    text, includes := "", {};
    if ty.hashable {
      text := HashDecl(ty.name);
    }
    if ty.equatable {
      includes := includes + {StdInt, StdBool};
      text := text + (EqDecl(ty.name) + "\n");
    }
  }

  /** The representation of an opaque type: by value (a byte array of the
      declared size) for a copy type, by pointer with a free function otherwise. */
  method DeclareOpaqueRepr(ty: TypeDecl) returns (text: string, includes: set<Include>)
    requires ty.Opaque?
    ensures text == ReprPart(ty)
    ensures includes == LayoutIncludes(ty)
  {
    match ty.copySize {
      case Some(size) =>
        includes := {StdInt, StdBool};
        text := CopyDecls(ty.name, size);
      case None =>
        includes := {};
        text := PointerDecls(ty.name, ty.generics);
    }
  }

  /** The layout part of the opaque-type arm: the representation, then the
      Vec bundle. */
  method DeclareOpaqueLayout(ty: TypeDecl) returns (text: string, includes: set<Include>)
    requires ty.Opaque?
    ensures text == LayoutPart(ty)
    ensures includes == LayoutIncludes(ty)
  {
    var repr;
    repr, includes := DeclareOpaqueRepr(ty);
    // Vec<T> is not supported for copy types nor for generic opaque types.
    var vec := "";
    if HasOpaqueVecSupport(ty.copySize, ty.generics) {
      vec := VecOpaqueSupport(ty.name) + "\n";
    }
    text := repr + vec;
  }

  /** The opaque-type arm of the type walk, for a type that is not skipped. */
  method DeclareOpaque(ty: TypeDecl) returns (text: string, includes: set<Include>)
    requires ty.Opaque?
    ensures text == TraitPart(ty) + LayoutPart(ty)
    ensures includes == TraitIncludes(ty) + LayoutIncludes(ty)
  {
    var traits, traitIncludes := DeclareOpaqueTraits(ty);
    var layout, layoutIncludes := DeclareOpaqueLayout(ty);
    text := traits + layout;
    includes := traitIncludes + layoutIncludes;
  }

  /** One step of the type walk: the text appended for `ty` and the headers
      inserted into the include set. */
  method DeclareType(ty: TypeDecl) returns (text: string, includes: set<Include>)
    ensures text == TypeText(ty)
    ensures includes == TypeIncludes(ty)
  {
    text, includes := "", {};
    match ty {
      case SharedStruct(name, alreadyDeclared, fields) =>
        if alreadyDeclared {
          return;
        }
        text, includes := DeclareStruct(name, fields);
      case SharedEnum(name, alreadyDeclared, variants) =>
        if alreadyDeclared {
          return;
        }
        text, includes := DeclareEnum(name, variants);
      case Opaque(_, host, alreadyDeclared, declareGeneric, _, _, _, _) =>
        if host == Swift {
          return;
        }
        if alreadyDeclared {
          return;
        }
        if declareGeneric {
          return;
        }
        text, includes := DeclareOpaque(ty);
    }
  }

  /** The boxed-closure loop of a Swift-hosted function. */
  method DeclareSwiftFnCallbacks(func: ExternFn) returns (text: string)
    ensures text == BoxedFnsText(func, |func.params|)
  {
    text := "";
    for j := 0 to |func.params|
      invariant text == BoxedFnsText(func, j)
    {
      var t := func.params[j].ty;
      if t.BoxedFn? {
        if t.fnParams == [] && IsNull(t.fnRet) {
          continue;
        }
        text := text + (BoxedFnDecls(func, j, t) + "\n");
      }
    }
  }

  lemma TypesStep(ts: seq<TypeDecl>, k: nat)
    requires k < |ts|
    ensures TypesText(ts[..k + 1]) == TypesText(ts[..k]) + TypeText(ts[k])
    ensures TypesIncludes(ts[..k + 1]) == TypesIncludes(ts[..k]) + TypeIncludes(ts[k])
  {
    assert ts[..k + 1][..k] == ts[..k];
    UnionOfStep(ts, TypeIncludes, k);
  }

  /** The walk over the type declarations. */
  method TypeWalk(types: seq<TypeDecl>) returns (header: string, includes: set<Include>)
    ensures header == TypesText(types)
    ensures includes == TypesIncludes(types)
  {
    header, includes := "", {};
    for k := 0 to |types|
      invariant header == TypesText(types[..k])
      invariant includes == TypesIncludes(types[..k])
    {
      TypesStep(types, k);
      var text, tyIncludes := DeclareType(types[k]);
      includes := includes + tyIncludes;
      header := header + text;
    }
    assert types[..|types|] == types;
  }

  /** `declare_func`: the prototype, with the include and slice-type bookkeeping. */
  method DeclareFuncStep(func: ExternFn, includes: set<Include>, sliceTypes: seq<string>)
    returns (decl: string, includes': set<Include>, sliceTypes': seq<string>)
    ensures decl == DeclareFunc(func)
    ensures includes' == includes + FnIncludes(func)
    ensures sliceTypes' == Insert(sliceTypes, FnSlice(func))
  {
    sliceTypes' := sliceTypes;
    if func.ret.RefSlice? {
      var elem := ToC(func.ret.elem);
      if elem !in sliceTypes {
        sliceTypes' := sliceTypes + [elem];
      }
    }
    includes' := includes + FnIncludes(func);
    decl := DeclareFunc(func);
  }

  /** One step of the function walk: a Swift-hosted function only declares
      the entry points of its boxed-closure arguments; a Rust-hosted one goes
      through `declare_func`. */
  method DeclareFunction(func: ExternFn, includes: set<Include>, sliceTypes: seq<string>)
    returns (text: string, includes': set<Include>, sliceTypes': seq<string>)
    ensures text == FuncText(func)
    ensures includes' == includes + FuncIncludes(func)
    ensures sliceTypes' == Insert(sliceTypes, FuncSlice(func))
  {
    if func.host == Swift {
      text := DeclareSwiftFnCallbacks(func);
      includes', sliceTypes' := includes, sliceTypes;
      return;
    }
    text, includes', sliceTypes' := DeclareFuncStep(func, includes, sliceTypes);
  }

  /** Union is associative; stated once, like `AppendAssoc`, for the walks
      that insert into the include set. */
  lemma UnionAssoc(a: set<Include>, b: set<Include>, c: set<Include>)
    ensures (a + b) + c == a + (b + c)
  {
  }

  lemma FuncsStep(fns: seq<ExternFn>, k: nat)
    requires k < |fns|
    ensures FuncsText(fns[..k + 1]) == FuncsText(fns[..k]) + FuncText(fns[k])
    ensures FuncsIncludes(fns[..k + 1]) == FuncsIncludes(fns[..k]) + FuncIncludes(fns[k])
    ensures FuncsSlices(fns[..k + 1]) == Insert(FuncsSlices(fns[..k]), FuncSlice(fns[k]))
  {
    assert fns[..k + 1][..k] == fns[..k];
    UnionOfStep(fns, FuncIncludes, k);
    InsertAllStep(fns, FuncSlice, k);
  }

  /** The walk over the functions, appending to `header`. */
  method FunctionWalk(fns: seq<ExternFn>, header0: string, includes0: set<Include>)
    returns (header: string, includes: set<Include>, sliceTypes: seq<string>)
    ensures header == header0 + FuncsText(fns)
    ensures includes == includes0 + FuncsIncludes(fns)
    ensures sliceTypes == FuncsSlices(fns)
  {
    header, includes, sliceTypes := header0, includes0, [];
    for k := 0 to |fns|
      invariant header == header0 + FuncsText(fns[..k])
      invariant includes == includes0 + FuncsIncludes(fns[..k])
      invariant sliceTypes == FuncsSlices(fns[..k])
    {
      FuncsStep(fns, k);
      var text;
      text, includes, sliceTypes := DeclareFunction(fns[k], includes, sliceTypes);
      AppendAssoc(header0, FuncsText(fns[..k]), text);
      UnionAssoc(includes0, FuncsIncludes(fns[..k]), FuncIncludes(fns[k]));
      header := header + text;
    }
    assert fns[..|fns|] == fns;
  }

  /** Each slice element type's typedef, prepended in iteration order. */
  method PrependSlices(sliceTypes: seq<string>, body: string) returns (header: string)
    ensures header == SliceBlock(sliceTypes) + body
  {
    header := body;
    for k := 0 to |sliceTypes|
      invariant header == SliceBlock(sliceTypes[..k]) + body
    {
      assert sliceTypes[..k + 1][..k] == sliceTypes[..k];
      AppendAssoc(SliceTypedef(sliceTypes[k]), SliceBlock(sliceTypes[..k]), body);
      header := SliceTypedef(sliceTypes[k]) + header;
    }
    assert sliceTypes[..|sliceTypes|] == sliceTypes;
  }

  lemma IncludeBlockStep(order: seq<Include>, includes: set<Include>, k: nat)
    requires k < |order|
    ensures IncludeBlockOf(order[..k + 1], includes)
      == (if order[k] in includes then IncludeLine(order[k]) else "") + IncludeBlockOf(order[..k], includes)
  {
    assert order[..k + 1][..k] == order[..k];
  }

  /** The include lines, prepended in the set's (sorted) iteration order. */
  method PrependIncludes(includes: set<Include>, body: string) returns (header: string)
    ensures header == IncludeBlock(includes) + body
  {
    var sorted := SortedIncludes;
    header := body;
    for k := 0 to |sorted|
      invariant header == IncludeBlockOf(sorted[..k], includes) + body
    {
      IncludeBlockStep(sorted, includes, k);
      if sorted[k] in includes {
        AppendAssoc(IncludeLine(sorted[k]), IncludeBlockOf(sorted[..k], includes), body);
        header := IncludeLine(sorted[k]) + header;
      }
    }
    assert sorted[..|sorted|] == sorted;
  }

  /** The inner header with its four parts nested the way the prepends build it. */
  lemma InnerHeaderNested(m: BridgeModule)
    ensures InnerHeader(m, true)
      == IncludeBlock(ModuleIncludes(m))
       + (SliceBlock(FuncsSlices(m.functions)) + (TypesText(m.types) + FuncsText(m.functions)))
  {
    var a, b := IncludeBlock(ModuleIncludes(m)), SliceBlock(FuncsSlices(m.functions));
    var c, d := TypesText(m.types), FuncsText(m.functions);
    AppendAssoc(b, c, d);
    AppendAssoc(a, b, c + d);
    AppendAssoc(a + b, c, d);
  }

  /** `generate_c_header_inner` as the generator runs it: one walk over the
      type declarations and one over the functions, appending to `header` and
      inserting into the include and slice-type sets, then the slice typedefs
      and the include lines prepended one at a time. */
  method GenerateCHeaderInner(m: BridgeModule, compiled: bool) returns (header: string)
    ensures header == InnerHeader(m, compiled)
  {
    header := "";
    if !compiled {
      return;
    }
    var includes, sliceTypes;
    header, includes := TypeWalk(m.types);
    header, includes, sliceTypes := FunctionWalk(m.functions, header, includes);
    header := PrependSlices(sliceTypes, header);
    header := PrependIncludes(includes, header);
    InnerHeaderNested(m);
  }
}
