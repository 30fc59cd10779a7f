/** What the C header backend promises, proved about the functions that say
    what the header is (module `CHeader`): the skip rules, the shape of each
    kind of declaration, the two prototype forms, the include and slice
    bookkeeping, and the expected headers of the generator's own unit tests. */
module CHeaderLemmas {
  import opened Optional
  import opened Text
  import opened BridgedTypes
  import opened Ir
  import opened CHeader
  import opened Collect

  predicate EndsWith(s: string, suffix: string)
  {
    |suffix| <= |s| && s[|s| - |suffix|..] == suffix
  }

  // ---------------------------------------------------------------- skipping

  /** A declaration contributes nothing, neither text nor includes, exactly
      when it is skipped: an already-declared struct or enum, or an opaque
      type that is Swift hosted, already declared or a generic declaration. */
  lemma SkipRule(t: TypeDecl)
    ensures Skipped(t) <==> TypeText(t) == ""
    ensures Skipped(t) ==> TypeIncludes(t) == {}
  {
    if !Skipped(t) {
      match t
      case SharedStruct(name, _, fields) =>
        assert |StructDecl(name, fields) + "\n"| > 0;
      case SharedEnum(name, _, variants) =>
        assert |EnumCore(name, variants) + EnumVecSupport(name, variants) + "\n"| > 0;
      case Opaque(_, _, _, _, _, _, _, _) =>
        assert |ReprPart(t)| > 0;
    }
  }

  /** The declarations the type walk does not skip, in order. */
  function Emitted(ts: seq<TypeDecl>): (r: seq<TypeDecl>)
    ensures |r| <= |ts|
    ensures forall t :: t in r ==> t in ts && !Skipped(t)
  {
    if ts == [] then []
    else if Skipped(ts[|ts| - 1]) then Emitted(ts[..|ts| - 1])
    else Emitted(ts[..|ts| - 1]) + [ts[|ts| - 1]]
  }

  /** Removing the skipped declarations changes neither the text nor the
      include set of the type walk. */
  lemma {:induction false} SkippedDeclsInvisible(ts: seq<TypeDecl>)
    ensures TypesText(Emitted(ts)) == TypesText(ts)
    ensures TypesIncludes(Emitted(ts)) == TypesIncludes(ts)
  {
    if ts != [] {
      var init, last := ts[..|ts| - 1], ts[|ts| - 1];
      SkippedDeclsInvisible(init);
      SkipRule(last);
      if !Skipped(last) {
        var e := Emitted(init) + [last];
        assert e[..|e| - 1] == Emitted(init);
      }
    }
  }

  /** A walk over skipped declarations only adds nothing. */
  lemma {:induction false} AllSkippedTypesEmpty(ts: seq<TypeDecl>)
    requires forall k :: 0 <= k < |ts| ==> Skipped(ts[k])
    ensures TypesText(ts) == "" && TypesIncludes(ts) == {}
  {
    if ts != [] {
      AllSkippedTypesEmpty(ts[..|ts| - 1]);
      SkipRule(ts[|ts| - 1]);
    }
  }

  // ---------------------------------------------------------- whole header

  /** A function of an `extern "Swift"` block with no boxed-closure argument
      that needs declarations. */
  predicate SilentSwiftFn(f: ExternFn)
  {
    f.host == Swift && forall j :: 0 <= j < |f.params| ==> !BoxedFnNeedsDecl(f.params[j].ty)
  }

  lemma {:induction false} SilentSwiftFnText(f: ExternFn, k: nat)
    requires SilentSwiftFn(f) && k <= |f.params|
    ensures BoxedFnsText(f, k) == ""
  {
    if k > 0 {
      SilentSwiftFnText(f, k - 1);
    }
  }

  lemma {:induction false} SilentFunctionsEmpty(fs: seq<ExternFn>)
    requires forall k :: 0 <= k < |fs| ==> SilentSwiftFn(fs[k])
    ensures FuncsText(fs) == "" && FuncsIncludes(fs) == {} && FuncsSlices(fs) == []
  {
    if fs != [] {
      var f := fs[|fs| - 1];
      SilentFunctionsEmpty(fs[..|fs| - 1]);
      SilentSwiftFnText(f, |f.params|);
    }
  }

  /** A module whose declarations are all skipped and whose functions all
      live in `extern "Swift"` blocks without closure arguments (an empty
      `extern "Rust"` block, or only an `extern "Swift"` block) yields just the
      notice line once trailing whitespace is trimmed; so does a module that
      is not compiled under the configuration. */
  lemma EmptyModuleHeader(m: BridgeModule, compiled: bool)
    requires forall k :: 0 <= k < |m.types| ==> Skipped(m.types[k])
    requires forall k :: 0 <= k < |m.functions| ==> SilentSwiftFn(m.functions[k])
    ensures InnerHeader(m, compiled) == ""
    ensures Trim(GenerateCHeader(m, compiled)) == Notice
  {
    AllSkippedTypesEmpty(m.types);
    SilentFunctionsEmpty(m.functions);
    assert ModuleIncludes(m) == {};
    IncludeBlockOrder({});
    assert InnerHeader(m, compiled) == "" + "" + "" + "";
    NoticeTrimmed(GenerateCHeader(m, compiled));
  }

  /** The notice line followed by a newline trims to the notice line. */
  lemma NoticeTrimmed(h: string)
    requires h == Notice + "\n"
    ensures Trim(h) == Notice
  {
    NoticeEnds();
    LineTrimmed(Notice, h);
  }

  /** The notice line starts with `/` and ends with `.`. */
  lemma NoticeEnds()
    ensures Notice != [] && Notice[0] == '/' && Notice[|Notice| - 1] == '.'
  {
    NoticeStart();
  }

  lemma NoticeStart()
    ensures Notice[0] == '/'
  {
    var a, b := "// File automatically generated", " by swift-bridge.";
    assert Notice == a + b;
    assert (a + b)[0] == a[0];
  }

  /** A line that neither starts nor ends with whitespace, followed by a
      newline, trims to the line. */
  lemma LineTrimmed(line: string, h: string)
    requires line != [] && !IsWhitespace(line[0]) && !IsWhitespace(line[|line| - 1])
    requires h == line + "\n"
    ensures Trim(h) == line
  {
    assert h[0] == line[0];
    assert TrimStart(h) == h;
    assert h[..|h| - 1] == line;
    assert TrimEnd(h) == TrimEnd(line);
  }

  /** Whatever the module, a configuration under which it is not compiled
      gives a header holding only the notice line. */
  lemma NotCompiledHeader(m: BridgeModule)
    ensures InnerHeader(m, false) == ""
    ensures Trim(GenerateCHeader(m, false)) == Notice
  {
    assert InnerHeader(m, false) == "";
    NoticeTrimmed(GenerateCHeader(m, false));
  }

  // ----------------------------------------------------------------- structs

  /** A struct without fields (`struct S;`, `struct S {}` or `struct S()`) is
      laid out with the single placeholder field `uint8_t _private`, which
      brings in `stdint.h`; its option wrapper brings in `stdbool.h`. */
  lemma EmptyStructPlaceholder(name: string, fields: StructFields)
    requires NoFields(fields)
    ensures StructDecl(name, fields) == StructDeclOf(name, ["uint8_t _private"])
    ensures MaybeFields(["uint8_t _private"]) == " uint8_t _private; "
  {
    assert Join(["uint8_t _private"], "; ") == "uint8_t _private";
  }

  lemma EmptyStructIncludes(fields: StructFields)
    requires NoFields(fields)
    ensures StructIncludes(fields) == {StdBool, StdInt}
  {
  }

  /** Positional fields are named `_0`, `_1`, ... in declaration order, and
      so no two of them share a name. */
  lemma UnnamedFieldNames(tys: seq<Bridged>, i: nat, j: nat)
    requires i < |tys| && j < |tys|
    ensures FieldName(Unnamed(tys), i) == "_" + NatToString(i)
    ensures i != j ==> FieldName(Unnamed(tys), i) != FieldName(Unnamed(tys), j)
  {
    if i != j {
      NatToStringInjective(i, j);
      var a, b := FieldName(Unnamed(tys), i), FieldName(Unnamed(tys), j);
      assert a[1..] == NatToString(i) && b[1..] == NatToString(j);
    }
  }

  /** A struct that has fields lays out exactly its fields, in order, each
      as its C type followed by its (given or positional) name. */
  lemma StructFieldsLaidOut(fields: StructFields)
    requires !NoFields(fields)
    ensures |StructFieldDecls(fields)| == FieldCount(fields) > 0
    ensures forall j :: 0 <= j < FieldCount(fields) ==>
      StructFieldDecls(fields)[j] == ToC(FieldType(fields, j)) + " " + FieldName(fields, j)
  {
  }

  /** The headers the field types need: a header is needed exactly when some
      field type's C spelling needs it. */
  lemma TypesIncludeSetMembership(ts: seq<Bridged>, i: Include)
    ensures i in TypesIncludeSet(ts) <==> exists j :: 0 <= j < |ts| && ToCInclude(ts[j]) == Some(i)
  {
    UnionOfMembership(ts, IncludeSet, i);
    if exists j :: 0 <= j < |ts| && ToCInclude(ts[j]) == Some(i) {
      var j :| 0 <= j < |ts| && ToCInclude(ts[j]) == Some(i);
      assert i in IncludeSet(ts[j]);
    }
  }

  /** A struct always needs `stdbool.h` (its option wrapper); besides that,
      `stdint.h` for the placeholder field, or whatever its field types need. */
  lemma StructIncludesMembership(fields: StructFields, i: Include)
    ensures i in StructIncludes(fields) <==>
      i == StdBool || (NoFields(fields) && i == StdInt)
      || exists j :: 0 <= j < FieldCount(fields) && ToCInclude(FieldType(fields, j)) == Some(i)
  {
    var ts := FieldTypes(fields);
    TypesIncludeSetMembership(ts, i);
    if exists j :: 0 <= j < FieldCount(fields) && ToCInclude(FieldType(fields, j)) == Some(i) {
      var j :| 0 <= j < FieldCount(fields) && ToCInclude(FieldType(fields, j)) == Some(i);
      assert ts[j] == FieldType(fields, j);
    }
  }

  /** Every emitted struct and enum ends its declaration with its option
      wrapper `{ bool is_some; <ffi name> val; }`, and so needs `stdbool.h`. */
  lemma OptionWrapperAlways(t: TypeDecl)
    requires !t.Opaque? && !Skipped(t)
    ensures StdBool in TypeIncludes(t)
    ensures t.SharedStruct? ==> EndsWith(StructDecl(t.name, t.fields), OptionWrapper(FfiName(t.name), OptionFfiName(t.name)))
    ensures t.SharedEnum? ==> EndsWith(EnumCore(t.name, t.variants), OptionWrapper(FfiName(t.name), OptionFfiName(t.name)))
  {
    var w := OptionWrapper(FfiName(t.name), OptionFfiName(t.name));
    match t
    case SharedStruct(name, _, fields) =>
      var d := StructDecl(name, fields);
      var head := "typedef struct " + FfiName(name) + " {" + MaybeFields(StructFieldDecls(fields)) + "} " + FfiName(name) + ";\n";
      assert d == head + w;
      assert d[|d| - |w|..] == w;
    case SharedEnum(name, _, variants) =>
      var d := EnumCore(name, variants);
      var head := "typedef enum " + TagName(name) + " { " + VariantList(name, variants) + "} " + TagName(name) + ";\n"
        + "typedef struct " + FfiName(name) + " { " + TagName(name) + " tag; } " + FfiName(name) + ";\n";
      assert d == head + w;
      assert d[|d| - |w|..] == w;
  }

  // ------------------------------------------------------------------- enums

  /** An enum gets the by-value Vec bundle exactly when none of its variants
      carries data. */
  lemma EnumVecBundleRule(name: string, variants: seq<Variant>)
    ensures EnumVecSupport(name, variants) != "" <==> forall i :: 0 <= i < |variants| ==> !variants[i].hasData
    ensures EnumVecSupport(name, variants) != "" ==> EnumVecSupport(name, variants) == VecTransparentEnumSupport(name)
  {
    assert |VecTransparentEnumSupport(name)| > 0;
  }

  // ------------------------------------------------------------ opaque types

  /** An opaque type with `Copy(size)` is laid out by value as `size` bytes
      plus its option wrapper, with no free function and no Vec bundle, and
      needs both headers; any other opaque type is a pointer with a free
      function. The pointer-keyed Vec bundle is there exactly when the type
      is not copy and has no generics. */
  lemma OpaqueLayoutRule(t: TypeDecl)
    requires t.Opaque?
    ensures t.copySize.Some? ==>
      LayoutPart(t) == CopyDecls(t.name, t.copySize.value) && LayoutIncludes(t) == {StdInt, StdBool}
    ensures t.copySize.None? ==>
      LayoutPart(t) == PointerDecls(t.name, t.generics) + VecPart(t) && LayoutIncludes(t) == {}
    ensures VecPart(t) != "" <==> t.copySize.None? && t.generics == []
    ensures VecPart(t) != "" ==> VecPart(t) == VecOpaqueSupport(t.name) + "\n"
  {
    assert |VecOpaqueSupport(t.name) + "\n"| > 0;
  }

  /** Only `Equatable` brings headers in among the trait declarations, and
      the hash prototype is appended without a line break. */
  lemma OpaqueTraitRule(t: TypeDecl)
    requires t.Opaque?
    ensures TraitIncludes(t) == if t.equatable then {StdInt, StdBool} else {}
    ensures !t.hashable && !t.equatable ==> TraitPart(t) == ""
    ensures t.hashable && !t.equatable ==> TraitPart(t) == HashDecl(t.name) && TraitPart(t)[|TraitPart(t)| - 1] == ';'
  {
  }

  // --------------------------------------------------------------- functions

  /** In the async form the `ret` argument of the completion callback is
      absent exactly when the function returns nothing, and the trailing
      parameter list is absent exactly when the function has no inputs. */
  lemma AsyncPrototypeParts(f: ExternFn)
    ensures AsyncRetPart(f) == "" <==> IsNull(f.ret)
    ensures AsyncParamsPart(f) == "" <==> NoInputs(f)
  {
  }

  /** A function without inputs declares the parameter list `void`; one with
      inputs lists them, separated by `, `. */
  lemma ParamsTextRule(f: ExternFn)
    ensures NoInputs(f) ==> ParamsText(f) == "void"
    ensures !NoInputs(f) ==>
      ParamsText(f) == Join(ParamDecls(f), ", ") && |ParamDecls(f)| == |f.params| + (if HasSelf(f) then 1 else 0)
  {
    if !NoInputs(f) {
      assert |ParamDecls(f)| > 0;
    }
  }

  /** Every receiver kind is lowered to a leading `void* self`, so methods
      that differ only in how they take `self` get the same prototype. */
  lemma ReceiverKindIrrelevant(f: ExternFn, r: Receiver)
    requires HasSelf(f) && r != NoReceiver
    ensures ParamDecls(f)[0] == "void* self"
    ensures DeclareFunc(f.(receiver := r)) == DeclareFunc(f)
  {
    var g := f.(receiver := r);
    assert ParamDecls(g) == ParamDecls(f);
  }

  /** The headers a Rust-hosted function needs are those of its parameter
      types and its return type. */
  lemma FnIncludesMembership(f: ExternFn, i: Include)
    ensures i in FnIncludes(f) <==>
      ToCInclude(f.ret) == Some(i) || exists j :: 0 <= j < |f.params| && ToCInclude(f.params[j].ty) == Some(i)
  {
    var ts := ParamTypes(f);
    TypesIncludeSetMembership(ts, i);
    if exists j :: 0 <= j < |f.params| && ToCInclude(f.params[j].ty) == Some(i) {
      var j :| 0 <= j < |f.params| && ToCInclude(f.params[j].ty) == Some(i);
      assert ts[j] == f.params[j].ty;
    }
  }

  // -------------------------------------------------------- module includes

  lemma TypesIncludesMembership(ts: seq<TypeDecl>, i: Include)
    ensures i in TypesIncludes(ts) <==> exists k :: 0 <= k < |ts| && i in TypeIncludes(ts[k])
  {
    UnionOfMembership(ts, TypeIncludes, i);
  }

  lemma FuncsIncludesMembership(fs: seq<ExternFn>, i: Include)
    ensures i in FuncsIncludes(fs) <==> exists k :: 0 <= k < |fs| && fs[k].host == Rust && i in FnIncludes(fs[k])
  {
    UnionOfMembership(fs, FuncIncludes, i);
    if exists k :: 0 <= k < |fs| && i in FuncIncludes(fs[k]) {
      var k :| 0 <= k < |fs| && i in FuncIncludes(fs[k]);
      assert fs[k].host == Rust && i in FnIncludes(fs[k]);
    }
  }

  /** A header is in the module's include set exactly when some emitted
      declaration or some Rust-hosted function needs it (`IncludeBlockOrder`
      then places each such header exactly once). */
  lemma ModuleIncludesMembership(m: BridgeModule, i: Include)
    ensures i in ModuleIncludes(m) <==>
      (exists k :: 0 <= k < |m.types| && i in TypeIncludes(m.types[k]))
      || (exists k :: 0 <= k < |m.functions| && m.functions[k].host == Rust && i in FnIncludes(m.functions[k]))
  {
    TypesIncludesMembership(m.types, i);
    FuncsIncludesMembership(m.functions, i);
  }

  // ------------------------------------------------------------------ slices

  /** The slice element types, in first-insertion order, hold each returned
      element type exactly once. */
  lemma SlicesDistinct(fs: seq<ExternFn>)
    ensures forall a, b :: 0 <= a < b < |FuncsSlices(fs)| ==> FuncsSlices(fs)[a] != FuncsSlices(fs)[b]
    ensures forall x :: x in FuncsSlices(fs) <==> exists k :: 0 <= k < |fs| && FuncSlice(fs[k]) == Some(x)
  {
    InsertAllDistinct(fs, FuncSlice);
  }

  /** The typedefs in the order the prepends leave them: last inserted first. */
  function SliceTypedefs(slices: seq<string>): (r: seq<string>)
    ensures |r| == |slices|
  {
    seq(|slices|, i requires 0 <= i < |slices| => SliceTypedef(slices[|slices| - 1 - i]))
  }

  lemma {:induction false} ConcatCons(x: string, xs: seq<string>)
    ensures Concat([x] + xs) == x + Concat(xs)
  {
    if xs != [] {
      var ys := [x] + xs;
      assert ys[..|ys| - 1] == [x] + xs[..|xs| - 1];
      ConcatCons(x, xs[..|xs| - 1]);
      AppendAssoc(x, Concat(xs[..|xs| - 1]), xs[|xs| - 1]);
    } else {
      assert [x] + xs == [x];
    }
  }

  /** The slice block is one `FfiSlice_<T>` typedef per element type, nothing
      else, so with `SlicesDistinct` each returned element type gets exactly
      one typedef. */
  lemma {:induction false} SliceBlockTypedefs(slices: seq<string>)
    ensures SliceBlock(slices) == Concat(SliceTypedefs(slices))
  {
    if slices != [] {
      var init := slices[..|slices| - 1];
      SliceBlockTypedefs(init);
      assert SliceTypedefs(slices) == [SliceTypedef(slices[|slices| - 1])] + SliceTypedefs(init);
      ConcatCons(SliceTypedef(slices[|slices| - 1]), SliceTypedefs(init));
    }
  }

  // ------------------------------------------------------------- includes

  /** The include block holds each needed header exactly once, `stdint.h`
      above `stdbool.h`: the sorted names are prepended one at a time, so the
      final order is the reverse of the sorted one. */
  lemma IncludeBlockOrder(includes: set<Include>)
    ensures IncludeBlock(includes)
      == (if StdInt in includes then "#include <stdint.h>\n" else "")
       + (if StdBool in includes then "#include <stdbool.h>\n" else "")
  {
    var order := SortedIncludes;
    assert order[..1] == [StdBool] && order[..1][..0] == [];
    assert IncludeBlockOf(order[..1], includes) == (if StdBool in includes then IncludeLine(StdBool) else "");
  }
}
