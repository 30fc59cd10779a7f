/** The headers the generator's unit tests expect, derived from the model.
    Each test's lemma states the whole inner header of the test's bridge
    module (the tests compare after trimming, so the expected text here
    carries the final newline). The identifiers the tests pick (`foo`,
    `SomeType`, `arg1`, ...) are parameters, so each lemma covers the test's
    own module and every module that differs from it only in those names.
    Expected texts are written in pieces, one parenthesised group per
    declaration, split where the generator splices in a C type, a link name
    or a parameter list. */
module CHeaderExamples {
  import opened Optional
  import opened Text
  import opened BridgedTypes
  import opened Ir
  import opened CHeader
  import opened CHeaderLemmas
  import opened Collect

  /** A freestanding function in an `extern "Rust"` block. */
  function RustFn(name: string, params: seq<Param>, ret: Bridged): ExternFn
  {
    ExternFn(Rust, false, None, name, NoReceiver, params, ret)
  }

  /** `type <n>;` in an `extern "Rust"` block. */
  function RustType(n: string): TypeDecl
  {
    Opaque(n, Rust, false, false, None, false, false, [])
  }

  /** A method of the opaque Rust type `n`. */
  function MethodOf(n: string, name: string, r: Receiver, params: seq<Param>, ret: Bridged): ExternFn
  {
    ExternFn(Rust, false, Some(n), name, r, params, ret)
  }

  // ------------------------------------------------- assembling the text

  /** Dropping an empty slice block, and an empty include block, from a
      header made of four parts. */
  lemma DropEmptyBlocks(h: string, i: string, sl: string, t: string, f: string)
    requires h == i + sl + t + f && sl == ""
    ensures h == i + t + f
    ensures i == "" ==> h == t + f
  {
  }

  /** The same for a header made of three parts. */
  lemma DropEmptyBlocks3(h: string, i: string, sl: string, f: string)
    requires h == i + sl + f && sl == ""
    ensures h == i + f
    ensures i == "" ==> h == f
  {
  }

  /** Dropping an empty include block from a header made of three parts. */
  lemma DropEmptyInclude(h: string, i: string, t: string, f: string)
    requires h == i + t + f && i == ""
    ensures h == t + f
  {
  }

  lemma DropEmpty(a: string, e: string)
    requires e == ""
    ensures a + e == a && e + a == a
  {
  }

  // ------------------------------------------------------ the two walks

  /** A module with no type declarations: the include block, the slice
      block and the function walk. */
  lemma FunctionsOnlyHeader(fs: seq<ExternFn>)
    ensures InnerHeader(BridgeModule([], fs), true)
      == IncludeBlock(FuncsIncludes(fs)) + SliceBlock(FuncsSlices(fs)) + FuncsText(fs)
  {
    assert TypesText([]) == "" && TypesIncludes([]) == {};
    assert ModuleIncludes(BridgeModule([], fs)) == FuncsIncludes(fs);
  }

  /** A module with one type declaration. */
  lemma OneTypeHeader(t: TypeDecl, fs: seq<ExternFn>)
    ensures InnerHeader(BridgeModule([t], fs), true)
      == IncludeBlock(TypeIncludes(t) + FuncsIncludes(fs)) + SliceBlock(FuncsSlices(fs)) + TypeText(t) + FuncsText(fs)
  {
    var m := BridgeModule([t], fs);
    assert [t][..0] == [] && [t][..1] == [t];
    UnionOfStep([t], TypeIncludes, 0);
    assert TypesText(m.types) == TypeText(t);
    assert ModuleIncludes(m) == TypeIncludes(t) + FuncsIncludes(fs);
  }

  lemma OneFunction(f: ExternFn)
    ensures FuncsText([f]) == FuncText(f)
    ensures FuncsIncludes([f]) == FuncIncludes(f)
    ensures FuncsSlices([f]) == Insert([], FuncSlice(f))
  {
    UnionOfStep([f], FuncIncludes, 0);
    InsertAllStep([f], FuncSlice, 0);
    assert [f][..0] == [] && [f][..1] == [f];
  }

  lemma FuncsTextSnoc(fs: seq<ExternFn>, f: ExternFn)
    ensures FuncsText(fs + [f]) == FuncsText(fs) + FuncText(f)
  {
    assert (fs + [f])[..|fs|] == fs;
  }

  /** Functions that need no header and return no slice add neither. */
  lemma {:induction false} PlainFunctions(fs: seq<ExternFn>)
    requires forall k :: 0 <= k < |fs| ==> FuncIncludes(fs[k]) == {} && FuncSlice(fs[k]) == None
    ensures FuncsIncludes(fs) == {} && FuncsSlices(fs) == []
  {
    if fs != [] {
      PlainFunctions(fs[..|fs| - 1]);
    }
  }

  lemma NoIncludes()
    ensures IncludeBlock({}) == ""
  {
    IncludeBlockOrder({});
  }

  lemma StdIntOnly()
    ensures IncludeBlock({StdInt}) == "#include <stdint.h>\n"
  {
    IncludeBlockOrder({StdInt});
  }

  // ------------------------------------------------------ one prototype

  /** A synchronous prototype, with its parameter list spelled out for the
      four shapes the tests use. */
  lemma SyncPrototype(f: ExternFn)
    requires !f.isAsync && |f.params| <= 1
    ensures DeclareFunc(f) == ToC(f.ret) + " " + LinkName(f) + "(" + ParamsText(f) + ");\n"
    ensures !HasSelf(f) && f.params == [] ==> ParamsText(f) == "void"
    ensures HasSelf(f) && f.params == [] ==> ParamsText(f) == "void* self"
    ensures !HasSelf(f) && |f.params| == 1 ==> ParamsText(f) == ToC(f.params[0].ty) + " " + f.params[0].name
    ensures HasSelf(f) && |f.params| == 1
      ==> ParamsText(f) == "void* self" + ", " + (ToC(f.params[0].ty) + " " + f.params[0].name)
  {
    var ps := ParamDecls(f);
    if HasSelf(f) && |f.params| == 1 {
      assert ps == ["void* self", ToC(f.params[0].ty) + " " + f.params[0].name];
      assert ps[..1] == ["void* self"];
    } else if |f.params| == 1 {
      assert ps == [ToC(f.params[0].ty) + " " + f.params[0].name];
    } else if HasSelf(f) {
      assert ps == ["void* self"];
    }
  }

  /** The link name of a freestanding function. */
  lemma FreestandingLink(name: string, params: seq<Param>, ret: Bridged)
    ensures LinkName(RustFn(name, params, ret)) == "__swift_bridge__$" + name
  {
  }

  /** The link name of a method: the type's name between two `$`. */
  lemma MethodLink(n: string, name: string, r: Receiver, params: seq<Param>, ret: Bridged)
    ensures LinkName(MethodOf(n, name, r, params, ret)) == "__swift_bridge__$" + n + "$" + name
  {
  }

  /** A Rust-hosted function without parameters needs what its return type
      needs. */
  lemma NoParamsBookkeeping(f: ExternFn)
    requires f.params == [] && f.host == Rust
    ensures FuncIncludes(f) == IncludeSet(f.ret) && FuncSlice(f) == FnSlice(f)
  {
    assert ParamTypes(f) == [];
  }

  /** A Rust-hosted function with one parameter and no return needs what its
      parameter type needs, and returns no slice. */
  lemma OneParamBookkeeping(f: ExternFn)
    requires |f.params| == 1 && f.ret == Null && f.host == Rust
    ensures FuncIncludes(f) == IncludeSet(f.params[0].ty) && FuncSlice(f) == None
  {
    var ty := f.params[0].ty;
    assert ParamTypes(f) == [ty];
    UnionOfStep([ty], IncludeSet, 0);
    assert [ty][..0] == [] && [ty][..1] == [ty];
    assert IncludeSet(Null) == {};
  }

  /** A module holding one Rust-hosted synchronous function that returns no
      slice. */
  lemma OneRustFunctionHeader(f: ExternFn)
    requires f.host == Rust && !f.isAsync && FnSlice(f) == None
    ensures InnerHeader(BridgeModule([], [f]), true)
      == IncludeBlock(FnIncludes(f)) + (ToC(f.ret) + " " + LinkName(f) + "(" + ParamsText(f) + ");\n")
  {
    FunctionsOnlyHeader([f]);
    OneFunction(f);
    DropEmptyBlocks3(InnerHeader(BridgeModule([], [f]), true),
      IncludeBlock(FnIncludes(f)), SliceBlock(Insert([], FnSlice(f))), DeclareFunc(f));
  }

  // --------------------------------------------------- freestanding tests

  /** `fn foo();` */
  lemma FreestandingNoArgs(name: string)
    ensures InnerHeader(BridgeModule([], [RustFn(name, [], Null)]), true)
      == "void" + " " + ("__swift_bridge__$" + name) + "(" + "void" + ");\n"
  {
    var f := RustFn(name, [], Null);
    NoParamsBookkeeping(f);
    OneRustFunctionHeader(f);
    NoIncludes();
    SyncPrototype(f);
    FreestandingLink(name, [], Null);
    DropEmpty(DeclareFunc(f), IncludeBlock(FnIncludes(f)));
  }

  /** `fn foo(arg1: u8);` */
  lemma FreestandingOneArg(name: string, arg: string)
    ensures InnerHeader(BridgeModule([], [RustFn(name, [Param(arg, U8)], Null)]), true)
      == "#include <stdint.h>\n"
       + ("void" + " " + ("__swift_bridge__$" + name) + "(" + ("uint8_t" + " " + arg) + ");\n")
  {
    var f := RustFn(name, [Param(arg, U8)], Null);
    OneParamBookkeeping(f);
    OneRustFunctionHeader(f);
    StdIntOnly();
    SyncPrototype(f);
    FreestandingLink(name, [Param(arg, U8)], Null);
  }

  /** `fn foo() -> u8;` */
  lemma FreestandingWithReturn(name: string)
    ensures InnerHeader(BridgeModule([], [RustFn(name, [], U8)]), true)
      == "#include <stdint.h>\n"
       + ("uint8_t" + " " + ("__swift_bridge__$" + name) + "(" + "void" + ");\n")
  {
    var f := RustFn(name, [], U8);
    NoParamsBookkeeping(f);
    OneRustFunctionHeader(f);
    StdIntOnly();
    SyncPrototype(f);
    FreestandingLink(name, [], U8);
  }

  // ------------------------------------------------- opaque Rust types

  /** The typedef and the free function of an opaque Rust type. */
  lemma RustTypePointerDecls(n: string)
    ensures PointerDecls(n, [])
      == ("typedef struct " + n + " " + n + ";\n")
       + ("void " + "__swift_bridge__" + "$" + n + "$_free(void* self);\n")
  {
    DropEmpty("void " + Prefix + "$" + n, DollarGenerics([]));
  }

  lemma OpaqueTextParts(t: TypeDecl)
    requires t.Opaque? && !Skipped(t)
    ensures TypeText(t) == TraitPart(t) + LayoutPart(t)
  {
  }

  /** An opaque Rust type declared without attributes: no trait
      prototypes, the pointer declarations and the Vec bundle, no headers. */
  lemma RustTypeParts(n: string)
    ensures TraitPart(RustType(n)) == ""
    ensures LayoutPart(RustType(n)) == PointerDecls(n, []) + (VecOpaqueSupport(n) + "\n")
    ensures TypeIncludes(RustType(n)) == {}
  {
    RustTypeLayout(n);
    RustTypeTrait(n);
  }

  lemma RustTypeTrait(n: string)
    ensures TraitPart(RustType(n)) == ""
    ensures TypeIncludes(RustType(n)) == {}
  {
  }

  lemma RustTypeLayout(n: string)
    ensures ReprPart(RustType(n)) == PointerDecls(n, [])
    ensures VecPart(RustType(n)) == VecOpaqueSupport(n) + "\n"
    ensures LayoutPart(RustType(n)) == ReprPart(RustType(n)) + VecPart(RustType(n))
  {
  }

  /** An opaque Rust type's declarations: no trait prototypes, the pointer
      declarations, then the Vec bundle. */
  lemma RustTypeText(n: string)
    ensures TypeText(RustType(n))
      == ("typedef struct " + n + " " + n + ";\n")
       + ("void " + "__swift_bridge__" + "$" + n + "$_free(void* self);\n")
       + (VecOpaqueSupport(n) + "\n")
  {
    var t := RustType(n);
    OpaqueTextParts(t);
    RustTypeParts(n);
    DropEmpty(LayoutPart(t), TraitPart(t));
    RustTypePointerDecls(n);
  }

  /** An opaque Rust type with functions. */
  lemma RustTypeHeader(n: string, fs: seq<ExternFn>)
    ensures InnerHeader(BridgeModule([RustType(n)], fs), true)
      == IncludeBlock(FuncsIncludes(fs)) + SliceBlock(FuncsSlices(fs))
       + (("typedef struct " + n + " " + n + ";\n")
          + ("void " + "__swift_bridge__" + "$" + n + "$_free(void* self);\n")
          + (VecOpaqueSupport(n) + "\n"))
       + FuncsText(fs)
  {
    OneTypeHeader(RustType(n), fs);
    RustTypeParts(n);
    NoExtraIncludes(FuncsIncludes(fs));
    RustTypeText(n);
  }

  lemma NoExtraIncludes(s: set<Include>)
    ensures {} + s == s
  {
  }

  /** `type SomeType;`: the type's declarations are the whole header. */
  lemma OpaqueTypeWithVecFunctions(n: string)
    ensures InnerHeader(BridgeModule([RustType(n)], []), true)
      == ("typedef struct " + n + " " + n + ";\n")
       + ("void " + "__swift_bridge__" + "$" + n + "$_free(void* self);\n")
       + (VecOpaqueSupport(n) + "\n")
  {
    var tt := ("typedef struct " + n + " " + n + ";\n")
       + ("void " + "__swift_bridge__" + "$" + n + "$_free(void* self);\n")
       + (VecOpaqueSupport(n) + "\n");
    RustTypeHeader(n, []);
    NoIncludes();
    NoFunctions();
    DropEmptyBlocks(InnerHeader(BridgeModule([RustType(n)], []), true),
      IncludeBlock(FuncsIncludes([])), SliceBlock(FuncsSlices([])), tt, FuncsText([]));
    DropEmpty(tt, FuncsText([]));
  }

  lemma NoFunctions()
    ensures FuncsIncludes([]) == {} && FuncsSlices([]) == [] && FuncsText([]) == ""
  {
  }

  /** A Rust-hosted synchronous prototype, given its return type, link name
      and parameter list. */
  lemma RustPrototype(f: ExternFn, ret: string, link: string, params: string)
    requires f.host == Rust && !f.isAsync
    requires ToC(f.ret) == ret && LinkName(f) == link && ParamsText(f) == params
    ensures FuncText(f) == ret + " " + link + "(" + params + ");\n"
  {
  }

  /** An opaque Rust type with one function that returns no slice: the
      function's include block, the type's declarations, the function's
      text. */
  lemma RustTypeWithMethod(n: string, f: ExternFn, inc: string, proto: string)
    requires f.host == Rust && FuncSlice(f) == None
    requires IncludeBlock(FuncIncludes(f)) == inc && FuncText(f) == proto
    ensures InnerHeader(BridgeModule([RustType(n)], [f]), true)
      == inc
       + (("typedef struct " + n + " " + n + ";\n")
          + ("void " + "__swift_bridge__" + "$" + n + "$_free(void* self);\n")
          + (VecOpaqueSupport(n) + "\n"))
       + proto
  {
    var tt := ("typedef struct " + n + " " + n + ";\n")
       + ("void " + "__swift_bridge__" + "$" + n + "$_free(void* self);\n")
       + (VecOpaqueSupport(n) + "\n");
    RustTypeHeader(n, [f]);
    OneFunctionBlocks(f, inc, proto);
    DropEmptyBlocks(InnerHeader(BridgeModule([RustType(n)], [f]), true), inc, "", tt, proto);
  }

  /** The three blocks of a single function that returns no slice. */
  lemma OneFunctionBlocks(f: ExternFn, inc: string, proto: string)
    requires FuncSlice(f) == None && IncludeBlock(FuncIncludes(f)) == inc && FuncText(f) == proto
    ensures IncludeBlock(FuncsIncludes([f])) == inc && SliceBlock(FuncsSlices([f])) == "" && FuncsText([f]) == proto
  {
    OneFunction(f);
  }

  // ----------------------------------------------------- method tests

  /** `fn foo(&self, val: u8);` on `type SomeType;` */
  lemma MethodOneArg(n: string, name: string, arg: string)
    ensures InnerHeader(BridgeModule([RustType(n)], [MethodOf(n, name, RefSelf, [Param(arg, U8)], Null)]), true)
      == "#include <stdint.h>\n"
       + (("typedef struct " + n + " " + n + ";\n")
          + ("void " + "__swift_bridge__" + "$" + n + "$_free(void* self);\n")
          + (VecOpaqueSupport(n) + "\n"))
       + ("void" + " " + ("__swift_bridge__$" + n + "$" + name) + "("
          + ("void* self" + ", " + ("uint8_t" + " " + arg)) + ");\n")
  {
    var f := MethodOf(n, name, RefSelf, [Param(arg, U8)], Null);
    OneParamBookkeeping(f);
    SyncPrototype(f);
    MethodLink(n, name, RefSelf, [Param(arg, U8)], Null);
    StdIntOnly();
    RustPrototype(f, "void", "__swift_bridge__$" + n + "$" + name, "void* self" + ", " + ("uint8_t" + " " + arg));
    RustTypeWithMethod(n, f, "#include <stdint.h>\n",
      "void" + " " + ("__swift_bridge__$" + n + "$" + name) + "(" + ("void* self" + ", " + ("uint8_t" + " " + arg)) + ");\n");
  }

  /** `fn foo(&self, val: SomeType);` on `type SomeType;`: the opaque
      argument is a pointer and needs no header. */
  lemma MethodOneOpaqueArg(n: string, name: string, arg: string)
    ensures InnerHeader(BridgeModule([RustType(n)], [MethodOf(n, name, RefSelf, [Param(arg, OpaqueHandle(n))], Null)]), true)
      == (("typedef struct " + n + " " + n + ";\n")
          + ("void " + "__swift_bridge__" + "$" + n + "$_free(void* self);\n")
          + (VecOpaqueSupport(n) + "\n"))
       + ("void" + " " + ("__swift_bridge__$" + n + "$" + name) + "("
          + ("void* self" + ", " + ("void*" + " " + arg)) + ");\n")
  {
    var f := MethodOf(n, name, RefSelf, [Param(arg, OpaqueHandle(n))], Null);
    var tt := ("typedef struct " + n + " " + n + ";\n")
       + ("void " + "__swift_bridge__" + "$" + n + "$_free(void* self);\n")
       + (VecOpaqueSupport(n) + "\n");
    var proto := "void" + " " + ("__swift_bridge__$" + n + "$" + name) + "(" + ("void* self" + ", " + ("void*" + " " + arg)) + ");\n";
    OpaqueArgMethodText(n, name, arg);
    RustTypeWithMethod(n, f, "", proto);
    DropEmptyInclude(InnerHeader(BridgeModule([RustType(n)], [f]), true), "", tt, proto);
  }

  /** The method of `method_one_opaque_arg` on its own: no header, no slice,
      and the pointer parameter after `self`. */
  lemma OpaqueArgMethodText(n: string, name: string, arg: string)
    ensures FuncSlice(MethodOf(n, name, RefSelf, [Param(arg, OpaqueHandle(n))], Null)) == None
    ensures IncludeBlock(FuncIncludes(MethodOf(n, name, RefSelf, [Param(arg, OpaqueHandle(n))], Null))) == ""
    ensures FuncText(MethodOf(n, name, RefSelf, [Param(arg, OpaqueHandle(n))], Null))
      == "void" + " " + ("__swift_bridge__$" + n + "$" + name) + "(" + ("void* self" + ", " + ("void*" + " " + arg)) + ");\n"
  {
    var f := MethodOf(n, name, RefSelf, [Param(arg, OpaqueHandle(n))], Null);
    OneParamBookkeeping(f);
    SyncPrototype(f);
    MethodLink(n, name, RefSelf, [Param(arg, OpaqueHandle(n))], Null);
    NoIncludes();
    RustPrototype(f, "void", "__swift_bridge__$" + n + "$" + name, "void* self" + ", " + ("void*" + " " + arg));
  }

  /** `fn foo(&self) -> u8;` on `type SomeType;` */
  lemma MethodWithReturn(n: string, name: string)
    ensures InnerHeader(BridgeModule([RustType(n)], [MethodOf(n, name, RefSelf, [], U8)]), true)
      == "#include <stdint.h>\n"
       + (("typedef struct " + n + " " + n + ";\n")
          + ("void " + "__swift_bridge__" + "$" + n + "$_free(void* self);\n")
          + (VecOpaqueSupport(n) + "\n"))
       + ("uint8_t" + " " + ("__swift_bridge__$" + n + "$" + name) + "(" + "void* self" + ");\n")
  {
    var f := MethodOf(n, name, RefSelf, [], U8);
    NoParamsBookkeeping(f);
    SyncPrototype(f);
    MethodLink(n, name, RefSelf, [], U8);
    StdIntOnly();
    RustPrototype(f, "uint8_t", "__swift_bridge__$" + n + "$" + name, "void* self");
    RustTypeWithMethod(n, f, "#include <stdint.h>\n",
      "uint8_t" + " " + ("__swift_bridge__$" + n + "$" + name) + "(" + "void* self" + ");\n");
  }

  /** The prototype of a method without arguments or return, whatever its
      receiver kind. */
  lemma NoArgsMethodDecl(n: string, name: string, r: Receiver)
    requires r != NoReceiver
    ensures FuncText(MethodOf(n, name, r, [], Null))
      == "void" + " " + ("__swift_bridge__$" + n + "$" + name) + "(" + "void* self" + ");\n"
    ensures FuncIncludes(MethodOf(n, name, r, [], Null)) == {} && FuncSlice(MethodOf(n, name, r, [], Null)) == None
  {
    var f := MethodOf(n, name, r, [], Null);
    MethodLink(n, name, r, [], Null);
    SyncPrototype(f);
    NoParamsBookkeeping(f);
  }

  /** The function text of six functions, in order. */
  lemma SixFunctionsText(a: ExternFn, b: ExternFn, c: ExternFn, d: ExternFn, e: ExternFn, f: ExternFn)
    ensures FuncsText([a, b, c, d, e, f])
      == FuncText(a) + FuncText(b) + FuncText(c) + FuncText(d) + FuncText(e) + FuncText(f)
  {
    assert [a, b, c, d, e, f] == [a, b, c, d, e] + [f];
    assert [a, b, c, d, e] == [a, b, c, d] + [e];
    assert [a, b, c, d] == [a, b, c] + [d];
    assert [a, b, c] == [a, b] + [c];
    assert [a, b] == [a] + [b];
    OneFunction(a);
    FuncsTextSnoc([a], b);
    FuncsTextSnoc([a, b], c);
    FuncsTextSnoc([a, b, c], d);
    FuncsTextSnoc([a, b, c, d], e);
    FuncsTextSnoc([a, b, c, d, e], f);
  }

  /** The six methods of the `method_no_args` test, on type `n`: `fn a(self);
      fn b(&self); fn c(&mut self); fn d(self: n); fn e(self: &n);
      fn f(self: &mut n);`. */
  function NoArgsMethods(n: string): seq<ExternFn>
  {
    [MethodOf(n, "a", OwnedSelf, [], Null), MethodOf(n, "b", RefSelf, [], Null),
     MethodOf(n, "c", RefMutSelf, [], Null), MethodOf(n, "d", OwnedSelf, [], Null),
     MethodOf(n, "e", RefSelf, [], Null), MethodOf(n, "f", RefMutSelf, [], Null)]
  }

  /** None of the six methods needs a header or returns a slice. */
  lemma NoArgsMethodsPlain(n: string)
    ensures FuncsIncludes(NoArgsMethods(n)) == {} && FuncsSlices(NoArgsMethods(n)) == []
  {
    var fs := NoArgsMethods(n);
    forall k | 0 <= k < |fs|
      ensures FuncIncludes(fs[k]) == {} && FuncSlice(fs[k]) == None
    {
      NoArgsMethodDecl(n, fs[k].name, fs[k].receiver);
    }
    PlainFunctions(fs);
  }

  /** The six prototypes, in declaration order. */
  lemma NoArgsMethodsText(n: string)
    ensures FuncsText(NoArgsMethods(n))
      == ("void" + " " + ("__swift_bridge__$" + n + "$" + "a") + "(" + "void* self" + ");\n")
       + ("void" + " " + ("__swift_bridge__$" + n + "$" + "b") + "(" + "void* self" + ");\n")
       + ("void" + " " + ("__swift_bridge__$" + n + "$" + "c") + "(" + "void* self" + ");\n")
       + ("void" + " " + ("__swift_bridge__$" + n + "$" + "d") + "(" + "void* self" + ");\n")
       + ("void" + " " + ("__swift_bridge__$" + n + "$" + "e") + "(" + "void* self" + ");\n")
       + ("void" + " " + ("__swift_bridge__$" + n + "$" + "f") + "(" + "void* self" + ");\n")
  {
    var fs := NoArgsMethods(n);
    SixFunctionsText(fs[0], fs[1], fs[2], fs[3], fs[4], fs[5]);
    NoArgsMethodDecl(n, "a", OwnedSelf);
    NoArgsMethodDecl(n, "b", RefSelf);
    NoArgsMethodDecl(n, "c", RefMutSelf);
    NoArgsMethodDecl(n, "d", OwnedSelf);
    NoArgsMethodDecl(n, "e", RefSelf);
    NoArgsMethodDecl(n, "f", RefMutSelf);
  }

  /** `fn a(self); fn b(&self); fn c(&mut self); fn d(self: SomeType);
      fn e(self: &SomeType); fn f(self: &mut SomeType);` on
      `type SomeType;`: after the type's declarations, the six prototypes in
      order, each with `void* self`. */
  lemma MethodNoArgs(n: string)
    ensures InnerHeader(BridgeModule([RustType(n)], NoArgsMethods(n)), true)
      == (("typedef struct " + n + " " + n + ";\n")
          + ("void " + "__swift_bridge__" + "$" + n + "$_free(void* self);\n")
          + (VecOpaqueSupport(n) + "\n"))
       + (("void" + " " + ("__swift_bridge__$" + n + "$" + "a") + "(" + "void* self" + ");\n")
          + ("void" + " " + ("__swift_bridge__$" + n + "$" + "b") + "(" + "void* self" + ");\n")
          + ("void" + " " + ("__swift_bridge__$" + n + "$" + "c") + "(" + "void* self" + ");\n")
          + ("void" + " " + ("__swift_bridge__$" + n + "$" + "d") + "(" + "void* self" + ");\n")
          + ("void" + " " + ("__swift_bridge__$" + n + "$" + "e") + "(" + "void* self" + ");\n")
          + ("void" + " " + ("__swift_bridge__$" + n + "$" + "f") + "(" + "void* self" + ");\n"))
  {
    var fs := NoArgsMethods(n);
    var tt := ("typedef struct " + n + " " + n + ";\n")
       + ("void " + "__swift_bridge__" + "$" + n + "$_free(void* self);\n")
       + (VecOpaqueSupport(n) + "\n");
    RustTypeHeader(n, fs);
    NoArgsMethodsPlain(n);
    NoIncludes();
    NoArgsMethodsText(n);
    DropEmptyBlocks(InnerHeader(BridgeModule([RustType(n)], fs), true),
      IncludeBlock(FuncsIncludes(fs)), SliceBlock(FuncsSlices(fs)), tt, FuncsText(fs));
  }

  // ---------------------------------------------- Swift types and slices

  /** `fn some_function() -> Foo;` with `type Foo;` in an `extern "Swift"`
      block: the Swift type gets no declaration and is passed as a pointer. */
  lemma ReturnsSwiftOpaque(ty: string, name: string)
    ensures InnerHeader(BridgeModule([Opaque(ty, Swift, false, false, None, false, false, [])],
        [RustFn(name, [], OpaqueHandle(ty))]), true)
      == "void*" + " " + ("__swift_bridge__$" + name) + "(" + "void" + ");\n"
  {
    var t := Opaque(ty, Swift, false, false, None, false, false, []);
    var f := RustFn(name, [], OpaqueHandle(ty));
    var h := InnerHeader(BridgeModule([t], [f]), true);
    OneTypeHeader(t, [f]);
    OneFunction(f);
    NoParamsBookkeeping(f);
    SwiftTypeSilent(t);
    NoIncludes();
    SyncPrototype(f);
    FreestandingLink(name, [], OpaqueHandle(ty));
    DropEmptyBlocks(h, IncludeBlock(TypeIncludes(t) + FuncsIncludes([f])), SliceBlock(FuncsSlices([f])),
      TypeText(t), FuncsText([f]));
    DropEmpty(FuncText(f), TypeText(t));
  }

  /** A Swift-hosted opaque type adds neither text nor headers. */
  lemma SwiftTypeSilent(t: TypeDecl)
    requires t.Opaque? && t.host == Swift
    ensures TypeText(t) == "" && TypeIncludes(t) == {}
  {
  }

  /** `fn foo() -> &'static [u8]; fn bar() -> &'static [u8];`: both
      functions return the slice struct, and the `uint8_t` slice typedef is
      declared once, after the one include line. */
  lemma SliceReturn(foo: string, bar: string)
    ensures InnerHeader(BridgeModule([], [RustFn(foo, [], RefSlice(U8)), RustFn(bar, [], RefSlice(U8))]), true)
      == "#include <stdint.h>\n"
       + ("typedef struct FfiSlice_" + "uint8_t" + " { " + "uint8_t" + "* start; uintptr_t len; } FfiSlice_" + "uint8_t" + ";\n")
       + (("struct __private__FfiSlice" + " " + ("__swift_bridge__$" + foo) + "(" + "void" + ");\n")
          + ("struct __private__FfiSlice" + " " + ("__swift_bridge__$" + bar) + "(" + "void" + ");\n"))
  {
    var fs := [RustFn(foo, [], RefSlice(U8)), RustFn(bar, [], RefSlice(U8))];
    FunctionsOnlyHeader(fs);
    SliceReturnBookkeeping(foo, bar);
    StdIntOnly();
    SliceReturnTypedef();
    SliceReturnText(foo, bar);
  }

  /** Both functions need `stdint.h` and return a `uint8_t` slice, which is
      inserted once. */
  lemma SliceReturnBookkeeping(foo: string, bar: string)
    ensures FuncsSlices([RustFn(foo, [], RefSlice(U8)), RustFn(bar, [], RefSlice(U8))]) == ["uint8_t"]
    ensures FuncsIncludes([RustFn(foo, [], RefSlice(U8)), RustFn(bar, [], RefSlice(U8))]) == {StdInt}
  {
    var f, g := RustFn(foo, [], RefSlice(U8)), RustFn(bar, [], RefSlice(U8));
    var fs := [f, g];
    OneFunction(f);
    NoParamsBookkeeping(f);
    NoParamsBookkeeping(g);
    UnionOfStep(fs, FuncIncludes, 1);
    InsertAllStep(fs, FuncSlice, 1);
    assert fs[..1] == [f] && fs[..2] == fs;
  }

  lemma SliceReturnTypedef()
    ensures SliceBlock(["uint8_t"])
      == "typedef struct FfiSlice_" + "uint8_t" + " { " + "uint8_t" + "* start; uintptr_t len; } FfiSlice_" + "uint8_t" + ";\n"
  {
    assert ["uint8_t"][..0] == [];
    DropEmpty(SliceTypedef("uint8_t"), SliceBlock([]));
  }

  lemma SliceReturnText(foo: string, bar: string)
    ensures FuncsText([RustFn(foo, [], RefSlice(U8)), RustFn(bar, [], RefSlice(U8))])
      == ("struct __private__FfiSlice" + " " + ("__swift_bridge__$" + foo) + "(" + "void" + ");\n")
       + ("struct __private__FfiSlice" + " " + ("__swift_bridge__$" + bar) + "(" + "void" + ");\n")
  {
    var f, g := RustFn(foo, [], RefSlice(U8)), RustFn(bar, [], RefSlice(U8));
    assert [f, g] == [f] + [g];
    OneFunction(f);
    FuncsTextSnoc([f], g);
    SyncPrototype(f);
    SyncPrototype(g);
    FreestandingLink(foo, [], RefSlice(U8));
    FreestandingLink(bar, [], RefSlice(U8));
  }
}
