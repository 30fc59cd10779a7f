# swift-bridge: C header generation and the Swift ownership protocol

swift-bridge generates the glue between Rust and Swift from an annotated
`#[swift_bridge::bridge] mod ffi { ... }` module. This project models three
parts of it in Dafny and proves properties of the model.

- **The C header backend** (`generate_c_header`, `generate_c_header_inner`,
  `declare_func`, the two Vec support bundles). The generator walks the type
  declarations, then the functions. It appends text to `header` and inserts
  the headers it needs into an include set and the returned slice element
  types into a slice-type set. It then prepends the `FfiSlice_<T>` typedefs
  and the `#include` lines one at a time.
  - `c_header.dfy` holds this walk as imperative methods (`GenerateCHeaderInner`
    and its helpers). Each method is proved equal to a declarative
    specification (`InnerHeader`, `TypeText`, `DeclareFunc`, ...).
  - `c_header_lemmas.dfy` proves what the generator promises: which
    declarations are skipped, when the Vec bundles appear, which headers are
    included and in what order, and that each slice typedef appears once.
  - `c_header_examples.dfy` states, for each of the generator's unit tests
    on a module with something to emit, the whole inner header the test
    expects. The test's identifiers are parameters, so each statement covers
    every module that differs from the test's only in its names. The tests on
    an empty and on a Swift-only module follow from
    `CHeaderLemmas.EmptyModuleHeader`.
- **The Swift wrapper classes** (`RustString` / `RustStringRefMut` /
  `RustStringRef`, `RustVec`, `RustVecIterator`, `toFfiSlice`).
  - `rust_store.dfy` is the Rust side as the wrappers see it: a heap of
    handles with, as ghost state, who must free each one.
  - `swift_wrappers.dfy` models the wrappers as classes whose methods update
    `isOwned` and the heap. They are proved to keep the ownership invariant:
    every live handle has one owner, and a wrapper frees a handle exactly when
    it owns it.
  - `ownership_examples.dfy` walks through push / pop / drop sequences and
    proves that nothing is freed twice and nothing leaks.
- **Class placement of methods** (`class_placement.dfy`). Every opaque Rust
  type `T` gets the chain of classes `T : TRefMut : TRef`.
  - A `self` method lands on `T`, a `&mut self` method on `TRefMut`, and a
    `&self` method on `TRef`.
  - An owned `self` is passed as `{isOwned = false; return ptr;}()`.
  - `class_placement_examples.dfy` derives what the generator's placement
    test expects.

`collect.dfy` (folds into a set and into a duplicate-free sequence),
`text.dfy` (join, decimal rendering, trimming) and `bridged_type.dfy` (the C spelling of
resolved types) are supporting modules. `ir.dfy` holds the parsed module the
generator works on.

## Model

| member | source | states |
|---|---|---|
| `CHeader.GenerateCHeader` | crates/swift-bridge-ir/src/codegen/generate_c_header.rs:12-28 | the header is the notice line, a newline, then exactly the inner header |
| `CHeader.GenerateCHeaderInner` | crates/swift-bridge-ir/src/codegen/generate_c_header.rs:30-287 | the generator's two walks and two prepend loops produce `InnerHeader(m, compiled)`: empty when the module is not compiled, otherwise the include block, then the slice typedefs, then the type text, then the function text |
| `CHeader.TypeWalk` | crates/swift-bridge-ir/src/codegen/generate_c_header.rs:44-248 | the loop over the type declarations appends each declaration's text in order and unions each declaration's headers |
| `CHeader.DeclareType` | crates/swift-bridge-ir/src/codegen/generate_c_header.rs:45-247 | one step of the type walk: already-declared structs and enums add nothing, and neither do Swift-hosted, already-declared or generic-declaration opaque types; otherwise the arm of the declaration's kind |
| `CHeader.DeclareStruct` | crates/swift-bridge-ir/src/codegen/generate_c_header.rs:47-127 | a struct gives its typedef and its option wrapper, and needs `stdbool.h` plus `stdint.h` for the placeholder or its field types' headers |
| `CHeader.StructFieldList` | crates/swift-bridge-ir/src/codegen/generate_c_header.rs:68-102 | the field loop lists each field as `<c type> <name>`, in order, and collects exactly the headers of the field types |
| `CHeader.DeclareEnum` | crates/swift-bridge-ir/src/codegen/generate_c_header.rs:128-166 | an enum gives its tag enum, its struct, its option wrapper and the by-value Vec bundle unless a variant carries data; it needs only `stdbool.h` |
| `CHeader.DeclareOpaqueTraits` | crates/swift-bridge-ir/src/codegen/generate_c_header.rs:180-196 | the `_hash` prototype (no line break after it) for a hashable type, the `_partial_eq` prototype for an equatable one, which also needs `stdint.h` and `stdbool.h` |
| `CHeader.DeclareOpaqueRepr` | crates/swift-bridge-ir/src/codegen/generate_c_header.rs:197-238 | a copy type is a byte array of its size with an option wrapper and needs both headers; any other type is a pointer typedef with a `_free` function carrying its `$`-prefixed generics |
| `CHeader.DeclareOpaqueLayout` | crates/swift-bridge-ir/src/codegen/generate_c_header.rs:197-246 | the representation, then the pointer-keyed Vec bundle when the type is not copy and has no generics |
| `CHeader.DeclareOpaque` | crates/swift-bridge-ir/src/codegen/generate_c_header.rs:168-247 | an emitted opaque type is its trait part followed by its layout part, and needs the headers of both |
| `CHeader.DeclareSwiftFnCallbacks` | crates/swift-bridge-ir/src/codegen/generate_c_header.rs:251-261 | a Swift-hosted function declares the entry points of each boxed-closure argument, except closures with no parameters and no return |
| `CHeader.DeclareFuncStep` | crates/swift-bridge-ir/src/codegen/generate_c_header.rs:322-371 | `declare_func` returns the prototype, adds the function's headers, and inserts a returned slice's element type only if it is not already there |
| `CHeader.DeclareFunction` | crates/swift-bridge-ir/src/codegen/generate_c_header.rs:250-265 | one step of the function walk: a Swift-hosted function only declares closure entry points; a Rust-hosted one goes through `declare_func` |
| `CHeader.FunctionWalk` | crates/swift-bridge-ir/src/codegen/generate_c_header.rs:250-265 | the loop over the functions appends each function's text in order, unions the headers and collects the slice types in first-insertion order |
| `CHeader.PrependSlices` | crates/swift-bridge-ir/src/codegen/generate_c_header.rs:267-274 | prepending the typedefs one at a time yields the slice block, last inserted first, above the body |
| `CHeader.PrependIncludes` | crates/swift-bridge-ir/src/codegen/generate_c_header.rs:276-284 | prepending the sorted include names one at a time yields the include block above the body |
| `CHeader.InnerHeaderNested` | crates/swift-bridge-ir/src/codegen/generate_c_header.rs:267-286 | the inner header is the nesting the two prepend loops build around the walked text |
| `CHeaderLemmas.SkipRule` | crates/swift-bridge-ir/src/codegen/generate_c_header.rs:48-50 | a declaration adds no text exactly when it is skipped, and a skipped one adds no headers either |
| `CHeaderLemmas.Emitted` | crates/swift-bridge-ir/src/codegen/generate_c_header.rs:44-50 | the emitted declarations are declarations of the module that are not skipped |
| `CHeaderLemmas.SkippedDeclsInvisible` | crates/swift-bridge-ir/src/codegen/generate_c_header.rs:128-131 | dropping the skipped declarations changes neither the type text nor the include set |
| `CHeaderLemmas.AllSkippedTypesEmpty` | crates/swift-bridge-ir/src/codegen/generate_c_header.rs:168-179 | a walk over only skipped declarations produces no text and no headers |
| `CHeaderLemmas.SilentSwiftFnText` | crates/swift-bridge-ir/src/codegen/generate_c_header.rs:252-255 | a Swift-hosted function whose closures all take and return nothing declares nothing |
| `CHeaderLemmas.SilentFunctionsEmpty` | crates/swift-bridge-ir/src/codegen/generate_c_header.rs:250-262 | functions that are all such Swift-hosted functions add no text, no headers and no slice types |
| `CHeaderLemmas.EmptyModuleHeader` | crates/swift-bridge-ir/src/codegen/generate_c_header.rs:392-424 | a module with nothing to emit has an empty inner header, and its header trims to the notice line |
| `CHeaderLemmas.NoticeTrimmed` | crates/swift-bridge-ir/src/codegen/generate_c_header.rs:21-28 | the notice line and its newline trim to the notice line |
| `CHeaderLemmas.NotCompiledHeader` | crates/swift-bridge-ir/src/codegen/generate_c_header.rs:33-35 | a module that is not compiled has an empty inner header whatever it holds |
| `CHeaderLemmas.EmptyStructPlaceholder` | crates/swift-bridge-ir/src/codegen/generate_c_header.rs:62-67 | a struct without fields is laid out as the single field `uint8_t _private` |
| `CHeaderLemmas.EmptyStructIncludes` | crates/swift-bridge-ir/src/codegen/generate_c_header.rs:58-65 | a struct without fields needs exactly `stdbool.h` and `stdint.h` |
| `CHeaderLemmas.UnnamedFieldNames` | crates/swift-bridge-ir/src/codegen/generate_c_header.rs:83-94 | positional field `i` is named `_i`, and two different positions never share a name |
| `CHeaderLemmas.StructFieldsLaidOut` | crates/swift-bridge-ir/src/codegen/generate_c_header.rs:68-113 | a struct with fields lays out exactly its fields, in order, each as its C type and its name |
| `CHeaderLemmas.TypesIncludeSetMembership` | crates/swift-bridge-ir/src/codegen/generate_c_header.rs:74-76 | a header is collected from field types exactly when some field type needs it |
| `CHeaderLemmas.StructIncludesMembership` | crates/swift-bridge-ir/src/codegen/generate_c_header.rs:58-90 | a struct needs `stdbool.h` always, and another header exactly for the placeholder or for a field type that needs it |
| `CHeaderLemmas.OptionWrapperAlways` | crates/swift-bridge-ir/src/codegen/generate_c_header.rs:115-159 | every emitted struct and enum ends with its option wrapper and so needs `stdbool.h` |
| `CHeaderLemmas.EnumVecBundleRule` | crates/swift-bridge-ir/src/codegen/generate_c_header.rs:148-152 | an enum gets the by-value Vec bundle exactly when no variant carries data |
| `CHeaderLemmas.OpaqueLayoutRule` | crates/swift-bridge-ir/src/codegen/generate_c_header.rs:197-246 | a copy type gets its byte-array typedefs and no Vec bundle; any other type gets the pointer typedef and `_free`, and the Vec bundle exactly when it has no generics |
| `CHeaderLemmas.OpaqueTraitRule` | crates/swift-bridge-ir/src/codegen/generate_c_header.rs:180-196 | only `Equatable` brings in headers; a hashable-only type's trait part is the hash prototype with no line break |
| `CHeaderLemmas.AsyncPrototypeParts` | crates/swift-bridge-ir/src/codegen/generate_c_header.rs:345-364 | in the async form the callback's `ret` argument is absent exactly when the function returns nothing, and the trailing parameters exactly when it has no inputs |
| `CHeaderLemmas.ParamsTextRule` | crates/swift-bridge-ir/src/codegen/generate_c_header.rs:329 | no inputs declares `void`; otherwise the parameters joined by `, ` |
| `CHeaderLemmas.ReceiverKindIrrelevant` | crates/swift-bridge-ir/src/codegen/generate_c_header.rs:529-562 | every receiver kind becomes a leading `void* self`, so methods differing only in how they take `self` get the same prototype |
| `CHeaderLemmas.FnIncludesMembership` | crates/swift-bridge-ir/src/codegen/generate_c_header.rs:339-343 | a Rust-hosted function needs a header exactly when a parameter or its return type needs it |
| `CHeaderLemmas.TypesIncludesMembership` | crates/swift-bridge-ir/src/codegen/generate_c_header.rs:44-248 | a header is in the type walk's set exactly when some declaration needs it |
| `CHeaderLemmas.FuncsIncludesMembership` | crates/swift-bridge-ir/src/codegen/generate_c_header.rs:250-265 | a header is in the function walk's set exactly when some Rust-hosted function needs it |
| `CHeaderLemmas.ModuleIncludesMembership` | crates/swift-bridge-ir/src/codegen/generate_c_header.rs:276-284 | the include block covers exactly the headers some declaration or Rust-hosted function needs |
| `CHeaderLemmas.SlicesDistinct` | crates/swift-bridge-ir/src/codegen/generate_c_header.rs:331-337 | the slice element types are pairwise distinct and are exactly the element types some function returns a slice of |
| `CHeaderLemmas.SliceBlockTypedefs` | crates/swift-bridge-ir/src/codegen/generate_c_header.rs:267-274 | the slice block is nothing but one `FfiSlice_<T>` typedef per element type, last inserted first |
| `CHeaderLemmas.IncludeBlockOrder` | crates/swift-bridge-ir/src/codegen/generate_c_header.rs:276-284 | each needed header is included exactly once, `stdint.h` above `stdbool.h` (sorted, then prepended) |
| `CHeaderExamples.FunctionsOnlyHeader` | crates/swift-bridge-ir/src/codegen/generate_c_header.rs:267-286 | a module without type declarations is its include block, its slice block, then its function text |
| `CHeaderExamples.OneTypeHeader` | crates/swift-bridge-ir/src/codegen/generate_c_header.rs:44-286 | a module with one type declaration: include block of the type's and the functions' headers, slice block, type text, function text |
| `CHeaderExamples.OneFunction` | crates/swift-bridge-ir/src/codegen/generate_c_header.rs:250-265 | the function walk over one function is that function's text, headers and slice type |
| `CHeaderExamples.FuncsTextSnoc` | crates/swift-bridge-ir/src/codegen/generate_c_header.rs:250-265 | the function walk appends each function's text in declaration order |
| `CHeaderExamples.PlainFunctions` | crates/swift-bridge-ir/src/codegen/generate_c_header.rs:250-265 | functions that need no header and return no slice leave both sets empty |
| `CHeaderExamples.NoIncludes` | crates/swift-bridge-ir/src/codegen/generate_c_header.rs:276-284 | no needed header, no include line |
| `CHeaderExamples.StdIntOnly` | crates/swift-bridge-ir/src/codegen/generate_c_header.rs:276-284 | `stdint.h` alone gives the single line `#include <stdint.h>` |
| `CHeaderExamples.SyncPrototype` | crates/swift-bridge-ir/src/codegen/generate_c_header.rs:322-383 | a synchronous prototype is `<ret> <link name>(<params>);`, the parameter list being `void`, `void* self`, one `<type> <name>`, or `void* self` followed by it |
| `CHeaderExamples.FreestandingLink` | crates/swift-bridge-ir/src/codegen/generate_c_header.rs:326 | a freestanding function links as `__swift_bridge__$<name>` |
| `CHeaderExamples.MethodLink` | crates/swift-bridge-ir/src/codegen/generate_c_header.rs:326 | a method of `T` links as `__swift_bridge__$T$<name>` |
| `CHeaderExamples.NoParamsBookkeeping` | crates/swift-bridge-ir/src/codegen/generate_c_header.rs:329-343 | a function without parameters needs exactly what its return type needs and records its return's slice type |
| `CHeaderExamples.OneParamBookkeeping` | crates/swift-bridge-ir/src/codegen/generate_c_header.rs:329-343 | a function with one parameter and no return needs exactly what the parameter needs and records no slice |
| `CHeaderExamples.OneRustFunctionHeader` | crates/swift-bridge-ir/src/codegen/generate_c_header.rs:250-286 | one Rust-hosted synchronous function is its include block followed by its prototype |
| `CHeaderExamples.FreestandingNoArgs` | crates/swift-bridge-ir/src/codegen/generate_c_header.rs:426-448 | `fn foo();` gives exactly `void __swift_bridge__$foo(void);` |
| `CHeaderExamples.FreestandingOneArg` | crates/swift-bridge-ir/src/codegen/generate_c_header.rs:450-473 | `fn foo(arg1: u8);` gives exactly `#include <stdint.h>` then `void __swift_bridge__$foo(uint8_t arg1);` |
| `CHeaderExamples.FreestandingWithReturn` | crates/swift-bridge-ir/src/codegen/generate_c_header.rs:475-498 | `fn foo() -> u8;` gives exactly `#include <stdint.h>` then `uint8_t __swift_bridge__$foo(void);` |
| `CHeaderExamples.RustTypePointerDecls` | crates/swift-bridge-ir/src/codegen/generate_c_header.rs:220-235 | the pointer typedef and the `_free` prototype of a non-generic opaque type |
| `CHeaderExamples.OpaqueTextParts` | crates/swift-bridge-ir/src/codegen/generate_c_header.rs:168-246 | an opaque type's text is its trait prototypes followed by its layout declarations |
| `CHeaderExamples.RustTypeParts` | crates/swift-bridge-ir/src/codegen/generate_c_header.rs:178-246 | a plain opaque Rust type has no trait prototypes and no headers; its layout is the pointer declarations then the Vec bundle |
| `CHeaderExamples.RustTypeTrait` | crates/swift-bridge-ir/src/codegen/generate_c_header.rs:178-201 | a plain opaque Rust type adds no `_hash`/`_partial_eq` prototype and no header |
| `CHeaderExamples.RustTypeLayout` | crates/swift-bridge-ir/src/codegen/generate_c_header.rs:202-245 | a plain opaque Rust type is declared by pointer and gets the Vec bundle |
| `CHeaderExamples.RustTypeText` | crates/swift-bridge-ir/src/codegen/generate_c_header.rs:178-246 | a plain opaque Rust type's text is the typedef, the `_free` prototype, then the Vec bundle and a newline |
| `CHeaderExamples.RustTypeHeader` | crates/swift-bridge-ir/src/codegen/generate_c_header.rs:30-286 | a module of one plain opaque Rust type and some functions: include block, slice block, the type's text, the function text |
| `CHeaderExamples.OpaqueTypeWithVecFunctions` | crates/swift-bridge-ir/src/codegen/generate_c_header.rs:500-527 | `type SomeType;` gives exactly the typedef, the `_free` prototype and the Vec bundle |
| `CHeaderExamples.NoFunctions` | crates/swift-bridge-ir/src/codegen/generate_c_header.rs:250-265 | no functions, no text, headers or slice types |
| `CHeaderExamples.RustPrototype` | crates/swift-bridge-ir/src/codegen/generate_c_header.rs:377-382 | a Rust-hosted synchronous function's text is its return type, link name and parameter list in the prototype shape |
| `CHeaderExamples.RustTypeWithMethod` | crates/swift-bridge-ir/src/codegen/generate_c_header.rs:30-286 | a plain opaque Rust type with one function: the function's include block, the type's text, the prototype |
| `CHeaderExamples.OneFunctionBlocks` | crates/swift-bridge-ir/src/codegen/generate_c_header.rs:250-286 | one function that returns no slice contributes its own include block, no slice block and its own text |
| `CHeaderExamples.MethodOneArg` | crates/swift-bridge-ir/src/codegen/generate_c_header.rs:564-594 | `fn foo(&self, val: u8);` gives exactly the include line, the type's declarations and `void __swift_bridge__$SomeType$foo(void* self, uint8_t val);` |
| `CHeaderExamples.MethodOneOpaqueArg` | crates/swift-bridge-ir/src/codegen/generate_c_header.rs:596-625 | `fn foo(&self, val: SomeType);` gives exactly the type's declarations and `void __swift_bridge__$SomeType$foo(void* self, void* val);`, no include line |
| `CHeaderExamples.OpaqueArgMethodText` | crates/swift-bridge-ir/src/codegen/generate_c_header.rs:596-625 | an opaque-typed argument needs no header, returns no slice and is passed as `void*` |
| `CHeaderExamples.MethodWithReturn` | crates/swift-bridge-ir/src/codegen/generate_c_header.rs:627-657 | `fn foo(&self) -> u8;` gives exactly the include line, the type's declarations and `uint8_t __swift_bridge__$SomeType$foo(void* self);` |
| `CHeaderExamples.NoArgsMethodDecl` | crates/swift-bridge-ir/src/codegen/generate_c_header.rs:529-562 | a method without arguments or return, of any receiver kind, is declared `void __swift_bridge__$T$<name>(void* self);` and needs nothing |
| `CHeaderExamples.SixFunctionsText` | crates/swift-bridge-ir/src/codegen/generate_c_header.rs:250-265 | six functions give their six texts in order |
| `CHeaderExamples.NoArgsMethodsPlain` | crates/swift-bridge-ir/src/codegen/generate_c_header.rs:529-562 | the six methods of `method_no_args` need no header and return no slice |
| `CHeaderExamples.NoArgsMethodsText` | crates/swift-bridge-ir/src/codegen/generate_c_header.rs:529-562 | the six methods of `method_no_args` give six `void* self` prototypes in order |
| `CHeaderExamples.MethodNoArgs` | crates/swift-bridge-ir/src/codegen/generate_c_header.rs:529-562 | the six methods `a` to `f` give exactly the type's declarations and six prototypes `void __swift_bridge__$SomeType$<x>(void* self);` |
| `CHeaderExamples.ReturnsSwiftOpaque` | crates/swift-bridge-ir/src/codegen/generate_c_header.rs:694-719 | `fn some_function() -> Foo;` with a Swift `type Foo;` gives exactly `void* __swift_bridge__$some_function(void);` |
| `CHeaderExamples.SwiftTypeSilent` | crates/swift-bridge-ir/src/codegen/generate_c_header.rs:168-171 | a Swift-hosted opaque type adds no text and no header |
| `CHeaderExamples.SliceReturn` | crates/swift-bridge-ir/src/codegen/generate_c_header.rs:659-687 | `foo` and `bar` returning `&'static [u8]` give exactly the include line, one `FfiSlice_uint8_t` typedef and the two prototypes |
| `CHeaderExamples.SliceReturnBookkeeping` | crates/swift-bridge-ir/src/codegen/generate_c_header.rs:329-343 | both functions need `stdint.h` and the slice type `uint8_t` is recorded once |
| `CHeaderExamples.SliceReturnTypedef` | crates/swift-bridge-ir/src/codegen/generate_c_header.rs:267-274 | the slice block for `uint8_t` is the one `FfiSlice_uint8_t` typedef |
| `CHeaderExamples.SliceReturnText` | crates/swift-bridge-ir/src/codegen/generate_c_header.rs:250-265 | both functions return `struct __private__FfiSlice` and take `void` |
| `Collect.UnionOfMembership` | crates/swift-bridge-ir/src/codegen/generate_c_header.rs:74-76 | an element is in the union exactly when one of the collected sets holds it |
| `Collect.InsertAllDistinct` | crates/swift-bridge-ir/src/codegen/generate_c_header.rs:331-337 | inserting into a set kept as a sequence keeps it duplicate-free and holds exactly the inserted values |
| `BridgedTypes.IncludeFollowsSpelling` | crates/swift-bridge-ir/src/codegen/generate_c_header.rs:74-76 | the header a type needs follows from its C spelling: `stdint.h` exactly for the fixed-width integer spellings, `stdbool.h` exactly for `bool`, none otherwise; a slice needs its element type's header |
| `Text.Join` | crates/swift-bridge-ir/src/codegen/generate_c_header.rs:104-110 | joining nothing gives the empty string, joining one part gives that part |
| `Text.JoinInterleaves` | crates/swift-bridge-ir/src/codegen/generate_c_header.rs:104-110 | joining is the first part followed by every later part with the separator in front of it |
| `Text.NatToString` | crates/swift-bridge-ir/src/codegen/generate_c_header.rs:91 | the decimal rendering is nonempty, all digits, without a leading zero |
| `Text.NatToStringRoundTrip` | crates/swift-bridge-ir/src/codegen/generate_c_header.rs:91 | reading back the rendering gives the number |
| `Text.NatToStringInjective` | crates/swift-bridge-ir/src/codegen/generate_c_header.rs:91 | distinct positions render to distinct names |
| `Text.TrimStart` | crates/swift-bridge-ir/src/codegen/generate_c_header.rs:403-404 | `trim_start` keeps a suffix, drops only whitespace and stops at a non-whitespace character |
| `Text.TrimEnd` | crates/swift-bridge-ir/src/codegen/generate_c_header.rs:403-404 | `trim_end` keeps a prefix, drops only whitespace and stops at a non-whitespace character |
| `Text.Trim` | crates/swift-bridge-ir/src/codegen/generate_c_header.rs:403-404 | the trimmed text is no longer and neither starts nor ends with whitespace |
| `Text.TrimKeepsMiddle` | crates/swift-bridge-ir/src/codegen/generate_c_header.rs:403-404 | `trim` keeps a contiguous part of the text with only whitespace around it |
| `ClassPlacement.SuperClass` | crates/swift-bridge-ir/src/codegen/codegen_tests/extern_rust_method_swift_class_placement_codegen_tests.rs:39-81 | `T : TRefMut : TRef`: every class but the base has a superclass one step closer to the base |
| `ClassPlacement.SubclassByDepth` | crates/swift-bridge-ir/src/codegen/codegen_tests/extern_rust_method_swift_class_placement_codegen_tests.rs:39-81 | the chain is a total order: `a` derives from `b` exactly when `b` is no further from the base |
| `ClassPlacement.Placement` | crates/swift-bridge-ir/src/codegen/codegen_tests/extern_rust_method_swift_class_placement_codegen_tests.rs:5-9 | a function lands on a class exactly when it has a receiver |
| `ClassPlacement.CallableRule` | crates/swift-bridge-ir/src/codegen/codegen_tests/extern_rust_method_swift_class_placement_codegen_tests.rs:39-90 | `self` methods are callable only on `T`, `&mut self` methods on `T` and `TRefMut`, `&self` methods on all three |
| `ClassPlacement.SelfArg` | crates/swift-bridge-ir/src/codegen/codegen_tests/extern_rust_method_swift_class_placement_codegen_tests.rs:53-89 | the receiver argument is plain `ptr` exactly for the borrowed receivers |
| `ClassPlacement.MethodsOn` | crates/swift-bridge-ir/src/codegen/codegen_tests/extern_rust_method_swift_class_placement_codegen_tests.rs:52-90 | a class's extension lists no more methods than were declared; only `extern "Rust"` methods of the class's own type are candidates |
| `ClassPlacement.MethodsOnMembership` | crates/swift-bridge-ir/src/codegen/codegen_tests/extern_rust_method_swift_class_placement_codegen_tests.rs:52-90 | a function is listed on a class of `T` exactly when it is declared in an `extern "Rust"` block as a method of `T` and its receiver places it on that class |
| `ClassPlacement.MethodsOnAppend` | crates/swift-bridge-ir/src/codegen/codegen_tests/extern_rust_method_swift_class_placement_codegen_tests.rs:16-27 | a newly declared function is appended to its own class's list only, keeping declaration order, and to no list when it is not a Rust method of the type |
| `ClassPlacement.PlacementPartition` | crates/swift-bridge-ir/src/codegen/codegen_tests/extern_rust_method_swift_class_placement_codegen_tests.rs:5-9 | every Rust method of `T` that takes `self` lands on exactly one of `T`'s three classes |
| `ClassPlacement.DeclaredFields` | crates/swift-bridge-ir/src/codegen/codegen_tests/extern_rust_method_swift_class_placement_codegen_tests.rs:39-81 | each class declares at most one stored property |
| `ClassPlacement.FieldsAlongChain` | crates/swift-bridge-ir/src/codegen/codegen_tests/extern_rust_method_swift_class_placement_codegen_tests.rs:39-81 | `ptr` is declared once, on the base every class derives from, and only the owning class declares `isOwned` |
| `ClassPlacementExamples.SixMethodsPlacement` | crates/swift-bridge-ir/src/codegen/codegen_tests/extern_rust_method_swift_class_placement_codegen_tests.rs:16-27 | two owned, two shared and two mutable methods of one type split into three lists of two, each in declaration order |
| `ClassPlacementExamples.ThreeAppend` | crates/swift-bridge-ir/src/codegen/codegen_tests/extern_rust_method_swift_class_placement_codegen_tests.rs:16-27 | three declared functions are appended, each to its own class's list, in order |
| `ClassPlacementExamples.SomeTypePlacement` | crates/swift-bridge-ir/src/codegen/codegen_tests/extern_rust_method_swift_class_placement_codegen_tests.rs:52-90 | `a`, `b` on `SomeType`; `e`, `f` on `SomeTypeRefMut`; `c`, `d` on `SomeTypeRef` |
| `ClassPlacementExamples.SomeTypeClassHeaders` | crates/swift-bridge-ir/src/codegen/codegen_tests/extern_rust_method_swift_class_placement_codegen_tests.rs:39-75 | the three class lines and an extension line of the test |
| `ClassPlacementExamples.OwnedSelfCall` | crates/swift-bridge-ir/src/codegen/codegen_tests/extern_rust_method_swift_class_placement_codegen_tests.rs:53-55 | `a()` calls `__swift_bridge__$SomeType$a` with the flag-clearing closure |
| `ClassPlacementExamples.BorrowedSelfCalls` | crates/swift-bridge-ir/src/codegen/codegen_tests/extern_rust_method_swift_class_placement_codegen_tests.rs:66-90 | `e()` and `c()` pass `ptr` as it is |
| `RustStore.TrimStartDrops` | crates/swift-bridge-build/src/generate_core/rust_string.swift:46-48 | trimming the start drops only whitespace and stops at a non-whitespace byte |
| `RustStore.TrimEndDrops` | crates/swift-bridge-build/src/generate_core/rust_string.swift:46-48 | trimming the end drops only whitespace and stops at a non-whitespace byte |
| `RustStore.TrimKeepsMiddle` | crates/swift-bridge-build/src/generate_core/rust_string.swift:46-48 | `trim()` is a contiguous part of the text with only whitespace around it |
| `RustStore.TrimEndsNotWhitespace` | crates/swift-bridge-build/src/generate_core/rust_string.swift:46-48 | what `trim()` keeps neither starts nor ends with whitespace |
| `RustStore.WhitespaceAgrees` | crates/swift-bridge-build/src/generate_core/rust_string.swift:46-48 | the byte-wise whitespace test agrees with Rust's `char::is_whitespace` on ASCII and rejects every non-ASCII byte |
| `RustStore.TrimIdempotent` | crates/swift-bridge-build/src/generate_core/rust_string.swift:46-48 | trimming a trimmed string changes nothing |
| `RustStore.RustHeap.Alloc` | crates/swift-bridge-build/src/generate_core/rust_string.swift:15-23 | a new value gets a handle never handed out before, released to Swift |
| `RustStore.RustHeap.Free` | crates/swift-bridge-build/src/generate_core/rust_string.swift:8-12 | `_free` drops exactly that handle |
| `RustStore.RustHeap.DropVec` | crates/swift-bridge-build/src/generate_core/rust_string.swift:55-57 | dropping a vector drops it and exactly its strings |
| `RustStore.RustHeap.Push` | crates/swift-bridge-build/src/generate_core/rust_string.swift:59-61 | the vector appends the handle and owns it from then on |
| `RustStore.RustHeap.Pop` | crates/swift-bridge-build/src/generate_core/rust_string.swift:63-70 | nil for an empty vector; otherwise the last handle, removed and released to Swift |
| `RustStore.RustHeap.Take` | crates/swift-bridge-ir/src/codegen/codegen_tests/extern_rust_method_swift_class_placement_codegen_tests.rs:53-59 | a value passed by value is Rust's to free; nothing else changes |
| `RustStore.RustHeap.GetWithinLen` | crates/swift-bridge-build/src/generate_core/rust_string.swift:72-88 | `get` yields a handle exactly below `len`, and that handle is a live string the vector owns |
| `SwiftWrappers.Wrapper.Own` | crates/swift-bridge-build/src/generate_core/rust_string.swift:1-6 | the owning class starts with `isOwned` set and becomes the handle's owner |
| `SwiftWrappers.Wrapper.Borrow` | crates/swift-bridge-build/src/generate_core/rust_string.swift:25-36 | a borrowed view never owns |
| `SwiftWrappers.Wrapper.Destroy` | crates/swift-bridge-build/src/generate_core/rust_string.swift:8-12 | `deinit` frees the handle exactly when the wrapper owns it; no other claim changes |
| `SwiftWrappers.Wrapper.PassSelf` | crates/swift-bridge-ir/src/codegen/codegen_tests/extern_rust_method_swift_class_placement_codegen_tests.rs:52-90 | an owned `self` clears the flag and hands the handle to Rust; a borrowed one changes nothing |
| `SwiftWrappers.DistinctOwners` | crates/swift-bridge-build/src/generate_core/rust_string.swift:8-12 | two owning wrappers never hold the same handle, so no handle is freed twice |
| `SwiftWrappers.StaysSound` | crates/swift-bridge-build/src/generate_core/rust_string.swift:2 | a wrapper whose claim no operation touched still owns its handle |
| `SwiftWrappers.StringQueriesAgree` | crates/swift-bridge-build/src/generate_core/rust_string.swift:37-49 | `len()` is the byte length of `as_str()`, and `trim()` is a middle part of it that drops only whitespace |
| `SwiftWrappers.NewRustString` | crates/swift-bridge-build/src/generate_core/rust_string.swift:15-23 | `RustString(str)` holds a new Rust string with that text, owned by the new wrapper |
| `SwiftWrappers.VecOfSelfNew` | crates/swift-bridge-build/src/generate_core/rust_string.swift:51-53 | a new empty vector with a new handle |
| `SwiftWrappers.VecOfSelfFree` | crates/swift-bridge-build/src/generate_core/rust_string.swift:55-57 | the vector and every string in it are freed |
| `SwiftWrappers.VecOfSelfPush` | crates/swift-bridge-build/src/generate_core/rust_string.swift:59-61 | the value's flag is cleared and the vector owns the appended string; no other claim changes |
| `SwiftWrappers.VecOfSelfPop` | crates/swift-bridge-build/src/generate_core/rust_string.swift:63-70 | nil exactly for an empty vector; otherwise a new owning wrapper on the removed last string |
| `SwiftWrappers.VecOfSelfGetAs` | crates/swift-bridge-build/src/generate_core/rust_string.swift:72-88 | nil exactly past the end; otherwise a new non-owning `Ref` or `RefMut` view of the element |
| `SwiftWrappers.RustVec.constructor` | crates/swift-bridge-build/src/generate_core/rust_vec.swift:9-12 | `init()` wraps a new empty vector, owned |
| `SwiftWrappers.RustVec.FromPtr` | crates/swift-bridge-build/src/generate_core/rust_vec.swift:5-7 | `init(ptr:)` takes over a vector Rust handed back, owned |
| `SwiftWrappers.RustVec.Push` | crates/swift-bridge-build/src/generate_core/rust_vec.swift:14-16 | `push` forwards to `vecOfSelfPush` |
| `SwiftWrappers.RustVec.Pop` | crates/swift-bridge-build/src/generate_core/rust_vec.swift:18-20 | `pop` forwards to `vecOfSelfPop` |
| `SwiftWrappers.RustVec.Get` | crates/swift-bridge-build/src/generate_core/rust_vec.swift:22-24 | `get` gives a `Ref` view exactly below `len()` |
| `SwiftWrappers.RustVec.Destroy` | crates/swift-bridge-build/src/generate_core/rust_vec.swift:36-40 | `deinit` frees the vector and its strings exactly when the wrapper owns it |
| `SwiftWrappers.RustVec.Subscript` | crates/swift-bridge-build/src/generate_core/rust_vec.swift:71-73 | `subscript` gives a `Ref` view of the element at a position below `len()` |
| `SwiftWrappers.CollectionIndicesValid` | crates/swift-bridge-build/src/generate_core/rust_vec.swift:64-82 | the positions from `startIndex` up to `endIndex` are exactly those `get` answers, and `index(after:)` stays in range |
| `SwiftWrappers.RustVecIterator.constructor` | crates/swift-bridge-build/src/generate_core/rust_vec.swift:49-55 | the iterator starts at index 0 |
| `SwiftWrappers.RustVecIterator.Next` | crates/swift-bridge-build/src/generate_core/rust_vec.swift:57-61 | `next()` returns `get` at the current index and always moves on by one |
| `SwiftWrappers.Yields` | crates/swift-bridge-build/src/generate_core/rust_vec.swift:57-61 | `n` calls of `next()` yield `n` values |
| `SwiftWrappers.IterateTimes` | crates/swift-bridge-build/src/generate_core/rust_vec.swift:44-61 | `n` calls of `next()` on a fresh iterator yield views of exactly the handles `Yields` lists, nil where it has nil |
| `SwiftWrappers.IterationVisitsAll` | crates/swift-bridge-build/src/generate_core/rust_vec.swift:43-62 | the first `len` calls yield the elements in order, later ones nil, so a `for … in` loop visits every element once, in order |
| `SwiftWrappers.YieldsAt` | crates/swift-bridge-build/src/generate_core/rust_vec.swift:57-61 | call `k` yields element `k`, or nil past the end |
| `SwiftWrappers.UntilNilOf` | crates/swift-bridge-build/src/generate_core/rust_vec.swift:43-62 | a loop stopping at the first nil sees exactly the values before it |
| `SwiftWrappers.ToFfiSlice` | crates/swift-bridge-build/src/generate_core/rust_vec.swift:86-90 | the slice starts at the buffer's base address and its length is the element count |
| `OwnershipExamples.VecWithString` | crates/swift-bridge-build/src/generate_core/rust_vec.swift:9-16 | after pushing a new string onto a new vector, the vector owns the string and the string's wrapper does not |
| `OwnershipExamples.PushedStringFreedWithVector` | crates/swift-bridge-build/src/generate_core/rust_vec.swift:36-40 | when both wrappers go away, the vector frees the pushed string and nothing else is freed or leaked |
| `OwnershipExamples.PushThenPop` | crates/swift-bridge-build/src/generate_core/rust_string.swift:63-70 | popping gives the string back under a new owning wrapper and leaves the vector empty |
| `OwnershipExamples.PoppedStringFreedByWrapper` | crates/swift-bridge-build/src/generate_core/rust_string.swift:8-12 | the popped wrapper frees the string, the pushed one frees nothing, and the vector frees only itself; the heap ends as it began |
| `OwnershipExamples.OwnedSelfCallHandsOver` | crates/swift-bridge-ir/src/codegen/codegen_tests/extern_rust_method_swift_class_placement_codegen_tests.rs:46-59 | after a `&self` call and then a `self` call, the wrapper's flag is cleared, its `deinit` frees nothing, and the value stays alive as Rust's to drop |
| `OwnershipExamples.BorrowedSelfCallKeeps` | crates/swift-bridge-ir/src/codegen/codegen_tests/extern_rust_method_swift_class_placement_codegen_tests.rs:46-59 | after `&self` and `&mut self` calls the flag is still set and the wrapper's `deinit` frees the value |

## Left out

- Parsing the `#[swift_bridge::bridge]` module, and resolving a written type to a `BridgedType`. The model starts from resolved declarations (`Ir.BridgeModule`).
- The full `BridgedType::to_c` / `to_c_include` table. Only the kinds the header generator's tests use are spelled as the generator spells them; the rest have plausible spellings, and the only headers modelled are `stdbool.h` and `stdint.h`.
- The iteration order of the slice-type `HashSet`. It is modelled as a duplicate-free sequence in first-insertion order. The proved properties (each element type typedef'd exactly once) hold for any order.
- The boxed-closure entry points of Swift-hosted functions (`boxed_fn_to_c_header_fns`). Their text is an uninterpreted spelling; only when they appear is modelled.
- `swift_name` renaming of structs and fields, and generic opaque types beyond the `$`-prefixed generics in the `_free` prototype.
- Swift's reference counting and when `deinit` runs. The scenarios call `Destroy` at the point the last reference goes away.
- Borrow lifetimes: a `Ref` or `RefMut` view still used after its vector changed or was freed is not ruled out.
- `as_ptr` / `vecOfSelfAsPtr` (raw element pointers) and `vecOfSelfGetMut`'s mutation through the view.
- The `UInt`→`Int` conversion in `len()` and the `UInt` index overflow in `next()`: indices are unbounded naturals.
- `RustStore.Trim`: the byte-wise trim of a `RustString` drops only ASCII whitespace; whitespace characters outside ASCII take several UTF-8 bytes and are not recognised (`RustStore.WhitespaceAgrees` shows the two whitespace tests agree on ASCII).
- The Rust functions behind the `__swift_bridge__$…` symbols. `RustStore.RustHeap` states what the wrappers rely on them to do. Handles are never reused. `RustStore.RustHeap.Push` and `RustStore.RustHeap.Pop` keep an element's handle: a string pushed and then popped comes back under the same handle. That is what the wrappers assume of `vecOfSelfPush` / `vecOfSelfPop`, whose Rust side is not part of this model.
- `ptr` is a `var` in Swift but is never reassigned after initialisation; it is modelled as a `const`.
- `SwiftWrappers.VecOfSelfPush` and `SwiftWrappers.RustVec.Push`: they require the pushed value to be an owning wrapper. The Swift code does not check this; pushing a value that was already pushed would hand Rust the same handle twice.
- `SwiftWrappers.Wrapper.PassSelf`: for an owned receiver it requires `isOwned`. The Swift code clears the flag unconditionally; a second `self` call on the same object would pass a handle Rust already took.
- `SwiftWrappers.RustVec.Subscript`: it requires `position < len()`. The Swift `subscript` force-unwraps `get`, so an index past the end traps at run time; the model states that trap as a precondition instead of modelling it.
