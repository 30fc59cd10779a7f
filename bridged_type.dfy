/** The conventional optional value. */
module Optional {
  datatype Option<+T> = None | Some(value: T)
}

/** The part of the bridged-type model the C header backend relies on: the
    resolved representation kinds that occur in signatures and struct fields,
    their C spelling (`BridgedType::to_c`) and the header each one needs
    (`BridgedType::to_c_include`).

    The generator's own implementation of these is not part of this model;
    the table below holds the spellings the header generator's unit tests
    pin down (`u8` is `uint8_t` and needs `stdint.h`, an opaque handle is
    `void*`, a returned slice is `struct __private__FfiSlice`) and plausible
    spellings for the remaining kinds. */
module BridgedTypes {
  import opened Optional

  /** Symbol prefix of everything the bridge exports (`SWIFT_BRIDGE_PREFIX`). */
  const Prefix: string := "__swift_bridge__"

  /** The standard headers a generated declaration can need. */
  datatype Include = StdBool | StdInt

  function IncludeName(i: Include): string
  {
    match i
    case StdBool => "stdbool.h"
    case StdInt => "stdint.h"
  }

  /** A resolved type, as it appears in a parameter, a return or a field. */
  datatype Bridged =
    | Null                                  // `()`, or no return type at all
    | Bool
    | U8
    | U64
    | Usize
    | OpaqueHandle(name: string)            // any non-copy opaque type, Rust or Swift hosted
    | SharedStructRef(name: string)
    | SharedEnumRef(name: string)
    | RefSlice(elem: Bridged)               // `&'static [T]`
    | BoxedFn(fnParams: seq<Bridged>, fnRet: Bridged)  // `Box<dyn FnOnce(..) -> ..>`

  /** The C spelling of a resolved type. */
  function ToC(t: Bridged): string
  {
    match t
    case Null => "void"
    case Bool => "bool"
    case U8 => "uint8_t"
    case U64 => "uint64_t"
    case Usize => "uintptr_t"
    case OpaqueHandle(_) => "void*"
    case SharedStructRef(n) => "struct " + Prefix + "$" + n
    case SharedEnumRef(n) => "struct " + Prefix + "$" + n
    case RefSlice(_) => "struct __private__FfiSlice"
    case BoxedFn(_, _) => "void*"
  }

  /** The standard header the C spelling needs, if any; a slice needs the one
      of its element type. */
  function ToCInclude(t: Bridged): Option<Include>
  {
    match t
    case Bool => Some(StdBool)
    case U8 => Some(StdInt)
    case U64 => Some(StdInt)
    case Usize => Some(StdInt)
    case RefSlice(e) => ToCInclude(e)
    case _ => None
  }

  /** `ToCInclude` as a set, for accumulating. */
  function IncludeSet(t: Bridged): (r: set<Include>)
    ensures |r| <= 1
    ensures forall i :: i in r <==> ToCInclude(t) == Some(i)
  {
    match ToCInclude(t)
    case Some(i) => {i}
    case None => {}
  }

  /** The header a type needs follows from its C spelling: `stdint.h` for
      exactly the fixed-width integer spellings, `stdbool.h` for exactly
      `bool`, and none for any other spelling; a slice needs the header of
      its element type. */
  lemma IncludeFollowsSpelling(t: Bridged)
    ensures !t.RefSlice? ==>
      (IncludeSet(t) == {StdInt} <==> ToC(t) in {"uint8_t", "uint64_t", "uintptr_t"})
    ensures !t.RefSlice? ==> (IncludeSet(t) == {StdBool} <==> ToC(t) == "bool")
    ensures !t.RefSlice? ==>
      (IncludeSet(t) == {} <==> ToC(t) !in {"bool", "uint8_t", "uint64_t", "uintptr_t"})
    ensures t.RefSlice? ==> IncludeSet(t) == IncludeSet(t.elem)
  {
  }

  /** `BridgedType::is_null`. */
  predicate IsNull(t: Bridged) { t.Null? }
}
