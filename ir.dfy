/** The parsed bridge module that every backend consumes: ordered type
    declarations and ordered extern functions, as the front end hands them
    over (already resolved; parsing is not part of this model). */
module Ir {
  import opened Optional
  import opened BridgedTypes

  /** Which side of the boundary implements an item. */
  datatype HostLang = Rust | Swift

  datatype NamedField = NamedField(name: string, ty: Bridged)

  /** `StructFields`: `{ a: T }`, `(T, U)` or no fields at all. */
  datatype StructFields = Named(named: seq<NamedField>) | Unnamed(unnamed: seq<Bridged>) | Unit

  /** An enum variant; only whether it carries data matters to the header. */
  datatype Variant = Variant(name: string, hasData: bool)

  datatype TypeDecl =
    | SharedStruct(name: string, alreadyDeclared: bool, fields: StructFields)
    | SharedEnum(name: string, alreadyDeclared: bool, variants: seq<Variant>)
    | Opaque(
        name: string,
        host: HostLang,
        alreadyDeclared: bool,
        declareGeneric: bool,
        copySize: Option<nat>,     // `#[swift_bridge(Copy(size))]`
        hashable: bool,
        equatable: bool,
        generics: seq<string>)

  /** How a method takes `self`: `self` / `self: T`, `&self` / `self: &T`,
      `&mut self` / `self: &mut T`, or not a method. */
  datatype Receiver = NoReceiver | OwnedSelf | RefSelf | RefMutSelf

  datatype Param = Param(name: string, ty: Bridged)

  /** An extern function or method. `associatedTo` is the opaque type a method
      belongs to; `ret` is `Null` when there is no return type. */
  datatype ExternFn = ExternFn(
    host: HostLang,
    isAsync: bool,
    associatedTo: Option<string>,
    name: string,
    receiver: Receiver,
    params: seq<Param>,
    ret: Bridged)

  datatype BridgeModule = BridgeModule(types: seq<TypeDecl>, functions: seq<ExternFn>)
}
