/** Where the Swift side puts the methods of an opaque Rust type, and how a
    generated method hands `self` to Rust.

    Every opaque Rust type `T` gets three Swift classes forming the chain
    `T : TRefMut : TRef`: the owning class `T`, which alone carries the
    `isOwned` flag and a `deinit`; `TRefMut`, a mutable borrow; and the base
    `TRef`, a shared borrow, which alone stores `ptr`. A method taking
    `self` lands on `T`, one taking `&mut self` on `TRefMut`, one taking
    `&self` on `TRef`; inheritance makes a method available on its class and
    on every class below it. */
module ClassPlacement {
  import opened Optional
  import opened Ir
  import opened CHeader

  /** The three generated classes of one opaque type. */
  datatype Level = Owned | RefMut | Ref

  function ClassName(typeName: string, level: Level): string
  {
    match level
    case Owned => typeName
    case RefMut => typeName + "RefMut"
    case Ref => typeName + "Ref"
  }

  /** Distance from the base class `TRef`. */
  function Depth(level: Level): nat
  {
    match level
    case Owned => 2
    case RefMut => 1
    case Ref => 0
  }

  /** The class each class derives from: `T : TRefMut`, `TRefMut : TRef`. */
  function SuperClass(level: Level): (r: Option<Level>)
    ensures r.None? <==> Depth(level) == 0
    ensures r.Some? ==> Depth(r.value) == Depth(level) - 1
  {
    match level
    case Owned => Some(RefMut)
    case RefMut => Some(Ref)
    case Ref => None
  }

  /** `a` is `b` or derives from it, directly or not. */
  predicate IsSubclass(a: Level, b: Level)
    decreases Depth(a)
  {
    a == b || (SuperClass(a).Some? && IsSubclass(SuperClass(a).value, b))
  }

  /** The chain is a total order: walking up the superclasses from `a`
      reaches `b` exactly when `b` is no deeper than `a`. */
  lemma SubclassByDepth(a: Level, b: Level)
    ensures IsSubclass(a, b) <==> Depth(b) <= Depth(a)
  {
    match a
    case Owned =>
      assert IsSubclass(RefMut, Ref);
    case RefMut =>
    case Ref =>
  }

  /** The class a method lands on, by how it takes `self`; a function
      without receiver belongs to no class. */
  function Placement(r: Receiver): (c: Option<Level>)
    ensures c.None? <==> r == NoReceiver
  {
    match r
    case NoReceiver => None
    case OwnedSelf => Some(Owned)
    case RefMutSelf => Some(RefMut)
    case RefSelf => Some(Ref)
  }

  /** A method with receiver `r` can be called on an instance of `level`. */
  predicate Callable(r: Receiver, level: Level)
  {
    Placement(r).Some? && IsSubclass(level, Placement(r).value)
  }

  /** `self` methods exist only on the owning class, `&mut self` methods on
      the owning class and `TRefMut`, `&self` methods on all three. */
  lemma CallableRule(level: Level)
    ensures Callable(OwnedSelf, level) <==> level == Owned
    ensures Callable(RefMutSelf, level) <==> level != Ref
    ensures Callable(RefSelf, level)
    ensures !Callable(NoReceiver, level)
  {
    SubclassByDepth(level, Owned);
    SubclassByDepth(level, RefMut);
    SubclassByDepth(level, Ref);
  }

  /** What a generated method passes for `self`: an owned receiver clears
      the flag and then yields the pointer, a borrowed one yields the
      pointer. */
  function SelfArg(r: Receiver): (s: string)
    requires r != NoReceiver
    ensures s == "ptr" <==> r != OwnedSelf
  {
    if r == OwnedSelf then "{isOwned = false; return ptr;}()" else "ptr"
  }

  /** The call in a generated method body: the symbol the C header
      declares for the method, applied to the self argument. */
  function MethodCall(f: ExternFn): string
    requires f.receiver != NoReceiver
  {
    LinkName(f) + "(" + SelfArg(f.receiver) + ")"
  }

  /** `f` is a method of the opaque Rust type `typeName` that lands on
      `level`: it is declared in an `extern "Rust"` block, belongs to that
      type and takes `self` the way `level` calls for. */
  predicate LandsOn(f: ExternFn, typeName: string, level: Level)
  {
    f.host == Rust && f.associatedTo == Some(typeName) && Placement(f.receiver) == Some(level)
  }

  /** The methods among `fs` that land on class `level` of `typeName`, in
      declaration order. */
  function MethodsOn(fs: seq<ExternFn>, typeName: string, level: Level): (r: seq<ExternFn>)
    ensures |r| <= |fs|
  {
    if fs == [] then []
    else
      var init := MethodsOn(fs[..|fs| - 1], typeName, level);
      var last := fs[|fs| - 1];
      if LandsOn(last, typeName, level) then init + [last] else init
  }

  /** A function is listed on a class exactly when it is one of the
      functions, is a Rust method of that class's type and lands on that
      class. */
  lemma {:induction false} MethodsOnMembership(fs: seq<ExternFn>, typeName: string, level: Level, f: ExternFn)
    ensures f in MethodsOn(fs, typeName, level)
      <==> f in fs && f.host == Rust && f.associatedTo == Some(typeName) && Placement(f.receiver) == Some(level)
  {
    if fs != [] {
      var init := fs[..|fs| - 1];
      MethodsOnMembership(init, typeName, level, f);
      assert fs == init + [fs[|fs| - 1]];
    }
  }

  /** Appending one function appends it to its own class's list only. */
  lemma MethodsOnAppend(fs: seq<ExternFn>, f: ExternFn, typeName: string, level: Level)
    ensures MethodsOn(fs + [f], typeName, level)
      == MethodsOn(fs, typeName, level) + (if LandsOn(f, typeName, level) then [f] else [])
  {
    assert (fs + [f])[..|fs|] == fs;
  }

  /** The Rust methods of `typeName` among `fs`: the functions of an
      `extern "Rust"` block that belong to the type and take `self`. */
  function MethodCount(fs: seq<ExternFn>, typeName: string): nat
  {
    if fs == [] then 0
    else
      var f := fs[|fs| - 1];
      MethodCount(fs[..|fs| - 1], typeName)
        + (if f.host == Rust && f.associatedTo == Some(typeName) && f.receiver != NoReceiver then 1 else 0)
  }

  /** Every method of a type lands on exactly one of its three classes. */
  lemma {:induction false} PlacementPartition(fs: seq<ExternFn>, typeName: string)
    ensures |MethodsOn(fs, typeName, Owned)| + |MethodsOn(fs, typeName, RefMut)| + |MethodsOn(fs, typeName, Ref)|
      == MethodCount(fs, typeName)
  {
    if fs != [] {
      PlacementPartition(fs[..|fs| - 1], typeName);
    }
  }

  /** The first line of each class: `internal class T: TRefMut {`. */
  function ClassHeader(typeName: string, level: Level): string
  {
    "internal class " + ClassName(typeName, level)
      + (match SuperClass(level) case Some(s) => ": " + ClassName(typeName, s) case None => "")
      + " {"
  }

  /** Each method is emitted in an extension of the class it lands on. */
  function ExtensionHeader(typeName: string, level: Level): string
  {
    "extension " + ClassName(typeName, level) + " {"
  }

  /** The stored properties each class declares itself: the flag on the
      owning class, the pointer on the base class. */
  function DeclaredFields(level: Level): (r: seq<string>)
    ensures |r| <= 1
  {
    match level
    case Owned => ["var isOwned: Bool = true"]
    case RefMut => []
    case Ref => ["var ptr: UnsafeMutableRawPointer"]
  }

  /** Every class has `ptr` (declared once, on the base) and only the owning
      class has the flag. */
  lemma FieldsAlongChain(level: Level)
    ensures IsSubclass(level, Ref) && DeclaredFields(Ref) == ["var ptr: UnsafeMutableRawPointer"]
    ensures "var ptr: UnsafeMutableRawPointer" in DeclaredFields(level) <==> level == Ref
    ensures "var isOwned: Bool = true" in DeclaredFields(level) <==> level == Owned
  {
    SubclassByDepth(level, Ref);
    assert "var ptr: UnsafeMutableRawPointer" != "var isOwned: Bool = true";
  }
}
