/** The Swift the generator's class-placement test expects for
    `type SomeType;` with methods `a(self)`, `b(self: SomeType)`, `c(&self)`,
    `d(self: &SomeType)`, `e(&mut self)` and `f(self: &mut SomeType)`,
    derived from the model. The front end gives `self` and `self: SomeType`
    the same receiver kind, and likewise for the two borrowed spellings. */
module ClassPlacementExamples {
  import opened Optional
  import opened BridgedTypes
  import opened Ir
  import opened CHeader
  import opened ClassPlacement

  function SomeTypeMethod(name: string, r: Receiver): ExternFn
  {
    ExternFn(Rust, false, Some("SomeType"), name, r, [], Null)
  }

  function SomeTypeMethods(): seq<ExternFn>
  {
    [SomeTypeMethod("a", OwnedSelf), SomeTypeMethod("b", OwnedSelf),
     SomeTypeMethod("c", RefSelf), SomeTypeMethod("d", RefSelf),
     SomeTypeMethod("e", RefMutSelf), SomeTypeMethod("f", RefMutSelf)]
  }

  /** `g` is declared in an `extern "Rust"` block as a method of `typeName`. */
  predicate RustMethodOf(g: ExternFn, typeName: string)
  {
    g.host == Rust && g.associatedTo == Some(typeName)
  }

  /** Six methods of one type declared as in the test, two per receiver
      kind. */
  lemma SixMethodsPlacement(a: ExternFn, b: ExternFn, c: ExternFn, d: ExternFn, e: ExternFn, f: ExternFn,
                            typeName: string, level: Level)
    requires RustMethodOf(a, typeName) && RustMethodOf(b, typeName) && RustMethodOf(c, typeName)
    requires RustMethodOf(d, typeName) && RustMethodOf(e, typeName) && RustMethodOf(f, typeName)
    requires a.receiver == b.receiver == OwnedSelf
    requires c.receiver == d.receiver == RefSelf
    requires e.receiver == f.receiver == RefMutSelf
    ensures MethodsOn([a, b, c, d, e, f], typeName, level)
      == (if level == Owned then [a, b] else if level == RefMut then [e, f] else [c, d])
  {
    var abc := [a, b, c];
    assert [a, b, c, d, e, f] == abc + [d, e, f];
    assert abc == [] + [a, b, c];
    ThreeAppend([], a, b, c, typeName, level);
    ThreeAppend(abc, d, e, f, typeName, level);
    if level == Owned {
      assert [a] + [b] + [] + [] + [] + [] == [a, b];
    } else if level == RefMut {
      assert [] + [] + [] + [] + [e] + [f] == [e, f];
    } else {
      assert [] + [] + [c] + [d] + [] + [] == [c, d];
    }
  }

  /** What one function adds to the list of `level`. */
  function Selected(g: ExternFn, typeName: string, level: Level): seq<ExternFn>
  {
    if LandsOn(g, typeName, level) then [g] else []
  }

  /** Appending three functions appends each to its own class's list. */
  lemma ThreeAppend(fs: seq<ExternFn>, x: ExternFn, y: ExternFn, z: ExternFn, typeName: string, level: Level)
    ensures MethodsOn(fs + [x, y, z], typeName, level)
      == MethodsOn(fs, typeName, level) + Selected(x, typeName, level) + Selected(y, typeName, level)
         + Selected(z, typeName, level)
  {
    assert fs + [x, y, z] == (fs + [x]) + [y] + [z];
    MethodsOnAppend(fs, x, typeName, level);
    MethodsOnAppend(fs + [x], y, typeName, level);
    MethodsOnAppend(fs + [x] + [y], z, typeName, level);
  }

  /** `a` and `b` land on `SomeType`, `e` and `f` on `SomeTypeRefMut`, `c`
      and `d` on `SomeTypeRef`, each pair in declaration order. */
  lemma SomeTypePlacement()
    ensures MethodsOn(SomeTypeMethods(), "SomeType", Owned)
      == [SomeTypeMethod("a", OwnedSelf), SomeTypeMethod("b", OwnedSelf)]
    ensures MethodsOn(SomeTypeMethods(), "SomeType", RefMut)
      == [SomeTypeMethod("e", RefMutSelf), SomeTypeMethod("f", RefMutSelf)]
    ensures MethodsOn(SomeTypeMethods(), "SomeType", Ref)
      == [SomeTypeMethod("c", RefSelf), SomeTypeMethod("d", RefSelf)]
  {
    var a, b := SomeTypeMethod("a", OwnedSelf), SomeTypeMethod("b", OwnedSelf);
    var c, d := SomeTypeMethod("c", RefSelf), SomeTypeMethod("d", RefSelf);
    var e, f := SomeTypeMethod("e", RefMutSelf), SomeTypeMethod("f", RefMutSelf);
    SixMethodsPlacement(a, b, c, d, e, f, "SomeType", Owned);
    SixMethodsPlacement(a, b, c, d, e, f, "SomeType", RefMut);
    SixMethodsPlacement(a, b, c, d, e, f, "SomeType", Ref);
  }

  /** The class lines: `SomeType : SomeTypeRefMut : SomeTypeRef`. */
  lemma SomeTypeClassHeaders()
    ensures ClassHeader("SomeType", Owned) == "internal class " + "SomeType" + ": " + "SomeTypeRefMut" + " {"
    ensures ClassHeader("SomeType", RefMut) == "internal class " + "SomeTypeRefMut" + ": " + "SomeTypeRef" + " {"
    ensures ClassHeader("SomeType", Ref) == "internal class " + "SomeTypeRef" + " {"
    ensures ExtensionHeader("SomeType", RefMut) == "extension " + "SomeTypeRefMut" + " {"
  {
  }

  /** The owned-self call clears the flag before handing over the pointer. */
  lemma OwnedSelfCall()
    ensures MethodCall(SomeTypeMethod("a", OwnedSelf))
      == "__swift_bridge__$SomeType$a" + "(" + "{isOwned = false; return ptr;}()" + ")"
  {
    assert LinkName(SomeTypeMethod("a", OwnedSelf)) == "__swift_bridge__$SomeType$a";
  }

  /** The borrowed calls pass `ptr` as it is. */
  lemma BorrowedSelfCalls()
    ensures MethodCall(SomeTypeMethod("e", RefMutSelf)) == "__swift_bridge__$SomeType$e" + "(" + "ptr" + ")"
    ensures MethodCall(SomeTypeMethod("c", RefSelf)) == "__swift_bridge__$SomeType$c" + "(" + "ptr" + ")"
  {
    assert LinkName(SomeTypeMethod("e", RefMutSelf)) == "__swift_bridge__$SomeType$e";
    assert LinkName(SomeTypeMethod("c", RefSelf)) == "__swift_bridge__$SomeType$c";
  }
}
