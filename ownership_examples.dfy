/** Sequences of wrapper operations as Swift code performs them, showing
    that each Rust value is freed exactly once, by whoever owns it last. */
module OwnershipExamples {
  import opened Optional
  import opened Ir
  import opened ClassPlacement
  import opened RustStore
  import opened SwiftWrappers

  /** Dropping the two handles a scenario allocated gives back the cells
      it started with. */
  lemma DropBoth(c0: map<Ptr, Cell>, vp: Ptr, sp: Ptr, c: Cell, x: Cell, y: Cell)
    requires vp !in c0 && sp !in c0 && vp != sp
    ensures c0[vp := c][sp := x][vp := y] - {vp, sp} == c0
  {
    var m := c0[vp := c][sp := x][vp := y] - {vp, sp};
    assert m.Keys == c0.Keys;
  }

  lemma DropOne(c0: map<Ptr, Cell>, vp: Ptr, x: Cell)
    requires vp !in c0
    ensures c0[vp := x] - {vp} == c0
  {
    assert (c0[vp := x] - {vp}).Keys == c0.Keys;
  }

  /** Pushing and then popping leaves the vector's cell as it was. */
  lemma PopUndoesPush(c0: map<Ptr, Cell>, vp: Ptr, sp: Ptr, a: Cell, b: Cell, c: Cell)
    requires vp != sp
    ensures c0[vp := a][sp := b][vp := c][vp := a] == c0[vp := a][sp := b]
  {
    assert c0[vp := a][sp := b][vp := c][vp := a].Keys == c0[vp := a][sp := b].Keys;
  }

  /** Freeing the string leaves only the vector behind. */
  lemma DropString(c0: map<Ptr, Cell>, vp: Ptr, sp: Ptr, a: Cell, b: Cell)
    requires sp !in c0 && vp != sp
    ensures c0[vp := a][sp := b] - {sp} == c0[vp := a]
  {
    assert (c0[vp := a][sp := b] - {sp}).Keys == c0[vp := a].Keys;
  }

  /** An empty vector takes only itself with it. */
  lemma EmptyVecGone(vp: Ptr)
    ensures {vp} + (set e: Ptr | e in []) == {vp}
  {
  }

  /** `let v = RustVec<RustString>(); let s = RustString("hi");
      v.push(value: s)`: the vector holds the string and `s` no longer
      owns it. */
  method VecWithString(h: RustHeap) returns (v: RustVec, s: Wrapper)
    requires h.Valid()
    modifies h
    ensures h.Valid() && fresh(v) && fresh(s)
    ensures v.Sound(h) && v.isOwned && s.Sound(h) && s.level == Owned && !s.isOwned
    ensures v.ptr !in old(h.cells) && s.ptr !in old(h.cells) && v.ptr != s.ptr
    ensures h.cells == old(h.cells)[v.ptr := VecCell([])][s.ptr := StrCell([104, 105])][v.ptr := VecCell([s.ptr])]
  {
    ghost var c0: map<Ptr, Cell> := h.cells;
    v := new RustVec(h);
    s := NewRustString(h, [104, 105]);
    assert h.cells == c0[v.ptr := VecCell([])][s.ptr := StrCell([104, 105])];
    v.Push(h, s);
    assert [] + [s.ptr] == [s.ptr];
  }

  /** Then `s` and `v` go away: `s`'s `deinit` frees nothing, `v`'s frees
      the vector and the string. */
  method PushedStringFreedWithVector(h: RustHeap)
    requires h.Valid()
    modifies h
    ensures h.Valid() && h.cells == old(h.cells)
  {
    ghost var c0: map<Ptr, Cell> := h.cells;
    var v, s := VecWithString(h);
    s.Destroy(h);
    assert {v.ptr} + (set e | e in [s.ptr]) == {v.ptr, s.ptr};
    v.Destroy(h);
    DropBoth(c0, v.ptr, s.ptr, VecCell([]), StrCell([104, 105]), VecCell([s.ptr]));
  }

  /** `VecWithString`, then `let back = v.pop()`: the string is back with a
      fresh owning wrapper, the vector is empty again. */
  method PushThenPop(h: RustHeap) returns (v: RustVec, s: Wrapper, back: Wrapper)
    requires h.Valid()
    modifies h
    ensures h.Valid() && fresh(v) && fresh(s) && fresh(back) && s != back
    ensures v.Sound(h) && v.isOwned && s.Sound(h) && !s.isOwned
    ensures back.Sound(h) && back.level == Owned && back.isOwned && back.ptr == s.ptr
    ensures v.ptr !in old(h.cells) && s.ptr !in old(h.cells) && v.ptr != s.ptr
    ensures h.cells == old(h.cells)[v.ptr := VecCell([])][s.ptr := StrCell([104, 105])]
  {
    ghost var c0: map<Ptr, Cell> := h.cells;
    v, s := VecWithString(h);
    var r := v.Pop(h);
    assert [s.ptr][..0] == [];
    assert h.cells == c0[v.ptr := VecCell([])][s.ptr := StrCell([104, 105])][v.ptr := VecCell([s.ptr])][v.ptr := VecCell([])];
    back := r.value;
    PopUndoesPush(c0, v.ptr, s.ptr, VecCell([]), StrCell([104, 105]), VecCell([s.ptr]));
  }

  /** Popping hands the string back to Swift: the popped wrapper owns it
      and frees it, the pushed wrapper frees nothing, and the vector then
      frees only itself. */
  method PoppedStringFreedByWrapper(h: RustHeap)
    requires h.Valid()
    modifies h
    ensures h.Valid() && h.cells == old(h.cells)
  {
    ghost var c0: map<Ptr, Cell> := h.cells;
    var v, s, back := PushThenPop(h);
    s.Destroy(h);
    back.Destroy(h);
    DropString(c0, v.ptr, s.ptr, VecCell([]), StrCell([104, 105]));
    EmptyVecGone(v.ptr);
    v.Destroy(h);
    DropOne(c0, v.ptr, VecCell([]));
  }

  /** A method taking `self` hands the value to Rust: the wrapper's
      `deinit` then frees nothing, and the value stays alive, now Rust's to
      drop. A `&self` call before it leaves the flag set. */
  method OwnedSelfCallHandsOver(h: RustHeap) returns (t: Wrapper, p: Ptr)
    requires h.Valid()
    modifies h
    ensures h.Valid()
    ensures t.ptr == p && !t.isOwned
    ensures p in h.cells && h.cells[p] == OpaqueCell("SomeType")
    ensures p in h.owner && h.owner[p] == Taken
  {
    p := h.Alloc(OpaqueCell("SomeType"));
    t := new Wrapper.Own(h, p);
    CallableRule(Owned);
    var q := t.PassSelf(h, RefSelf);
    assert t.isOwned;
    q := t.PassSelf(h, OwnedSelf);
    t.Destroy(h);
  }

  /** With only `&self` calls the flag stays set, and the wrapper's
      `deinit` frees the value. */
  method BorrowedSelfCallKeeps(h: RustHeap) returns (t: Wrapper, p: Ptr)
    requires h.Valid()
    modifies h
    ensures h.Valid()
    ensures t.ptr == p && t.isOwned
    ensures p !in h.cells && p !in h.owner
  {
    p := h.Alloc(OpaqueCell("SomeType"));
    t := new Wrapper.Own(h, p);
    CallableRule(Owned);
    var q := t.PassSelf(h, RefSelf);
    q := t.PassSelf(h, RefMutSelf);
    t.Destroy(h);
  }
}
