/** The Swift classes that wrap Rust handles, and the ownership protocol
    they follow.

    An owning wrapper carries a mutable `isOwned` flag that starts `true`;
    its `deinit` frees the Rust value only while the flag is set. Handing
    the value to Rust (pushing it onto a Rust vector, calling a method that
    takes `self`) clears the flag first, so the wrapper can no longer free
    it. Borrowed views (`…RefMut`, `…Ref`) never free. `RustVec` wraps a
    Rust vector the same way, and `RustVecIterator` is a cursor over it.

    Each Swift object is a Dafny object; the Rust side is a `RustHeap`
    passed to every operation. `Sound` says an owning wrapper is the
    recorded owner of its handle; the operations keep every wrapper sound,
    so a handle is freed at most once and only by its owner. */
module SwiftWrappers {
  import opened Optional
  import opened Ir
  import opened ClassPlacement
  import opened RustStore

  /** No holder outside `except` lost or changed a claim from `o1` to `o2`. */
  ghost predicate ClaimsKept(o1: map<Ptr, Owner>, o2: map<Ptr, Owner>, except: set<object>)
  {
    forall p :: p in o1 && (o1[p].Claimed? || o1[p].ClaimedVec?) && o1[p].holder !in except ==>
      p in o2 && o2[p] == o1[p]
  }

  /** An instance of `T`, `TRefMut` or `TRef` for a Rust type `T` (for
      strings: `RustString`, `RustStringRefMut`, `RustStringRef`), tagged
      with the class it was created as. `ptr` is set once, by the base
      class's initializer, and never reassigned. */
  class Wrapper {
    const level: Level
    const ptr: Ptr
    var isOwned: bool

    /** Holding its claim: an owning instance is the recorded owner of its
        handle. */
    ghost predicate OwnsIn(owner: map<Ptr, Owner>)
      reads this
    {
      isOwned ==> ptr in owner && owner[ptr] == Claimed(this)
    }

    /** Only the owning class has the flag, so a borrowed view never owns;
        an owning instance holds its claim. */
    ghost predicate Sound(h: RustHeap)
      reads this, h
    {
      (level != Owned ==> !isOwned) && OwnsIn(h.owner)
    }

    /** `T.init(ptr:)`: the owning class starts owned (`isOwned = true`)
        and takes over the handle Rust handed back. */
    constructor Own(h: RustHeap, p: Ptr)
      requires h.Valid() && p in h.owner && h.owner[p] == Released && !h.cells[p].VecCell?
      modifies h
      ensures level == Owned && ptr == p && isOwned
      ensures h.Valid() && Sound(h)
      ensures h.cells == old(h.cells) && h.owner == old(h.owner)[p := Claimed(this)]
    {
      level := Owned;
      ptr := p;
      isOwned := true;
      new;
      h.Claim(p, this);
    }

    /** `TRefMut.init(ptr:)` and `TRef.init(ptr:)`: a borrowed view, which
        has no flag and no `deinit`. */
    constructor Borrow(lvl: Level, p: Ptr)
      requires lvl != Owned
      ensures level == lvl && ptr == p && !isOwned
    {
      level := lvl;
      ptr := p;
      isOwned := false;
    }

    /** `deinit`: only the owning class has one, and it frees the handle
        exactly when the flag is set. */
    method Destroy(h: RustHeap)
      requires h.Valid() && Sound(h)
      modifies h
      ensures h.Valid()
      ensures isOwned ==> h.cells == old(h.cells) - {ptr} && h.owner == old(h.owner) - {ptr}
      ensures !isOwned ==> h.cells == old(h.cells) && h.owner == old(h.owner)
      ensures ClaimsKept(old(h.owner), h.owner, {this})
    {
      if level == Owned && isOwned {
        h.Free(ptr);
      }
    }

    /** `len()`: declared on the base class, so every class has it. */
    function Len(h: RustHeap): nat
      reads h
      requires h.IsString(ptr)
    {
      h.StrLen(ptr)
    }

    /** `as_str()`. */
    function AsStr(h: RustHeap): seq<Byte>
      reads h
      requires h.IsString(ptr)
    {
      h.AsStr(ptr)
    }

    /** `trim()`. */
    function TrimStr(h: RustHeap): seq<Byte>
      reads h
      requires h.IsString(ptr)
    {
      h.StrTrim(ptr)
    }

    /** The body of a generated method with receiver `r`, which is callable
        on this class: it hands `self` to the Rust function. An owned `self`
        clears the flag and then yields the pointer, and Rust takes the
        value over; a borrowed `self` yields the pointer and changes
        nothing. */
    method PassSelf(h: RustHeap, r: Receiver) returns (p: Ptr)
      requires Callable(r, level)
      requires h.Valid() && Sound(h) && ptr in h.cells
      requires r == OwnedSelf ==> isOwned
      modifies this, h
      ensures p == ptr && h.Valid() && Sound(h)
      ensures r == OwnedSelf ==> !isOwned && h.cells == old(h.cells) && h.owner == old(h.owner)[p := Taken]
      ensures r != OwnedSelf ==> isOwned == old(isOwned) && h.cells == old(h.cells) && h.owner == old(h.owner)
      ensures ClaimsKept(old(h.owner), h.owner, {this})
    {
      if r == OwnedSelf {
        isOwned := false;
        p := ptr;
        h.Take(p);
      } else {
        p := ptr;
      }
    }
  }

  /** Two distinct owning wrappers never hold the same handle, so the
      handle one of them frees is not the other's. */
  lemma DistinctOwners(h: RustHeap, a: Wrapper, b: Wrapper)
    requires a != b && a.Sound(h) && b.Sound(h) && a.isOwned && b.isOwned
    ensures a.ptr != b.ptr
  {
  }

  /** A wrapper whose claim no operation touched still holds it. */
  lemma StaysSound(w: Wrapper, o1: map<Ptr, Owner>, o2: map<Ptr, Owner>, except: set<object>)
    requires w !in except && w.OwnsIn(o1) && ClaimsKept(o1, o2, except)
    ensures w.OwnsIn(o2)
  {
  }

  /** The three string queries agree: `len()` is the byte length of
      `as_str()`, and `trim()` is a middle part of it that drops only
      whitespace. */
  lemma StringQueriesAgree(w: Wrapper, h: RustHeap)
    requires h.IsString(w.ptr)
    ensures w.Len(h) == |w.AsStr(h)|
    ensures exists i, j ::
      && 0 <= i <= j <= w.Len(h) && w.TrimStr(h) == w.AsStr(h)[i..j]
      && (forall k :: 0 <= k < i ==> IsWhitespace(w.AsStr(h)[k]))
      && (forall k :: j <= k < w.Len(h) ==> IsWhitespace(w.AsStr(h)[k]))
  {
    TrimKeepsMiddle(w.AsStr(h));
  }

  // ------------------------------------------- RustString: Vectorizable

  /** `RustString()` and `RustString(str)`: a new Rust string with the
      given text, owned by a new wrapper. */
  method NewRustString(h: RustHeap, text: seq<Byte>) returns (s: Wrapper)
    requires h.Valid()
    modifies h
    ensures fresh(s) && s.level == Owned && s.isOwned && h.Valid() && s.Sound(h)
    ensures s.ptr !in old(h.cells) && h.cells == old(h.cells)[s.ptr := StrCell(text)]
    ensures h.owner == old(h.owner)[s.ptr := Claimed(s)]
  {
    var p := h.Alloc(StrCell(text));
    s := new Wrapper.Own(h, p);
  }

  /** `vecOfSelfNew`: a new empty Rust vector, not yet wrapped. */
  method VecOfSelfNew(h: RustHeap) returns (v: Ptr)
    requires h.Valid()
    modifies h
    ensures h.Valid() && v !in old(h.cells)
    ensures h.cells == old(h.cells)[v := VecCell([])] && h.owner == old(h.owner)[v := Released]
  {
    v := h.Alloc(VecCell([]));
  }

  /** `vecOfSelfFree`: drops the vector with its strings. */
  method VecOfSelfFree(h: RustHeap, v: Ptr)
    requires h.Valid() && h.IsVec(v)
    modifies h
    ensures h.Valid()
    ensures var gone := {v} + (set e | e in old(h.cells[v].elems));
      h.cells == old(h.cells) - gone && h.owner == old(h.owner) - gone
  {
    h.DropVec(v);
  }

  /** `vecOfSelfPush`: clears the value's flag, then hands its pointer to
      the vector, which owns the string from then on. */
  method VecOfSelfPush(h: RustHeap, v: Ptr, value: Wrapper)
    requires h.Valid() && h.IsVec(v) && h.IsString(value.ptr)
    requires value.Sound(h) && value.isOwned
    modifies h, value
    ensures !value.isOwned && h.Valid() && value.Sound(h)
    ensures h.cells == old(h.cells)[v := VecCell(old(h.cells[v].elems) + [value.ptr])]
    ensures h.owner == old(h.owner)[value.ptr := InVec(v)]
    ensures ClaimsKept(old(h.owner), h.owner, {value})
  {
    value.isOwned := false;
    h.Push(v, value.ptr);
  }

  /** `vecOfSelfPop`: nil exactly when the vector is empty; otherwise a
      new owning wrapper on the string taken off the end. */
  method VecOfSelfPop(h: RustHeap, v: Ptr) returns (r: Option<Wrapper>)
    requires h.Valid() && h.IsVec(v)
    modifies h
    ensures h.Valid()
    ensures r.None? <==> old(h.cells[v].elems) == []
    ensures r.None? ==> h.cells == old(h.cells) && h.owner == old(h.owner)
    ensures r.Some? ==>
      var es := old(h.cells[v].elems);
      && fresh(r.value) && r.value.level == Owned && r.value.isOwned && r.value.Sound(h)
      && r.value.ptr == es[|es| - 1]
      && h.cells == old(h.cells)[v := VecCell(es[..|es| - 1])]
      && h.owner == old(h.owner)[r.value.ptr := Claimed(r.value)]
  {
    var pointer := h.Pop(v);
    if pointer == None {
      r := None;
    } else {
      var s := new Wrapper.Own(h, pointer.value);
      r := Some(s);
    }
  }

  /** `vecOfSelfGet` (`Ref`) and `vecOfSelfGetMut` (`RefMut`): nil past
      the end, otherwise a new borrowed view of the element; the vector
      keeps the string. */
  method VecOfSelfGetAs(h: RustHeap, v: Ptr, index: nat, lvl: Level) returns (r: Option<Wrapper>)
    requires h.IsVec(v) && lvl != Owned
    ensures r.None? <==> index >= h.VecLen(v)
    ensures r.Some? ==>
      && fresh(r.value) && r.value.level == lvl && !r.value.isOwned
      && r.value.ptr == h.cells[v].elems[index]
  {
    var pointer := h.Get(v, index);
    if pointer == None {
      r := None;
    } else {
      var s := new Wrapper.Borrow(lvl, pointer.value);
      r := Some(s);
    }
  }

  /** `vecOfSelfLen`. */
  function VecOfSelfLen(h: RustHeap, v: Ptr): nat
    reads h
    requires h.IsVec(v)
  {
    h.VecLen(v)
  }

  // ------------------------------------------------------------- RustVec

  /** `RustVec<RustString>`: an owning wrapper of a Rust vector. */
  class RustVec {
    const ptr: Ptr
    var isOwned: bool

    /** An owning vector wrapper is the recorded owner of its vector. */
    ghost predicate Sound(h: RustHeap)
      reads this, h
    {
      isOwned ==> ptr in h.owner && h.owner[ptr] == ClaimedVec(this)
    }

    /** `init()`: a new empty Rust vector, owned (`isOwned = true`). */
    constructor (h: RustHeap)
      requires h.Valid()
      modifies h
      ensures isOwned && h.Valid() && Sound(h)
      ensures ptr !in old(h.cells) && h.cells == old(h.cells)[ptr := VecCell([])]
      ensures h.owner == old(h.owner)[ptr := ClaimedVec(this)]
    {
      var p := VecOfSelfNew(h);
      ptr := p;
      isOwned := true;
      new;
      h.ClaimVec(p, this);
    }

    /** `init(ptr:)`: wraps a vector Rust handed back; the flag keeps its
        default `true`. */
    constructor FromPtr(h: RustHeap, p: Ptr)
      requires h.Valid() && h.IsVec(p) && h.owner[p] == Released
      modifies h
      ensures ptr == p && isOwned && h.Valid() && Sound(h)
      ensures h.cells == old(h.cells) && h.owner == old(h.owner)[p := ClaimedVec(this)]
    {
      ptr := p;
      isOwned := true;
      new;
      h.ClaimVec(p, this);
    }

    /** `push(value:)`: forwards to `vecOfSelfPush` with this vector. */
    method Push(h: RustHeap, value: Wrapper)
      requires h.Valid() && h.IsVec(ptr) && h.IsString(value.ptr)
      requires value.Sound(h) && value.isOwned
      modifies h, value
      ensures !value.isOwned && h.Valid() && value.Sound(h)
      ensures h.cells == old(h.cells)[ptr := VecCell(old(h.cells[ptr].elems) + [value.ptr])]
      ensures h.owner == old(h.owner)[value.ptr := InVec(ptr)]
      ensures ClaimsKept(old(h.owner), h.owner, {value})
    {
      VecOfSelfPush(h, ptr, value);
    }

    /** `pop()`: forwards to `vecOfSelfPop` with this vector. */
    method Pop(h: RustHeap) returns (r: Option<Wrapper>)
      requires h.Valid() && h.IsVec(ptr)
      modifies h
      ensures h.Valid()
      ensures r.None? <==> old(h.cells[ptr].elems) == []
      ensures r.None? ==> h.cells == old(h.cells) && h.owner == old(h.owner)
      ensures r.Some? ==>
        var es := old(h.cells[ptr].elems);
        && fresh(r.value) && r.value.level == Owned && r.value.isOwned && r.value.Sound(h)
        && r.value.ptr == es[|es| - 1]
        && h.cells == old(h.cells)[ptr := VecCell(es[..|es| - 1])]
        && h.owner == old(h.owner)[r.value.ptr := Claimed(r.value)]
    {
      r := VecOfSelfPop(h, ptr);
    }

    /** `get(index:)`: forwards to `vecOfSelfGet`, a shared view. */
    method Get(h: RustHeap, index: nat) returns (r: Option<Wrapper>)
      requires h.IsVec(ptr)
      ensures r.None? <==> index >= Len(h)
      ensures r.Some? ==>
        && fresh(r.value) && r.value.level == Ref && !r.value.isOwned
        && r.value.ptr == h.cells[ptr].elems[index]
    {
      r := VecOfSelfGetAs(h, ptr, index, Ref);
    }

    /** `len()`: the length Rust reports, as a Swift `Int`. */
    function Len(h: RustHeap): nat
      reads this, h
      requires h.IsVec(ptr)
    {
      VecOfSelfLen(h, ptr)
    }

    /** `deinit`: frees the vector, and with it its strings, exactly when
        the flag is set. */
    method Destroy(h: RustHeap)
      requires h.Valid() && Sound(h) && h.IsVec(ptr)
      modifies h
      ensures h.Valid()
      ensures isOwned ==>
        var gone := {ptr} + (set e | e in old(h.cells[ptr].elems));
        h.cells == old(h.cells) - gone && h.owner == old(h.owner) - gone
      ensures !isOwned ==> h.cells == old(h.cells) && h.owner == old(h.owner)
      ensures ClaimsKept(old(h.owner), h.owner, {this})
    {
      if isOwned {
        VecOfSelfFree(h, ptr);
      }
    }

    /** `Collection.startIndex`. */
    function StartIndex(): int
    {
      0
    }

    /** `Collection.endIndex`. */
    function EndIndex(h: RustHeap): int
      reads this, h
      requires h.IsVec(ptr)
    {
      Len(h)
    }

    /** `Collection.index(after:)`. */
    function IndexAfter(i: int): int
    {
      i + 1
    }

    /** `subscript(position:)`: force-unwraps `get`, so the position must
        be below `len()`. */
    method Subscript(h: RustHeap, position: int) returns (r: Wrapper)
      requires h.IsVec(ptr) && 0 <= position < Len(h)
      ensures fresh(r) && r.level == Ref && !r.isOwned && r.ptr == h.cells[ptr].elems[position]
    {
      var val := Get(h, position);
      r := val.value;
    }
  }

  /** Every index from `startIndex` up to `endIndex` can be subscripted,
      and stepping with `index(after:)` from `startIndex` stays within the
      collection until it lands on `endIndex`. */
  lemma CollectionIndicesValid(v: RustVec, h: RustHeap, i: int)
    requires h.IsVec(v.ptr)
    ensures v.StartIndex() <= i < v.EndIndex(h) <==> 0 <= i < v.Len(h) && h.Get(v.ptr, i).Some?
    ensures v.StartIndex() <= i < v.EndIndex(h) ==> v.StartIndex() < v.IndexAfter(i) <= v.EndIndex(h)
  {
  }

  // ---------------------------------------------------- RustVecIterator

  /** `RustVecIterator`: a cursor over a `RustVec`. */
  class RustVecIterator {
    const rustVec: RustVec
    var index: nat

    /** `init(_:)`: starts at index 0. */
    constructor (v: RustVec)
      ensures rustVec == v && index == 0
    {
      rustVec := v;
      index := 0;
    }

    /** `next()`: the vector's `get` at the current index, and the index
        moves on by one whatever `get` returned. */
    method Next(h: RustHeap) returns (val: Option<Wrapper>)
      requires h.IsVec(rustVec.ptr)
      modifies this
      ensures index == old(index) + 1
      ensures val.None? <==> h.Get(rustVec.ptr, old(index)).None?
      ensures val.Some? ==>
        && fresh(val.value) && val.value.level == Ref && !val.value.isOwned
        && val.value.ptr == h.Get(rustVec.ptr, old(index)).value
    {
      val := rustVec.Get(h, index);
      index := index + 1;
    }
  }

  /** The handles `n` calls of `next()` yield, starting from index 0, over
      a vector holding `elems`. */
  function Yields(elems: seq<Ptr>, n: nat): (r: seq<Option<Ptr>>)
    ensures |r| == n
  {
    if n == 0 then [] else Yields(elems, n - 1) + [if n - 1 < |elems| then Some(elems[n - 1]) else None]
  }

  /** What a `for … in` loop sees: the values before the first nil. */
  function UntilNil(ys: seq<Option<Ptr>>): seq<Ptr>
  {
    if ys == [] || ys[0].None? then [] else [ys[0].value] + UntilNil(ys[1..])
  }

  /** The first `len` calls yield the elements in order, every later call
      yields nil, and so a `for … in` loop over the vector visits every
      element exactly once, in order. */
  lemma {:induction false} IterationVisitsAll(elems: seq<Ptr>, n: nat)
    requires n > |elems|
    ensures forall k :: 0 <= k < |elems| ==> Yields(elems, n)[k] == Some(elems[k])
    ensures forall k :: |elems| <= k < n ==> Yields(elems, n)[k] == None
    ensures UntilNil(Yields(elems, n)) == elems
  {
    YieldsAt(elems, n);
    UntilNilOf(elems, Yields(elems, n));
  }

  lemma {:induction false} YieldsAt(elems: seq<Ptr>, n: nat)
    ensures forall k :: 0 <= k < n ==> Yields(elems, n)[k] == if k < |elems| then Some(elems[k]) else None
  {
    if n > 0 {
      YieldsAt(elems, n - 1);
    }
  }

  lemma {:induction false} UntilNilOf(elems: seq<Ptr>, ys: seq<Option<Ptr>>)
    requires |ys| > |elems|
    requires forall k :: 0 <= k < |elems| ==> ys[k] == Some(elems[k])
    requires ys[|elems|] == None
    ensures UntilNil(ys) == elems
  {
    if elems != [] {
      UntilNilOf(elems[1..], ys[1..]);
      assert [elems[0]] + elems[1..] == elems;
    }
  }

  /** `n` calls of `next()` on the iterator `makeIterator()` returns, with
      the vector left as it is: the handle of each view yielded is the
      corresponding entry of `Yields`, and a nil exactly where `Yields` has
      one. */
  method IterateTimes(h: RustHeap, v: RustVec, n: nat) returns (ys: seq<Option<Wrapper>>)
    requires h.IsVec(v.ptr)
    ensures |ys| == n
    ensures forall j :: 0 <= j < n ==>
      && (ys[j].Some? <==> Yields(h.cells[v.ptr].elems, n)[j].Some?)
      && (ys[j].Some? ==> ys[j].value.ptr == Yields(h.cells[v.ptr].elems, n)[j].value)
  {
    var elems := h.cells[v.ptr].elems;
    var it := new RustVecIterator(v);
    ys := [];
    for k := 0 to n
      invariant it.rustVec == v && it.index == k && |ys| == k
      invariant forall j :: 0 <= j < k ==> (ys[j].Some? <==> j < |elems|)
      invariant forall j :: 0 <= j < k ==> ys[j].Some? ==> ys[j].value.ptr == elems[j]
    {
      var val := it.Next(h);
      ys := ys + [val];
    }
    YieldsAt(elems, n);
  }

  // ------------------------------------------------------- FFI slices

  /** An `UnsafeBufferPointer`: a base address (nil for an empty buffer)
      and the elements it covers. */
  datatype BufferPointer<T> = BufferPointer(baseAddress: Option<nat>, elems: seq<T>)

  /** `__private__FfiSlice`: the C struct `{ start, len }`. */
  datatype FfiSlice = FfiSlice(start: Option<nat>, len: nat)

  /** `toFfiSlice()`: the slice starts at the buffer's base address and
      its length is the buffer's element count. */
  function ToFfiSlice<T>(b: BufferPointer<T>): (s: FfiSlice)
    ensures s.start == b.baseAddress && s.len == |b.elems|
  {
    FfiSlice(b.baseAddress, |b.elems|)
  }
}
