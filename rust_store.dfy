/** The Rust side of the bridge as the Swift wrappers see it: handles to
    Rust allocations (Rust strings, vectors of Rust strings, values of opaque
    Rust types) and the `__swift_bridge__$…` functions that create, read,
    change and drop them.

    The Rust functions themselves are not part of this model; `RustHeap`
    states what the wrappers rely on them to do. Besides the live cells it
    keeps, as ghost state, who is responsible for freeing each live handle,
    which is what lets the wrappers' ownership protocol be checked. */
module RustStore {
  import opened Optional
  import Text

  /** An opaque handle (`UnsafeMutableRawPointer`) to a Rust allocation. */
  type Ptr = nat

  /** A byte of a Rust string's UTF-8 text. */
  newtype Byte = b: int | 0 <= b < 256

  /** What a live handle points to. */
  datatype Cell =
    | StrCell(text: seq<Byte>)       // a `RustString`
    | VecCell(elems: seq<Ptr>)       // a `Vec<RustString>`, by element handle
    | OpaqueCell(typeName: string)   // a value of an opaque Rust type

  /** Who is responsible for freeing a live handle. */
  datatype Owner =
    | Released           // returned to Swift by Rust and not yet wrapped
    | Claimed(holder: object)    // an owning Swift string or value wrapper
    | ClaimedVec(holder: object) // an owning `RustVec`
    | InVec(vec: Ptr)    // an element of a Rust vector, dropped with it
    | Taken              // moved into Rust code this model does not see

  /** ASCII whitespace, as Rust's `char::is_whitespace` sees it below 128. */
  predicate IsWhitespace(b: Byte)
  {
    b == 32 || 9 <= b <= 13
  }

  /** Below 128 a byte is a whole character, and it is whitespace exactly
      when that character is; at or above 128 a byte is only part of a
      character, which this byte-wise trim leaves alone. */
  lemma WhitespaceAgrees(b: Byte)
    ensures b < 128 ==> (IsWhitespace(b) <==> Text.IsWhitespace(b as int as char))
    ensures b >= 128 ==> !IsWhitespace(b)
  {
  }

  function TrimStart(s: seq<Byte>): (r: seq<Byte>)
    ensures |r| <= |s| && r == s[|s| - |r|..]
  {
    if s != [] && IsWhitespace(s[0]) then TrimStart(s[1..]) else s
  }

  function TrimEnd(s: seq<Byte>): (r: seq<Byte>)
    ensures |r| <= |s| && r == s[..|r|]
  {
    if s != [] && IsWhitespace(s[|s| - 1]) then TrimEnd(s[..|s| - 1]) else s
  }

  /** `str::trim`: without its leading and trailing whitespace. */
  function Trim(s: seq<Byte>): seq<Byte>
  {
    TrimEnd(TrimStart(s))
  }

  lemma {:induction false} TrimStartDrops(s: seq<Byte>)
    ensures forall k :: 0 <= k < |s| - |TrimStart(s)| ==> IsWhitespace(s[k])
    ensures TrimStart(s) != [] ==> !IsWhitespace(TrimStart(s)[0])
  {
    if s != [] && IsWhitespace(s[0]) {
      var tail := s[1..];
      TrimStartDrops(tail);
      assert TrimStart(s) == TrimStart(tail);
      forall k | 1 <= k < |s| - |TrimStart(s)|
        ensures IsWhitespace(s[k])
      {
        assert s[k] == tail[k - 1];
      }
    }
  }

  lemma {:induction false} TrimEndDrops(s: seq<Byte>)
    ensures forall k :: |TrimEnd(s)| <= k < |s| ==> IsWhitespace(s[k])
    ensures TrimEnd(s) != [] ==> !IsWhitespace(TrimEnd(s)[|TrimEnd(s)| - 1])
  {
    if s != [] && IsWhitespace(s[|s| - 1]) {
      var init := s[..|s| - 1];
      TrimEndDrops(init);
      assert TrimEnd(s) == TrimEnd(init);
      forall k | |TrimEnd(s)| <= k < |s| - 1
        ensures IsWhitespace(s[k])
      {
        assert s[k] == init[k];
      }
    }
  }

  /** Everything outside `s[i..j]` is whitespace. */
  predicate WhitespaceOutside(s: seq<Byte>, i: nat, j: nat)
    requires i <= j <= |s|
  {
    && (forall k :: 0 <= k < i ==> IsWhitespace(s[k]))
    && (forall k :: j <= k < |s| ==> IsWhitespace(s[k]))
  }

  /** `trim` keeps a contiguous part of the text and drops only whitespace
      around it. */
  lemma TrimKeepsMiddle(s: seq<Byte>)
    ensures exists i: nat, j: nat :: i <= j <= |s| && Trim(s) == s[i..j] && WhitespaceOutside(s, i, j)
  {
    var t := TrimStart(s);
    TrimStartDrops(s);
    TrimEndDrops(t);
    MiddleWitness(s, t, TrimEnd(t));
  }

  /** A prefix `u` of a suffix `t` of `s`, with only whitespace before `t`
      and after `u`, is a middle part of `s` with only whitespace around
      it. */
  lemma MiddleWitness(s: seq<Byte>, t: seq<Byte>, u: seq<Byte>)
    requires |t| <= |s| && t == s[|s| - |t|..] && |u| <= |t| && u == t[..|u|]
    requires forall k :: 0 <= k < |s| - |t| ==> IsWhitespace(s[k])
    requires forall k :: |u| <= k < |t| ==> IsWhitespace(t[k])
    ensures exists i: nat, j: nat :: i <= j <= |s| && u == s[i..j] && WhitespaceOutside(s, i, j)
  {
    var i, j := |s| - |t|, |s| - |t| + |u|;
    TrailingWhitespace(s, t, u);
    assert u == s[i..j];
    assert WhitespaceOutside(s, i, j);
  }

  /** What `trim` keeps neither starts nor ends with whitespace. */
  lemma TrimEndsNotWhitespace(s: seq<Byte>)
    ensures Trim(s) != [] ==> !IsWhitespace(Trim(s)[0]) && !IsWhitespace(Trim(s)[|Trim(s)| - 1])
  {
    var t := TrimStart(s);
    var u := TrimEnd(t);
    TrimStartDrops(s);
    TrimEndDrops(t);
    if u != [] {
      assert u[0] == t[0];
    }
  }

  /** Whitespace ending a suffix of `s` ends `s`. */
  lemma TrailingWhitespace(s: seq<Byte>, t: seq<Byte>, r: seq<Byte>)
    requires |t| <= |s| && t == s[|s| - |t|..] && |r| <= |t| && r == t[..|r|]
    requires forall k :: |r| <= k < |t| ==> IsWhitespace(t[k])
    ensures forall k :: |s| - |t| + |r| <= k < |s| ==> IsWhitespace(s[k])
  {
    forall k | |s| - |t| + |r| <= k < |s|
      ensures IsWhitespace(s[k])
    {
      assert s[k] == t[k - (|s| - |t|)];
    }
  }

  /** Trimming twice trims no more than trimming once. */
  lemma TrimIdempotent(s: seq<Byte>)
    ensures Trim(Trim(s)) == Trim(s)
  {
    var r := Trim(s);
    TrimEndsNotWhitespace(s);
    if r != [] {
      assert TrimStart(r) == r;
      assert TrimEnd(r) == r;
    }
  }

  /** The Rust allocations the Swift side holds handles to. Handles are
      never reused: `next` is above every handle handed out. */
  class RustHeap {
    var cells: map<Ptr, Cell>
    var next: Ptr
    ghost var owner: map<Ptr, Owner>

    /** Every live handle has exactly one owner; a vector's elements are
        live strings owned by that vector, each held once; every handle
        owned by a vector is one of its elements; and a vector is claimed
        only by a vector wrapper. */
    ghost predicate Valid()
      reads this
    {
      owner.Keys == cells.Keys
      && (forall p :: p in cells ==> p < next)
      && (forall v, i :: v in cells && cells[v].VecCell? && 0 <= i < |cells[v].elems| ==>
            cells[v].elems[i] in cells && cells[cells[v].elems[i]].StrCell?
            && owner[cells[v].elems[i]] == InVec(v))
      && (forall v, i, j :: v in cells && cells[v].VecCell? && 0 <= i < j < |cells[v].elems| ==>
            cells[v].elems[i] != cells[v].elems[j])
      && (forall p :: p in owner && owner[p].InVec? ==>
            owner[p].vec in cells && cells[owner[p].vec].VecCell? && p in cells[owner[p].vec].elems)
      && (forall p :: p in owner && owner[p].Claimed? ==> !cells[p].VecCell?)
      && (forall p :: p in owner && owner[p].ClaimedVec? ==> cells[p].VecCell?)
    }

    predicate IsVec(v: Ptr)
      reads this
    {
      v in cells && cells[v].VecCell?
    }

    predicate IsString(p: Ptr)
      reads this
    {
      p in cells && cells[p].StrCell?
    }

    constructor ()
      ensures Valid() && cells == map[] && owner == map[]
    {
      cells := map[];
      next := 0;
      owner := map[];
    }

    /** `$RustString$new`, `$RustString$new_with_str`, `$Vec_RustString$new`
        and every Rust function returning a new value: a fresh handle,
        handed to Swift. */
    method Alloc(c: Cell) returns (p: Ptr)
      requires Valid()
      requires c.VecCell? ==> c.elems == []
      modifies this
      ensures Valid()
      ensures p !in old(cells)
      ensures cells == old(cells)[p := c] && owner == old(owner)[p := Released]
    {
      p := next;
      next := next + 1;
      cells := cells[p := c];
      owner := owner[p := Released];
    }

    /** `$RustString$_free` and `$T$_free`: drops a string or opaque value
        that no vector holds. */
    method Free(p: Ptr)
      requires Valid() && p in cells && !cells[p].VecCell? && !owner[p].InVec?
      modifies this
      ensures Valid()
      ensures cells == old(cells) - {p} && owner == old(owner) - {p} && next == old(next)
    {
      cells := cells - {p};
      owner := owner - {p};
    }

    /** `$Vec_RustString$drop`: drops the vector and every string in it. */
    method DropVec(v: Ptr)
      requires Valid() && IsVec(v)
      modifies this
      ensures Valid()
      ensures var gone := {v} + (set e | e in old(cells[v].elems));
        cells == old(cells) - gone && owner == old(owner) - gone && next == old(next)
    {
      var gone := {v} + (set e | e in cells[v].elems);
      cells := cells - gone;
      owner := owner - gone;
    }

    /** `$Vec_RustString$push`: the vector takes over the string. */
    method Push(v: Ptr, p: Ptr)
      requires Valid() && IsVec(v) && IsString(p) && !owner[p].InVec?
      modifies this
      ensures Valid()
      ensures cells == old(cells)[v := VecCell(old(cells[v].elems) + [p])]
      ensures owner == old(owner)[p := InVec(v)] && next == old(next)
    {
      cells := cells[v := VecCell(cells[v].elems + [p])];
      owner := owner[p := InVec(v)];
    }

    /** `$Vec_RustString$pop`: nil for an empty vector; otherwise the last
        string, handed back to Swift. */
    method Pop(v: Ptr) returns (r: Option<Ptr>)
      requires Valid() && IsVec(v)
      modifies this
      ensures Valid()
      ensures next == old(next)
      ensures old(cells[v].elems) == [] ==> r == None && cells == old(cells) && owner == old(owner)
      ensures old(cells[v].elems) != [] ==>
        var es := old(cells[v].elems);
        r == Some(es[|es| - 1])
        && cells == old(cells)[v := VecCell(es[..|es| - 1])]
        && owner == old(owner)[es[|es| - 1] := Released]
    {
      var es := cells[v].elems;
      if es == [] {
        r := None;
      } else {
        var last := es[|es| - 1];
        r := Some(last);
        cells := cells[v := VecCell(es[..|es| - 1])];
        owner := owner[last := Released];
      }
    }

    /** Rust code takes over a value passed by value (an owned `self`). */
    method Take(p: Ptr)
      requires Valid() && p in cells && !owner[p].InVec?
      modifies this
      ensures Valid()
      ensures cells == old(cells) && owner == old(owner)[p := Taken] && next == old(next)
    {
      owner := owner[p := Taken];
    }

    /** A Swift wrapper takes over a string or value Rust handed back. */
    ghost method Claim(p: Ptr, holder: object)
      requires Valid() && p in owner && owner[p] == Released && !cells[p].VecCell?
      modifies this
      ensures Valid()
      ensures cells == old(cells) && owner == old(owner)[p := Claimed(holder)] && next == old(next)
    {
      owner := owner[p := Claimed(holder)];
    }

    /** A `RustVec` takes over a vector Rust handed back. */
    ghost method ClaimVec(v: Ptr, holder: object)
      requires Valid() && IsVec(v) && owner[v] == Released
      modifies this
      ensures Valid()
      ensures cells == old(cells) && owner == old(owner)[v := ClaimedVec(holder)] && next == old(next)
    {
      owner := owner[v := ClaimedVec(holder)];
    }

    /** `$Vec_RustString$get` and `$Vec_RustString$get_mut`: the element's
        handle, or nil past the end. */
    function Get(v: Ptr, index: nat): (r: Option<Ptr>)
      reads this
      requires IsVec(v)
    {
      if index < |cells[v].elems| then Some(cells[v].elems[index]) else None
    }

    /** `$Vec_RustString$len`. */
    function VecLen(v: Ptr): nat
      reads this
      requires IsVec(v)
    {
      |cells[v].elems|
    }

    /** `$RustString$as_str`: the string's bytes. */
    function AsStr(p: Ptr): seq<Byte>
      reads this
      requires IsString(p)
    {
      cells[p].text
    }

    /** `$RustString$len`: the length in bytes. */
    function StrLen(p: Ptr): nat
      reads this
      requires IsString(p)
    {
      |cells[p].text|
    }

    /** `$RustString$trim`. */
    function StrTrim(p: Ptr): seq<Byte>
      reads this
      requires IsString(p)
    {
      Trim(cells[p].text)
    }

    /** Every handle the vector's `get` yields is a live string the vector
        owns, and `get` yields one exactly for the indices below `len`. */
    lemma GetWithinLen(v: Ptr, index: nat)
      requires Valid() && IsVec(v)
      ensures Get(v, index).Some? <==> index < VecLen(v)
      ensures Get(v, index).Some? ==> IsString(Get(v, index).value) && owner[Get(v, index).value] == InVec(v)
    {
    }
  }
}
