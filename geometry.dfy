/** How the control resolves its render size from the host allocation and the DOM. */
module Geometry {
  import opened Types

  /** JavaScript's `d || 0` on a number that may be `undefined`. */
  function OrZero(d: Option<int>): int
  {
    if d.Some? then d.value else 0
  }

  /** JavaScript's `(d || 0) > 0`: holds exactly for a defined, strictly positive size. */
  predicate Positive(d: Option<int>)
    ensures Positive(d) <==> d.Some? && d.value > 0
  {
    OrZero(d) > 0
  }

  /** One dimension: the host allocation if positive, else the container's client
      size if positive, else the parent's client size (absent without a parent). */
  function ResolveDim(hostSize: int, client: int, parent: Option<int>): (r: Option<int>)
    ensures r == Some(hostSize) || r == Some(client) || r == parent
    ensures Positive(r) <==> hostSize > 0 || client > 0 || Positive(parent)
    ensures r != parent ==> r.Some? && r.value > 0
  {
    if hostSize > 0 then Some(hostSize)
    else if client > 0 then Some(client)
    else parent
  }

  /** Reference definition of an ordered fallback: the first strictly positive
      candidate, or the fallback when there is none. */
  function FirstPositive(candidates: seq<int>, fallback: Option<int>): (r: Option<int>)
  {
    if candidates == [] then fallback
    else if candidates[0] > 0 then Some(candidates[0])
    else FirstPositive(candidates[1..], fallback)
  }

  /** FirstPositive picks the earliest positive candidate and skips every
      non-positive one before it. */
  lemma {:induction false} FirstPositiveIsEarliest(candidates: seq<int>, fallback: Option<int>, k: nat)
    requires k < |candidates| && candidates[k] > 0
    requires forall i :: 0 <= i < k ==> candidates[i] <= 0
    ensures FirstPositive(candidates, fallback) == Some(candidates[k])
  {
    if k > 0 {
      FirstPositiveIsEarliest(candidates[1..], fallback, k - 1);
    }
  }

  /** With no positive candidate the fallback is used unchanged. */
  lemma {:induction false} FirstPositiveFallsBack(candidates: seq<int>, fallback: Option<int>)
    requires forall i :: 0 <= i < |candidates| ==> candidates[i] <= 0
    ensures FirstPositive(candidates, fallback) == fallback
  {
    if candidates != [] {
      FirstPositiveFallsBack(candidates[1..], fallback);
    }
  }

  /** The three-tier resolution is the ordered fallback over [hostSize, client]
      ending in the parent's size. */
  lemma ResolveDimIsFirstPositive(hostSize: int, client: int, parent: Option<int>)
    ensures ResolveDim(hostSize, client, parent) == FirstPositive([hostSize, client], parent)
  {
    var c := [hostSize, client];
    if hostSize > 0 {
      FirstPositiveIsEarliest(c, parent, 0);
    } else if client > 0 {
      FirstPositiveIsEarliest(c, parent, 1);
    } else {
      FirstPositiveFallsBack(c, parent);
    }
  }

  /** A resolved width and height. */
  datatype Size = Size(width: Option<int>, height: Option<int>)

  function ParentWidth(box: Container): Option<int>
  {
    if box.parent.Some? then Some(box.parent.value.clientWidth) else None
  }

  function ParentHeight(box: Container): Option<int>
  {
    if box.parent.Some? then Some(box.parent.value.clientHeight) else None
  }

  /** Width and height, each through its own three tiers. A dimension stays
      undefined (never 0) only when neither the allocation nor the container gives
      a positive size and there is no parent element. */
  function ResolveSize(allocatedWidth: int, allocatedHeight: int, box: Container): (r: Size)
    ensures r.width == FirstPositive([allocatedWidth, box.clientWidth], ParentWidth(box))
    ensures r.height == FirstPositive([allocatedHeight, box.clientHeight], ParentHeight(box))
    ensures r.width.None? <==> allocatedWidth <= 0 && box.clientWidth <= 0 && box.parent.None?
    ensures r.height.None? <==> allocatedHeight <= 0 && box.clientHeight <= 0 && box.parent.None?
  {
    ResolveDimIsFirstPositive(allocatedWidth, box.clientWidth, ParentWidth(box));
    ResolveDimIsFirstPositive(allocatedHeight, box.clientHeight, ParentHeight(box));
    Size(ResolveDim(allocatedWidth, box.clientWidth, ParentWidth(box)),
         ResolveDim(allocatedHeight, box.clientHeight, ParentHeight(box)))
  }

  /** Width and height are resolved independently: the width depends on nothing
      that only the height reads, and vice versa. */
  lemma DimensionsIndependent(aw1: int, ah1: int, box1: Container, aw2: int, ah2: int, box2: Container)
    ensures aw1 == aw2 && box1.clientWidth == box2.clientWidth && ParentWidth(box1) == ParentWidth(box2)
            ==> ResolveSize(aw1, ah1, box1).width == ResolveSize(aw2, ah2, box2).width
    ensures ah1 == ah2 && box1.clientHeight == box2.clientHeight && ParentHeight(box1) == ParentHeight(box2)
            ==> ResolveSize(aw1, ah1, box1).height == ResolveSize(aw2, ah2, box2).height
  {
  }

  /** The first-mount decision: ask the host to render again unless both
      dimensions came out positive. */
  predicate NeedsRender(s: Size)
    ensures !NeedsRender(s) <==>
      s.width.Some? && s.height.Some? && s.width.value > 0 && s.height.value > 0
  {
    !(OrZero(s.width) > 0 && OrZero(s.height) > 0)
  }

  /** A re-render is requested at mount exactly when, for width or for height,
      none of the three sources offers a positive size. */
  lemma NeedsRenderIffUnresolved(allocatedWidth: int, allocatedHeight: int, box: Container)
    ensures NeedsRender(ResolveSize(allocatedWidth, allocatedHeight, box)) <==>
            !(allocatedWidth > 0 || box.clientWidth > 0 || Positive(ParentWidth(box))) ||
            !(allocatedHeight > 0 || box.clientHeight > 0 || Positive(ParentHeight(box)))
  {
  }
}
