/** The per-view animator of the device-info sheet (Mutator): while the sheet
    slides it fades a view and resizes its height or width, each op of its list
    in turn, clamping the new height to at least 1 pixel and the new width to at
    least the view's minimum width. */
module SheetMutator {

  /** A Kotlin `Int`. */
  type Int32 = x: int | -0x8000_0000 <= x <= 0x7fff_ffff

  /** `Int.MIN_VALUE`, the value of the remembered sizes before the first layout. */
  const IntMinValue: Int32 := -0x8000_0000

  datatype MutatorOp = Fade | ResizeWidth | ResizeHeight

  /** The sheet state in which the view is fully shown. */
  datatype ShownWhen = WhenCollapsed | WhenExpanded

  /** The scale a mutator applies for a slide offset: the offset itself for a
      view shown when expanded, its complement for one shown when collapsed. */
  function ScaleValue(shownWhen: ShownWhen, slideOffset: real): (scale: real)
    ensures 0.0 <= slideOffset <= 1.0 ==> 0.0 <= scale <= 1.0
  {
    if shownWhen == WhenExpanded then slideOffset else 1.0 - slideOffset
  }

  /** The larger of two `Int`s. */
  function Max(a: Int32, b: Int32): Int32
  {
    if a >= b then a else b
  }

  /** The width `resizeWidth` writes for a computed width: never below the
      view's minimum width, and equal to the computed width when that is not. */
  function ClampedWidth(calculatedWidth: Int32, minWidth: Int32): (width: Int32)
    ensures width >= minWidth && width >= calculatedWidth
    ensures width == calculatedWidth || width == minWidth
  {
    Max(calculatedWidth, minWidth)
  }

  /** The height `resizeHeight` writes for a computed height: at least 1, and
      equal to the computed height when that is positive. */
  function ClampedHeight(calculatedHeight: Int32): (height: Int32)
    ensures height >= 1 && height >= calculatedHeight
    ensures height == calculatedHeight || height == 1
  {
    Max(calculatedHeight, 1)
  }

  /** The view properties a mutator writes: the layout width and height and the alpha. */
  datatype Layout = Layout(width: Int32, height: Int32, alpha: real)

  /** What each op writes during one slide, all derived from the same scale value. */
  datatype Targets = Targets(width: Int32, height: Int32, alpha: real)

  /** One op applied to the layout: it writes its own property and no other. */
  function DoMutate(layout: Layout, op: MutatorOp, targets: Targets): (after: Layout)
    ensures after.width != layout.width ==> op == ResizeWidth
    ensures after.height != layout.height ==> op == ResizeHeight
    ensures after.alpha != layout.alpha ==> op == Fade
  {
    match op
    case ResizeHeight => layout.(height := targets.height)
    case ResizeWidth => layout.(width := targets.width)
    case Fade => layout.(alpha := targets.alpha)
  }

  /** The ops of a list applied one after another, in list order. */
  function ApplyOps(ops: seq<MutatorOp>, layout: Layout, targets: Targets): (after: Layout)
    ensures after.width == layout.width || after.width == targets.width
    ensures after.height == layout.height || after.height == targets.height
    ensures after.alpha == layout.alpha || after.alpha == targets.alpha
  {
    if ops == [] then layout
    else DoMutate(ApplyOps(ops[..|ops| - 1], layout, targets), ops[|ops| - 1], targets)
  }

  /** After the ops of a list have run, each property holds its target when an op
      for it is in the list and is untouched otherwise. */
  lemma {:induction false} ApplyOpsEffect(ops: seq<MutatorOp>, layout: Layout, targets: Targets)
    ensures ApplyOps(ops, layout, targets) == Layout(
      if ResizeWidth in ops then targets.width else layout.width,
      if ResizeHeight in ops then targets.height else layout.height,
      if Fade in ops then targets.alpha else layout.alpha)
  {
    if ops != [] {
      var init := ops[..|ops| - 1];
      ApplyOpsEffect(init, layout, targets);
      assert ops == init + [ops[|ops| - 1]];
      assert forall op :: op in ops <==> op in init || op == ops[|ops| - 1];
    }
  }

  /** The result of a slide depends only on which ops the list holds: neither
      their order nor repetitions change what the view ends up with. */
  lemma ApplyOpsDependsOnlyOnOpSet(ops1: seq<MutatorOp>, ops2: seq<MutatorOp>, layout: Layout, targets: Targets)
    requires (set op | op in ops1) == (set op | op in ops2)
    ensures ApplyOps(ops1, layout, targets) == ApplyOps(ops2, layout, targets)
  {
    ApplyOpsEffect(ops1, layout, targets);
    ApplyOpsEffect(ops2, layout, targets);
    var opSet := set o | o in ops1;
    assert ResizeWidth in ops1 <==> ResizeWidth in opSet;
    assert ResizeHeight in ops1 <==> ResizeHeight in opSet;
    assert Fade in ops1 <==> Fade in opSet;
    assert ResizeWidth in ops2 <==> ResizeWidth in opSet;
    assert ResizeHeight in ops2 <==> ResizeHeight in opSet;
    assert Fade in ops2 <==> Fade in opSet;
  }

  /** A resize op in the list leaves the view with a height of at least 1 and a
      width of at least the minimum width, each the larger of the computed value
      and its bound. */
  lemma SlideRespectsBounds(ops: seq<MutatorOp>, layout: Layout, calculatedWidth: Int32,
                            calculatedHeight: Int32, minWidth: Int32, alpha: real)
    ensures var after := ApplyOps(ops, layout,
                                  Targets(ClampedWidth(calculatedWidth, minWidth), ClampedHeight(calculatedHeight), alpha));
      (ResizeHeight in ops ==> after.height >= 1 && after.height == Max(calculatedHeight, 1)) &&
      (ResizeWidth in ops ==> after.width >= minWidth && after.width == Max(calculatedWidth, minWidth))
  {
    ApplyOpsEffect(ops, layout,
                   Targets(ClampedWidth(calculatedWidth, minWidth), ClampedHeight(calculatedHeight), alpha));
  }

  /** The animated view: its measured sizes and the properties a mutator writes. */
  class View {
    var measuredHeight: Int32
    var measuredWidth: Int32
    var minimumWidth: Int32
    var layoutWidth: Int32
    var layoutHeight: Int32
    var alpha: real

    constructor (measuredHeight: Int32, measuredWidth: Int32, minimumWidth: Int32)
      ensures this.measuredHeight == measuredHeight && this.measuredWidth == measuredWidth
      ensures this.minimumWidth == minimumWidth
    {
      this.measuredHeight := measuredHeight;
      this.measuredWidth := measuredWidth;
      this.minimumWidth := minimumWidth;
      layoutWidth, layoutHeight, alpha := measuredWidth, measuredHeight, 1.0;
    }

    function Current(): Layout
      reads this
    {
      Layout(layoutWidth, layoutHeight, alpha)
    }
  }

  /** One view's animator: the ops it runs, the sheet state in which the view is
      fully shown, and the sizes remembered at the first layout.

      The float product `(initial * scale).toInt()` is not computed here: each
      mutation takes it as `toPixels(initial, scale)`, and the fade
      interpolator's curve as `interpolate(scale)`. */
  class Mutator {
    const view: View
    const mutatorOps: seq<MutatorOp>
    const shownWhen: ShownWhen
    var initialHeight: Int32
    var initialWidth: Int32
    var minWidth: Int32

    constructor (view: View, mutatorOps: seq<MutatorOp>, shownWhen: ShownWhen := WhenExpanded)
      ensures this.view == view && this.mutatorOps == mutatorOps && this.shownWhen == shownWhen
      ensures initialHeight == IntMinValue && initialWidth == IntMinValue && minWidth == IntMinValue
    {
      this.view := view;
      this.mutatorOps := mutatorOps;
      this.shownWhen := shownWhen;
      initialHeight, initialWidth, minWidth := IntMinValue, IntMinValue, IntMinValue;
    }

    /** Remembers the view's measured height and width and its minimum width. */
    method SetInitialValues()
      modifies this`initialHeight, this`initialWidth, this`minWidth
      ensures initialHeight == view.measuredHeight && initialWidth == view.measuredWidth
      ensures minWidth == view.minimumWidth
    {
      initialHeight := view.measuredHeight;
      initialWidth := view.measuredWidth;
      minWidth := view.minimumWidth;
    }

    /** What each op of this mutator writes for a given scale value. */
    function TargetsFor(scale: real, toPixels: (Int32, real) -> Int32, interpolate: real -> real): (t: Targets)
      reads this
      ensures t.height >= 1 && t.width >= minWidth
    {
      Targets(ClampedWidth(toPixels(initialWidth, scale), minWidth),
              ClampedHeight(toPixels(initialHeight, scale)),
              interpolate(scale))
    }

    /** Applies every op of `mutatorOps`, in list order, for one slide offset. */
    method Mutate(slideOffset: real, toPixels: (Int32, real) -> Int32, interpolate: real -> real)
      modifies view`layoutWidth, view`layoutHeight, view`alpha
      ensures view.Current()
           == ApplyOps(mutatorOps, old(view.Current()),
                       TargetsFor(ScaleValue(shownWhen, slideOffset), toPixels, interpolate))
    {
      var scaleValue := if shownWhen == WhenExpanded then slideOffset else 1.0 - slideOffset;
      ghost var start := view.Current();
      ghost var targets := TargetsFor(scaleValue, toPixels, interpolate);
      for i := 0 to |mutatorOps|
        invariant view.Current() == ApplyOps(mutatorOps[..i], start, targets)
      {
        DoMutateOp(scaleValue, mutatorOps[i], toPixels, interpolate);
        assert mutatorOps[..i + 1][..i] == mutatorOps[..i];
      }
      assert mutatorOps[..|mutatorOps|] == mutatorOps;
    }

    /** Runs one op for a scale value. */
    method DoMutateOp(scale: real, op: MutatorOp, toPixels: (Int32, real) -> Int32, interpolate: real -> real)
      modifies view`layoutWidth, view`layoutHeight, view`alpha
      ensures view.Current() == DoMutate(old(view.Current()), op, TargetsFor(scale, toPixels, interpolate))
    {
      match op
      case ResizeHeight => ResizeHeightTo(scale, toPixels);
      case ResizeWidth => ResizeWidthTo(scale, toPixels);
      case Fade => view.alpha := interpolate(scale);
    }

    /** Sets the layout width to the computed width, but not below `minWidth`. */
    method ResizeWidthTo(scale: real, toPixels: (Int32, real) -> Int32)
      modifies view`layoutWidth
      ensures view.layoutWidth >= minWidth
      ensures view.layoutWidth == ClampedWidth(toPixels(initialWidth, scale), minWidth)
    {
      var calculatedWidth := toPixels(initialWidth, scale);
      var newWidth := Max(calculatedWidth, minWidth);
      view.layoutWidth := newWidth;
    }

    /** Sets the layout height to the computed height, but not below 1. */
    method ResizeHeightTo(scale: real, toPixels: (Int32, real) -> Int32)
      modifies view`layoutHeight
      ensures view.layoutHeight >= 1
      ensures view.layoutHeight == ClampedHeight(toPixels(initialHeight, scale))
    {
      var calculatedHeight := toPixels(initialHeight, scale);
      var newHeight := Max(calculatedHeight, 1);
      view.layoutHeight := newHeight;
    }
  }
}
