/** The StyledSwitch control: four caches updated in place, four notifiers
    recorded as one append-only log, and the calls made back into the host. */
module Control {
  import opened Types
  import opened Geometry
  import opened Bridge

  class StyledSwitch {
    /** Last published bound value (`_value`), returned by GetOutputs. */
    var value: SwitchValue
    /** Last published style bundle (`_styles`). */
    var styles: Styles
    /** Last published disabled flag (`_disabled`). */
    var disabled: bool
    /** Last published visibility flag (`_visible`). */
    var visible: bool
    /** False once the host has torn the control down. */
    var mounted: bool
    /** Every `notify` call on the four notifiers, oldest first. */
    var published: seq<Notification>
    /** Every `requestRender` and `notifyOutputChanged` call, oldest first. */
    var signals: seq<HostSignal>

    /** The four caches as one value. */
    function Cached(): Caches
      reads this
    {
      Caches(value, styles, disabled, visible)
    }

    /** Mounting: seeds every cache from the first context without publishing,
        and asks the host to render again unless both dimensions resolved to a
        positive size. */
    constructor Init(ctx: Context, box: Container)
      ensures Cached() == Snapshot(ctx, box)
      ensures mounted && published == []
      ensures signals ==
        if NeedsRender(ResolveSize(ctx.allocatedWidth, ctx.allocatedHeight, box))
        then [RenderRequested] else []
    {
      disabled := ctx.isControlDisabled;
      value := ctx.value;
      visible := ctx.isVisible;
      var width := ResolveDim(ctx.allocatedWidth, box.clientWidth, ParentWidth(box));
      var height := ResolveDim(ctx.allocatedHeight, box.clientHeight, ParentHeight(box));
      styles := Styles(ctx.falseHandleFill, ctx.falseHandleImage, ctx.falseTrackFill,
                       ctx.trueHandleFill, ctx.trueHandleImage, ctx.trueTrackFill,
                       width, height);
      mounted := true;
      published := [];
      if Positive(width) && Positive(height) {
        signals := [];
      } else {
        signals := [RenderRequested];
      }
    }

    /** A host update: the four checks, styles first and value last. */
    method UpdateView(ctx: Context, box: Container)
      modifies this`value, this`styles, this`disabled, this`visible, this`published
      ensures Cached() == Snapshot(ctx, box)
      ensures published == old(published) + UpdateStep(old(Cached()), ctx, box).emitted
    {
      ghost var before := Cached();
      ghost var log0 := published;
      CheckStyles(ctx, box);
      ghost var log1 := published;
      CheckDisabled(ctx.isControlDisabled);
      ghost var log2 := published;
      CheckVisible(ctx.isVisible);
      ghost var log3 := published;
      CheckSelection(ctx.value);
      UpdateStepLogged(before, ctx, box, log0, log1, log2, log3, published);
    }

    /** The host reads the value cache as is. */
    method GetOutputs() returns (o: Outputs)
      ensures o.value == value
    {
      o := Outputs(value);
    }

    /** Teardown; the view itself is not modelled. */
    method Destroy()
      modifies this`mounted
      ensures !mounted
    {
      mounted := false;
    }

    /** The view's callback on a user toggle: writes the value cache and tells the
        host an output changed, without publishing on the value notifier. */
    method OnValueChanged(updated: SwitchValue)
      modifies this`value, this`signals
      ensures value == updated
      ensures signals == old(signals) + [OutputChanged]
    {
      value := updated;
      signals := signals + [OutputChanged];
    }

    method CheckDisabled(incoming: bool)
      modifies this`disabled, this`published
      ensures disabled == incoming
      ensures published == old(published) +
        if old(disabled) == incoming then [] else [DisabledPublished(incoming)]
    {
      if disabled == incoming {
        return;
      }
      disabled := incoming;
      published := published + [DisabledPublished(disabled)];
    }

    method CheckVisible(incoming: bool)
      modifies this`visible, this`published
      ensures visible == incoming
      ensures published == old(published) +
        if old(visible) == incoming then [] else [VisiblePublished(incoming)]
    {
      if visible == incoming {
        return;
      }
      visible := incoming;
      published := published + [VisiblePublished(visible)];
    }

    method CheckSelection(incoming: SwitchValue)
      modifies this`value, this`published
      ensures value == incoming
      ensures published == old(published) +
        if old(value) == incoming then [] else [ValuePublished(incoming)]
    {
      if value == incoming {
        return;
      }
      value := incoming;
      published := published + [ValuePublished(incoming)];
    }

    /** Resolves the size again, compares all eight fields with the cache, and on
        any difference stores the new bundle and publishes it. */
    method CheckStyles(ctx: Context, box: Container)
      modifies this`styles, this`published
      ensures styles == BuildStyles(ctx, box)
      ensures published == old(published) +
        if old(styles) == styles then [] else [StylesPublished(styles)]
    {
      var width := ResolveDim(ctx.allocatedWidth, box.clientWidth, ParentWidth(box));
      var height := ResolveDim(ctx.allocatedHeight, box.clientHeight, ParentHeight(box));
      var incoming := Styles(ctx.falseHandleFill, ctx.falseHandleImage, ctx.falseTrackFill,
                             ctx.trueHandleFill, ctx.trueHandleImage, ctx.trueTrackFill,
                             width, height);
      if SameStyles(styles, incoming) {
        return;
      }
      styles := incoming;
      published := published + [StylesPublished(styles)];
    }
  }

  /** Mount with `false`, then two host updates carrying `true`: the log holds one
      value notification for `true` and nothing else, and the host reads `true`. */
  method ToggleScenario(mount: Context, next: Context, box: Container)
    returns (log: seq<Notification>, out: Outputs, signals: seq<HostSignal>)
    requires mount.value == Some(false)
    requires next == mount.(value := Some(true))
    ensures log == [ValuePublished(Some(true))]
    ensures out == Outputs(Some(true))
    ensures signals == if NeedsRender(ResolveSize(mount.allocatedWidth, mount.allocatedHeight, box))
                       then [RenderRequested] else []
  {
    var control := new StyledSwitch.Init(mount, box);
    control.UpdateView(next, box);
    out := control.GetOutputs();
    control.UpdateView(next, box);
    log := control.published;
    signals := control.signals;
    ToggleEndToEnd(mount, next, box);
  }
}
