/** The change-detection bridge as values: the four caches, one host update that
    diffs a snapshot against them, and sequences of host updates and user edits. */
module Bridge {
  import opened Types
  import opened Geometry

  /** The four "last published" caches (`_value`, `_styles`, `_disabled`, `_visible`). */
  datatype Caches = Caches(value: SwitchValue, styles: Styles, disabled: bool, visible: bool)

  /** The bundle built from a context and the container's current size: the six
      style references pass through unchanged, and each dimension is positive
      exactly when one of its three sources is. */
  function BuildStyles(ctx: Context, box: Container): (s: Styles)
    ensures s.(width := None, height := None) ==
      Styles(ctx.falseHandleFill, ctx.falseHandleImage, ctx.falseTrackFill,
             ctx.trueHandleFill, ctx.trueHandleImage, ctx.trueTrackFill, None, None)
    ensures Positive(s.width) <==>
      ctx.allocatedWidth > 0 || box.clientWidth > 0 || Positive(ParentWidth(box))
    ensures Positive(s.height) <==>
      ctx.allocatedHeight > 0 || box.clientHeight > 0 || Positive(ParentHeight(box))
    ensures s.width.None? <==> ctx.allocatedWidth <= 0 && box.clientWidth <= 0 && box.parent.None?
    ensures s.height.None? <==> ctx.allocatedHeight <= 0 && box.clientHeight <= 0 && box.parent.None?
  {
    var size := ResolveSize(ctx.allocatedWidth, ctx.allocatedHeight, box);
    Styles(ctx.falseHandleFill, ctx.falseHandleImage, ctx.falseTrackFill,
           ctx.trueHandleFill, ctx.trueHandleImage, ctx.trueTrackFill,
           size.width, size.height)
  }

  /** What every aspect reads from one host snapshot; also what mounting seeds.
      The bound value and the flags are taken raw; the style cache is the built
      bundle, whose size is undefined only when nothing resolves it. */
  function Snapshot(ctx: Context, box: Container): (r: Caches)
    ensures r.value == ctx.value && r.disabled == ctx.isControlDisabled && r.visible == ctx.isVisible
    ensures SameStyles(r.styles, BuildStyles(ctx, box))
    ensures r.styles.width.None? <==> ctx.allocatedWidth <= 0 && box.clientWidth <= 0 && box.parent.None?
    ensures r.styles.height.None? <==> ctx.allocatedHeight <= 0 && box.clientHeight <= 0 && box.parent.None?
  {
    Caches(ctx.value, BuildStyles(ctx, box), ctx.isControlDisabled, ctx.isVisible)
  }

  /** The field-by-field `===` comparison of two bundles: unchanged only when all
      eight fields agree. */
  function SameStyles(a: Styles, b: Styles): (r: bool)
    ensures r <==> a == b
  {
    && a.falseHandleFill == b.falseHandleFill
    && a.falseHandleImage == b.falseHandleImage
    && a.falseTrackFill == b.falseTrackFill
    && a.trueHandleFill == b.trueHandleFill
    && a.trueHandleImage == b.trueHandleImage
    && a.trueTrackFill == b.trueTrackFill
    && a.width == b.width
    && a.height == b.height
  }

  /** One flag or value check: keep the cache when the incoming value is the same,
      otherwise take the incoming value and report a change. */
  function Observe<T(==)>(cached: T, incoming: T): (r: (T, bool))
    ensures r.0 == incoming
    ensures r.1 <==> cached != incoming
  {
    if cached == incoming then (cached, false) else (incoming, true)
  }

  /** The caches after a call and the notifications it published, in order. */
  datatype Outcome = Outcome(caches: Caches, emitted: seq<Notification>)

  function Publish(changed: bool, n: Notification): seq<Notification>
  {
    if changed then [n] else []
  }

  /** One `updateView`: styles, then disabled, then visible, then value, each
      diffed against its own cache only. */
  function UpdateStep(c: Caches, ctx: Context, box: Container): (r: Outcome)
    ensures r.caches == Snapshot(ctx, box)
  {
    var incoming := BuildStyles(ctx, box);
    var stylesChanged := !SameStyles(c.styles, incoming);
    var styles := if stylesChanged then incoming else c.styles;
    var (disabled, disabledChanged) := Observe(c.disabled, ctx.isControlDisabled);
    var (visible, visibleChanged) := Observe(c.visible, ctx.isVisible);
    var (value, valueChanged) := Observe(c.value, ctx.value);
    Outcome(Caches(value, styles, disabled, visible),
            Publish(stylesChanged, StylesPublished(styles))
            + Publish(disabledChanged, DisabledPublished(disabled))
            + Publish(visibleChanged, VisiblePublished(visible))
            + Publish(valueChanged, ValuePublished(value)))
  }

  /** Whether aspect `a` differs between two cache states. */
  predicate Changed(a: Aspect, before: Caches, after: Caches)
  {
    match a
    case StylesAspect => before.styles != after.styles
    case DisabledAspect => before.disabled != after.disabled
    case VisibleAspect => before.visible != after.visible
    case ValueAspect => before.value != after.value
  }

  /** Whether some notification in `e` was published on aspect `a`'s notifier. */
  predicate Mentions(e: seq<Notification>, a: Aspect)
  {
    exists i :: 0 <= i < |e| && AspectOf(e[i]) == a
  }

  /** Position of each aspect's check within one update. */
  function Rank(a: Aspect): nat
  {
    match a
    case StylesAspect => 0
    case DisabledAspect => 1
    case VisibleAspect => 2
    case ValueAspect => 3
  }

  /** Notifications appear in check order, at most one per aspect. */
  predicate InUpdateOrder(e: seq<Notification>)
  {
    forall i, j :: 0 <= i < j < |e| ==> Rank(AspectOf(e[i])) < Rank(AspectOf(e[j]))
  }

  /** A notification carries the cache value of its aspect in `c`. */
  predicate Carries(n: Notification, c: Caches)
  {
    match n
    case StylesPublished(s) => s == c.styles
    case DisabledPublished(d) => d == c.disabled
    case VisiblePublished(v) => v == c.visible
    case ValuePublished(v) => v == c.value
  }

  /** What one update publishes when the caches go from `before` to `after`:
      one notification per changed aspect, in check order. */
  function Emitted(before: Caches, after: Caches): seq<Notification>
  {
    Part(StylesAspect, before, after) + Part(DisabledAspect, before, after)
    + Part(VisibleAspect, before, after) + Part(ValueAspect, before, after)
  }

  /** The notification of aspect `a` carrying its value in `c`. */
  function Announce(a: Aspect, c: Caches): (n: Notification)
    ensures AspectOf(n) == a && Carries(n, c)
  {
    match a
    case StylesAspect => StylesPublished(c.styles)
    case DisabledAspect => DisabledPublished(c.disabled)
    case VisibleAspect => VisiblePublished(c.visible)
    case ValueAspect => ValuePublished(c.value)
  }

  /** What aspect `a`'s check publishes. */
  function Part(a: Aspect, before: Caches, after: Caches): seq<Notification>
  {
    Publish(Changed(a, before, after), Announce(a, after))
  }

  /** The `===` checks publish exactly the changed aspects of the snapshot. */
  lemma UpdateStepEmits(c: Caches, ctx: Context, box: Container)
    ensures UpdateStep(c, ctx, box).emitted == Emitted(c, Snapshot(ctx, box))
  {
  }

  /** Appending the four parts one after another appends what one update emits. */
  /** Four logged checks, each appending what its own aspect publishes, add up to
      one whole update's notifications. */
  lemma UpdateStepLogged(c: Caches, ctx: Context, box: Container,
                         log0: seq<Notification>, log1: seq<Notification>, log2: seq<Notification>,
                         log3: seq<Notification>, log4: seq<Notification>)
    requires log1 == log0 + if c.styles == BuildStyles(ctx, box) then []
                            else [StylesPublished(BuildStyles(ctx, box))]
    requires log2 == log1 + if c.disabled == ctx.isControlDisabled then []
                            else [DisabledPublished(ctx.isControlDisabled)]
    requires log3 == log2 + if c.visible == ctx.isVisible then [] else [VisiblePublished(ctx.isVisible)]
    requires log4 == log3 + if c.value == ctx.value then [] else [ValuePublished(ctx.value)]
    ensures log4 == log0 + UpdateStep(c, ctx, box).emitted
  {
    assert log4 == log0 + (log1[|log0|..] + log2[|log1|..] + log3[|log2|..] + log4[|log3|..]);
  }

  lemma MentionsConcat(x: seq<Notification>, y: seq<Notification>, a: Aspect)
    ensures Mentions(x + y, a) <==> Mentions(x, a) || Mentions(y, a)
  {
    if Mentions(x + y, a) {
      var i :| 0 <= i < |x + y| && AspectOf((x + y)[i]) == a;
      if i >= |x| {
        assert y[i - |x|] == (x + y)[i];
      }
    }
    if Mentions(y, a) {
      var i :| 0 <= i < |y| && AspectOf(y[i]) == a;
      assert (x + y)[|x| + i] == y[i];
    }
    if Mentions(x, a) {
      var i :| 0 <= i < |x| && AspectOf(x[i]) == a;
      assert (x + y)[i] == x[i];
    }
  }

  /** Each published notification carries the new value of its aspect. */
  predicate AllCarry(e: seq<Notification>, c: Caches)
  {
    forall i :: 0 <= i < |e| ==> Carries(e[i], c)
  }

  /** A notifier is used exactly for the aspects that changed. */
  lemma EmittedMentionsChanged(before: Caches, after: Caches, a: Aspect)
    ensures Mentions(Emitted(before, after), a) <==> Changed(a, before, after)
  {
    var e1 := Part(StylesAspect, before, after);
    var e2 := Part(DisabledAspect, before, after);
    var e3 := Part(VisibleAspect, before, after);
    var e4 := Part(ValueAspect, before, after);
    MentionsConcat(e1 + e2 + e3, e4, a);
    MentionsConcat(e1 + e2, e3, a);
    MentionsConcat(e1, e2, a);
    PartMentions(StylesAspect, before, after, a);
    PartMentions(DisabledAspect, before, after, a);
    PartMentions(VisibleAspect, before, after, a);
    PartMentions(ValueAspect, before, after, a);
  }

  lemma PartMentions(b: Aspect, before: Caches, after: Caches, a: Aspect)
    ensures Mentions(Part(b, before, after), a) <==> Changed(b, before, after) && b == a
  {
    if Changed(b, before, after) && b == a {
      assert AspectOf(Part(b, before, after)[0]) == a;
    }
  }

  /** Notifications come in check order and carry the new cache values. */
  lemma EmittedOrdered(before: Caches, after: Caches)
    ensures InUpdateOrder(Emitted(before, after)) && AllCarry(Emitted(before, after), after)
  {
  }

  /** An update publishes on an aspect's notifier exactly when that aspect's
      cache differed from the snapshot. */
  lemma UpdateStepPublishesChanged(c: Caches, ctx: Context, box: Container, a: Aspect)
    ensures var r := UpdateStep(c, ctx, box);
      Mentions(r.emitted, a) <==> Changed(a, c, r.caches)
  {
    UpdateStepEmits(c, ctx, box);
    EmittedMentionsChanged(c, Snapshot(ctx, box), a);
  }

  /** Within one update the notifications come in the order styles, disabled,
      visible, value, at most one each, and each carries the new cache value. */
  lemma UpdateStepOrdered(c: Caches, ctx: Context, box: Container)
    ensures var r := UpdateStep(c, ctx, box);
      InUpdateOrder(r.emitted) && AllCarry(r.emitted, r.caches)
  {
    UpdateStepEmits(c, ctx, box);
    EmittedOrdered(c, Snapshot(ctx, box));
  }

  /** Nothing is published exactly when every cache already equals the snapshot. */
  lemma UpdateStepQuietIffSettled(c: Caches, ctx: Context, box: Container)
    ensures UpdateStep(c, ctx, box).emitted == [] <==> c == Snapshot(ctx, box)
  {
    var r := UpdateStep(c, ctx, box);
    if c != r.caches {
      var a :| Changed(a, c, r.caches);
      UpdateStepPublishesChanged(c, ctx, box, a);
    }
  }

  /** A second update with the same snapshot changes nothing and publishes nothing. */
  lemma UpdateIdempotent(c: Caches, ctx: Context, box: Container)
    ensures var r := UpdateStep(c, ctx, box);
      UpdateStep(r.caches, ctx, box) == Outcome(r.caches, [])
  {
    UpdateStepQuietIffSettled(UpdateStep(c, ctx, box).caches, ctx, box);
  }

  /** Mounting seeds caches that are already settled: a first update whose
      snapshot matches the mount context publishes nothing. */
  lemma MountIsSettled(ctx: Context, box: Container)
    ensures UpdateStep(Snapshot(ctx, box), ctx, box) == Outcome(Snapshot(ctx, box), [])
  {
    UpdateStepQuietIffSettled(Snapshot(ctx, box), ctx, box);
  }

  /** A host call (`updateView` with the container's current size) or a user edit
      arriving through the view's `onValueChanged` callback. */
  datatype Op = Update(ctx: Context, box: Container) | Edit(edited: SwitchValue)

  /** One operation. Every operation leaves the value cache holding the value it
      carries; a user edit touches no other cache and publishes nothing on any
      notifier. */
  function Apply(c: Caches, op: Op): (r: Outcome)
    ensures r.caches.value == Written(op)
    ensures op.Edit? ==> r.emitted == [] && r.caches.(value := c.value) == c
  {
    match op
    case Update(ctx, box) => UpdateStep(c, ctx, box)
    case Edit(v) => Outcome(c.(value := v), [])
  }

  /** Runs the operations in turn, collecting everything they publish. */
  function Replay(c: Caches, ops: seq<Op>): Outcome
    decreases |ops|
  {
    if ops == [] then Outcome(c, [])
    else
      var first := Apply(c, ops[0]);
      var rest := Replay(first.caches, ops[1..]);
      Outcome(rest.caches, first.emitted + rest.emitted)
  }

  /** The value an operation writes to the value cache. */
  function Written(op: Op): SwitchValue
  {
    match op
    case Update(ctx, _) => ctx.value
    case Edit(v) => v
  }

  /** Reference for the output: the value of the last operation, or the seed
      when there has been none. */
  function LastWritten(seed: SwitchValue, ops: seq<Op>): SwitchValue
  {
    if ops == [] then seed else Written(ops[|ops| - 1])
  }

  /** The value cache, which `getOutputs` returns, always holds the mount value,
      the last value a host update carried, or the last user edit, whichever
      came last. */
  lemma {:induction false} ValueCacheIsLastWritten(c: Caches, ops: seq<Op>)
    ensures Replay(c, ops).caches.value == LastWritten(c.value, ops)
    decreases |ops|
  {
    if ops != [] {
      var first := Apply(c, ops[0]);
      ValueCacheIsLastWritten(first.caches, ops[1..]);
      if |ops| > 1 {
        assert ops[1..][|ops[1..]| - 1] == ops[|ops| - 1];
      }
    }
  }

  /** `n` copies of one operation. */
  function Repeat(op: Op, n: nat): (r: seq<Op>)
    ensures |r| == n
  {
    if n == 0 then [] else [op] + Repeat(op, n - 1)
  }

  /** Once the caches equal the snapshot, any number of further updates with it
      publish nothing and leave the caches as they are. */
  lemma {:induction false} SettledUpdatesAreQuiet(ctx: Context, box: Container, n: nat)
    ensures Replay(Snapshot(ctx, box), Repeat(Update(ctx, box), n)) == Outcome(Snapshot(ctx, box), [])
  {
    if n > 0 {
      var ops := Repeat(Update(ctx, box), n);
      assert ops[1..] == Repeat(Update(ctx, box), n - 1);
      UpdateStepQuietIffSettled(Snapshot(ctx, box), ctx, box);
      SettledUpdatesAreQuiet(ctx, box, n - 1);
    }
  }

  /** The host calling `updateView` with the same snapshot n >= 1 times publishes
      only what the first call publishes. */
  lemma RepeatedUpdatePublishesOnce(c: Caches, ctx: Context, box: Container, n: nat)
    requires n >= 1
    ensures Replay(c, Repeat(Update(ctx, box), n)).emitted == UpdateStep(c, ctx, box).emitted
    ensures Replay(c, Repeat(Update(ctx, box), n)).caches == Snapshot(ctx, box)
  {
    var ops := Repeat(Update(ctx, box), n);
    assert ops[1..] == Repeat(Update(ctx, box), n - 1);
    SettledUpdatesAreQuiet(ctx, box, n - 1);
  }

  /** A user edit publishes nothing, and a later update whose raw value equals
      the edited value publishes nothing on the value notifier. */
  lemma EditThenMatchingUpdate(c: Caches, v: SwitchValue, ctx: Context, box: Container)
    requires ctx.value == v
    ensures Replay(c, [Edit(v)]).emitted == []
    ensures !Mentions(Replay(c, [Edit(v), Update(ctx, box)]).emitted, ValueAspect)
    ensures Replay(c, [Edit(v), Update(ctx, box)]).caches.value == v
  {
    var edited := c.(value := v);
    var step := UpdateStep(edited, ctx, box);
    var tail := [Update(ctx, box)];
    assert tail[1..] == [];
    assert Replay(step.caches, []) == Outcome(step.caches, []);
    assert Replay(edited, tail) == Outcome(step.caches, step.emitted + []);
    var ops := [Edit(v), Update(ctx, box)];
    assert ops[1..] == tail;
    assert Replay(c, ops) == Outcome(step.caches, [] + (step.emitted + []));
    assert [Edit(v)][1..] == [];
    UpdateStepPublishesChanged(edited, ctx, box, ValueAspect);
  }

  /** Mount with `false`, then the host twice reports `true`: the value notifier
      publishes `true` once, no other notifier publishes, and the output is `true`. */
  lemma ToggleEndToEnd(mount: Context, next: Context, box: Container)
    requires mount.value == Some(false)
    requires next == mount.(value := Some(true))
    ensures Replay(Snapshot(mount, box), [Update(next, box), Update(next, box)]).emitted
            == [ValuePublished(Some(true))]
    ensures Replay(Snapshot(mount, box), [Update(next, box), Update(next, box)]).caches.value
            == Some(true)
  {
    var ops := [Update(next, box), Update(next, box)];
    assert ops == Repeat(Update(next, box), 2);
    RepeatedUpdatePublishesOnce(Snapshot(mount, box), next, box, 2);
  }
}
