/** Values the StyledSwitch control reads from its host and publishes to its view. */
module Types {

  /** JavaScript's `undefined` (None) or a defined value (Some). */
  datatype Option<+T> = None | Some(value: T)

  /** The bound two-option value: `undefined` while unset, otherwise a boolean. */
  type SwitchValue = Option<bool>

  /** An opaque style reference (a colour or an image), possibly absent (`null`). */
  type StyleRef = Option<string>

  /** The part of the host context the control reads: the raw bound value, the six
      style parameters, the two mode flags and the allocated size (-1 when the host
      does not track it, 0 before layout). */
  datatype Context = Context(
    value: SwitchValue,
    falseHandleFill: StyleRef,
    falseHandleImage: StyleRef,
    falseTrackFill: StyleRef,
    trueHandleFill: StyleRef,
    trueHandleImage: StyleRef,
    trueTrackFill: StyleRef,
    isControlDisabled: bool,
    isVisible: bool,
    allocatedWidth: int,
    allocatedHeight: int)

  /** Client size of an element. */
  datatype Box = Box(clientWidth: int, clientHeight: int)

  /** The container element as read at call time: its own client size and, when it
      has one, its parent element's. */
  datatype Container = Container(clientWidth: int, clientHeight: int, parent: Option<Box>)

  /** The style bundle handed to the view: six style references and the resolved size. */
  datatype Styles = Styles(
    falseHandleFill: StyleRef,
    falseHandleImage: StyleRef,
    falseTrackFill: StyleRef,
    trueHandleFill: StyleRef,
    trueHandleImage: StyleRef,
    trueTrackFill: StyleRef,
    width: Option<int>,
    height: Option<int>)

  /** One `notify` call on one of the four notifiers. */
  datatype Notification =
    | StylesPublished(styles: Styles)
    | DisabledPublished(disabled: bool)
    | VisiblePublished(visible: bool)
    | ValuePublished(switchValue: SwitchValue)

  /** The four independently observed aspects, one notifier each. */
  datatype Aspect = StylesAspect | DisabledAspect | VisibleAspect | ValueAspect

  function AspectOf(n: Notification): Aspect
  {
    match n
    case StylesPublished(_) => StylesAspect
    case DisabledPublished(_) => DisabledAspect
    case VisiblePublished(_) => VisibleAspect
    case ValuePublished(_) => ValueAspect
  }

  /** Calls the control makes back into its host. */
  datatype HostSignal = RenderRequested | OutputChanged

  /** What `getOutputs` hands to the host. */
  datatype Outputs = Outputs(value: SwitchValue)
}
