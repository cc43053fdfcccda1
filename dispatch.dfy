/** What a message cell does with a tap and whether it lets a gesture begin,
    decided from the current frames of its subviews. */
module Dispatch {
  import opened Geometry
  import opened CellLayout

  datatype Option<T> = None | Some(value: T)

  /** The delegate callbacks a tap can trigger. */
  datatype TapCallback =
    | DidTapMessage
    | DidTapAvatar
    | DidTapCellTopLabel
    | DidTapCellBottomLabel
    | DidTapMessageTopLabel
    | DidTapMessageBottomLabel
    | DidTapAccessoryView
    | DidTapBackground

  /** The position of each callback's region in the order the regions are checked. */
  function Priority(c: TapCallback): nat {
    match c
    case DidTapMessage => 0
    case DidTapAvatar => 1
    case DidTapCellTopLabel => 2
    case DidTapCellBottomLabel => 3
    case DidTapMessageTopLabel => 4
    case DidTapMessageBottomLabel => 5
    case DidTapAccessoryView => 6
    case DidTapBackground => 7
  }

  /** The hook by which the content view claims a point, given in the bubble's
      own coordinates, for itself (a link or a button inside the message). */
  type ContentViewHook = Point -> bool

  /** The content view of a plain message cell claims no point. */
  function DefaultCanHandle(p: Point): bool { false }

  /** Whether the region behind callback `c` takes a tap at `p`, a point in the
      cell's coordinates. The bubble takes it only when the content view does
      not claim it; the background takes every tap. */
  predicate Takes(f: Frames, p: Point, canHandle: ContentViewHook, c: TapCallback) {
    match c
    case DidTapMessage => f.container.Contains(p) && !canHandle(ConvertToView(p, f.container))
    case DidTapAvatar => f.avatar.Contains(p)
    case DidTapCellTopLabel => f.cellTopLabel.Contains(p)
    case DidTapCellBottomLabel => f.cellBottomLabel.Contains(p)
    case DidTapMessageTopLabel => f.messageTopLabel.Contains(p)
    case DidTapMessageBottomLabel => f.messageBottomLabel.Contains(p)
    case DidTapAccessoryView => f.accessory.Contains(p)
    case DidTapBackground => true
  }

  /** `c` is the first region, in test order, that takes the tap. */
  predicate FirstTaker(f: Frames, p: Point, canHandle: ContentViewHook, c: TapCallback) {
    Takes(f, p, canHandle, c) &&
    forall d :: Priority(d) < Priority(c) ==> !Takes(f, p, canHandle, d)
  }

  /** The callback a tap at `p` selects: the regions are checked one after the
      other and the first that contains the point wins. */
  function TapTarget(f: Frames, p: Point, canHandle: ContentViewHook): (c: TapCallback)
    ensures FirstTaker(f, p, canHandle, c)
  {
    if f.container.Contains(p) && !canHandle(ConvertToView(p, f.container)) then DidTapMessage
    else if f.avatar.Contains(p) then DidTapAvatar
    else if f.cellTopLabel.Contains(p) then DidTapCellTopLabel
    else if f.cellBottomLabel.Contains(p) then DidTapCellBottomLabel
    else if f.messageTopLabel.Contains(p) then DidTapMessageTopLabel
    else if f.messageBottomLabel.Contains(p) then DidTapMessageBottomLabel
    else if f.accessory.Contains(p) then DidTapAccessoryView
    else DidTapBackground
  }

  /** Handling a tap calls exactly one delegate callback, the first region to
      take the tap, when the cell has a delegate, and nothing otherwise. */
  function HandleTapGesture(f: Frames, p: Point, canHandle: ContentViewHook, hasDelegate: bool): (r: Option<TapCallback>)
    ensures r.Some? <==> hasDelegate
    ensures r.Some? ==> FirstTaker(f, p, canHandle, r.value)
  {
    if hasDelegate then Some(TapTarget(f, p, canHandle)) else None
  }

  /** At most one region is the first to take a tap, so a tap never selects
      two callbacks. */
  lemma FirstTakerUnique(f: Frames, p: Point, canHandle: ContentViewHook, c1: TapCallback, c2: TapCallback)
    requires FirstTaker(f, p, canHandle, c1) && FirstTaker(f, p, canHandle, c2)
    ensures c1 == c2
  {
  }

  /** A point the content view claims never counts as a tap on the message. */
  lemma ClaimedPointIsNotMessageTap(f: Frames, p: Point, canHandle: ContentViewHook)
    requires canHandle(ConvertToView(p, f.container))
    ensures TapTarget(f, p, canHandle) != DidTapMessage
  {
  }

  /** A point the content view claims is not swallowed: the tap falls through
      to the remaining regions, and when none of them contains the point the
      delegate hears of a tap on the background. */
  lemma ClaimedPointFallsThrough(f: Frames, p: Point, canHandle: ContentViewHook)
    requires canHandle(ConvertToView(p, f.container))
    requires !f.avatar.Contains(p) && !f.cellTopLabel.Contains(p) && !f.cellBottomLabel.Contains(p)
    requires !f.messageTopLabel.Contains(p) && !f.messageBottomLabel.Contains(p) && !f.accessory.Contains(p)
    ensures TapTarget(f, p, canHandle) == DidTapBackground
  {
  }

  /** With the default hook a tap goes to the message exactly when it falls in
      the bubble's frame. */
  lemma DefaultHookMessageTap(f: Frames, p: Point)
    ensures TapTarget(f, p, DefaultCanHandle) == DidTapMessage <==> f.container.Contains(p)
  {
  }

  /** The kinds of gesture recognizer the cell is asked about; a long-press
      recognizer of any subclass is a `LongPress`. */
  datatype RecognizerKind = LongPress | Tap | Pan | Swipe | OtherRecognizer

  datatype GestureRecognizer = GestureRecognizer(kind: RecognizerKind, location: Point)

  /** A gesture may begin only when it is a long press whose point lies in the
      bubble's frame. */
  function GestureRecognizerShouldBegin(container: Rect, g: GestureRecognizer): bool
  {
    if g.kind != LongPress then false else container.Contains(g.location)
  }

  /** A gesture begins exactly when it is a long press at a point that, with
      the default hook, a tap would report as a tap on the message; every other
      kind of recognizer is refused wherever it is. */
  lemma LongPressAgreesWithMessageTap(f: Frames, g: GestureRecognizer)
    ensures GestureRecognizerShouldBegin(f.container, g) <==>
      g.kind == LongPress && TapTarget(f, g.location, DefaultCanHandle) == DidTapMessage
  {
  }
}
