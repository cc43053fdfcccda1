/** The frame each subview of a message cell receives in one layout pass, as a
    function of the layout attributes and of the sibling frames placed before it,
    and the whole pass as one function of the attributes. */
module CellLayout {
  import opened Geometry
  import opened Attributes

  /** The gap between the maximum x of the cell's frame and the timestamp
      label's left edge. */
  const TimestampPaddingLeft: real := 10.0

  /** The y coordinate at which a view of the given height is placed for a
      vertical alignment, given the bubble frame, the message top label frame
      and the height of the cell. */
  function AlignedY(alignment: VerticalAlignment, height: real, container: Rect, messageTopLabel: Rect, cellHeight: real): real
  {
    match alignment
    case MessageLabelTop => messageTopLabel.MinY()
    case MessageTop => container.MinY()
    case MessageBottom => container.MaxY() - height
    case MessageCenter => container.MidY() - height / 2.0
    case CellBottom => cellHeight - height
    case CellTop => 0.0
  }

  /** The bubble is centred in the cell (rather than stacked below the top
      labels) when the avatar is centred on it and taller than it, or, for every
      alignment except bottom alignment, when the accessory is taller than it. */
  predicate CentresContainer(a: MessagesAttributes) {
    a.avatarPosition.vertical != MessageBottom &&
    ((a.avatarPosition.vertical == MessageCenter && a.avatarSize.height > a.messageContainerSize.height) ||
     a.accessoryViewSize.height > a.messageContainerSize.height)
  }

  function ContainerFrame(a: MessagesAttributes, paddingVertical: real): (r: Rect)
    requires a.Resolved()
    ensures r.size == a.messageContainerSize
    ensures a.avatarPosition.horizontal == CellLeading ==>
      r.origin.x == a.avatarLeadingTrailingPadding + a.avatarSize.width + a.messageContainerPadding.left
    ensures a.avatarPosition.horizontal == CellTrailing ==>
      r.origin.x + a.messageContainerSize.width + a.messageContainerPadding.right + a.avatarSize.width
        + a.avatarLeadingTrailingPadding == a.frame.Width()
    ensures a.avatarPosition.vertical == MessageBottom ==>
      r.origin.y + a.messageContainerSize.height + a.messageContainerPadding.top + a.messageContainerPadding.bottom
        + a.messageBottomLabelSize.height + a.cellBottomLabelSize.height == a.CellSize().height
    ensures CentresContainer(a) ==>
      r.origin.y + (a.messageContainerSize.height + paddingVertical) / 2.0 == a.CellSize().height / 2.0
    ensures a.avatarPosition.vertical != MessageBottom && !CentresContainer(a) ==>
      r.origin.y == a.cellTopLabelSize.height + a.messageTopLabelSize.height + a.messageContainerPadding.top
  {
    var centredY := a.CellSize().height / 2.0 - (a.messageContainerSize.height + paddingVertical) / 2.0;
    var y :=
      if a.avatarPosition.vertical == MessageBottom then
        a.CellSize().height - a.messageContainerPadding.bottom - a.cellBottomLabelSize.height
          - a.messageBottomLabelSize.height - a.messageContainerSize.height - a.messageContainerPadding.top
      else if a.avatarPosition.vertical == MessageCenter && a.avatarSize.height > a.messageContainerSize.height then
        centredY
      else if a.accessoryViewSize.height > a.messageContainerSize.height then
        centredY
      else
        a.cellTopLabelSize.height + a.messageTopLabelSize.height + a.messageContainerPadding.top;
    var x :=
      if a.avatarPosition.horizontal == CellLeading then
        a.avatarSize.width + a.messageContainerPadding.left + a.avatarLeadingTrailingPadding
      else
        a.frame.Width() - a.avatarSize.width - a.messageContainerSize.width
          - a.messageContainerPadding.right - a.avatarLeadingTrailingPadding;
    Rect(Point(x, y), a.messageContainerSize)
  }

  /** The message bottom label starts at the leading edge of the cell, below
      the bubble by the bubble's bottom padding. */
  function MessageBottomLabelFrame(a: MessagesAttributes, container: Rect): (r: Rect)
    ensures r.size == a.messageBottomLabelSize
    ensures a.messageBottomLabelSize.width >= 0.0 ==> r.MinX() == 0.0
    ensures a.messageBottomLabelSize.height >= 0.0 ==>
      r.MinY() == container.MaxY() + a.messageContainerPadding.bottom
  {
    Rect(Point(0.0, container.MaxY() + a.messageContainerPadding.bottom), a.messageBottomLabelSize)
  }

  /** The cell bottom label starts at the leading edge of the cell, right
      below the message bottom label. */
  function CellBottomLabelFrame(a: MessagesAttributes, messageBottomLabel: Rect): (r: Rect)
    ensures r.size == a.cellBottomLabelSize
    ensures a.cellBottomLabelSize.width >= 0.0 ==> r.MinX() == 0.0
    ensures a.cellBottomLabelSize.height >= 0.0 ==> r.MinY() == messageBottomLabel.MaxY()
  {
    Rect(Point(0.0, messageBottomLabel.MaxY()), a.cellBottomLabelSize)
  }

  /** The cell top label sits at the cell's origin with its own size. */
  function CellTopLabelFrame(a: MessagesAttributes): Rect
  {
    Rect(Zero, a.cellTopLabelSize)
  }

  /** The message top label starts at the leading edge of the cell and ends
      above the bubble by the bubble's top padding. */
  function MessageTopLabelFrame(a: MessagesAttributes, container: Rect): (r: Rect)
    ensures r.size == a.messageTopLabelSize
    ensures a.messageTopLabelSize.width >= 0.0 ==> r.MinX() == 0.0
    ensures a.messageTopLabelSize.height >= 0.0 ==>
      r.MaxY() + a.messageContainerPadding.top == container.MinY()
  {
    Rect(Point(0.0, container.MinY() - a.messageContainerPadding.top - a.messageTopLabelSize.height), a.messageTopLabelSize)
  }

  /** The avatar keeps its padding from its own side of the cell and is
      aligned vertically on the cell, the bubble or the message top label. */
  function AvatarFrame(a: MessagesAttributes, container: Rect, messageTopLabel: Rect): (r: Rect)
    requires a.Resolved()
    ensures r.size == a.avatarSize
    ensures a.avatarSize.width >= 0.0 && a.avatarPosition.horizontal == CellLeading ==>
      r.MinX() == a.avatarLeadingTrailingPadding
    ensures a.avatarSize.width >= 0.0 && a.avatarPosition.horizontal == CellTrailing ==>
      r.MaxX() + a.avatarLeadingTrailingPadding == a.frame.Width()
    ensures a.avatarSize.height >= 0.0 ==>
      (a.avatarPosition.vertical == CellTop ==> r.MinY() == 0.0) &&
      (a.avatarPosition.vertical == MessageLabelTop ==> r.MinY() == messageTopLabel.MinY()) &&
      (a.avatarPosition.vertical == MessageTop ==> r.MinY() == container.MinY()) &&
      (a.avatarPosition.vertical == MessageBottom ==> r.MaxY() == container.MaxY()) &&
      (a.avatarPosition.vertical == CellBottom ==> r.MaxY() == a.frame.Height())
    ensures a.avatarPosition.vertical == MessageCenter ==> r.MidY() == container.MidY()
  {
    var x :=
      if a.avatarPosition.horizontal == CellLeading then a.avatarLeadingTrailingPadding
      else a.frame.Width() - a.avatarSize.width - a.avatarLeadingTrailingPadding;
    var y := AlignedY(a.avatarPosition.vertical, a.avatarSize.height, container, messageTopLabel, a.frame.Height());
    Rect(Point(x, y), a.avatarSize)
  }

  /** The accessory goes on the side of the bubble away from the avatar. */
  function AccessoryFrame(a: MessagesAttributes, container: Rect, messageTopLabel: Rect): (r: Rect)
    requires a.Resolved()
    ensures r.size == a.accessoryViewSize
    ensures a.accessoryViewSize.width >= 0.0 && a.avatarPosition.horizontal == CellLeading ==>
      r.MinX() == container.MaxX() + a.accessoryViewPadding.left
    ensures a.accessoryViewSize.width >= 0.0 && a.avatarPosition.horizontal == CellTrailing ==>
      r.MaxX() + a.accessoryViewPadding.right == container.MinX()
    ensures a.accessoryViewSize.height >= 0.0 ==>
      (a.accessoryViewPosition == CellTop ==> r.MinY() == 0.0) &&
      (a.accessoryViewPosition == MessageLabelTop ==> r.MinY() == messageTopLabel.MinY()) &&
      (a.accessoryViewPosition == MessageTop ==> r.MinY() == container.MinY()) &&
      (a.accessoryViewPosition == MessageBottom ==> r.MaxY() == container.MaxY()) &&
      (a.accessoryViewPosition == CellBottom ==> r.MaxY() == a.frame.Height())
    ensures a.accessoryViewPosition == MessageCenter ==> r.MidY() == container.MidY()
  {
    var x :=
      if a.avatarPosition.horizontal == CellLeading then container.MaxX() + a.accessoryViewPadding.left
      else container.MinX() - a.accessoryViewPadding.right - a.accessoryViewSize.width;
    var y := AlignedY(a.accessoryViewPosition, a.accessoryViewSize.height, container, messageTopLabel, a.frame.Height());
    Rect(Point(x, y), a.accessoryViewSize)
  }

  /** The timestamp starts 10 points past the maximum x of the cell's frame,
      its first line of text (the font's ascender) centred on the bubble. */
  function TimestampFrame(a: MessagesAttributes, e: Externals, container: Rect): (r: Rect)
    ensures r.size == a.messageTimeLabelSize
    ensures r.origin.x == e.cellMaxX + TimestampPaddingLeft
    ensures r.origin.y + e.timestampAscender / 2.0 == container.MidY()
  {
    Rect(Point(e.cellMaxX + TimestampPaddingLeft,
               container.MinY() + container.Height() * 0.5 - e.timestampAscender * 0.5),
         a.messageTimeLabelSize)
  }

  /** The subviews of a message cell whose frames the layout pass writes. */
  datatype Subview =
    | Container
    | MessageBottomLabel
    | CellBottomLabel
    | CellTopLabel
    | MessageTopLabel
    | Avatar
    | Accessory
    | Timestamp

  /** The frames of all eight subviews. */
  datatype Frames = Frames(
    container: Rect,
    messageBottomLabel: Rect,
    cellBottomLabel: Rect,
    cellTopLabel: Rect,
    messageTopLabel: Rect,
    avatar: Rect,
    accessory: Rect,
    timestamp: Rect)
  {
    function Get(v: Subview): Rect {
      match v
      case Container => container
      case MessageBottomLabel => messageBottomLabel
      case CellBottomLabel => cellBottomLabel
      case CellTopLabel => cellTopLabel
      case MessageTopLabel => messageTopLabel
      case Avatar => avatar
      case Accessory => accessory
      case Timestamp => timestamp
    }

    /** Replaces the frame of one subview and keeps every other. */
    function With(v: Subview, r: Rect): (f: Frames)
      ensures f.Get(v) == r
      ensures forall w :: w != v ==> f.Get(w) == Get(w)
    {
      match v
      case Container => this.(container := r)
      case MessageBottomLabel => this.(messageBottomLabel := r)
      case CellBottomLabel => this.(cellBottomLabel := r)
      case CellTopLabel => this.(cellTopLabel := r)
      case MessageTopLabel => this.(messageTopLabel := r)
      case Avatar => this.(avatar := r)
      case Accessory => this.(accessory := r)
      case Timestamp => this.(timestamp := r)
    }
  }

  /** The frames after one layout pass, each computed from the attributes and
      from the frames placed before it in the pass. */
  function Layout(a: MessagesAttributes, e: Externals): (f: Frames)
    requires a.Resolved()
    // the bubble is placed first, from the attributes alone
    ensures f.container == ContainerFrame(a, e.containerPaddingVertical)
    // the bubble always takes the size the layout computed
    ensures f.container.size == a.messageContainerSize
    // the four labels start at the leading edge with their own sizes
    ensures f.cellTopLabel == Rect(Zero, a.cellTopLabelSize)
    ensures f.messageTopLabel.origin.x == 0.0 && f.messageTopLabel.size == a.messageTopLabelSize
    ensures f.messageBottomLabel.origin.x == 0.0 && f.messageBottomLabel.size == a.messageBottomLabelSize
    ensures f.cellBottomLabel.origin.x == 0.0 && f.cellBottomLabel.size == a.cellBottomLabelSize
    ensures f.avatar.size == a.avatarSize && f.accessory.size == a.accessoryViewSize
    ensures f.timestamp.size == a.messageTimeLabelSize
    // with non-negative sizes the labels hug the bubble vertically
    ensures a.NonNegativeSizes() ==>
      f.messageBottomLabel.MinY() == f.container.MaxY() + a.messageContainerPadding.bottom &&
      f.cellBottomLabel.MinY() == f.messageBottomLabel.MaxY() &&
      f.messageTopLabel.MaxY() + a.messageContainerPadding.top == f.container.MinY()
    // the avatar keeps its padding from its own edge of the cell
    ensures a.NonNegativeSizes() && a.avatarPosition.horizontal == CellLeading ==>
      f.avatar.MinX() == a.avatarLeadingTrailingPadding
    ensures a.NonNegativeSizes() && a.avatarPosition.horizontal == CellTrailing ==>
      f.avatar.MaxX() + a.avatarLeadingTrailingPadding == a.frame.Width()
    // the avatar is aligned on the bubble, the top label or the cell
    ensures a.NonNegativeSizes() ==>
      (a.avatarPosition.vertical == MessageTop ==> f.avatar.MinY() == f.container.MinY()) &&
      (a.avatarPosition.vertical == MessageBottom ==> f.avatar.MaxY() == f.container.MaxY()) &&
      (a.avatarPosition.vertical == MessageLabelTop ==> f.avatar.MinY() == f.messageTopLabel.MinY()) &&
      (a.avatarPosition.vertical == CellBottom ==> f.avatar.MaxY() == a.frame.Height()) &&
      (a.avatarPosition.vertical == CellTop ==> f.avatar.MinY() == 0.0)
    ensures a.avatarPosition.vertical == MessageCenter ==> f.avatar.MidY() == f.container.MidY()
    // the accessory sits beside the bubble on the side away from the avatar
    ensures a.NonNegativeSizes() && a.avatarPosition.horizontal == CellLeading ==>
      f.accessory.MinX() == f.container.MaxX() + a.accessoryViewPadding.left
    ensures a.NonNegativeSizes() && a.avatarPosition.horizontal == CellTrailing ==>
      f.accessory.MaxX() + a.accessoryViewPadding.right == f.container.MinX()
    // and is aligned vertically by the same rule as the avatar
    ensures a.NonNegativeSizes() ==>
      (a.accessoryViewPosition == MessageTop ==> f.accessory.MinY() == f.container.MinY()) &&
      (a.accessoryViewPosition == MessageBottom ==> f.accessory.MaxY() == f.container.MaxY()) &&
      (a.accessoryViewPosition == MessageLabelTop ==> f.accessory.MinY() == f.messageTopLabel.MinY()) &&
      (a.accessoryViewPosition == CellBottom ==> f.accessory.MaxY() == a.frame.Height()) &&
      (a.accessoryViewPosition == CellTop ==> f.accessory.MinY() == 0.0)
    ensures a.accessoryViewPosition == MessageCenter ==> f.accessory.MidY() == f.container.MidY()
    // the timestamp starts 10 points past the maximum x of the cell's frame, level with the bubble
    ensures f.timestamp.origin.x == e.cellMaxX + TimestampPaddingLeft
    ensures f.timestamp.origin.y + e.timestampAscender / 2.0 == f.container.MidY()
  {
    var container := ContainerFrame(a, e.containerPaddingVertical);
    var messageBottomLabel := MessageBottomLabelFrame(a, container);
    var cellBottomLabel := CellBottomLabelFrame(a, messageBottomLabel);
    var cellTopLabel := CellTopLabelFrame(a);
    var messageTopLabel := MessageTopLabelFrame(a, container);
    var avatar := AvatarFrame(a, container, messageTopLabel);
    var accessory := AccessoryFrame(a, container, messageTopLabel);
    var timestamp := TimestampFrame(a, e, container);
    Frames(container, messageBottomLabel, cellBottomLabel, cellTopLabel, messageTopLabel, avatar, accessory, timestamp)
  }

  /** With non-negative sizes and paddings the row reads avatar, bubble,
      accessory from the avatar's side: the avatar and the accessory never
      overlap the bubble, and they are on opposite sides of it. */
  lemma AvatarAndAccessoryFlankContainer(a: MessagesAttributes, e: Externals)
    requires a.Resolved() && a.NonNegativeSizes()
    requires a.messageContainerPadding.left >= 0.0 && a.messageContainerPadding.right >= 0.0
    requires a.accessoryViewPadding.left >= 0.0 && a.accessoryViewPadding.right >= 0.0
    ensures var f := Layout(a, e);
      a.avatarPosition.horizontal == CellLeading ==>
        f.avatar.MaxX() + a.messageContainerPadding.left == f.container.MinX() &&
        f.container.MaxX() <= f.accessory.MinX()
    ensures var f := Layout(a, e);
      a.avatarPosition.horizontal == CellTrailing ==>
        f.container.MaxX() + a.messageContainerPadding.right == f.avatar.MinX() &&
        f.accessory.MaxX() <= f.container.MinX()
  {
  }

  /** With non-negative sizes and bottom padding the bubble ends above the
      bottom labels, which follow each other without a gap; when the bubble is
      stacked below the top labels, the message top label starts where the
      cell top label ends. */
  lemma LabelsStackAroundContainer(a: MessagesAttributes, e: Externals)
    requires a.Resolved() && a.NonNegativeSizes()
    requires a.messageContainerPadding.bottom >= 0.0
    ensures var f := Layout(a, e);
      f.container.MaxY() <= f.messageBottomLabel.MinY() &&
      f.messageBottomLabel.MaxY() == f.cellBottomLabel.MinY()
    ensures var f := Layout(a, e);
      a.avatarPosition.vertical != MessageBottom && !CentresContainer(a) ==>
        f.messageTopLabel.MinY() == f.cellTopLabel.MaxY()
  {
  }
}
