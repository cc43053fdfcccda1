/** The layout attributes a message cell receives from its collection view
    layout: the cell's frame plus the sizes, paddings and alignments the layout
    has already computed. The cell only positions its subviews from these; it
    never computes a size itself. */
module Attributes {
  import opened Geometry

  /** Which side of the cell the avatar sits on; `Natural` means the layout has
      not resolved the side for the current writing direction. */
  datatype HorizontalAlignment = CellLeading | CellTrailing | Natural

  /** Vertical alignment of the avatar, and of the accessory view, relative to
      the cell and to the message bubble. */
  datatype VerticalAlignment =
    | CellTop
    | MessageLabelTop
    | MessageTop
    | MessageCenter
    | MessageBottom
    | CellBottom

  datatype AvatarPosition = AvatarPosition(horizontal: HorizontalAlignment, vertical: VerticalAlignment)

  datatype Insets = Insets(top: real, left: real, bottom: real, right: real)

  datatype HorizontalInsets = HorizontalInsets(left: real, right: real)

  /** A `MessagesCollectionViewLayoutAttributes` value. Its `size` is the size of
      its `frame`, as for every collection view layout attributes object. */
  datatype MessagesAttributes = MessagesAttributes(
    frame: Rect,
    avatarPosition: AvatarPosition,
    avatarSize: Size,
    avatarLeadingTrailingPadding: real,
    messageContainerSize: Size,
    messageContainerPadding: Insets,
    cellTopLabelSize: Size,
    cellBottomLabelSize: Size,
    messageTopLabelSize: Size,
    messageBottomLabelSize: Size,
    messageTimeLabelSize: Size,
    accessoryViewSize: Size,
    accessoryViewPadding: HorizontalInsets,
    accessoryViewPosition: VerticalAlignment)
  {
    /** The size of the cell, as the layout attributes give it. */
    function CellSize(): Size { frame.size }

    /** The side of the avatar is resolved, as every layout method requires. */
    predicate Resolved() { avatarPosition.horizontal != Natural }

    /** Every size the layout hands over is non-negative. */
    predicate NonNegativeSizes() {
      avatarSize.NonNegative() && messageContainerSize.NonNegative() &&
      cellTopLabelSize.NonNegative() && cellBottomLabelSize.NonNegative() &&
      messageTopLabelSize.NonNegative() && messageBottomLabelSize.NonNegative() &&
      messageTimeLabelSize.NonNegative() && accessoryViewSize.NonNegative()
    }
  }

  /** The attributes handed to `apply`: either a plain layout attributes object,
      of which only the frame is known, or the message-specific subclass. */
  datatype LayoutAttributes =
    | Plain(frame: Rect)
    | Messages(attributes: MessagesAttributes)

  /** Values the layout pass reads from outside the attributes: the maximum x of
      the cell's own frame, the ascender of the timestamp label's font, and the
      vertical padding (`messageContainerPadding.vertical`) of the bubble. */
  datatype Externals = Externals(cellMaxX: real, timestampAscender: real, containerPaddingVertical: real)
}
