/** The message cell itself: one frame per subview, the texts of its labels,
    the layout methods that each write one frame, the layout pass that runs
    them in order, and the reset before reuse. */
module MessageCell {
  import opened Geometry
  import opened Attributes
  import opened CellLayout

  datatype Text = NoText | Text(content: string)

  class MessageContentCell {
    var containerFrame: Rect
    var messageBottomLabelFrame: Rect
    var cellBottomLabelFrame: Rect
    var cellTopLabelFrame: Rect
    var messageTopLabelFrame: Rect
    var avatarFrame: Rect
    var accessoryFrame: Rect
    var timestampFrame: Rect

    var cellTopLabelText: Text
    var cellBottomLabelText: Text
    var messageTopLabelText: Text
    var messageBottomLabelText: Text
    var timestampLabelText: Text

    /** The frames of all subviews. */
    function SubviewFrames(): Frames
      reads this
    {
      Frames(containerFrame, messageBottomLabelFrame, cellBottomLabelFrame, cellTopLabelFrame,
                        messageTopLabelFrame, avatarFrame, accessoryFrame, timestampFrame)
    }

    /** A new cell: every subview has the empty frame and no label has text. */
    constructor ()
      ensures SubviewFrames() == Frames(ZeroRect, ZeroRect, ZeroRect, ZeroRect, ZeroRect, ZeroRect, ZeroRect, ZeroRect)
      ensures LabelsCleared()
    {
      containerFrame, messageBottomLabelFrame, cellBottomLabelFrame, cellTopLabelFrame := ZeroRect, ZeroRect, ZeroRect, ZeroRect;
      messageTopLabelFrame, avatarFrame, accessoryFrame, timestampFrame := ZeroRect, ZeroRect, ZeroRect, ZeroRect;
      cellTopLabelText, cellBottomLabelText, messageTopLabelText, messageBottomLabelText := NoText, NoText, NoText, NoText;
      timestampLabelText := NoText;
    }

    predicate LabelsCleared()
      reads this
    {
      cellTopLabelText == NoText && cellBottomLabelText == NoText &&
      messageTopLabelText == NoText && messageBottomLabelText == NoText &&
      timestampLabelText == NoText
    }

    /** Clears the text of the four labels and the timestamp; the frames stay. */
    method PrepareForReuse()
      modifies this`cellTopLabelText, this`cellBottomLabelText, this`messageTopLabelText,
               this`messageBottomLabelText, this`timestampLabelText
      ensures LabelsCleared()
    {
      cellTopLabelText := NoText;
      cellBottomLabelText := NoText;
      messageTopLabelText := NoText;
      messageBottomLabelText := NoText;
      timestampLabelText := NoText;
    }

    method LayoutMessageContainerView(a: MessagesAttributes, e: Externals)
      requires a.Resolved()
      modifies this`containerFrame
      ensures containerFrame == ContainerFrame(a, e.containerPaddingVertical)
    {
      var origin := Zero;
      if a.avatarPosition.vertical == MessageBottom {
        origin := origin.(y := a.CellSize().height - a.messageContainerPadding.bottom - a.cellBottomLabelSize.height
                               - a.messageBottomLabelSize.height - a.messageContainerSize.height
                               - a.messageContainerPadding.top);
      } else if a.avatarPosition.vertical == MessageCenter && a.avatarSize.height > a.messageContainerSize.height {
        var messageHeight := a.messageContainerSize.height + e.containerPaddingVertical;
        origin := origin.(y := a.CellSize().height / 2.0 - messageHeight / 2.0);
      } else if a.accessoryViewSize.height > a.messageContainerSize.height {
        // the message-centre case with a shorter avatar falls through to here
        var messageHeight := a.messageContainerSize.height + e.containerPaddingVertical;
        origin := origin.(y := a.CellSize().height / 2.0 - messageHeight / 2.0);
      } else {
        origin := origin.(y := a.cellTopLabelSize.height + a.messageTopLabelSize.height + a.messageContainerPadding.top);
      }

      var avatarPadding := a.avatarLeadingTrailingPadding;
      match a.avatarPosition.horizontal {
        case CellLeading =>
          origin := origin.(x := a.avatarSize.width + a.messageContainerPadding.left + avatarPadding);
        case CellTrailing =>
          origin := origin.(x := a.frame.Width() - a.avatarSize.width - a.messageContainerSize.width
                                 - a.messageContainerPadding.right - avatarPadding);
      }

      containerFrame := Rect(origin, a.messageContainerSize);
    }

    method LayoutMessageBottomLabel(a: MessagesAttributes)
      modifies this`messageBottomLabelFrame
      ensures messageBottomLabelFrame == MessageBottomLabelFrame(a, containerFrame)
    {
      var y := containerFrame.MaxY() + a.messageContainerPadding.bottom;
      messageBottomLabelFrame := Rect(Point(0.0, y), a.messageBottomLabelSize);
    }

    method LayoutCellBottomLabel(a: MessagesAttributes)
      modifies this`cellBottomLabelFrame
      ensures cellBottomLabelFrame == CellBottomLabelFrame(a, messageBottomLabelFrame)
    {
      var y := messageBottomLabelFrame.MaxY();
      cellBottomLabelFrame := Rect(Point(0.0, y), a.cellBottomLabelSize);
    }

    method LayoutCellTopLabel(a: MessagesAttributes)
      modifies this`cellTopLabelFrame
      ensures cellTopLabelFrame == CellTopLabelFrame(a)
    {
      cellTopLabelFrame := Rect(Zero, a.cellTopLabelSize);
    }

    method LayoutMessageTopLabel(a: MessagesAttributes)
      modifies this`messageTopLabelFrame
      ensures messageTopLabelFrame == MessageTopLabelFrame(a, containerFrame)
    {
      var y := containerFrame.MinY() - a.messageContainerPadding.top - a.messageTopLabelSize.height;
      messageTopLabelFrame := Rect(Point(0.0, y), a.messageTopLabelSize);
    }

    method LayoutAvatarView(a: MessagesAttributes)
      requires a.Resolved()
      modifies this`avatarFrame
      ensures avatarFrame == AvatarFrame(a, containerFrame, messageTopLabelFrame)
    {
      var origin := Zero;
      var padding := a.avatarLeadingTrailingPadding;
      match a.avatarPosition.horizontal {
        case CellLeading => origin := origin.(x := padding);
        case CellTrailing => origin := origin.(x := a.frame.Width() - a.avatarSize.width - padding);
      }

      match a.avatarPosition.vertical {
        case MessageLabelTop => origin := origin.(y := messageTopLabelFrame.MinY());
        case MessageTop => origin := origin.(y := containerFrame.MinY());
        case MessageBottom => origin := origin.(y := containerFrame.MaxY() - a.avatarSize.height);
        case MessageCenter => origin := origin.(y := containerFrame.MidY() - a.avatarSize.height / 2.0);
        case CellBottom => origin := origin.(y := a.frame.Height() - a.avatarSize.height);
        case CellTop =>
      }

      avatarFrame := Rect(origin, a.avatarSize);
    }

    method LayoutAccessoryView(a: MessagesAttributes)
      requires a.Resolved()
      modifies this`accessoryFrame
      ensures accessoryFrame == AccessoryFrame(a, containerFrame, messageTopLabelFrame)
    {
      var origin := Zero;
      match a.accessoryViewPosition {
        case MessageLabelTop => origin := origin.(y := messageTopLabelFrame.MinY());
        case MessageTop => origin := origin.(y := containerFrame.MinY());
        case MessageBottom => origin := origin.(y := containerFrame.MaxY() - a.accessoryViewSize.height);
        case MessageCenter => origin := origin.(y := containerFrame.MidY() - a.accessoryViewSize.height / 2.0);
        case CellBottom => origin := origin.(y := a.frame.Height() - a.accessoryViewSize.height);
        case CellTop =>
      }

      match a.avatarPosition.horizontal {
        case CellLeading => origin := origin.(x := containerFrame.MaxX() + a.accessoryViewPadding.left);
        case CellTrailing =>
          origin := origin.(x := containerFrame.MinX() - a.accessoryViewPadding.right - a.accessoryViewSize.width);
      }

      accessoryFrame := Rect(origin, a.accessoryViewSize);
    }

    method LayoutTimeLabelView(a: MessagesAttributes, e: Externals)
      modifies this`timestampFrame
      ensures timestampFrame == TimestampFrame(a, e, containerFrame)
    {
      var paddingLeft := TimestampPaddingLeft;
      var origin := Point(e.cellMaxX + paddingLeft,
                          containerFrame.MinY() + containerFrame.Height() * 0.5 - e.timestampAscender * 0.5);
      timestampFrame := Rect(origin, Size(a.messageTimeLabelSize.width, a.messageTimeLabelSize.height));
    }

    /** Applies layout attributes. Plain attributes leave every frame as it is;
        message attributes lay out the bubble first and then the other seven
        subviews, and the frames that result are those of `Layout`, whatever
        the frames were before. Label texts are not touched. */
    method Apply(attributes: LayoutAttributes, e: Externals)
      requires attributes.Messages? ==> attributes.attributes.Resolved()
      modifies this`containerFrame, this`messageBottomLabelFrame, this`cellBottomLabelFrame, this`cellTopLabelFrame,
               this`messageTopLabelFrame, this`avatarFrame, this`accessoryFrame, this`timestampFrame
      ensures attributes.Plain? ==> SubviewFrames() == old(SubviewFrames())
      ensures attributes.Messages? ==> SubviewFrames() == Layout(attributes.attributes, e)
    {
      if !attributes.Messages? {
        return;
      }
      var a := attributes.attributes;
      LayoutMessageContainerView(a, e);
      LayoutMessageBottomLabel(a);
      LayoutCellBottomLabel(a);
      LayoutCellTopLabel(a);
      LayoutMessageTopLabel(a);
      LayoutAvatarView(a);
      LayoutAccessoryView(a);
      LayoutTimeLabelView(a, e);
    }
  }
}
