# MessageContentCell: layout pass and gesture dispatch

A model of the part of MessageKit's `MessageContentCell` that is more than
toolkit glue. The cell shows one chat message. It holds a bubble (the message
container), an avatar, four labels (cell top and bottom, message top and
bottom), a timestamp label and an accessory view.

- **Layout pass.** `apply(_:)` receives layout attributes that have already
  been computed. If they are message attributes, it places the eight subviews
  in a fixed order. Each step writes one frame, and later steps read frames
  written earlier. The model keeps the cell as a class with one rect field per
  subview and one method per `layout…` method. Each method is proved to write
  the frame given by a pure frame function (`CellLayout`). `Apply` is proved to
  produce `CellLayout.Layout(attributes, externals)`, whatever frames the cell
  had before.
- **Spatial promises.** `Layout`'s contract states what the comments and the
  arithmetic promise:
  - the labels hug the bubble;
  - the avatar keeps its padding from its own edge and is aligned on the
    bubble, the message top label or the cell;
  - the accessory sits on the side of the bubble away from the avatar and is
    aligned vertically by the avatar's rule;
  - the timestamp starts 10 points past the maximum x of the cell's frame,
    level with the bubble.
- **Schedule.** `LayoutSchedule` models the pass as an order of steps, each
  reading a declared set of sibling frames. If every frame is written before a
  later step reads it, the result does not depend on the frames before the
  pass (`RunStepsAgree`). The order of `apply` has that property, and running
  it gives exactly `Layout`.
- **Dispatch.** A tap is checked against seven regions in a fixed order, with
  the background as fallback. The bubble region can be vetoed by the content
  view's claim hook. The model proves that the callback chosen is the first
  region, in that order, that takes the point. A long press may begin exactly
  where the bubble's frame contains the point. With the default hook, that is
  exactly where a tap would be reported as a tap on the message.
- **Reuse.** `prepareForReuse` clears the texts of the four labels and the
  timestamp.

Geometry follows CoreGraphics:
- A rect keeps the origin and size it was given.
- `MinX`/`MaxX`/`Width` (and the y versions) are those of the standardized
  rect, so a negative size swaps the edges and `Width` is never negative.
- `MidX` is the origin plus half the stored width.
- `Contains` is half-open: the minimum edges are inside and the maximum edges
  are not.

Coordinates are `real`s. The layout arithmetic is only addition, subtraction
and halving.

Values the layout pass reads from outside the attributes are inputs
(`Attributes.Externals`):
- the maximum x of the cell's own frame;
- the ascender of the timestamp label's font;
- `messageContainerPadding.vertical`, whose definition is not part of this
  model.

The `.natural` avatar side ends the process in the source. Here it is a
precondition (`MessagesAttributes.Resolved`) of every layout method that
branches on the side, and of `Apply` when the attributes are message
attributes.

The enums for avatar vertical alignment and accessory position are declared
in files that are not part of this model. They are modelled with the six cases
the cell's switches name or reach: cell top, message label top, message top,
message centre, message bottom and cell bottom. The switches' `default` branch
is therefore the cell-top case.

`convert(touchLocation, to: messageContainerView)` is modelled as subtracting
the bubble's frame origin. This assumes the bubble's bounds start at the
origin, that the cell's `contentView` (the superview of every subview, whose
coordinates the frames are in) sits at the cell's origin, and that no view on
the way has a transform. The same assumption lets the touch location, taken in
the cell's coordinates, be compared with the subviews' frames.

## Model

| member | source | states |
|---|---|---|
| `Geometry.ConvertToView` | Sources/Views/Cells/MessageContentCell.swift:269-270 | the point handed to the content view's hook lies in the bubble's bounds exactly when the tap lies in the bubble's frame, and converting back gives the tap point |
| `CellLayout.ContainerFrame` | Sources/Views/Cells/MessageContentCell.swift:338-375 | the bubble has the container size. Leading side: x = avatar width + left padding + avatar padding. Trailing side: x + width + right padding + avatar width + avatar padding equals the cell width. Bottom alignment: the stack of bubble, paddings and bottom labels ends at the cell height. Centred case (centre alignment with a taller avatar, or a taller accessory with any alignment except bottom, the fall-through): the bubble plus vertical padding is centred in the cell. Otherwise the bubble starts below the two top labels and the top padding |
| `CellLayout.MessageBottomLabelFrame` | Sources/Views/Cells/MessageContentCell.swift:412-420 | the message bottom label has its own size; with a non-negative width its left edge is at x = 0, and with a non-negative height its top edge lies the bottom padding below the bubble's bottom edge |
| `CellLayout.CellBottomLabelFrame` | Sources/Views/Cells/MessageContentCell.swift:388-396 | the cell bottom label has its own size; with a non-negative width its left edge is at x = 0, and with a non-negative height its top edge is the message bottom label's bottom edge, with no gap |
| `CellLayout.MessageTopLabelFrame` | Sources/Views/Cells/MessageContentCell.swift:400-408 | the message top label has its own size; with a non-negative width its left edge is at x = 0, and with a non-negative height its bottom edge plus the top padding reaches the bubble's top edge |
| `CellLayout.AvatarFrame` | Sources/Views/Cells/MessageContentCell.swift:305-334 | the avatar has the avatar size. With a non-negative width: leading side, its left edge is the avatar padding from the cell's left; trailing side, its right edge plus the padding is the cell width. With a non-negative height: cell top puts its top at 0, message label top at the message top label's top, message top at the bubble's top, message bottom puts its bottom at the bubble's bottom, cell bottom at the cell height. Message centre puts its vertical centre on the bubble's, for any size |
| `CellLayout.AccessoryFrame` | Sources/Views/Cells/MessageContentCell.swift:424-455 | the accessory has its own size and sits on the side of the bubble away from the avatar. With a non-negative width: leading avatar, its left edge is the bubble's right edge plus the left accessory padding; trailing avatar, its right edge plus the right accessory padding is the bubble's left edge. Vertically it follows the avatar's rule for the accessory position: top, bottom or centre on the cell, the bubble or the message top label |
| `CellLayout.TimestampFrame` | Sources/Views/Cells/MessageContentCell.swift:459-466 | the timestamp starts 10 points past the cell frame's maximum x, and its ascender band is centred on the bubble's vertical centre; size is the time label size |
| `CellLayout.Layout` | Sources/Views/Cells/MessageContentCell.swift:196-208 | the frames after one pass. The bubble's frame is `ContainerFrame` of the attributes, computed before any other frame. With non-negative sizes: message bottom label top = bubble bottom + bottom padding; cell bottom label top = message bottom label bottom; message top label bottom + top padding = bubble top; all four labels at x = 0 with their sizes and the cell top label at the origin. The avatar is at its padding from its own edge, and its top, bottom or centre matches the bubble, the message top label or the cell as its alignment says. The accessory is beside the bubble on the side opposite the avatar and aligned by the same rule. The timestamp is placed as above |
| `CellLayout.AvatarAndAccessoryFlankContainer` | Sources/Views/Cells/MessageContentCell.swift:443-452 | with non-negative sizes and paddings, the avatar ends the left padding before the bubble and the accessory starts after it (leading side), or the mirror image (trailing side): the accessory is always opposite the avatar |
| `CellLayout.LabelsStackAroundContainer` | Sources/Views/Cells/MessageContentCell.swift:354-420 | with non-negative sizes the bubble ends above the message bottom label, which the cell bottom label follows without a gap. When the bubble is stacked, not centred, the message top label starts where the cell top label ends |
| `LayoutSchedule.StepReadsOnlyReads` | Sources/Views/Cells/MessageContentCell.swift:305-466 | each layout step's frame depends on no sibling frame outside the declared set it reads (bubble; message bottom label; bubble and message top label; none) |
| `LayoutSchedule.RunStepsAgree` | Sources/Views/Cells/MessageContentCell.swift:196-208 | two runs of an order whose steps read only known or earlier-written frames agree on every known and every written frame, whatever the other starting frames |
| `LayoutSchedule.WellScheduledIgnoresStaleFrames` | Sources/Views/Cells/MessageContentCell.swift:196-208 | an order that writes every frame before it is read and lays out all eight subviews gives the same frames from any starting frames |
| `LayoutSchedule.ApplyOrderWellScheduled` | Sources/Views/Cells/MessageContentCell.swift:199-207 | the order of `apply` (bubble, message bottom label, cell bottom label, cell top label, message top label, avatar, accessory, timestamp) reads only frames written earlier in the pass, and lays out all eight subviews |
| `LayoutSchedule.ContainerLaidOutFirst` | Sources/Views/Cells/MessageContentCell.swift:199-200 | in every order that reads only earlier-written frames, the bubble is laid out before every subview except the cell top label |
| `LayoutSchedule.SwappedOrderReadsStaleFrame` | Sources/Views/Cells/MessageContentCell.swift:199-201 | laying out the message bottom label before the bubble is not well scheduled. Two cells whose old bubbles end at different heights then get different label frames from the same attributes, which is why the bubble must come first |
| `LayoutSchedule.ApplyOrderComputesLayout` | Sources/Views/Cells/MessageContentCell.swift:196-208 | running the order of `apply` from any frames gives exactly `Layout` |
| `Dispatch.TapTarget` | Sources/Views/Cells/MessageContentCell.swift:265-287 | the callback chosen for a tap is that of a region that takes the point, and no region earlier in the order (bubble unless claimed by the content view, avatar, cell top label, cell bottom label, message top label, message bottom label, accessory, background) takes it |
| `Dispatch.HandleTapGesture` | Sources/Views/Cells/MessageContentCell.swift:264-287 | with a delegate exactly one callback fires, the first region taking the point; without one, none |
| `Dispatch.FirstTakerUnique` | Sources/Views/Cells/MessageContentCell.swift:268-286 | at most one callback is the first taker of a tap, so the dispatch is determined |
| `Dispatch.ClaimedPointIsNotMessageTap` | Sources/Views/Cells/MessageContentCell.swift:269-271 | a point the content view claims is never reported as a tap on the message |
| `Dispatch.ClaimedPointFallsThrough` | Sources/Views/Cells/MessageContentCell.swift:268-286 | a claimed point in no other region is reported as a tap on the background |
| `Dispatch.DefaultHookMessageTap` | Sources/Views/Cells/MessageContentCell.swift:296-299 | with the default hook, which claims nothing, a tap is a message tap exactly when the bubble's frame contains it |
| `Dispatch.LongPressAgreesWithMessageTap` | Sources/Views/Cells/MessageContentCell.swift:289-299 | `gestureRecognizerShouldBegin` lets a gesture begin exactly when it is a long press at a point that, with the default hook, a tap would report as a message tap (that is, inside the bubble's frame); every other recognizer is refused |
| `MessageCell.MessageContentCell.PrepareForReuse` | Sources/Views/Cells/MessageContentCell.swift:171-178 | the texts of the four labels and the timestamp are cleared; nothing else changes |
| `MessageCell.MessageContentCell.LayoutMessageContainerView` | Sources/Views/Cells/MessageContentCell.swift:338-375 | writes only the bubble's frame, which becomes `ContainerFrame` of the attributes |
| `MessageCell.MessageContentCell.LayoutMessageBottomLabel` | Sources/Views/Cells/MessageContentCell.swift:412-420 | writes only the message bottom label's frame, from the bubble frame as it is now |
| `MessageCell.MessageContentCell.LayoutCellBottomLabel` | Sources/Views/Cells/MessageContentCell.swift:388-396 | writes only the cell bottom label's frame, from the message bottom label frame as it is now |
| `MessageCell.MessageContentCell.LayoutCellTopLabel` | Sources/Views/Cells/MessageContentCell.swift:379-384 | writes only the cell top label's frame, from the attributes alone |
| `MessageCell.MessageContentCell.LayoutMessageTopLabel` | Sources/Views/Cells/MessageContentCell.swift:400-408 | writes only the message top label's frame, from the bubble frame as it is now |
| `MessageCell.MessageContentCell.LayoutAvatarView` | Sources/Views/Cells/MessageContentCell.swift:305-334 | writes only the avatar's frame, from the bubble and message top label frames as they are now |
| `MessageCell.MessageContentCell.LayoutAccessoryView` | Sources/Views/Cells/MessageContentCell.swift:424-455 | writes only the accessory's frame, from the bubble and message top label frames as they are now |
| `MessageCell.MessageContentCell.LayoutTimeLabelView` | Sources/Views/Cells/MessageContentCell.swift:459-466 | writes only the timestamp's frame, from the bubble frame, the cell's maximum x and the font ascender |
| `MessageCell.MessageContentCell.Apply` | Sources/Views/Cells/MessageContentCell.swift:196-208 | plain layout attributes leave every frame unchanged. Message attributes leave the cell with exactly the frames of `Layout`, whatever its frames were before, and the label texts untouched |

## Left out

- The context-menu preview and `takeScreenshot` (lines 30-102): rasterizing, blur compositing and menu construction in the toolkit.
- `configure` (lines 216-248): it only forwards the message to data-source and display delegates whose behaviour is not visible. It ends the process when either is missing.
- `updateCellStatus` (lines 250-262): delegate calls as above. It touches only the accessory view and the message bottom label's text.
- Initialisers and `setupSubviews`: view construction and gesture wiring. The model's constructor starts every frame at the zero rect with no label text.
- The text alignment and text insets that the label layout methods assign (lines 380-381, 389-390, 401-402, 413-414). These are label styling, not geometry.
- `super.apply` and `super.prepareForReuse`: toolkit behaviour that is not visible.
- The weak delegate reference: it is a `hasDelegate` flag of `Dispatch.HandleTapGesture`.
- The touch location of a gesture: an input point, already in the cell's coordinates.
- CGFloat rounding: coordinates are exact reals.
- CellLayout.MessageBottomLabelFrame: its edges are stated for a non-negative label size, for the reason given under `CellLayout.Layout` below; the size is stated for every input.
- CellLayout.CellBottomLabelFrame: as above, edges for a non-negative label size only.
- CellLayout.MessageTopLabelFrame: as above, edges for a non-negative label size only.
- CellLayout.AvatarFrame: as above, edges for a non-negative avatar size only; the centre alignment holds for every size.
- CellLayout.AccessoryFrame: as above, edges for a non-negative accessory size only; the centre alignment holds for every size.
- CellLayout.Layout: its edge relations (`MinY`, `MaxY`, `MinX`, `MaxX`) are stated only for non-negative sizes. With a negative size CoreGraphics swaps a rect's edges, so the same arithmetic gives other edge relations. The exact frames for every size are pinned by the frame functions and by `Apply`.
