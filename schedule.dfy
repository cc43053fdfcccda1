/** The layout pass as a schedule: an order in which the subviews are laid out,
    where each step writes one frame and reads the attributes and some sibling
    frames. A schedule in which every frame is written before a later step reads
    it gives the same frames whatever the frames were before the pass, so no
    step ever sees a frame left over from an earlier layout. */
module LayoutSchedule {
  import opened Geometry
  import opened Attributes
  import opened CellLayout

  /** The order in which `apply` lays out the subviews. */
  const ApplyOrder: seq<Subview> :=
    [Container, MessageBottomLabel, CellBottomLabel, CellTopLabel, MessageTopLabel, Avatar, Accessory, Timestamp]

  /** The sibling frames the layout method of a subview reads. */
  function Reads(v: Subview): set<Subview> {
    match v
    case Container => {}
    case MessageBottomLabel => {Container}
    case CellBottomLabel => {MessageBottomLabel}
    case CellTopLabel => {}
    case MessageTopLabel => {Container}
    case Avatar => {Container, MessageTopLabel}
    case Accessory => {Container, MessageTopLabel}
    case Timestamp => {Container}
  }

  /** The frame the layout method of `v` writes when the current frames are `f`. */
  function StepFrame(v: Subview, a: MessagesAttributes, e: Externals, f: Frames): Rect
    requires a.Resolved()
  {
    match v
    case Container => ContainerFrame(a, e.containerPaddingVertical)
    case MessageBottomLabel => MessageBottomLabelFrame(a, f.container)
    case CellBottomLabel => CellBottomLabelFrame(a, f.messageBottomLabel)
    case CellTopLabel => CellTopLabelFrame(a)
    case MessageTopLabel => MessageTopLabelFrame(a, f.container)
    case Avatar => AvatarFrame(a, f.container, f.messageTopLabel)
    case Accessory => AccessoryFrame(a, f.container, f.messageTopLabel)
    case Timestamp => TimestampFrame(a, e, f.container)
  }

  /** `Reads` is a sound account of each step: a step's frame depends on no
      sibling frame outside `Reads(v)`. */
  lemma StepReadsOnlyReads(v: Subview, a: MessagesAttributes, e: Externals, f1: Frames, f2: Frames)
    requires a.Resolved()
    requires forall w :: w in Reads(v) ==> f1.Get(w) == f2.Get(w)
    ensures StepFrame(v, a, e, f1) == StepFrame(v, a, e, f2)
  {
    match v
    case Container =>
    case MessageBottomLabel => assert f1.Get(Container) == f2.Get(Container);
    case CellBottomLabel => assert f1.Get(MessageBottomLabel) == f2.Get(MessageBottomLabel);
    case CellTopLabel =>
    case MessageTopLabel => assert f1.Get(Container) == f2.Get(Container);
    case Avatar =>
      assert f1.Get(Container) == f2.Get(Container);
      assert f1.Get(MessageTopLabel) == f2.Get(MessageTopLabel);
    case Accessory =>
      assert f1.Get(Container) == f2.Get(Container);
      assert f1.Get(MessageTopLabel) == f2.Get(MessageTopLabel);
    case Timestamp => assert f1.Get(Container) == f2.Get(Container);
  }

  /** Runs the steps of `order` one after the other from the frames `f`. */
  function RunSteps(order: seq<Subview>, a: MessagesAttributes, e: Externals, f: Frames): Frames
    requires a.Resolved()
    decreases |order|
  {
    if order == [] then f
    else RunSteps(order[1..], a, e, f.With(order[0], StepFrame(order[0], a, e, f)))
  }

  /** Every frame a step reads has been written by an earlier step. */
  predicate WellScheduled(order: seq<Subview>) {
    forall i, w :: 0 <= i < |order| && w in Reads(order[i]) ==> w in order[..i]
  }

  /** The frames of `known` agree before the run; every frame a step reads is
      known or written by an earlier step. Then the two runs agree on every
      known frame and on every frame the run writes. */
  lemma {:induction false} RunStepsAgree(order: seq<Subview>, a: MessagesAttributes, e: Externals,
                                         f1: Frames, f2: Frames, known: set<Subview>)
    requires a.Resolved()
    requires forall w :: w in known ==> f1.Get(w) == f2.Get(w)
    requires forall i, w :: 0 <= i < |order| && w in Reads(order[i]) ==> w in known || w in order[..i]
    ensures forall w :: w in known || w in order ==>
      RunSteps(order, a, e, f1).Get(w) == RunSteps(order, a, e, f2).Get(w)
    decreases |order|
  {
    if order != [] {
      var v := order[0];
      assert forall w :: w in Reads(v) ==> w in known by {
        forall w | w in Reads(v) ensures w in known {
          assert order[..0] == [];
        }
      }
      StepReadsOnlyReads(v, a, e, f1, f2);
      var r := StepFrame(v, a, e, f1);
      var g1, g2 := f1.With(v, r), f2.With(v, r);
      var rest := order[1..];
      forall i, w | 0 <= i < |rest| && w in Reads(rest[i])
        ensures w in known + {v} || w in rest[..i]
      {
        assert rest[i] == order[i + 1];
        assert w in known || w in order[..i + 1];
        assert order[..i + 1] == [v] + rest[..i];
      }
      RunStepsAgree(rest, a, e, g1, g2, known + {v});
      assert forall w :: w in order ==> w == v || w in rest by {
        assert order == [v] + rest;
      }
    }
  }

  /** Two frame records that agree on every subview are equal. */
  lemma FramesExtensional(f1: Frames, f2: Frames)
    requires forall w :: f1.Get(w) == f2.Get(w)
    ensures f1 == f2
  {
    assert f1.Get(Container) == f2.Get(Container);
    assert f1.Get(MessageBottomLabel) == f2.Get(MessageBottomLabel);
    assert f1.Get(CellBottomLabel) == f2.Get(CellBottomLabel);
    assert f1.Get(CellTopLabel) == f2.Get(CellTopLabel);
    assert f1.Get(MessageTopLabel) == f2.Get(MessageTopLabel);
    assert f1.Get(Avatar) == f2.Get(Avatar);
    assert f1.Get(Accessory) == f2.Get(Accessory);
    assert f1.Get(Timestamp) == f2.Get(Timestamp);
  }

  /** A well-scheduled order that lays out every subview gives the same frames
      whatever the frames were before the pass. */
  lemma WellScheduledIgnoresStaleFrames(order: seq<Subview>, a: MessagesAttributes, e: Externals, f1: Frames, f2: Frames)
    requires a.Resolved()
    requires WellScheduled(order)
    requires forall w :: w in order
    ensures RunSteps(order, a, e, f1) == RunSteps(order, a, e, f2)
  {
    RunStepsAgree(order, a, e, f1, f2, {});
    FramesExtensional(RunSteps(order, a, e, f1), RunSteps(order, a, e, f2));
  }

  /** The order of `apply` is well scheduled and lays out all eight subviews. */
  lemma ApplyOrderWellScheduled()
    ensures WellScheduled(ApplyOrder)
    ensures forall w :: w in ApplyOrder
  {
    forall i, w | 0 <= i < |ApplyOrder| && w in Reads(ApplyOrder[i])
      ensures w in ApplyOrder[..i]
    {
      var done := ApplyOrder[..i];
      if i >= 1 { assert done[0] == Container; }
      if i >= 2 { assert done[1] == MessageBottomLabel; }
      if i >= 5 { assert done[4] == MessageTopLabel; }
    }
    forall w ensures w in ApplyOrder {
      match w
      case Container => assert ApplyOrder[0] == w;
      case MessageBottomLabel => assert ApplyOrder[1] == w;
      case CellBottomLabel => assert ApplyOrder[2] == w;
      case CellTopLabel => assert ApplyOrder[3] == w;
      case MessageTopLabel => assert ApplyOrder[4] == w;
      case Avatar => assert ApplyOrder[5] == w;
      case Accessory => assert ApplyOrder[6] == w;
      case Timestamp => assert ApplyOrder[7] == w;
    }
  }

  /** In a well-scheduled order the bubble comes before every subview except
      the cell top label, which is the only one that depends on no other frame:
      the cell bottom label reads the bubble's frame through the message bottom
      label's. */
  lemma {:induction false} ContainerLaidOutFirst(order: seq<Subview>, i: nat)
    requires WellScheduled(order)
    requires i < |order| && order[i] != Container && order[i] != CellTopLabel
    ensures Container in order[..i]
  {
    if order[i] == CellBottomLabel {
      assert MessageBottomLabel in Reads(order[i]);
      var j :| 0 <= j < i && order[j] == MessageBottomLabel;
      assert Container in Reads(order[j]);
      assert Container in order[..j];
      assert order[..j] == order[..i][..j];
    } else {
      assert Container in Reads(order[i]);
    }
  }

  /** Running the order of `apply` from any frames produces the frames of
      `Layout`. */
  lemma ApplyOrderComputesLayout(a: MessagesAttributes, e: Externals, f: Frames)
    requires a.Resolved()
    ensures RunSteps(ApplyOrder, a, e, f) == Layout(a, e)
  {
  }

  /** Laying out the message bottom label before the bubble is not well
      scheduled, and the label then takes its place from whatever bubble frame
      was left over: two cells whose old bubbles end at different heights get
      different label frames from the same attributes. */
  lemma SwappedOrderReadsStaleFrame(a: MessagesAttributes, e: Externals, f1: Frames, f2: Frames)
    requires a.Resolved()
    requires f1.container.MaxY() != f2.container.MaxY()
    ensures !WellScheduled([MessageBottomLabel, Container])
    ensures RunSteps([MessageBottomLabel, Container], a, e, f1).messageBottomLabel
         != RunSteps([MessageBottomLabel, Container], a, e, f2).messageBottomLabel
  {
    assert Container in Reads([MessageBottomLabel, Container][0]);
    assert [MessageBottomLabel, Container][1..] == [Container];
    assert [Container][1..] == [];
  }
}
