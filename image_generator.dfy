/**
 * The decision logic of the scene image generator: which overlays a parameter
 * object asks for, where each speech bubble is anchored, and where its top-left
 * corner lands. Drawing with the canvas library is not modelled.
 */
module ImageGenerator {
  import opened Wrappers

  /** The parameter object of `generateImage`; an absent property is `None`. */
  datatype ImageParams = ImageParams(
    learnerMessage: Option<string>,
    professorMessage: Option<string>,
    participantMessage: Option<string>,
    displayShock: bool)

  /** `{}`: no property set. */
  const EmptyParams := ImageParams(None, None, None, false)

  /** The `direction` argument of `addSpeechBubble`. */
  datatype Direction = Right | Left | Up

  /** What is drawn over the background and the three characters. */
  datatype Overlay = SpeechBubble(text: string, direction: Direction) | ShockEffect

  /** JavaScript truthiness of an optional string: present and not empty. */
  predicate Truthy(m: Option<string>)
  {
    m.Some? && m.value != []
  }

  /** The position of an overlay in the order `generateImage` draws them. */
  function Rank(o: Overlay): nat
  {
    match o
    case SpeechBubble(_, Right) => 0
    case SpeechBubble(_, Left) => 1
    case SpeechBubble(_, Up) => 2
    case ShockEffect => 3
  }

  /** The bubble for one message property, if that property is truthy. */
  function BubbleFor(m: Option<string>, d: Direction): (r: seq<Overlay>)
    ensures |r| <= 1
    ensures forall t, d' :: SpeechBubble(t, d') in r <==> Truthy(m) && t == m.value && d' == d
    ensures ShockEffect !in r
  {
    if Truthy(m) then [SpeechBubble(m.value, d)] else []
  }

  /**
   * The overlays `generateImage` draws, in drawing order: the professor's message
   * in a right bubble, the participant's in a left bubble, the learner's in an up
   * bubble, then the shock effect.
   */
  function Overlays(p: ImageParams): seq<Overlay>
  {
    BubbleFor(p.professorMessage, Right)
    + BubbleFor(p.participantMessage, Left)
    + BubbleFor(p.learnerMessage, Up)
    + (if p.displayShock then [ShockEffect] else [])
  }

  /** Each truthy message gets exactly its own bubble, in the direction of its speaker, and the shock flag the shock effect. */
  lemma OverlaysSelectMessages(p: ImageParams)
    ensures forall t :: SpeechBubble(t, Right) in Overlays(p) <==> Truthy(p.professorMessage) && t == p.professorMessage.value
    ensures forall t :: SpeechBubble(t, Left) in Overlays(p) <==> Truthy(p.participantMessage) && t == p.participantMessage.value
    ensures forall t :: SpeechBubble(t, Up) in Overlays(p) <==> Truthy(p.learnerMessage) && t == p.learnerMessage.value
    ensures ShockEffect in Overlays(p) <==> p.displayShock
  {
    var a, b, c := BubbleFor(p.professorMessage, Right), BubbleFor(p.participantMessage, Left), BubbleFor(p.learnerMessage, Up);
    var e: seq<Overlay> := if p.displayShock then [ShockEffect] else [];
    assert Overlays(p) == a + b + c + e;
    forall x ensures x in Overlays(p) <==> x in a || x in b || x in c || x in e {
    }
  }

  /** The overlays come in the fixed order right bubble, left bubble, up bubble, shock. */
  lemma OverlaysInDrawingOrder(p: ImageParams)
    ensures var r := Overlays(p);
      forall i, j :: 0 <= i < j < |r| ==> Rank(r[i]) < Rank(r[j])
  {
    var a, b, c := BubbleFor(p.professorMessage, Right), BubbleFor(p.participantMessage, Left), BubbleFor(p.learnerMessage, Up);
    var e: seq<Overlay> := if p.displayShock then [ShockEffect] else [];
    assert forall x :: x in a ==> Rank(x) == 0;
    assert forall x :: x in b ==> Rank(x) == 1;
    assert forall x :: x in c ==> Rank(x) == 2;
    assert forall x :: x in e ==> Rank(x) == 3;
    var r := a + b + c + e;
    assert Overlays(p) == r;
    forall i, j | 0 <= i < j < |r| ensures Rank(r[i]) < Rank(r[j]) {
      assert r[i] in r && r[j] in r;
    }
  }

  // ---------------------------------------------------------------------------
  // Bubble placement

  /** Fabric's `originX` / `originY`: which point of an object its `left` / `top` name. */
  datatype OriginX = OriginLeft | CenterX | OriginRight
  datatype OriginY = OriginTop | CenterY | OriginBottom

  datatype Anchor = Anchor(left: int, top: int, originX: OriginX, originY: OriginY, flip: bool)

  /** The `switch (direction)` of `addSpeechBubble`. */
  function BubbleAnchor(d: Direction): Anchor
  {
    match d
    case Right => Anchor(650, 650, OriginRight, OriginBottom, true)
    case Left => Anchor(440, 650, OriginLeft, OriginBottom, false)
    case Up => Anchor(520, 160, OriginLeft, OriginTop, true)
  }

  function FractionX(o: OriginX): real
  {
    match o
    case OriginLeft => 0.0
    case CenterX => 0.5
    case OriginRight => 1.0
  }

  function FractionY(o: OriginY): real
  {
    match o
    case OriginTop => 0.0
    case CenterY => 0.5
    case OriginBottom => 1.0
  }

  /** Fabric's placement rule: the point an origin names on a box with the given top-left corner. */
  function OriginPoint(cornerLeft: real, cornerTop: real, width: real, height: real,
                       ox: OriginX, oy: OriginY): (real, real)
  {
    (cornerLeft + FractionX(ox) * width, cornerTop + FractionY(oy) * height)
  }

  /** The absolute top-left corner of a bubble of the given size placed at an anchor. */
  function AbsoluteCorner(a: Anchor, width: real, height: real): (corner: (real, real))
  {
    var left :=
      if a.originX == OriginRight then a.left as real - width
      else if a.originX == CenterX then a.left as real - width / 2.0
      else a.left as real;
    var top :=
      if a.originY == OriginBottom then a.top as real - height
      else if a.originY == CenterY then a.top as real - height / 2.0
      else a.top as real;
    (left, top)
  }

  /** The corner computation inverts Fabric's placement rule: placing the box at that corner puts its origin on the anchor. */
  lemma CornerPlacesOrigin(a: Anchor, width: real, height: real)
    ensures var c := AbsoluteCorner(a, width, height);
      OriginPoint(c.0, c.1, width, height, a.originX, a.originY) == (a.left as real, a.top as real)
  {
  }

  /** A box that contains its anchor, for a box of non-negative size. */
  lemma AnchorInsideBubble(a: Anchor, width: real, height: real)
    requires width >= 0.0 && height >= 0.0
    ensures var c := AbsoluteCorner(a, width, height);
      && c.0 <= a.left as real <= c.0 + width
      && c.1 <= a.top as real <= c.1 + height
  {
  }

  /**
   * Where each bubble lies: the professor's (right) bubble ends at (650, 650) and
   * grows up and to the left; the participant's (left) bubble starts at x = 440 and
   * ends at y = 650; the learner's (up) bubble has its top-left corner at (520, 160).
   * Only the participant's bubble is not mirrored.
   */
  lemma BubbleBoxes(width: real, height: real)
    ensures AbsoluteCorner(BubbleAnchor(Right), width, height) == (650.0 - width, 650.0 - height)
    ensures AbsoluteCorner(BubbleAnchor(Left), width, height) == (440.0, 650.0 - height)
    ensures AbsoluteCorner(BubbleAnchor(Up), width, height) == (520.0, 160.0)
    ensures forall d :: BubbleAnchor(d).flip <==> d != Left
  {
  }
}
