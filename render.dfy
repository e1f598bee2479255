/** The scalar layout arithmetic of the scene: the world-to-pixel scale, where
    the cart, its wheels and the track line are drawn, and the unrotated
    outlines of the cart and the pole. Coordinates are in drawing units before
    the final vertical flip. */
module Rendering {
  import opened Dynamics

  const ScreenWidth: real := 600.0
  const ScreenHeight: real := 600.0
  /** The visible world is [-2.5, 2.5] meters wide. */
  const WorldWidth: real := 5.0
  const CartWidth: real := 40.0
  const CartHeight: real := 20.0
  const PoleWidth: real := 6.0

  /** Pixels per meter. */
  function Scale(): (scale: real)
    ensures scale * WorldWidth == ScreenWidth
  {
    ScreenWidth / WorldWidth
  }

  /** Horizontal pixel of the cart centre for cart position x: the centre of
      the world is the centre of the screen, and the column determines x. */
  function CartX(x: real): (px: real)
    ensures (px - ScreenWidth / 2.0) / Scale() == x
  {
    x * Scale() + ScreenWidth / 2.0
  }

  /** Vertical pixel of the cart centre, fixed at mid-height. */
  function CartY(): real
  {
    ScreenHeight / 2.0
  }

  /** A pixel position. */
  datatype Point = Point(px: real, py: real)

  /** The cart outline, in the order left-bottom, left-top, right-top,
      right-bottom, offset to the cart centre. */
  function CartCorners(cartx: real, carty: real): (corners: seq<Point>)
    ensures |corners| == 4
    ensures corners[0].px == corners[1].px && corners[2].px == corners[3].px
    ensures corners[0].py == corners[3].py && corners[1].py == corners[2].py
    ensures corners[3].px - corners[0].px == CartWidth && corners[1].py - corners[0].py == CartHeight
    ensures (corners[0].px + corners[3].px) / 2.0 == cartx && (corners[0].py + corners[1].py) / 2.0 == carty
  {
    var left, right := -CartWidth / 2.0, CartWidth / 2.0;
    var top, bottom := CartHeight / 2.0, -CartHeight / 2.0;
    [Point(cartx + left, carty + bottom), Point(cartx + left, carty + top),
     Point(cartx + right, carty + top), Point(cartx + right, carty + bottom)]
  }

  /** The pole outline before rotation, pivot at the origin, in the order
      left-bottom, left-top, right-top, right-bottom. */
  function PoleCorners(pole_len: real): (corners: seq<Point>)
    ensures |corners| == 4
    ensures corners[1].py - corners[0].py == pole_len && corners[2].py - corners[3].py == pole_len
    ensures corners[3].px - corners[0].px == PoleWidth
    ensures corners[0].px + corners[3].px == 0.0
    ensures corners[0].py == -PoleWidth / 2.0 && corners[1].py == pole_len - PoleWidth / 2.0
    ensures corners[1].px == corners[0].px && corners[2].px == corners[3].px && corners[3].py == corners[0].py
  {
    var left, right := -PoleWidth / 2.0, PoleWidth / 2.0;
    var top, bottom := pole_len - PoleWidth / 2.0, -PoleWidth / 2.0;
    [Point(left, bottom), Point(left, top), Point(right, top), Point(right, bottom)]
  }

  /** Where everything but the rotated pole is drawn for cart position x and
      pole length l. */
  datatype Layout = Layout(
    cartx: real, carty: real, pole_len: real,
    wheel_left: real, wheel_right: real, wheel_y: real, wheel_radius: real,
    track_y: real)

  /** The cart is drawn at the column of x, the pole is scaled like the
      track, the wheels sit on the two bottom corners of the cart outline, and
      the track line touches the bottom of the wheels. */
  function SceneLayout(x: real, l: real): (lay: Layout)
    ensures lay.cartx == CartX(x) && lay.carty == CartY() && lay.pole_len == Scale() * l
    ensures var corners := CartCorners(lay.cartx, lay.carty);
      Point(lay.wheel_left, lay.wheel_y) == corners[0] && Point(lay.wheel_right, lay.wheel_y) == corners[3]
    ensures lay.track_y == lay.wheel_y - lay.wheel_radius
  {
    var cartx := CartX(x);
    var carty := CartY();
    var wheel_radius := CartHeight / 4.0;
    Layout(
      cartx, carty, Scale() * l,
      cartx - CartWidth / 2.0, cartx + CartWidth / 2.0, carty - CartHeight / 2.0, wheel_radius,
      carty - CartHeight / 2.0 - wheel_radius)
  }

  /** The fixed numbers of the layout: 120 pixels per meter, the cart centre
      at mid-height, the wheels 10 pixels below it with radius 5, and the track
      line at height 285; the pole is 120 l pixels long. */
  lemma LayoutConstants(x: real, l: real)
    ensures Scale() == 120.0
    ensures SceneLayout(x, l).carty == 300.0
    ensures SceneLayout(x, l).wheel_y == 290.0 && SceneLayout(x, l).wheel_radius == 5.0
    ensures SceneLayout(x, l).track_y == 285.0
    ensures SceneLayout(x, l).pole_len == 120.0 * l
  {
  }

  /** Moving the cart right always moves its drawing right. */
  lemma CartColumnStrictlyIncreasing(x1: real, x2: real)
    requires x1 < x2
    ensures CartX(x1) < CartX(x2)
  {
  }

  /** The cart centre is on screen exactly when the cart is in the visible
      range [-2.5, 2.5]. */
  lemma CartVisibleIffInWorld(x: real)
    ensures 0.0 <= CartX(x) <= ScreenWidth <==> -WorldWidth / 2.0 <= x <= WorldWidth / 2.0
  {
  }

  /** Python's `int()` on a float: truncation toward zero. Circle centres,
      radii and the track row are passed to the drawing calls this way. */
  function Truncate(v: real): (n: int)
    ensures 0.0 <= v ==> 0 <= n && n as real <= v < n as real + 1.0
    ensures v < 0.0 ==> n <= 0 && n as real - 1.0 < v <= n as real
  {
    if v >= 0.0 then v.Floor else -((-v).Floor)
  }

  /** The pixel rows and radii handed to the drawing calls: the axle row 300
      with radius 3, the wheel row 290 with radius 5, and the track row 285. */
  lemma PixelRows(x: real, l: real)
    ensures var lay := SceneLayout(x, l);
      Truncate(lay.carty) == 300 && Truncate(PoleWidth / 2.0) == 3 &&
      Truncate(lay.wheel_y) == 290 && Truncate(lay.wheel_radius) == 5 &&
      Truncate(lay.track_y) == 285
  {
  }

  /** With the default configuration, a cart that has not terminated has its
      centre drawn between columns 12 and 588. */
  lemma RunningCartCentreOnScreen(x: real)
    requires !Terminates(DefaultParams(), x)
    ensures 12.0 <= CartX(x) <= 588.0
  {
  }
}
