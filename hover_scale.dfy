/**
 * `animateObjectScale` (main.js): the hover effect on billboards and on the
 * phone box. A billboard eases towards a target scale (and, for a portfolio
 * billboard, a target rotation and position) over 400 ms; one `isAnimating`
 * flag per billboard type drops new requests while an animation of that type
 * is running. The phone box is rescaled at once and ignores the flags.
 */
module HoverScale {
  import opened Common
  import opened Easing

  /** The keys of `window.billboards.isAnimating`. */
  datatype BillboardType = Logo | AboutMe | Portfolio

  const RestScale: real := 1.0
  const HoveredScale: real := 1.2
  const PortfolioHoverScale: real := 1.4
  const PhoneBoxRestScale: real := 5.0
  const PhoneBoxHoverScale: real := 5.5
  /** How far a hovered portfolio billboard turns about y. */
  const PortfolioHoverTurn: real := 0.15
  /** How far a hovered portfolio billboard moves along -x. */
  const PortfolioHoverShift: real := 2.0

  /** Scale, rotation and position of an object, as a value. */
  datatype Transform = Transform(scale: Vec3, rotationX: real, rotationY: real, position: Vec3)

  /** An object of the scene graph the hover effect can act on. */
  class Object3D {
    var scale: Vec3
    var rotationX: real
    var rotationY: real
    var position: Vec3
    /** `userData.type === 'portfolioBillboard'`. */
    const isPortfolioBillboard: bool
    /** On a mesh of the phone box, the phone box's root object (`mesh.phoneBox`). */
    const phoneBox: Object3D?

    ghost function Snapshot(): Transform
      reads this
    {
      Transform(scale, rotationX, rotationY, position)
    }

    constructor (t: Transform, isPortfolioBillboard: bool, phoneBox: Object3D?)
      ensures Snapshot() == t
      ensures this.isPortfolioBillboard == isPortfolioBillboard && this.phoneBox == phoneBox
    {
      scale, rotationX, rotationY, position := t.scale, t.rotationX, t.rotationY, t.position;
      this.isPortfolioBillboard := isPortfolioBillboard;
      this.phoneBox := phoneBox;
    }

    /** `object.phoneBox || object`: the object the effect scales. */
    function Root(): Object3D
    {
      if phoneBox != null then phoneBox else this
    }
  }

  function Uniform(c: real): Vec3
  {
    Vec3(c, c, c)
  }

  /** Hovering enlarges (a portfolio billboard more than the rest); leaving goes back to scale 1. */
  function TargetScale(isHovering: bool, isPortfolio: bool): (r: real)
    ensures r >= RestScale
    ensures r == RestScale <==> !isHovering
    ensures isHovering ==> (r == PortfolioHoverScale <==> isPortfolio)
    ensures r in {RestScale, HoveredScale, PortfolioHoverScale}
  {
    if isHovering then (if isPortfolio then PortfolioHoverScale else HoveredScale) else RestScale
  }

  /**
   * Only portfolio billboards turn: by 0.15 away from where they are when
   * hovered, and back to the fixed angle pi/2 when left.
   */
  function TargetRotation(isHovering: bool, isPortfolio: bool, startRotation: real): (r: real)
    ensures !isPortfolio ==> r == startRotation
    ensures isPortfolio && isHovering ==> r == startRotation - PortfolioHoverTurn
    ensures isPortfolio && !isHovering ==> r == Pi / 2.0
  {
    if isHovering then (if isPortfolio then startRotation - PortfolioHoverTurn else startRotation)
    else (if isPortfolio then Pi / 2.0 else startRotation)
  }

  /**
   * Only a hovered portfolio billboard moves, 2 units along -x; in every other
   * case the target is where the object already is.
   */
  function TargetPosition(isHovering: bool, isPortfolio: bool, start: Vec3): (r: Vec3)
    ensures r.y == start.y && r.z == start.z
    ensures isHovering && isPortfolio ==> r.x == start.x - PortfolioHoverShift
    ensures !(isHovering && isPortfolio) ==> r == start
  {
    if isHovering && isPortfolio then Vec3(start.x - PortfolioHoverShift, start.y, start.z) else start
  }

  /** What `animateObjectScale` captures when it starts an animation. */
  datatype ScaleSession = ScaleSession(
    kind: BillboardType,
    target: Object3D,
    isPortfolio: bool,
    isHovering: bool,
    startScale: real,
    targetScale: real,
    startRotation: real,
    targetRotation: real,
    startPosition: Vec3,
    targetPosition: Vec3,
    startTime: real)

  /**
   * The session started for `target` when its transform is `before`. Hovering
   * aims above scale 1, leaving aims back at 1 and at the position the object
   * has now; only a portfolio billboard aims at a new angle or position, and
   * no target ever changes height or depth.
   */
  function StartSession(kind: BillboardType, target: Object3D, isHovering: bool, before: Transform, startTime: real): (s: ScaleSession)
    ensures s.targetScale >= RestScale && (s.targetScale == RestScale <==> !isHovering)
    ensures isHovering ==> (s.targetScale == PortfolioHoverScale <==> target.isPortfolioBillboard)
    ensures !isHovering ==> s.targetPosition == before.position
    ensures !target.isPortfolioBillboard ==> s.targetRotation == before.rotationY && s.targetPosition == before.position
    ensures target.isPortfolioBillboard && isHovering ==>
              s.targetRotation == before.rotationY - PortfolioHoverTurn &&
              s.targetPosition.x == before.position.x - PortfolioHoverShift
    ensures target.isPortfolioBillboard && !isHovering ==> s.targetRotation == Pi / 2.0
    ensures s.targetPosition.y == before.position.y && s.targetPosition.z == before.position.z
  {
    var isPortfolio := target.isPortfolioBillboard;
    ScaleSession(
      kind, target, isPortfolio, isHovering,
      before.scale.x, TargetScale(isHovering, isPortfolio),
      before.rotationY, TargetRotation(isHovering, isPortfolio, before.rotationY),
      before.position, TargetPosition(isHovering, isPortfolio, before.position),
      startTime)
  }

  function HoverProgress(s: ScaleSession, now: real): real
  {
    Progress(now - s.startTime, HoverDuration)
  }

  /**
   * The transform one frame of the animation leaves behind at clock reading
   * `now`. A portfolio billboard also bobs (`sin(now * 0.003) * 0.3`) and tilts
   * (`sin(now * 0.002) * 0.05`) while hovered; `sin` is `Math.sin`.
   */
  function TickTransform(before: Transform, s: ScaleSession, now: real, sin: real -> real): (after: Transform)
    ensures after.scale.x == after.scale.y == after.scale.z
    ensures now - s.startTime >= HoverDuration ==> after.scale.x == s.targetScale
    ensures !s.isPortfolio ==> after == before.(scale := after.scale)
    ensures s.isPortfolio && now - s.startTime >= HoverDuration ==>
              after.rotationY == s.targetRotation &&
              after.position.x == s.targetPosition.x && after.position.z == s.targetPosition.z
    ensures s.isPortfolio && !s.isHovering ==> after.rotationX == 0.0 && after.position.y == s.startPosition.y
  {
    var e := Ease(HoverProgress(s, now));
    var c := Lerp(s.startScale, s.targetScale, e);
    if !s.isPortfolio then
      before.(scale := Uniform(c))
    else
      var x := Lerp(s.startPosition.x, s.targetPosition.x, e);
      var z := Lerp(s.startPosition.z, s.targetPosition.z, e);
      var y := if s.isHovering then s.targetPosition.y + sin(now * 0.003) * 0.3 else s.startPosition.y;
      var tilt := if s.isHovering then sin(now * 0.002) * 0.05 else 0.0;
      Transform(Uniform(c), tilt, Lerp(s.startRotation, s.targetRotation, e), Vec3(x, y, z))
  }

  /** From its first frame on, the animated scale stays between the start scale and the target scale. */
  lemma ScaleStaysBetween(before: Transform, s: ScaleSession, now: real, sin: real -> real)
    requires s.startTime <= now
    ensures var c := TickTransform(before, s, now, sin).scale.x;
            (s.startScale <= s.targetScale ==> s.startScale <= c <= s.targetScale) &&
            (s.targetScale <= s.startScale ==> s.targetScale <= c <= s.startScale)
  {
    EasedLerpBetween(s.startScale, s.targetScale, HoverProgress(s, now));
  }

  /**
   * A full hover of a portfolio billboard at rest, followed by a full leave:
   * scale and angle come back to rest, but the billboard ends up 2 units
   * further along -x, because leaving aims at the position the hover reached.
   */
  lemma PortfolioHoverCycle(target: Object3D, kind: BillboardType, rest: Transform, t1: real, t2: real, sin: real -> real)
    requires target.isPortfolioBillboard
    requires rest.rotationY == Pi / 2.0
    ensures var s1 := StartSession(kind, target, true, rest, t1);
            var hovered := TickTransform(rest, s1, t1 + HoverDuration, sin);
            var s2 := StartSession(kind, target, false, hovered, t2);
            var left := TickTransform(hovered, s2, t2 + HoverDuration, sin);
            hovered.scale == Uniform(PortfolioHoverScale) &&
            hovered.rotationY == Pi / 2.0 - PortfolioHoverTurn &&
            left.scale == Uniform(RestScale) &&
            left.rotationY == rest.rotationY &&
            left.rotationX == 0.0 &&
            left.position.x == rest.position.x - PortfolioHoverShift &&
            left.position.z == rest.position.z
  {
  }

  /** What a call to `animateObjectScale` did: nothing, rescale the phone box, or start an animation (and whether its first frame asked for another). */
  datatype HoverOutcome = Ignored | PhoneBoxScaled | Started(session: ScaleSession, reschedule: bool)

  /**
   * `window.billboards`: the logo and about-me billboards and the
   * `isAnimating` flags. The ghost map `running` holds the animation in
   * flight for each type whose flag is set.
   */
  class HoverAnimator {
    const logo: Object3D
    const aboutMe: Object3D
    var isAnimating: map<BillboardType, bool>
    ghost var running: map<BillboardType, ScaleSession>

    /** A missing key reads as `undefined`, which is falsy. */
    predicate IsAnimating(k: BillboardType)
      reads this
    {
      k in isAnimating && isAnimating[k]
    }

    /** `'logo'`, `'aboutMe'`, and `'portfolio'` for everything else. */
    function KindOf(t: Object3D): (k: BillboardType)
      ensures k == Logo <==> t == logo
      ensures k == AboutMe <==> t == aboutMe && t != logo
      ensures k == Portfolio <==> t != logo && t != aboutMe
    {
      if t == logo then Logo else if t == aboutMe then AboutMe else Portfolio
    }

    /** A flag is set exactly while one animation of that type is in flight. */
    ghost predicate Valid()
      reads this
    {
      (forall k :: IsAnimating(k) <==> k in running) &&
      (forall k :: k in running ==> running[k].kind == k && KindOf(running[k].target) == k)
    }

    /** The flags start as `{logo: false, aboutMe: false}`; `portfolio` is not a key yet. */
    constructor (logo: Object3D, aboutMe: Object3D)
      ensures Valid()
      ensures this.logo == logo && this.aboutMe == aboutMe
      ensures isAnimating == map[Logo := false, AboutMe := false] && running == map[]
      ensures forall k :: !IsAnimating(k)
    {
      this.logo := logo;
      this.aboutMe := aboutMe;
      isAnimating := map[Logo := false, AboutMe := false];
      running := map[];
    }

    /**
     * `animateObjectScale(object, isHovering)`, including the first frame it
     * runs at once. `startTime` is the clock reading at the call and `now`
     * the one inside that first frame.
     */
    method AnimateObjectScale(obj: Object3D, isHovering: bool, startTime: real, now: real, sin: real -> real)
      returns (outcome: HoverOutcome)
      requires Valid()
      modifies this, obj.Root()
      ensures Valid()
      ensures var target := obj.Root();
              var kind := KindOf(target);
              if old(IsAnimating(kind)) && obj.phoneBox == null then
                outcome == Ignored &&
                isAnimating == old(isAnimating) && running == old(running) &&
                target.Snapshot() == old(target.Snapshot())
              else if obj.phoneBox != null then
                outcome == PhoneBoxScaled &&
                isAnimating == old(isAnimating) && running == old(running) &&
                target.Snapshot() == old(target.Snapshot()).(
                  scale := Uniform(if isHovering then PhoneBoxHoverScale else PhoneBoxRestScale))
              else
                outcome.Started? &&
                outcome.session == StartSession(kind, target, isHovering, old(target.Snapshot()), startTime) &&
                target.Snapshot() == TickTransform(old(target.Snapshot()), outcome.session, now, sin) &&
                outcome.reschedule == (HoverProgress(outcome.session, now) < 1.0) &&
                (outcome.reschedule ==>
                   isAnimating == old(isAnimating)[kind := true] &&
                   running == old(running)[kind := outcome.session]) &&
                (!outcome.reschedule ==>
                   isAnimating == old(isAnimating)[kind := false] && running == old(running))
    {
      var target := obj.Root();
      var kind := KindOf(target);

      if IsAnimating(kind) && obj.phoneBox == null {
        return Ignored;
      }

      if obj.phoneBox != null {
        var scale := if isHovering then PhoneBoxHoverScale else PhoneBoxRestScale;
        target.scale := Uniform(scale);
        return PhoneBoxScaled;
      }

      isAnimating := isAnimating[kind := true];

      var session := StartSession(kind, target, isHovering, Transform(target.scale, target.rotationX, target.rotationY, target.position), startTime);
      running := running[kind := session];

      var reschedule := Animate(session, now, sin);
      outcome := Started(session, reschedule);
    }

    /** `animate`: one frame of a running animation, at clock reading `now`. */
    method Animate(s: ScaleSession, now: real, sin: real -> real) returns (reschedule: bool)
      requires Valid()
      requires s.kind in running && running[s.kind] == s
      modifies this, s.target
      ensures Valid()
      ensures s.target.Snapshot() == TickTransform(old(s.target.Snapshot()), s, now, sin)
      ensures reschedule == (HoverProgress(s, now) < 1.0)
      ensures reschedule ==> isAnimating == old(isAnimating) && running == old(running)
      ensures !reschedule ==>
                isAnimating == old(isAnimating)[s.kind := false] &&
                running == old(running) - {s.kind}
    {
      var elapsed := now - s.startTime;
      var progress := Progress(elapsed, HoverDuration);
      var easeProgress := Ease(progress);

      var currentScale := Lerp(s.startScale, s.targetScale, easeProgress);
      s.target.scale := Uniform(currentScale);

      if s.isPortfolio {
        s.target.rotationY := Lerp(s.startRotation, s.targetRotation, easeProgress);
        s.target.position := Vec3(
          Lerp(s.startPosition.x, s.targetPosition.x, easeProgress),
          Lerp(s.startPosition.y, s.targetPosition.y, easeProgress),
          Lerp(s.startPosition.z, s.targetPosition.z, easeProgress));
        if s.isHovering {
          s.target.position := s.target.position.(y := s.targetPosition.y + sin(now * 0.003) * 0.3);
        } else {
          s.target.position := s.target.position.(y := s.startPosition.y);
        }
        if s.isHovering {
          s.target.rotationX := sin(now * 0.002) * 0.05;
        } else {
          s.target.rotationX := 0.0;
        }
      }

      reschedule := progress < 1.0;
      if !reschedule {
        isAnimating := isAnimating[s.kind := false];
        running := running - {s.kind};
      }
    }
  }
}
