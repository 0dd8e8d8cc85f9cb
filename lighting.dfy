/**
 * The day/night switch of main.js: `switchToNight` and `switchToDay` assign
 * the constants of `nightSettings` / `daySettings` to the lights and the fog,
 * switch the car's headlights, and walk the four emissive material groups.
 *
 * The scene's lighting is the class `SceneLighting`; a material group is an
 * array of material records, absent (null) until the scene code registers it.
 * `NightState` and `DayState` say, on values, what each switch produces.
 */
module Lighting {
  import opened Common

  /** The part of a `MeshStandardMaterial` the switch reads and writes. */
  datatype Material = Material(hasEmissiveMap: bool, emissiveIntensity: real)

  /** One of the two settings records. */
  datatype LightSettings = LightSettings(
    elevation: real,
    ambientIntensity: real,
    directionalIntensity: real,
    fogColor: int,
    fogNear: real,
    fogFar: real)

  const DaySettings: LightSettings := LightSettings(10.0, 0.4, 1.2, 0xcccccc, 200.0, 1000.0)
  const NightSettings: LightSettings := LightSettings(-1.0, 0.05, 0.1, 0x000015, 100.0, 600.0)

  /** Intensity of a headlight at night. */
  const HeadlightOn: real := 300.0

  /** Night glow of each material group. */
  const LogoGlow: real := 2.0
  const AboutMeGlow: real := 3.0
  const SkillGlow: real := 2.0
  const PortfolioGlow: real := 2.0

  /**
   * Everything the switch writes, as a value. `sunElevation` is the elevation
   * last handed to `updateSunPosition`; an absent headlight or group is `None`.
   */
  datatype LightingState = LightingState(
    sunElevation: real,
    ambientIntensity: real,
    directionalIntensity: real,
    fogColor: int,
    fogNear: real,
    fogFar: real,
    headlight1: Option<real>,
    headlight2: Option<real>,
    logo: Option<seq<Material>>,
    aboutMe: Option<seq<Material>>,
    skills: Option<seq<Material>>,
    portfolio: Option<seq<Material>>)

  /** One material at night: it glows at `level` if it has an emissive map and is left alone otherwise. */
  function GlowOne(m: Material, level: real): Material
  {
    if m.hasEmissiveMap then m.(emissiveIntensity := level) else m
  }

  /** The night walk over one group. */
  function Glow(ms: seq<Material>, level: real): (r: seq<Material>)
    ensures |r| == |ms|
    ensures forall i :: 0 <= i < |ms| ==>
              r[i].hasEmissiveMap == ms[i].hasEmissiveMap &&
              r[i].emissiveIntensity == if ms[i].hasEmissiveMap then level else ms[i].emissiveIntensity
  {
    if ms == [] then [] else [GlowOne(ms[0], level)] + Glow(ms[1..], level)
  }

  /** The day walk over one group: every material goes dark, mapped or not. */
  function Dim(ms: seq<Material>): (r: seq<Material>)
    ensures |r| == |ms|
    ensures forall i :: 0 <= i < |ms| ==>
              r[i].hasEmissiveMap == ms[i].hasEmissiveMap && r[i].emissiveIntensity == 0.0
  {
    if ms == [] then [] else [ms[0].(emissiveIntensity := 0.0)] + Dim(ms[1..])
  }

  /** A headlight that exists gets `level`; a missing one stays missing. */
  function SetIfPresent(light: Option<real>, level: real): Option<real>
  {
    if light.Some? then Some(level) else None
  }

  function GlowGroupIfPresent(group: Option<seq<Material>>, level: real): Option<seq<Material>>
  {
    if group.Some? then Some(Glow(group.value, level)) else None
  }

  function DimGroupIfPresent(group: Option<seq<Material>>): Option<seq<Material>>
  {
    if group.Some? then Some(Dim(group.value)) else None
  }

  /** Lights, fog and sun from `settings`, headlights at `headlights`; groups untouched. */
  function Apply(st: LightingState, settings: LightSettings, headlights: real): LightingState
  {
    st.(sunElevation := settings.elevation,
        ambientIntensity := settings.ambientIntensity,
        directionalIntensity := settings.directionalIntensity,
        fogColor := settings.fogColor,
        fogNear := settings.fogNear,
        fogFar := settings.fogFar,
        headlight1 := SetIfPresent(st.headlight1, headlights),
        headlight2 := SetIfPresent(st.headlight2, headlights))
  }

  /**
   * What `switchToNight` leaves behind. No headlight or group appears or
   * disappears, and no group changes length.
   */
  function NightState(st: LightingState): (r: LightingState)
    ensures r.headlight1.Some? == st.headlight1.Some? && r.headlight2.Some? == st.headlight2.Some?
    ensures r.logo.Some? == st.logo.Some? && r.aboutMe.Some? == st.aboutMe.Some?
    ensures r.skills.Some? == st.skills.Some? && r.portfolio.Some? == st.portfolio.Some?
    ensures r.logo.Some? ==> |r.logo.value| == |st.logo.value|
    ensures r.aboutMe.Some? ==> |r.aboutMe.value| == |st.aboutMe.value|
    ensures r.skills.Some? ==> |r.skills.value| == |st.skills.value|
    ensures r.portfolio.Some? ==> |r.portfolio.value| == |st.portfolio.value|
  {
    Apply(st, NightSettings, HeadlightOn).(
      logo := GlowGroupIfPresent(st.logo, LogoGlow),
      aboutMe := GlowGroupIfPresent(st.aboutMe, AboutMeGlow),
      skills := GlowGroupIfPresent(st.skills, SkillGlow),
      portfolio := GlowGroupIfPresent(st.portfolio, PortfolioGlow))
  }

  /**
   * What `switchToDay` leaves behind. No headlight or group appears or
   * disappears, and no group changes length.
   */
  function DayState(st: LightingState): (r: LightingState)
    ensures r.headlight1.Some? == st.headlight1.Some? && r.headlight2.Some? == st.headlight2.Some?
    ensures r.logo.Some? == st.logo.Some? && r.aboutMe.Some? == st.aboutMe.Some?
    ensures r.skills.Some? == st.skills.Some? && r.portfolio.Some? == st.portfolio.Some?
    ensures r.logo.Some? ==> |r.logo.value| == |st.logo.value|
    ensures r.aboutMe.Some? ==> |r.aboutMe.value| == |st.aboutMe.value|
    ensures r.skills.Some? ==> |r.skills.value| == |st.skills.value|
    ensures r.portfolio.Some? ==> |r.portfolio.value| == |st.portfolio.value|
  {
    Apply(st, DaySettings, 0.0).(
      logo := DimGroupIfPresent(st.logo),
      aboutMe := DimGroupIfPresent(st.aboutMe),
      skills := DimGroupIfPresent(st.skills),
      portfolio := DimGroupIfPresent(st.portfolio))
  }

  /** Dimming a group forgets everything the night walk did to it. */
  lemma {:induction false} DimAfterGlow(ms: seq<Material>, level: real)
    ensures Dim(Glow(ms, level)) == Dim(ms)
  {
    if ms != [] {
      DimAfterGlow(ms[1..], level);
      assert Glow(ms, level)[1..] == Glow(ms[1..], level);
    }
  }

  /** Dimming twice is dimming once. */
  lemma {:induction false} DimIdempotent(ms: seq<Material>)
    ensures Dim(Dim(ms)) == Dim(ms)
  {
    if ms != [] {
      DimIdempotent(ms[1..]);
      assert Dim(ms)[1..] == Dim(ms[1..]);
    }
  }

  /** Glowing twice at the same level is glowing once. */
  lemma {:induction false} GlowIdempotent(ms: seq<Material>, level: real)
    ensures Glow(Glow(ms, level), level) == Glow(ms, level)
  {
    if ms != [] {
      GlowIdempotent(ms[1..], level);
      assert Glow(ms, level)[1..] == Glow(ms[1..], level);
    }
  }

  /** Switching to night and then to day gives exactly what switching to day alone gives. */
  lemma DayAfterNight(st: LightingState)
    ensures DayState(NightState(st)) == DayState(st)
  {
    if st.logo.Some? { DimAfterGlow(st.logo.value, LogoGlow); }
    if st.aboutMe.Some? { DimAfterGlow(st.aboutMe.value, AboutMeGlow); }
    if st.skills.Some? { DimAfterGlow(st.skills.value, SkillGlow); }
    if st.portfolio.Some? { DimAfterGlow(st.portfolio.value, PortfolioGlow); }
  }

  /** Switching to day twice is switching to day once. */
  lemma DayIdempotent(st: LightingState)
    ensures DayState(DayState(st)) == DayState(st)
  {
    if st.logo.Some? { DimIdempotent(st.logo.value); }
    if st.aboutMe.Some? { DimIdempotent(st.aboutMe.value); }
    if st.skills.Some? { DimIdempotent(st.skills.value); }
    if st.portfolio.Some? { DimIdempotent(st.portfolio.value); }
  }

  /** Switching to night twice is switching to night once. */
  lemma NightIdempotent(st: LightingState)
    ensures NightState(NightState(st)) == NightState(st)
  {
    if st.logo.Some? { GlowIdempotent(st.logo.value, LogoGlow); }
    if st.aboutMe.Some? { GlowIdempotent(st.aboutMe.value, AboutMeGlow); }
    if st.skills.Some? { GlowIdempotent(st.skills.value, SkillGlow); }
    if st.portfolio.Some? { GlowIdempotent(st.portfolio.value, PortfolioGlow); }
  }

  /** A group after the night walk: present exactly when it was, mapped materials at `level`, the others as they were. */
  ghost predicate GlowedAt(before: Option<seq<Material>>, after: Option<seq<Material>>, level: real)
  {
    (after.Some? <==> before.Some?) &&
    (after.Some? ==>
      |after.value| == |before.value| &&
      forall i :: 0 <= i < |after.value| ==>
        after.value[i].hasEmissiveMap == before.value[i].hasEmissiveMap &&
        after.value[i].emissiveIntensity ==
          if before.value[i].hasEmissiveMap then level else before.value[i].emissiveIntensity)
  }

  /** A group after the day walk: present exactly when it was, every material at 0. */
  ghost predicate Darkened(before: Option<seq<Material>>, after: Option<seq<Material>>)
  {
    (after.Some? <==> before.Some?) &&
    (after.Some? ==>
      |after.value| == |before.value| &&
      forall i :: 0 <= i < |after.value| ==>
        after.value[i].hasEmissiveMap == before.value[i].hasEmissiveMap &&
        after.value[i].emissiveIntensity == 0.0)
  }

  /**
   * After `switchToNight`: sun, lights and fog carry the night values, every
   * existing headlight is at 300, and each group's mapped materials glow at
   * the group's constant (logo 2, about-me 3, skills 2, portfolio 2) while
   * materials without a map keep their intensity.
   */
  lemma NightLights(st: LightingState)
    ensures var n := NightState(st);
            n.sunElevation == -1.0 &&
            n.ambientIntensity == 0.05 && n.directionalIntensity == 0.1 &&
            n.fogColor == 0x000015 && n.fogNear == 100.0 && n.fogFar == 600.0 &&
            n.headlight1 == (if st.headlight1.Some? then Some(300.0) else None) &&
            n.headlight2 == (if st.headlight2.Some? then Some(300.0) else None) &&
            GlowedAt(st.logo, n.logo, 2.0) &&
            GlowedAt(st.aboutMe, n.aboutMe, 3.0) &&
            GlowedAt(st.skills, n.skills, 2.0) &&
            GlowedAt(st.portfolio, n.portfolio, 2.0)
  {
  }

  /**
   * After `switchToDay`: sun, lights and fog carry the day values, every
   * existing headlight is at 0, and every material of every present group is
   * at 0 whether or not it has a map.
   */
  lemma DayIsDark(st: LightingState)
    ensures var d := DayState(st);
            d.sunElevation == 10.0 &&
            d.ambientIntensity == 0.4 && d.directionalIntensity == 1.2 &&
            d.fogColor == 0xcccccc && d.fogNear == 200.0 && d.fogFar == 1000.0 &&
            d.headlight1 == (if st.headlight1.Some? then Some(0.0) else None) &&
            d.headlight2 == (if st.headlight2.Some? then Some(0.0) else None) &&
            Darkened(st.logo, d.logo) &&
            Darkened(st.aboutMe, d.aboutMe) &&
            Darkened(st.skills, d.skills) &&
            Darkened(st.portfolio, d.portfolio)
  {
  }

  /** The lights, fog, headlights and material groups of the scene, which the two switches overwrite in place. */
  class SceneLighting {
    var sunElevation: real
    var ambientIntensity: real
    var directionalIntensity: real
    var fogColor: int
    var fogNear: real
    var fogFar: real
    /** `carHeadlight1` / `carHeadlight2`: `None` until the car model has loaded. */
    var headlight1: Option<real>
    var headlight2: Option<real>
    /** `window.billboardMaterials`, `window.aboutMeMaterials`, `window.skillBillboardMaterials`, `window.portfolioBillboardMaterials`. */
    var logoMaterials: array?<Material>
    var aboutMeMaterials: array?<Material>
    var skillMaterials: array?<Material>
    var portfolioMaterials: array?<Material>

    /** The material arrays that exist. */
    ghost function Groups(): set<object>
      reads this
    {
      (if logoMaterials != null then {logoMaterials} else {}) +
      (if aboutMeMaterials != null then {aboutMeMaterials} else {}) +
      (if skillMaterials != null then {skillMaterials} else {}) +
      (if portfolioMaterials != null then {portfolioMaterials} else {})
    }

    /** The scene builds each group from its own materials, so no two groups share an array. */
    ghost predicate Valid()
      reads this
    {
      (logoMaterials != null && aboutMeMaterials != null ==> logoMaterials != aboutMeMaterials) &&
      (logoMaterials != null && skillMaterials != null ==> logoMaterials != skillMaterials) &&
      (logoMaterials != null && portfolioMaterials != null ==> logoMaterials != portfolioMaterials) &&
      (aboutMeMaterials != null && skillMaterials != null ==> aboutMeMaterials != skillMaterials) &&
      (aboutMeMaterials != null && portfolioMaterials != null ==> aboutMeMaterials != portfolioMaterials) &&
      (skillMaterials != null && portfolioMaterials != null ==> skillMaterials != portfolioMaterials)
    }

    ghost function State(): LightingState
      reads this, Groups()
    {
      LightingState(
        sunElevation, ambientIntensity, directionalIntensity, fogColor, fogNear, fogFar,
        headlight1, headlight2,
        if logoMaterials != null then Some(logoMaterials[..]) else None,
        if aboutMeMaterials != null then Some(aboutMeMaterials[..]) else None,
        if skillMaterials != null then Some(skillMaterials[..]) else None,
        if portfolioMaterials != null then Some(portfolioMaterials[..]) else None)
    }

    /**
     * The scene at start-up: fog, ambient and directional light and the sun
     * from `daySettings`, no headlights and no material group yet.
     */
    constructor ()
      ensures Valid() && Groups() == {}
      ensures State() == LightingState(
        DaySettings.elevation, DaySettings.ambientIntensity, DaySettings.directionalIntensity,
        DaySettings.fogColor, DaySettings.fogNear, DaySettings.fogFar,
        None, None, None, None, None, None)
    {
      sunElevation := DaySettings.elevation;
      ambientIntensity := DaySettings.ambientIntensity;
      directionalIntensity := DaySettings.directionalIntensity;
      fogColor := DaySettings.fogColor;
      fogNear := DaySettings.fogNear;
      fogFar := DaySettings.fogFar;
      headlight1, headlight2 := None, None;
      logoMaterials, aboutMeMaterials, skillMaterials, portfolioMaterials := null, null, null, null;
    }

    /** The car model has loaded: both headlights exist, switched off. */
    method AddHeadlights()
      requires Valid()
      modifies this
      ensures Valid() && Groups() == old(Groups())
      ensures State() == old(State()).(headlight1 := Some(0.0), headlight2 := Some(0.0))
    {
      headlight1, headlight2 := Some(0.0), Some(0.0);
    }

    /** `window.billboardMaterials = materials`. */
    method SetLogoMaterials(ms: seq<Material>)
      requires Valid()
      modifies this
      ensures Valid() && logoMaterials != null && fresh(logoMaterials)
      ensures State() == old(State()).(logo := Some(ms))
    {
      logoMaterials := NewGroup(ms);
    }

    /** `window.aboutMeMaterials = aboutMeMaterials`. */
    method SetAboutMeMaterials(ms: seq<Material>)
      requires Valid()
      modifies this
      ensures Valid() && aboutMeMaterials != null && fresh(aboutMeMaterials)
      ensures State() == old(State()).(aboutMe := Some(ms))
    {
      aboutMeMaterials := NewGroup(ms);
    }

    /** Creates `window.skillBillboardMaterials` if needed and pushes `ms` onto it. */
    method AddSkillMaterials(ms: seq<Material>)
      requires Valid()
      modifies this
      ensures Valid() && skillMaterials != null && fresh(skillMaterials)
      ensures State() == old(State()).(skills := Some(old(if skillMaterials == null then [] else skillMaterials[..]) + ms))
    {
      var before := if skillMaterials == null then [] else skillMaterials[..];
      skillMaterials := NewGroup(before + ms);
    }

    /** Creates `window.portfolioBillboardMaterials` if needed and pushes `ms` onto it. */
    method AddPortfolioMaterials(ms: seq<Material>)
      requires Valid()
      modifies this
      ensures Valid() && portfolioMaterials != null && fresh(portfolioMaterials)
      ensures State() == old(State()).(portfolio := Some(old(if portfolioMaterials == null then [] else portfolioMaterials[..]) + ms))
    {
      var before := if portfolioMaterials == null then [] else portfolioMaterials[..];
      portfolioMaterials := NewGroup(before + ms);
    }

    /** Lights, fog, sun and headlights from `settings`; the material groups are not touched. */
    method ApplySettings(settings: LightSettings, headlights: real)
      requires Valid()
      modifies this
      ensures Valid() && Groups() == old(Groups())
      ensures logoMaterials == old(logoMaterials) && aboutMeMaterials == old(aboutMeMaterials)
      ensures skillMaterials == old(skillMaterials) && portfolioMaterials == old(portfolioMaterials)
      ensures State() == Apply(old(State()), settings, headlights)
    {
      sunElevation := settings.elevation;
      fogColor := settings.fogColor;
      fogNear := settings.fogNear;
      fogFar := settings.fogFar;
      ambientIntensity := settings.ambientIntensity;
      directionalIntensity := settings.directionalIntensity;
      headlight1 := SetIfPresent(headlight1, headlights);
      headlight2 := SetIfPresent(headlight2, headlights);
    }

    /** `switchToNight`. */
    method SwitchToNight()
      requires Valid()
      modifies this, Groups()
      ensures Valid() && Groups() == old(Groups())
      ensures logoMaterials == old(logoMaterials) && aboutMeMaterials == old(aboutMeMaterials)
      ensures skillMaterials == old(skillMaterials) && portfolioMaterials == old(portfolioMaterials)
      ensures State() == NightState(old(State()))
    {
      ghost var st := State();
      ApplySettings(NightSettings, HeadlightOn);
      ghost var applied := State();
      if logoMaterials != null { GlowGroup(logoMaterials, LogoGlow); }
      assert State() == applied.(logo := GlowGroupIfPresent(st.logo, LogoGlow));
      applied := State();
      if aboutMeMaterials != null { GlowGroup(aboutMeMaterials, AboutMeGlow); }
      assert State() == applied.(aboutMe := GlowGroupIfPresent(st.aboutMe, AboutMeGlow));
      applied := State();
      if skillMaterials != null { GlowGroup(skillMaterials, SkillGlow); }
      assert State() == applied.(skills := GlowGroupIfPresent(st.skills, SkillGlow));
      applied := State();
      if portfolioMaterials != null { GlowGroup(portfolioMaterials, PortfolioGlow); }
      assert State() == applied.(portfolio := GlowGroupIfPresent(st.portfolio, PortfolioGlow));
    }

    /** `switchToDay`. */
    method SwitchToDay()
      requires Valid()
      modifies this, Groups()
      ensures Valid() && Groups() == old(Groups())
      ensures logoMaterials == old(logoMaterials) && aboutMeMaterials == old(aboutMeMaterials)
      ensures skillMaterials == old(skillMaterials) && portfolioMaterials == old(portfolioMaterials)
      ensures State() == DayState(old(State()))
    {
      ghost var st := State();
      ApplySettings(DaySettings, 0.0);
      ghost var applied := State();
      if logoMaterials != null { DimGroup(logoMaterials); }
      assert State() == applied.(logo := DimGroupIfPresent(st.logo));
      applied := State();
      if aboutMeMaterials != null { DimGroup(aboutMeMaterials); }
      assert State() == applied.(aboutMe := DimGroupIfPresent(st.aboutMe));
      applied := State();
      if skillMaterials != null { DimGroup(skillMaterials); }
      assert State() == applied.(skills := DimGroupIfPresent(st.skills));
      applied := State();
      if portfolioMaterials != null { DimGroup(portfolioMaterials); }
      assert State() == applied.(portfolio := DimGroupIfPresent(st.portfolio));
    }
  }

  /** A fresh array holding `ms`. */
  method NewGroup(ms: seq<Material>) returns (a: array<Material>)
    ensures fresh(a) && a[..] == ms
  {
    a := new Material[|ms|](i requires 0 <= i < |ms| => ms[i]);
  }

  /** `group.forEach(m => { if (m.emissiveMap) m.emissiveIntensity = level; })`. */
  method GlowGroup(a: array<Material>, level: real)
    modifies a
    ensures a[..] == Glow(old(a[..]), level)
  {
    ghost var before := a[..];
    for i := 0 to a.Length
      invariant forall k :: 0 <= k < i ==> a[k] == GlowOne(before[k], level)
      invariant forall k :: i <= k < a.Length ==> a[k] == before[k]
    {
      if a[i].hasEmissiveMap {
        a[i] := a[i].(emissiveIntensity := level);
      }
    }
  }

  /** `group.forEach(m => { m.emissiveIntensity = 0; })`. */
  method DimGroup(a: array<Material>)
    modifies a
    ensures a[..] == Dim(old(a[..]))
  {
    ghost var before := a[..];
    for i := 0 to a.Length
      invariant forall k :: 0 <= k < i ==> a[k] == before[k].(emissiveIntensity := 0.0)
      invariant forall k :: i <= k < a.Length ==> a[k] == before[k]
    {
      a[i] := a[i].(emissiveIntensity := 0.0);
    }
  }
}
