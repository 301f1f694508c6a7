/**
 * The responsive scroll-settings adapter `getScrollSettings`: derives the
 * ScrollTrigger settings used on a mobile viewport from a base record.
 */
module ScrollSettings {
  import opened Wrappers
  import opened Decimal
  import opened EndRewrite

  /**
   * The `scrub` field: absent, a boolean, or a number. Numbers are exact
   * reals here rather than IEEE-754 doubles.
   */
  datatype Scrub = Unset | Flag(on: bool) | Amount(value: real)

  /** JavaScript truthiness of a `scrub` value. */
  predicate Truthy(s: Scrub) {
    match s
    case Unset => false
    case Flag(on) => on
    case Amount(v) => v != 0.0
  }

  /**
   * A base settings record. `trigger` is whatever the caller passes (a
   * selector string or an element) and is only copied, so it is a type
   * parameter. `anticipatePin` may be absent.
   */
  datatype Settings<Trigger> = Settings(
    trigger: Trigger,
    start: string,
    end: string,
    pin: bool,
    scrub: Scrub,
    anticipatePin: Option<real>)

  /** The largest `scrub` the mobile adjustment produces from a number. */
  const MaxScrub: real := 5.0
  /** The `anticipatePin` used on mobile when none (or zero) is given. */
  const DefaultAnticipatePin: real := 0.2

  /**
   * Mobile scrub: `true` becomes 1, a non-zero number `s` becomes
   * `min(s * 1.5, 5)`, and a falsy value is left alone.
   */
  function MobileScrub(s: Scrub): (r: Scrub)
    ensures Truthy(r) == Truthy(s)
    ensures !Truthy(s) ==> r == s
    ensures s == Flag(true) ==> r == Amount(1.0)
    ensures s.Amount? ==> r.Amount?
    ensures s.Amount? && Truthy(s) ==>
      && r.value <= MaxScrub && r.value <= s.value * 1.5
      && (r.value == MaxScrub || r.value == s.value * 1.5)
    ensures s.Amount? && 0.0 < s.value <= MaxScrub ==> s.value <= r.value
  {
    if !Truthy(s) then s
    else match s
      case Flag(_) => Amount(1.0)
      case Amount(v) => Amount(if v * 1.5 < MaxScrub then v * 1.5 else MaxScrub)
  }

  /** Mobile `anticipatePin`: `settings.anticipatePin || 0.2`. */
  function MobileAnticipatePin(a: Option<real>): (r: real)
    ensures r != 0.0
    ensures a.Some? && a.value != 0.0 ==> r == a.value
    ensures a.None? || a.value == 0.0 ==> r == DefaultAnticipatePin
  {
    if a.Some? && a.value != 0.0 then a.value else DefaultAnticipatePin
  }

  /**
   * `getScrollSettings(baseSettings, isMobile)`: a fresh record; off mobile a
   * plain copy, on mobile with `end`, `scrub` and `anticipatePin` adjusted.
   */
  function GetScrollSettings<Trigger>(base: Settings<Trigger>, isMobile: bool): (r: Settings<Trigger>)
    ensures r.trigger == base.trigger && r.start == base.start && r.pin == base.pin
    ensures !isMobile ==> r == base
    ensures isMobile ==> Truthy(r.scrub) == Truthy(base.scrub)
    ensures isMobile && base.scrub == Flag(true) ==> r.scrub == Amount(1.0)
    ensures isMobile ==> r.end == RewriteEnd(base.end) && r.scrub == MobileScrub(base.scrub)
    ensures isMobile && base.scrub.Amount? && Truthy(base.scrub) ==>
      && r.scrub.Amount? && r.scrub.value <= MaxScrub && r.scrub.value <= base.scrub.value * 1.5
      && (r.scrub.value == MaxScrub || r.scrub.value == base.scrub.value * 1.5)
    ensures isMobile && !Truthy(base.scrub) ==> r.scrub == base.scrub
    ensures isMobile ==> r.anticipatePin.Some? && r.anticipatePin.value != 0.0
    ensures isMobile && base.anticipatePin.Some? && base.anticipatePin.value != 0.0 ==>
      r.anticipatePin == base.anticipatePin
    ensures isMobile && (base.anticipatePin.None? || base.anticipatePin.value == 0.0) ==>
      r.anticipatePin == Some(DefaultAnticipatePin)
  {
    if !isMobile then base
    else base.(
      end := RewriteEnd(base.end),
      scrub := MobileScrub(base.scrub),
      anticipatePin := Some(MobileAnticipatePin(base.anticipatePin)))
  }

  /**
   * On mobile, the leftmost `+=<p>%` of `end` becomes `+=<round(0.9 p)>%` at
   * the same place, the text around it is kept, and no earlier match appears.
   */
  lemma MobileEnd<Trigger>(base: Settings<Trigger>, i: nat, k: nat)
    requires LeftmostMatch(base.end, i, k)
    ensures var e := GetScrollSettings(base, true).end;
      && e == base.end[..i] + ScaledIncrement(Group(base.end, i, k)) + base.end[i + k + 3..]
      && exists k' :: LeftmostMatch(e, i, k') && Parse(Group(e, i, k')) <= Parse(Group(base.end, i, k))
  {
    RewriteLeftmost(base.end, i, k);
    RewriteResult(base.end, i, k);
  }

  /** On mobile, an `end` in which the expression matches nowhere (such as "top top") is kept. */
  lemma MobileEndUnmatched<Trigger>(base: Settings<Trigger>)
    requires forall i, k :: !MatchesAt(base.end, i, k)
    ensures GetScrollSettings(base, true).end == base.end
  {
    RewriteNoMatch(base.end);
  }
}
