/**
 * The settings records written at the call sites of `getScrollSettings`,
 * worked through the mobile adjustment, and the rounding cases of the end
 * rewrite.
 */
module CallSites {
  import opened Wrappers
  import opened Decimal
  import opened EndRewrite
  import opened ScrollSettings

  /** A descriptor that is exactly one increment `+=<digits>%` matches as a whole. */
  lemma IncrementMatches(end: string, digits: string)
    requires |digits| >= 1 && AllDigits(digits) && end == "+=" + digits + "%"
    ensures LeftmostMatch(end, 0, |digits|) && Group(end, 0, |digits|) == digits
  {
    var k := |digits|;
    assert end[0] == '+' && end[1] == '=' && end[k + 2] == '%';
    assert Group(end, 0, k) == digits;
  }

  /** A descriptor that is exactly one increment `+=<digits>%` is replaced as a whole. */
  lemma RewriteIncrement(end: string, digits: string)
    requires |digits| >= 1 && AllDigits(digits) && end == "+=" + digits + "%"
    ensures RewriteEnd(end) == ScaledIncrement(digits)
  {
    var k := |digits|;
    IncrementMatches(end, digits);
    RewriteLeftmost(end, 0, k);
    assert end[..0] == [] && end[k + 3..] == [];
  }

  /** A three-digit increment is replaced by the scaled increment of its digits. */
  lemma ThreeDigitIncrement(end: string, a: char, b: char, c: char)
    requires IsDigit(a) && IsDigit(b) && IsDigit(c) && end == ['+', '=', a, b, c, '%']
    ensures RewriteEnd(end) == ScaledIncrement([a, b, c])
  {
    var digits := [a, b, c];
    assert end == "+=" + digits + "%";
    RewriteIncrement(end, digits);
  }

  /** The scaled increment of three digits. */
  lemma ScaledThreeDigits(a: char, b: char, c: char, scaled: string)
    requires IsDigit(a) && IsDigit(b) && IsDigit(c)
    requires Show(Round90(100 * DigitValue(a) + 10 * DigitValue(b) + DigitValue(c))) == scaled
    ensures ScaledIncrement([a, b, c]) == "+=" + scaled + "%"
  {
    Parse3(a, b, c);
  }

  /** A descriptor that is one three-digit increment has its percentage scaled. */
  lemma RewriteThreeDigits(end: string, a: char, b: char, c: char, scaled: string)
    requires IsDigit(a) && IsDigit(b) && IsDigit(c) && end == ['+', '=', a, b, c, '%']
    requires Show(Round90(100 * DigitValue(a) + 10 * DigitValue(b) + DigitValue(c))) == scaled
    ensures RewriteEnd(end) == "+=" + scaled + "%"
  {
    ThreeDigitIncrement(end, a, b, c);
    ScaledThreeDigits(a, b, c, scaled);
  }

  /** Rounding: 99.9 rounds up to 100. */
  lemma RewriteRoundsUp(end: string)
    requires end == "+=111%"
    ensures RewriteEnd(end) == "+=100%"
  {
    assert Show(Round90(111)) == "100";
    RewriteThreeDigits(end, '1', '1', '1', "100");
  }

  /** Leading zeros in the percentage are dropped: 7 * 0.9 = 6.3 is written "6". */
  lemma RewriteDropsLeadingZeros(end: string)
    requires end == "+=007%"
    ensures RewriteEnd(end) == "+=6%"
  {
    assert Show(Round90(7)) == "6";
    RewriteThreeDigits(end, '0', '0', '7', "6");
  }

  /** A descriptor without an increment, such as "top top", is left as it is. */
  lemma RewriteNoIncrement()
    ensures RewriteEnd("top top") == "top top"
    ensures RewriteEnd("bottom bottom") == "bottom bottom"
  {
    assert forall i :: 0 <= i < |"top top"| ==> "top top"[i] != '+';
    assert forall i :: 0 <= i < |"bottom bottom"| ==> "bottom bottom"[i] != '+';
  }

  /** The `end` of `landingTimeline`: 200 * 0.9 = 180. */
  lemma LandingEnd(end: string)
    requires end == "+=200%"
    ensures RewriteEnd(end) == "+=180%"
  {
    assert Show(Round90(200)) == "180";
    RewriteThreeDigits(end, '2', '0', '0', "180");
  }

  /** The `end` of `createAnythingV2`: 650 * 0.9 = 585. */
  lemma HomeScrollEnd(end: string)
    requires end == "+=650%"
    ensures RewriteEnd(end) == "+=585%"
  {
    assert Show(Round90(650)) == "585";
    RewriteThreeDigits(end, '6', '5', '0', "585");
  }

  /** The `end` of `meetAnybody`: 350 * 0.9 = 315. */
  lemma MeetAnybodyEnd(end: string)
    requires end == "+=350%"
    ensures RewriteEnd(end) == "+=315%"
  {
    assert Show(Round90(350)) == "315";
    RewriteThreeDigits(end, '3', '5', '0', "315");
  }

  /** The `end` of `readyPlayerTl`: 300 * 0.9 = 270. */
  lemma ReadyPlayerEnd(end: string)
    requires end == "+=300%"
    ensures RewriteEnd(end) == "+=270%"
  {
    assert Show(Round90(300)) == "270";
    RewriteThreeDigits(end, '3', '0', '0', "270");
  }

  /** `landingTimeline`: `+=200%`, scrub 1.5, anticipatePin 0.5. */
  lemma LandingOnMobile(base: Settings<string>)
    requires base == Settings(".home-landing-section", "top top", "+=200%", true, Amount(1.5), Some(0.5))
    ensures GetScrollSettings(base, true) ==
      Settings(".home-landing-section", "top top", "+=180%", true, Amount(2.25), Some(0.5))
  {
    LandingEnd(base.end);
  }

  /** `createAnythingV2`: `+=650%`, scrub 2.5, anticipatePin 0.5. */
  lemma HomeScrollOnMobile(base: Settings<string>)
    requires base == Settings(".home-scroll-section", "top top", "+=650%", true, Amount(2.5), Some(0.5))
    ensures GetScrollSettings(base, true) ==
      Settings(".home-scroll-section", "top top", "+=585%", true, Amount(3.75), Some(0.5))
  {
    HomeScrollEnd(base.end);
  }

  /** `meetAnybody`: `+=350%`, scrub `true`, no anticipatePin; the trigger is an element. */
  lemma MeetAnybodyOnMobile<Element>(base: Settings<Element>, section: Element)
    requires base == Settings(section, "top top", "+=350%", true, Flag(true), None)
    ensures GetScrollSettings(base, true) ==
      Settings(section, "top top", "+=315%", true, Amount(1.0), Some(DefaultAnticipatePin))
  {
    MeetAnybodyEnd(base.end);
  }

  /** `readyPlayerTl` on mobile: `+=300%`, scrub 3 (its mobile value), no anticipatePin. */
  lemma ReadyPlayerOnMobile<Element>(base: Settings<Element>, section: Element)
    requires base == Settings(section, "top top", "+=300%", true, Amount(3.0), None)
    ensures GetScrollSettings(base, true) ==
      Settings(section, "top top", "+=270%", true, Amount(4.5), Some(DefaultAnticipatePin))
  {
    ReadyPlayerEnd(base.end);
  }
}
