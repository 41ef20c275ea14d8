/**
 * The scroll channel mapper: the arithmetic of the pinned section's
 * `onUpdate` handler. One progress value `p` is fanned out into the header
 * offset, the circular-mask radius, the secondary-header offset, the divider
 * scale and the two tooltip reveal targets. Every channel is a pure function
 * of `p`; none of them clamps `p` itself, each one clamps through its own
 * `<` / `>` guards.
 */
module Channels {

  /** A clamped linear ramp: `from` below `lo`, `to` above `hi`, and the
      straight line between the two on the closed interval `[lo, hi]`.
      The inline channel formulas are proved equal to instances of it. */
  function Ramp(p: real, lo: real, hi: real, from: real, to: real): real
    requires lo < hi
  {
    if p < lo then from
    else if p > hi then to
    else from + (to - from) * ((p - lo) / (hi - lo))
  }

  /** `Math.max(0, Math.min(1, x))` */
  function Clamp01(x: real): (r: real)
    ensures 0.0 <= r <= 1.0
    ensures 0.0 <= x <= 1.0 ==> r == x
    ensures x < 0.0 ==> r == 0.0
    ensures x > 1.0 ==> r == 1.0
  {
    if x < 0.0 then 0.0 else if x > 1.0 then 1.0 else x
  }

  /** `headerProgress`: the ratio (p - 0.5) / 0.3 clamped to [0, 1]. */
  function HeaderProgress(p: real): (r: real)
    ensures 0.0 <= r <= 1.0
    ensures p <= 0.5 ==> r == 0.0
    ensures p >= 0.8 ==> r == 1.0
  {
    Clamp01((p - 0.5) / 0.3)
  }

  /** The header's `xPercent`: 0 below 0.05, -100 above 0.35, and
      -100 * headerProgress in between. Because headerProgress is 0 for
      every p <= 0.5, the middle branch always yields 0: the header
      jumps from 0 to -100 just after 0.35 and never takes another value. */
  function HeaderOffset(p: real): (r: real)
    ensures r == 0.0 || r == -100.0
    ensures r == 0.0 <==> p <= 0.35
    ensures r == -100.0 <==> p > 0.35
  {
    if p < 0.05 then 0.0
    else if p > 0.35 then -100.0
    else -100.0 * HeaderProgress(p)
  }

  /** The circular mask's radius, in percent. */
  function MaskRadius(p: real): (r: real)
    ensures 0.0 <= r <= 100.0
    ensures r == 0.0 <==> p <= 0.2
    ensures r == 100.0 <==> p >= 0.3
  {
    if p < 0.2 then 0.0
    else if p > 0.3 then 100.0
    else 100.0 * ((p - 0.2) / 0.1)
  }

  /** The secondary header's `xPercent`: slides from 100 to -200. */
  function SecondaryHeaderOffset(p: real): (r: real)
    ensures -200.0 <= r <= 100.0
    ensures r == 100.0 <==> p <= 0.15
    ensures r == -200.0 <==> p >= 0.5
  {
    var header2Progress := (p - 0.15) / 0.35;
    if p < 0.15 then 100.0
    else if p > 0.5 then -200.0
    else 100.0 - 300.0 * header2Progress
  }

  /** The tooltip divider's `scaleX`. */
  function DividerScale(p: real): (r: real)
    ensures 0.0 <= r <= 1.0
    ensures r == 0.0 <==> p <= 0.45
    ensures r == 1.0 <==> p >= 0.65
  {
    if p < 0.45 then 0.0
    else if p > 0.65 then 1.0
    else (p - 0.45) / 0.2
  }

  /** The tooltip `y` targets, in percent: "0%" when revealed, "125%" when hidden. */
  const RevealedY: real := 0.0
  const HiddenY: real := 125.0

  /** The `trigger` of each entry of `tooltipSelector`, in order. */
  const TooltipTriggers: seq<real> := [0.65, 0.85]

  /** The `y` target one tooltip is sent to for progress `p`. */
  function TooltipY(p: real, trigger: real): (y: real)
    ensures y == RevealedY || y == HiddenY
    ensures y == RevealedY <==> p >= trigger
  {
    if p >= trigger then RevealedY else HiddenY
  }

  /** The `forEach` over `tooltipSelector`: one `y` target per tooltip. */
  function TooltipTargets(p: real): (ys: seq<real>)
    ensures |ys| == |TooltipTriggers|
    ensures forall i :: 0 <= i < |ys| ==> (ys[i] == RevealedY <==> p >= TooltipTriggers[i])
    ensures forall i :: 0 <= i < |ys| ==> (ys[i] == HiddenY <==> p < TooltipTriggers[i])
  {
    seq(|TooltipTriggers|, i requires 0 <= i < |TooltipTriggers| => TooltipY(p, TooltipTriggers[i]))
  }

  /** Everything one `onUpdate` call hands to the tween engine. */
  datatype ChannelValues = ChannelValues(
    headerX: real,
    maskRadius: real,
    header2X: real,
    dividerScale: real,
    tooltipY: seq<real>)

  function MapProgress(p: real): (v: ChannelValues)
    ensures -100.0 <= v.headerX <= 0.0
    ensures 0.0 <= v.maskRadius <= 100.0
    ensures -200.0 <= v.header2X <= 100.0
    ensures 0.0 <= v.dividerScale <= 1.0
    ensures |v.tooltipY| == |TooltipTriggers|
    ensures forall i :: 0 <= i < |v.tooltipY| ==> v.tooltipY[i] == RevealedY || v.tooltipY[i] == HiddenY
  {
    ChannelValues(HeaderOffset(p), MaskRadius(p), SecondaryHeaderOffset(p),
                  DividerScale(p), TooltipTargets(p))
  }

  // ---------------------------------------------------------------------
  // Properties of the channels

  /** Every ramp channel agrees with the clamped ramp `Ramp` over its breakpoints. */
  lemma RampChannelsAreClampedRamps(p: real)
    ensures MaskRadius(p) == Ramp(p, 0.2, 0.3, 0.0, 100.0)
    ensures SecondaryHeaderOffset(p) == Ramp(p, 0.15, 0.5, 100.0, -200.0)
    ensures DividerScale(p) == Ramp(p, 0.45, 0.65, 0.0, 1.0)
  {
  }

  /** The header does not follow the ramp [0.05, 0.35] -> [0, -100]: at the
      middle of that interval the ramp is at -50 while the header is still 0,
      and at 0.35 the ramp has reached -100 while the header has not. */
  lemma HeaderIsNotARamp()
    ensures Ramp(0.2, 0.05, 0.35, 0.0, -100.0) == -50.0 && HeaderOffset(0.2) == 0.0
    ensures Ramp(0.35, 0.05, 0.35, 0.0, -100.0) == -100.0 && HeaderOffset(0.35) == 0.0
  {
  }

  lemma HeaderMonotone(p1: real, p2: real)
    requires p1 <= p2
    ensures HeaderOffset(p2) <= HeaderOffset(p1)
  {
  }

  lemma MaskMonotone(p1: real, p2: real)
    requires p1 <= p2
    ensures MaskRadius(p1) <= MaskRadius(p2)
    ensures 0.2 <= p1 < p2 <= 0.3 ==> MaskRadius(p1) < MaskRadius(p2)
  {
  }

  lemma SecondaryHeaderMonotone(p1: real, p2: real)
    requires p1 <= p2
    ensures SecondaryHeaderOffset(p2) <= SecondaryHeaderOffset(p1)
    ensures 0.15 <= p1 < p2 <= 0.5 ==> SecondaryHeaderOffset(p2) < SecondaryHeaderOffset(p1)
  {
  }

  lemma DividerMonotone(p1: real, p2: real)
    requires p1 <= p2
    ensures DividerScale(p1) <= DividerScale(p2)
    ensures 0.45 <= p1 < p2 <= 0.65 ==> DividerScale(p1) < DividerScale(p2)
  {
  }

  /** Tooltip 2 (trigger 0.85) is never revealed while tooltip 1 (trigger
      0.65) is hidden. */
  lemma SecondTooltipImpliesFirst(p: real)
    ensures TooltipTargets(p)[1] == RevealedY ==> TooltipTargets(p)[0] == RevealedY
  {
  }

  /** The state at the top of the pinned section. */
  lemma ChannelsAtStart()
    ensures MapProgress(0.0) == ChannelValues(0.0, 0.0, 100.0, 0.0, [HiddenY, HiddenY])
  {
  }

  /** The state at the bottom of the pinned section. */
  lemma ChannelsAtEnd()
    ensures MapProgress(1.0) == ChannelValues(-100.0, 100.0, -200.0, 1.0, [RevealedY, RevealedY])
  {
  }
}
