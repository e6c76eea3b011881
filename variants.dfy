/**
 * The two clients side by side. For every motion word, the second
 * variant's go() commands the mirror image of the first variant's wheel
 * speeds, and then stops and idles where the first leaves the motors
 * running.
 */
module Variants {
  import opened CStd
  import opened Gateway
  import opened Session
  import ProgTemplate
  import Client

  /** The same call with both wheel speeds negated; other calls are unchanged. */
  function Mirror(c: Call): Call {
    match c
    case SetSpeedTo(l, r) => SetSpeedTo(-l, -r)
    case _ => c
  }

  /**
   * The first variant's move is two calls, the second variant's is the
   * same two calls with the wheel speeds negated, followed by a stop and
   * a return to idle.
   */
  lemma MirroredMoves(token: string, ms: int)
    requires token in {"up", "down", "left", "right"}
    ensures var p := ProgTemplate.MotionCalls(token, ms);
            var c := Client.MotionCalls(token, ms);
            |p| == 2 && |c| == 4 &&
            c[0] == p[0] == SetModeTo(Speed) && c[1] == Mirror(p[1]) &&
            c[2..] == [SetSpeedTo(0, 0), SetModeTo(Idle)]
  {
    ScaleFactors(ms);
    ScaleFactors(-ms);
  }
}
