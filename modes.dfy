/** Steering modes and the heading command's mode-dependent range
    (`ModeProperty`'s choices and `HeadingProperty.set`). */
module Modes {
  import opened Angles

  /** The four choices of the persistent `ap.mode` enumeration. */
  datatype Mode = Compass | Gps | Wind | TrueWind

  /** The name under which the registry publishes a mode. */
  function Name(m: Mode): string {
    match m
    case Compass => "compass"
    case Gps => "gps"
    case Wind => "wind"
    case TrueWind => "true wind"
  }

  /** `pattern` occurs somewhere in `s` (Python's `pattern in s` on strings). */
  predicate Contains(s: string, pattern: string)
    decreases |s|
  {
    |pattern| <= |s| && (s[..|pattern|] == pattern || Contains(s[1..], pattern))
  }

  /** Wind-referenced modes: the heading is an angle relative to the wind. */
  predicate IsWind(m: Mode) {
    m == Wind || m == TrueWind
  }

  /** No suffix of `s` starts with "wind" when no letter of `s` is 'w'. */
  lemma {:induction false} NotContainsWind(s: string)
    requires forall i :: 0 <= i < |s| ==> s[i] != 'w'
    ensures !Contains(s, "wind")
    decreases |s|
  {
    if 4 <= |s| {
      assert s[..4][0] != "wind"[0];
      NotContainsWind(s[1..]);
    }
  }

  /** The source tests `'wind' in mode`; on the four mode names that test is `IsWind`. */
  lemma WindModeByName(m: Mode)
    ensures IsWind(m) <==> Contains(Name(m), "wind")
  {
    match m
    case Compass =>
      NotContainsWind("compass");
    case Gps =>
      NotContainsWind("gps");
    case Wind =>
    case TrueWind =>
      assert Contains("wind", "wind");
      assert Contains(" wind", "wind");
      assert Contains("e wind", "wind");
      assert Contains("ue wind", "wind");
      assert Contains("rue wind", "wind");
  }

  /** The value `HeadingProperty.set(v)` stores in mode `m`: `v` resolved into
      `[-180, 180)` for wind modes and into `[0, 360)` otherwise. The stored
      value always lies within the property's range bounds `[-180, 360]`. */
  function CommandValue(m: Mode, v: real): (c: real)
    ensures Congruent(c, v)
    ensures IsWind(m) ==> -180.0 <= c < 180.0
    ensures !IsWind(m) ==> 0.0 <= c < 360.0
    ensures -180.0 <= c <= 360.0
  {
    Resolv(v, if IsWind(m) then 0.0 else 180.0)
  }

  /** A command already in its mode's range is stored unchanged, so re-setting
      the stored value is a no-op. */
  lemma CommandValueIdempotent(m: Mode, v: real)
    ensures CommandValue(m, CommandValue(m, v)) == CommandValue(m, v)
  {
    ResolvIdempotent(v, if IsWind(m) then 0.0 else 180.0);
  }
}
