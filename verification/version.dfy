/**
 * The HTTP version string `${major}.${minor}` that `getReqHttpVersion` puts into
 * the record, and a reader for it that recovers the two numbers.
 */
module Version {
  import opened Base
  import opened Decimal

  /** The template literal `${major}.${minor}`. */
  function VersionString(major: nat, minor: nat): string {
    NatToString(major) + "." + NatToString(minor)
  }

  /** The position of the first `.` in `s`, if there is one. */
  function IndexOfDot(s: string): (r: Option<nat>)
    ensures r.Some? ==> r.value < |s| && s[r.value] == '.'
    ensures r.Some? ==> forall i :: 0 <= i < r.value ==> s[i] != '.'
    ensures r.None? ==> forall i :: 0 <= i < |s| ==> s[i] != '.'
  {
    if |s| == 0 then None
    else if s[0] == '.' then Some(0)
    else
      match IndexOfDot(s[1..])
      case None => None
      case Some(i) => Some(i + 1)
  }

  /**
   * Reads `major.minor`: two non-empty runs of decimal digits around the first dot.
   * Anything else is rejected.
   */
  function ParseVersion(s: string): Option<(nat, nat)> {
    match IndexOfDot(s)
    case None => None
    case Some(d) =>
      var major := s[..d];
      var minor := s[d + 1..];
      if 0 < |major| && 0 < |minor| && AllDigits(major) && AllDigits(minor)
      then Some((ParseNat(major), ParseNat(minor)))
      else None
  }

  /** Reading a rendered version back gives the numbers it was rendered from. */
  lemma VersionRoundTrip(major: nat, minor: nat)
    ensures ParseVersion(VersionString(major, minor)) == Some((major, minor))
  {
    var a := NatToString(major);
    var b := NatToString(minor);
    var s := VersionString(major, minor);
    assert s[|a|] == '.';
    assert forall i :: 0 <= i < |a| ==> s[i] == a[i];
    assert IndexOfDot(s) == Some(|a|);
    assert s[..|a|] == a;
    assert s[|a| + 1..] == b;
    ParseNatToString(major);
    ParseNatToString(minor);
  }

  /** Different versions render differently. */
  lemma VersionStringInjective(major: nat, minor: nat, major': nat, minor': nat)
    requires VersionString(major, minor) == VersionString(major', minor')
    ensures major == major' && minor == minor'
  {
    VersionRoundTrip(major, minor);
    VersionRoundTrip(major', minor');
  }
}
