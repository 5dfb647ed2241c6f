/** The temple user's read-only dashboard: the guard that loads the profile
    and the linked temple, and the pure display helpers (progress width,
    id badge, `?? 0` defaults). */
module TemplePage {
  import opened Common

  const ProfileNotFound := "Profile not found for this user."
  const TempleNotLinked := "Temple record not found or not linked. Contact admin."

  /** The columns of `temples` the page selects. */
  datatype TempleInfo = TempleInfo(name: string, address: string, uniqueId: string,
                                   donationPct: Option<int>, donationPoints: Option<int>,
                                   isHistoric: bool)

  /** What the page renders. */
  datatype Screen = LoadingScreen | ErrorScreen(message: string) | Dashboard(temple: TempleInfo) | Nothing

  /** The render condition chain: loading first, then an error, then the
      dashboard when the user is allowed and a temple was found. */
  function View(loading: bool, error: string, allowed: bool, temple: Option<TempleInfo>): (s: Screen)
    ensures s == LoadingScreen <==> loading
    ensures s.ErrorScreen? <==> !loading && error != ""
    ensures s.ErrorScreen? ==> s.message == error
    ensures s.Dashboard? <==> !loading && error == "" && allowed && temple.Some?
    ensures s.Dashboard? ==> s.temple == temple.value
  {
    if loading then LoadingScreen
    else if error != "" then ErrorScreen(error)
    else if allowed && temple.Some? then Dashboard(temple.value)
    else Nothing
  }

  /** `Math.min(Math.max(value, 0), 100)`: the bar width in percent. */
  function ProgressWidth(value: int): (w: int)
    ensures 0 <= w <= 100
    ensures 0 <= value <= 100 ==> w == value
    ensures value < 0 ==> w == 0
    ensures value > 100 ==> w == 100
  {
    if value < 0 then 0 else if value > 100 then 100 else value
  }

  /** Clamping twice is clamping once, and a larger value never gives a
      narrower bar. */
  lemma ProgressWidthIdempotentMonotonic(a: int, b: int)
    ensures ProgressWidth(ProgressWidth(a)) == ProgressWidth(a)
    ensures a <= b ==> ProgressWidth(a) <= ProgressWidth(b)
  {
  }

  /** `k` copies of `c`. */
  function Repeat(c: char, k: nat): (r: string)
    ensures |r| == k
    ensures forall i :: 0 <= i < k ==> r[i] == c
  {
    if k == 0 then [] else [c] + Repeat(c, k - 1)
  }

  /** `s.padStart(n, c)` for a one-character pad: `c` repeated in front of
      `s` up to length `n`; a string of length `n` or more is unchanged. */
  function PadStart(s: string, n: nat, c: char): (r: string)
    ensures |r| == if |s| >= n then |s| else n
    ensures r[|r| - |s|..] == s
    ensures forall i :: 0 <= i < |r| - |s| ==> r[i] == c
  {
    if |s| >= n then s else Repeat(c, n - |s|) + s
  }

  /** The id badge: "" for a falsy id, otherwise '^' and the id padded with
      '0' to at least two characters. */
  function Badge(uniqueId: string): (r: string)
    ensures uniqueId == "" ==> r == ""
    ensures uniqueId != "" ==> r == "^" + PadStart(uniqueId, 2, '0')
  {
    if uniqueId == "" then "" else "^" + PadStart(uniqueId, 2, '0')
  }

  /** Badges of one-character ids gain a '0'; longer ids are shown as they
      are. */
  lemma BadgeCases(id: string)
    ensures |id| == 1 ==> Badge(id) == ['^', '0', id[0]]
    ensures |id| >= 2 ==> Badge(id) == "^" + id
  {
    if |id| == 1 {
      assert Repeat('0', 1) == ['0'];
    }
  }

  /** `temple.donation_pct ?? 0` and `temple.donation_points ?? 0`. */
  function PctShown(t: TempleInfo): (r: int)
    ensures t.donationPct.None? ==> r == 0
    ensures t.donationPct.Some? ==> r == t.donationPct.value
  {
    OrZero(t.donationPct)
  }

  function PointsShown(t: TempleInfo): (r: int)
    ensures t.donationPoints.None? ==> r == 0
    ensures t.donationPoints.Some? ==> r == t.donationPoints.value
  {
    OrZero(t.donationPoints)
  }

  class TempleDashboard {
    var loading: bool
    var allowed: bool
    var profile: Option<Record>
    var temple: Option<TempleInfo>
    var error: string
    /** The target of the last `router.replace`, if any. */
    var route: Option<string>

    constructor ()
      ensures loading && !allowed && profile == None && temple == None && error == "" && route == None
    {
      loading := true;
      allowed := false;
      profile := None;
      temple := None;
      error := "";
      route := None;
    }

    /** The effect: `user` is the signed-in user's id, if any; `found` the
        profile lookup (None on an error or no row); `temples` the
        `temples` table by `unique_id`. */
    method Load(user: Option<string>, found: Option<Record>, temples: map<string, TempleInfo>)
      modifies this
      ensures user.None? ==>
        route == Some("/") && loading == old(loading) && allowed == old(allowed)
        && error == old(error) && temple == old(temple) && profile == old(profile)
      ensures user.Some? && found.None? ==>
        error == ProfileNotFound && !loading && route == old(route)
        && allowed == old(allowed) && temple == old(temple) && profile == old(profile)
      ensures user.Some? && found.Some? && Field(found.value, "role") != Some("temple") ==>
        route == Some("/") && loading == old(loading) && allowed == old(allowed)
        && error == old(error) && temple == old(temple) && profile == old(profile)
      ensures user.Some? && found.Some? && Field(found.value, "role") == Some("temple") ==>
        var tid := Field(found.value, "temple_id");
        && allowed && profile == found && !loading && route == old(route)
        && (tid.Some? && tid.value in temples ==> temple == Some(temples[tid.value]) && error == old(error))
        && (!(tid.Some? && tid.value in temples) ==> temple == old(temple) && error == TempleNotLinked)
    {
      if user.None? {
        route := Some("/");
        return;
      }
      if found.None? {
        error := ProfileNotFound;
        loading := false;
        return;
      }
      var p := found.value;
      if Field(p, "role") != Some("temple") {
        route := Some("/");
        return;
      }
      allowed := true;
      profile := found;
      var tid := Field(p, "temple_id");
      if tid.Some? && tid.value in temples {
        temple := Some(temples[tid.value]);
      } else {
        error := TempleNotLinked;
      }
      loading := false;
    }
  }

  /** A visit: the page is mounted, its effect runs, and the first screen
      after the effect is rendered. The dashboard shows exactly when the
      user is signed in, the role is 'temple' and the linked temple is
      found; a wrong role or no user leaves the page loading. */
  method Visit(user: Option<string>, found: Option<Record>, temples: map<string, TempleInfo>)
    returns (s: Screen, route: Option<string>)
    ensures route == Some("/") <==>
      user.None? || (found.Some? && Field(found.value, "role") != Some("temple"))
    ensures route == Some("/") ==> s == LoadingScreen
    ensures route.None? ==> s != LoadingScreen
    ensures s == ErrorScreen(ProfileNotFound) <==> user.Some? && found.None?
    ensures s.Dashboard? <==>
      && user.Some? && found.Some? && Field(found.value, "role") == Some("temple")
      && Field(found.value, "temple_id").Some? && Field(found.value, "temple_id").value in temples
    ensures s.Dashboard? ==> s.temple == temples[Field(found.value, "temple_id").value]
  {
    var page := new TempleDashboard();
    page.Load(user, found, temples);
    s := View(page.loading, page.error, page.allowed, page.temple);
    route := page.route;
  }
}
