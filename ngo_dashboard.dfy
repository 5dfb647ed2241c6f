/** The NGO dashboard: its guard, the pickup-request transitions and the
    buttons that offer them, and the local profile edit. */
module NgoDashboard {
  import opened Common

  /** A pickup request (the waste amounts in kg). */
  datatype Pickup = Pickup(id: int, temple: string, dry: int, wet: int, plastic: int,
                           status: Status, requestedDate: string, note: string)

  /** The requests the page starts from. */
  const DemoPickups := [
    Pickup(1, "Maruthi Mandira", 34, 15, 6, Pending, "2025-11-26", "Bins almost full"),
    Pickup(2, "Sri Rama Temple", 10, 8, 2, Accepted, "2025-11-25", "")]

  /** `ps.map(p => p.id === id ? { ...p, status: s } : p)` */
  function SetStatus(ps: seq<Pickup>, id: int, s: Status): (r: seq<Pickup>)
    ensures |r| == |ps|
    ensures forall i :: 0 <= i < |ps| ==> r[i] == if ps[i].id == id then ps[i].(status := s) else ps[i]
  {
    if ps == [] then [] else [if ps[0].id == id then ps[0].(status := s) else ps[0]] + SetStatus(ps[1..], id, s)
  }

  /** With no request of that id, the list is unchanged; otherwise the
      requests of that id have the new status and keep every other field. */
  lemma SetStatusOnlyTouchesId(ps: seq<Pickup>, id: int, s: Status)
    ensures (forall i :: 0 <= i < |ps| ==> ps[i].id != id) ==> SetStatus(ps, id, s) == ps
    ensures forall i :: 0 <= i < |ps| && ps[i].id == id ==>
      SetStatus(ps, id, s)[i].status == s && SetStatus(ps, id, s)[i].(status := ps[i].status) == ps[i]
  {
  }

  /** The three buttons of a request card. */
  datatype Action = Accept | Reject | MarkPickedUp

  /** The buttons a card shows for a status: accept and reject while
      pending, mark-picked-up once accepted, none after. */
  function Offered(s: Status): (r: set<Action>)
    ensures Accept in r <==> s == Pending
    ensures Reject in r <==> s == Pending
    ensures MarkPickedUp in r <==> s == Accepted
  {
    match s
    case Pending => {Accept, Reject}
    case Accepted => {MarkPickedUp}
    case PickedUp => {}
    case Rejected => {}
  }

  /** The status each button's handler sets. */
  function Target(a: Action): Status
  {
    match a
    case Accept => Accepted
    case Reject => Rejected
    case MarkPickedUp => PickedUp
  }

  /** The notification each handler shows. */
  function NoticeFor(a: Action): Notice
  {
    match a
    case Accept => Shown(Success, "Pickup accepted")
    case Reject => Shown(Warning, "Pickup rejected")
    case MarkPickedUp => Shown(Success, "Pickup marked as completed")
  }

  /** How far along a status is. */
  function Rank(s: Status): nat
  {
    match s
    case Pending => 0
    case Accepted => 1
    case PickedUp => 2
    case Rejected => 2
  }

  /** Every offered button moves a request strictly forward. */
  lemma OfferedMovesForward(s: Status, a: Action)
    requires a in Offered(s)
    ensures Rank(Target(a)) > Rank(s)
    ensures s == Pending ==> Target(a) in {Accepted, Rejected}
    ensures s == Accepted ==> Target(a) == PickedUp
  {
  }

  /** A run of clicks on one card, each on a button the card shows at that
      moment. */
  predicate ShownRun(s: Status, clicks: seq<Action>)
    decreases |clicks|
  {
    clicks == [] || (clicks[0] in Offered(s) && ShownRun(Target(clicks[0]), clicks[1..]))
  }

  /** Through its buttons, a request takes at most two steps from pending,
      one from accepted, and none once picked up or rejected. */
  lemma {:induction false} ShownRunLength(s: Status, clicks: seq<Action>)
    requires ShownRun(s, clicks)
    ensures |clicks| <= 2 - Rank(s)
    decreases |clicks|
  {
    if clicks != [] {
      OfferedMovesForward(s, clicks[0]);
      ShownRunLength(Target(clicks[0]), clicks[1..]);
    }
  }

  /** The profile edit form. */
  datatype ProfileForm = ProfileForm(vehicle: string, certifications: string)

  /** `{ ...prev, ...profileForm }`: the two form fields overwrite the
      profile's, and every other field stays. */
  function MergeProfile(profile: Record, f: ProfileForm): (r: Record)
    ensures Field(r, "vehicle") == Some(f.vehicle)
    ensures Field(r, "certifications") == Some(f.certifications)
    ensures forall k :: k != "vehicle" && k != "certifications" ==> Field(r, k) == Field(profile, k)
  {
    profile["vehicle" := f.vehicle]["certifications" := f.certifications]
  }

  /** `startProfileEdit`'s copy, with missing values read as "". */
  function FormFrom(profile: Record): (f: ProfileForm)
    ensures f.vehicle == FieldOrEmpty(profile, "vehicle")
    ensures f.certifications == FieldOrEmpty(profile, "certifications")
  {
    ProfileForm(FieldOrEmpty(profile, "vehicle"), FieldOrEmpty(profile, "certifications"))
  }

  /** Editing without typing leaves a profile that has both fields as it
      was; a missing field comes back as "". */
  lemma EditWithoutTyping(profile: Record)
    ensures "vehicle" in profile && "certifications" in profile ==>
      MergeProfile(profile, FormFrom(profile)) == profile
    ensures "vehicle" !in profile ==> MergeProfile(profile, FormFrom(profile))["vehicle"] == ""
  {
    var r := MergeProfile(profile, FormFrom(profile));
    if "vehicle" in profile && "certifications" in profile {
      assert r.Keys == profile.Keys;
      forall k | k in r ensures r[k] == profile[k] {
        assert Field(r, k) == Field(profile, k);
      }
    }
  }

  class NgoDashboardPage {
    var loading: bool
    var pickups: seq<Pickup>
    var ngoProfile: Record
    var profileEdit: bool
    var profileForm: ProfileForm
    var notif: Notice
    /** The target of the last `router.replace`, if any. */
    var route: Option<string>
    /** Whether the auth-state listener is subscribed. */
    var subscribed: bool

    /** The mounted page, after both effects have started: the demo
        requests are loaded and the listener is subscribed. */
    constructor ()
      ensures loading && pickups == DemoPickups && ngoProfile == map[] && !profileEdit
      ensures profileForm == ProfileForm("", "") && notif == Notice(false, Success, "")
      ensures route == None && subscribed
    {
      loading := true;
      pickups := DemoPickups;
      ngoProfile := map[];
      profileEdit := false;
      profileForm := ProfileForm("", "");
      notif := Notice(false, Success, "");
      route := None;
      subscribed := true;
    }

    /** `guard`: `session` is the session's user id, if any, and `found` the
        profile lookup. */
    method Guard(session: Option<string>, found: Option<Record>)
      modifies this`loading, this`ngoProfile, this`route
      ensures session.None? || found.None? || Field(found.value, "role") != Some("ngo") ==>
        route == Some("/login") && loading == old(loading) && ngoProfile == old(ngoProfile)
      ensures session.Some? && found.Some? && Field(found.value, "role") == Some("ngo") ==>
        route == old(route) && !loading && ngoProfile == found.value
    {
      if session.None? {
        route := Some("/login");
        return;
      }
      if found.None? || Field(found.value, "role") != Some("ngo") {
        route := Some("/login");
        return;
      }
      ngoProfile := found.value;
      loading := false;
    }

    /** The auth-state listener: losing the session leaves for the login
        page. */
    method AuthStateChanged(session: bool)
      modifies this`route
      ensures subscribed && !session ==> route == Some("/login")
      ensures !(subscribed && !session) ==> route == old(route)
    {
      if subscribed && !session {
        route := Some("/login");
      }
    }

    /** The effect's cleanup. */
    method Unmount()
      modifies this`subscribed
      ensures !subscribed
    {
      subscribed := false;
    }

    method AcceptPickup(id: int)
      modifies this`pickups, this`notif
      ensures pickups == SetStatus(old(pickups), id, Accepted)
      ensures notif == Shown(Success, "Pickup accepted")
    {
      pickups := SetStatus(pickups, id, Accepted);
      notif := Shown(Success, "Pickup accepted");
    }

    method MarkPickedUp(id: int)
      modifies this`pickups, this`notif
      ensures pickups == SetStatus(old(pickups), id, PickedUp)
      ensures notif == Shown(Success, "Pickup marked as completed")
    {
      pickups := SetStatus(pickups, id, PickedUp);
      notif := Shown(Success, "Pickup marked as completed");
    }

    method RejectPickup(id: int)
      modifies this`pickups, this`notif
      ensures pickups == SetStatus(old(pickups), id, Rejected)
      ensures notif == Shown(Warning, "Pickup rejected")
    {
      pickups := SetStatus(pickups, id, Rejected);
      notif := Shown(Warning, "Pickup rejected");
    }

    /** A click on button `a` of the card at index `i`: the button exists
        only for the matching status, and runs its handler. */
    method Click(i: int, a: Action)
      requires 0 <= i < |pickups| && a in Offered(pickups[i].status)
      modifies this`pickups, this`notif
      ensures pickups == SetStatus(old(pickups), old(pickups)[i].id, Target(a))
      ensures notif == NoticeFor(a)
      ensures pickups[i].status == Target(a) && Rank(pickups[i].status) > Rank(old(pickups)[i].status)
    {
      OfferedMovesForward(pickups[i].status, a);
      var id := pickups[i].id;
      match a
      case Accept => AcceptPickup(id);
      case Reject => RejectPickup(id);
      case MarkPickedUp => MarkPickedUp(id);
    }

    method StartProfileEdit()
      modifies this`profileForm, this`profileEdit
      ensures profileForm == FormFrom(ngoProfile) && profileEdit
    {
      profileForm := FormFrom(ngoProfile);
      profileEdit := true;
    }

    method SaveProfileEdit()
      modifies this`ngoProfile, this`profileEdit, this`notif
      ensures ngoProfile == MergeProfile(old(ngoProfile), profileForm)
      ensures !profileEdit && notif == Shown(Success, "Profile updated (demo; DB save needed)")
    {
      ngoProfile := MergeProfile(ngoProfile, profileForm);
      profileEdit := false;
      notif := Shown(Success, "Profile updated (demo; DB save needed)");
    }
  }
}
