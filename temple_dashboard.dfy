/** The temple user's dashboard: its guard, the donation form and history,
    and the local profile edit. */
module TempleDashboard {
  import opened Common

  /** A row of the donation history; the quantity is the text typed in. */
  datatype Donation = Donation(id: int, date: string, kind: string, quantity: string,
                               points: int, status: Status)

  const DemoDonations := [
    Donation(1, "2025-11-24", "Flowers", "10", 5, PickedUp),
    Donation(2, "2025-11-22", "Plastic", "2", 1, Pending)]

  /** The points every submitted donation is credited with. */
  const SubmittedPoints := 2

  /** The donation form. The initial form carries a status; the form the
      submit handler resets to does not. */
  datatype DonationForm = DonationForm(kind: string, quantity: string, note: string, status: Option<Status>)

  const InitialDonationForm := DonationForm("", "", "", Some(Pending))
  const ClearedDonationForm := DonationForm("", "", "", None)

  /** The inputs `handleDonationChange` writes through their `name`. */
  datatype DonationField = KindField | QuantityField | NoteField

  /** `{ ...prev, [name]: value }` */
  function ChangeField(f: DonationForm, field: DonationField, value: string): (r: DonationForm)
    ensures field == KindField ==> r == f.(kind := value)
    ensures field == QuantityField ==> r == f.(quantity := value)
    ensures field == NoteField ==> r == f.(note := value)
  {
    match field
    case KindField => f.(kind := value)
    case QuantityField => f.(quantity := value)
    case NoteField => f.(note := value)
  }

  /** The history entry a submit adds: `stamp` is `Date.now()` and `today`
      the date part of the current ISO time. */
  function Submitted(f: DonationForm, stamp: int, today: string): (d: Donation)
    ensures d.status == Pending && d.points == SubmittedPoints
    ensures d.kind == f.kind && d.quantity == f.quantity && d.id == stamp && d.date == today
  {
    Donation(stamp, today, f.kind, f.quantity, SubmittedPoints, Pending)
  }

  /** `[d, ...prev]` */
  function Prepend(prev: seq<Donation>, d: Donation): (r: seq<Donation>)
    ensures |r| == |prev| + 1 && r[0] == d && r[1..] == prev
  {
    [d] + prev
  }

  /** Submitting donations one after another lists them newest first, above
      the older history. */
  lemma PrependTwice(prev: seq<Donation>, d1: Donation, d2: Donation)
    ensures Prepend(Prepend(prev, d1), d2) == [d2, d1] + prev
  {
  }

  /** The profile edit form; a missing profile value reads as undefined. */
  datatype ProfileForm = ProfileForm(templeName: Option<string>, phone: Option<string>, password: string)

  /** `startProfileEdit`'s copy: the name and phone as they are, and an
      empty password. */
  function FormFrom(profile: Record): (f: ProfileForm)
    ensures f.templeName == Field(profile, "temple_name") && f.phone == Field(profile, "phone")
    ensures f.password == ""
  {
    ProfileForm(Field(profile, "temple_name"), Field(profile, "phone"), "")
  }

  /** `{ ...prev, temple_name, phone }`: only those two fields change; the
      password is not written. */
  function SaveProfile(profile: Record, f: ProfileForm): (r: Record)
    ensures Field(r, "temple_name") == f.templeName && Field(r, "phone") == f.phone
    ensures forall k :: k != "temple_name" && k != "phone" ==> Field(r, k) == Field(profile, k)
  {
    SetField(SetField(profile, "temple_name", f.templeName), "phone", f.phone)
  }

  /** Saving an edit with nothing typed reads every field as before. */
  lemma EditWithoutTyping(profile: Record, k: string)
    ensures Field(SaveProfile(profile, FormFrom(profile)), k) == Field(profile, k)
  {
  }

  class TempleDashboardPage {
    var loading: bool
    var donations: seq<Donation>
    var templeProfile: Record
    var donationForm: DonationForm
    var editProfile: bool
    var profileForm: ProfileForm
    var notif: Notice
    /** The target of the last `router.replace`, if any. */
    var route: Option<string>

    /** The mounted page, with the demo history loaded. */
    constructor ()
      ensures loading && donations == DemoDonations && templeProfile == map[]
      ensures donationForm == InitialDonationForm && !editProfile
      ensures profileForm == ProfileForm(Some(""), Some(""), "") && notif == Notice(false, Success, "")
      ensures route == None
    {
      loading := true;
      donations := DemoDonations;
      templeProfile := map[];
      donationForm := InitialDonationForm;
      editProfile := false;
      profileForm := ProfileForm(Some(""), Some(""), "");
      notif := Notice(false, Success, "");
      route := None;
    }

    /** `guard`: `session` is the session's user id, if any, and `found` the
        profile lookup (None on an error or no row). */
    method Guard(session: Option<string>, found: Option<Record>)
      modifies this`loading, this`templeProfile, this`route
      ensures session.None? || found.None? || Field(found.value, "role") != Some("temple") ==>
        route == Some("/login") && loading == old(loading) && templeProfile == old(templeProfile)
      ensures session.Some? && found.Some? && Field(found.value, "role") == Some("temple") ==>
        route == old(route) && !loading && templeProfile == found.value
    {
      if session.None? {
        route := Some("/login");
        return;
      }
      if found.None? || Field(found.value, "role") != Some("temple") {
        route := Some("/login");
        return;
      }
      templeProfile := found.value;
      loading := false;
    }

    method HandleDonationChange(field: DonationField, value: string)
      modifies this`donationForm
      ensures donationForm == ChangeField(old(donationForm), field, value)
    {
      donationForm := ChangeField(donationForm, field, value);
    }

    /** `handleSubmitDonation` */
    method HandleSubmitDonation(stamp: int, today: string)
      modifies this`notif, this`donations, this`donationForm
      ensures notif == Shown(Success, "Donation submitted!")
      ensures donations == Prepend(old(donations), Submitted(old(donationForm), stamp, today))
      ensures donationForm == ClearedDonationForm
    {
      notif := Shown(Success, "Donation submitted!");
      donations := Prepend(donations, Submitted(donationForm, stamp, today));
      donationForm := ClearedDonationForm;
    }

    method StartProfileEdit()
      modifies this`profileForm, this`editProfile
      ensures profileForm == FormFrom(templeProfile) && editProfile
    {
      profileForm := FormFrom(templeProfile);
      editProfile := true;
    }

    method SaveProfileEdit()
      modifies this`templeProfile, this`notif, this`editProfile
      ensures templeProfile == SaveProfile(old(templeProfile), profileForm)
      ensures notif == Shown(Success, "Profile updated (local only)") && !editProfile
    {
      templeProfile := SaveProfile(templeProfile, profileForm);
      notif := Shown(Success, "Profile updated (local only)");
      editProfile := false;
    }
  }
}
