/** The admin "temples" page: the storage-id cleaner and the name slug used
    for image paths, the map link, and the save / delete / open handlers over
    the `temples` table. */
module TempleAdmin {
  import opened Common

  const ImageBucket := "temple-images"
  const ImageFallback := "https://placehold.co/200x150?text=No+Image"

  /** The characters `/[^a-zA-Z0-9-_]/g` leaves alone. */
  predicate IsIdChar(c: char)
  {
    IsAsciiLetter(c) || IsDigit(c) || c == '-' || c == '_'
  }

  /** `cleanId`: the id with every character outside [A-Za-z0-9_-] deleted. */
  function CleanId(s: string): (r: string)
    ensures |r| <= |s|
    ensures forall i :: 0 <= i < |r| ==> IsIdChar(r[i])
  {
    if s == [] then []
    else (if IsIdChar(s[0]) then [s[0]] else []) + CleanId(s[1..])
  }

  /** `cleanId` works character by character: cleaning a concatenation is
      concatenating the cleaned parts. With `CleanIdKeepsClean` and the
      one-character case this determines the result, order included. */
  lemma {:induction false} CleanIdConcat(a: string, b: string)
    ensures CleanId(a + b) == CleanId(a) + CleanId(b)
  {
    if a == [] {
      assert a + b == b;
    } else {
      assert (a + b)[0] == a[0];
      assert (a + b)[1..] == a[1..] + b;
      CleanIdConcat(a[1..], b);
    }
  }

  /** One character is kept when allowed and deleted otherwise. */
  lemma CleanIdOneChar(c: char)
    ensures CleanId([c]) == if IsIdChar(c) then [c] else []
  {
    assert [c][1..] == [];
  }

  /** An id made only of allowed characters is unchanged. */
  lemma {:induction false} CleanIdKeepsClean(s: string)
    requires forall i :: 0 <= i < |s| ==> IsIdChar(s[i])
    ensures CleanId(s) == s
  {
    if s != [] {
      CleanIdKeepsClean(s[1..]);
    }
  }

  lemma CleanIdIdempotent(s: string)
    ensures CleanId(CleanId(s)) == CleanId(s)
  {
    CleanIdKeepsClean(CleanId(s));
  }

  /** Every allowed character occurs in the cleaned id as often as in the
      input, and no other character occurs in it. */
  lemma {:induction false} CleanIdCounts(s: string, c: char)
    ensures multiset(CleanId(s))[c] == if IsIdChar(c) then multiset(s)[c] else 0
  {
    if s != [] {
      CleanIdCounts(s[1..], c);
      assert s == [s[0]] + s[1..];
      assert multiset(s) == multiset([s[0]]) + multiset(s[1..]);
    }
  }

  /** `s.replace(/\s+/g, "-")`: every maximal run of white space becomes one
      '-'. */
  function CollapseSpaces(s: string): (r: string)
    ensures |r| <= |s|
    ensures forall i :: 0 <= i < |r| ==> !IsSpace(r[i])
    decreases |s|
  {
    if s == [] then []
    else if IsSpace(s[0]) then "-" + CollapseSpaces(TrimStart(s[1..]))
    else [s[0]] + CollapseSpaces(s[1..])
  }

  /** A string without white space is left as it is. */
  lemma {:induction false} CollapseKeepsWordChars(s: string)
    requires forall i :: 0 <= i < |s| ==> !IsSpace(s[i])
    ensures CollapseSpaces(s) == s
  {
    if s != [] {
      CollapseKeepsWordChars(s[1..]);
    }
  }

  /** `name.replace(/\s+/g, "-").toLowerCase()`: the fallback id. */
  function Slug(name: string): (r: string)
    ensures |r| <= |name|
    ensures forall i :: 0 <= i < |r| ==> !IsSpace(r[i]) && !('A' <= r[i] <= 'Z')
  {
    Lower(CollapseSpaces(name))
  }

  /** A word without white space passes through unchanged. */
  lemma {:induction false} CollapseWord(w: string, s: string)
    requires forall i :: 0 <= i < |w| ==> !IsSpace(w[i])
    ensures CollapseSpaces(w + s) == w + CollapseSpaces(s)
  {
    if w == [] {
      assert w + s == s;
    } else {
      assert (w + s)[0] == w[0];
      assert (w + s)[1..] == w[1..] + s;
      CollapseWord(w[1..], s);
    }
  }

  /** A whole run of white space becomes one '-'. */
  lemma CollapseRun(run: string, s: string)
    requires run != [] && forall i :: 0 <= i < |run| ==> IsSpace(run[i])
    requires s == [] || !IsSpace(s[0])
    ensures CollapseSpaces(run + s) == "-" + CollapseSpaces(s)
  {
    assert (run + s)[0] == run[0];
    assert (run + s)[1..] == run[1..] + s;
    TrimStartSkipsSpace(run[1..], s);
  }

  /** A coordinate field of the form: the text typed into it, or the
      number (possibly null) `openEdit` copied in from the row. */
  datatype CoordInput = Typed(text: string) | Loaded(number: Option<string>)

  /** The add / edit form. */
  datatype TempleForm = TempleForm(name: string, uniqueId: string, address: string,
                                   lat: CoordInput, lng: CoordInput, isHistoric: bool, image: string)

  const BlankTempleForm := TempleForm("", "", "", Typed(""), Typed(""), false, "")

  /** The text fields of the dialog. */
  datatype TempleField = NameField | UniqueIdField | AddressField | LatField | LngField

  /** `setForm({ ...form, [field]: e.target.value })`: the typed text goes to
      that field, and every other field is kept. */
  function WithText(f: TempleForm, field: TempleField, v: string): (g: TempleForm)
    ensures g.name == (if field == NameField then v else f.name)
    ensures g.uniqueId == (if field == UniqueIdField then v else f.uniqueId)
    ensures g.address == (if field == AddressField then v else f.address)
    ensures g.lat == (if field == LatField then Typed(v) else f.lat)
    ensures g.lng == (if field == LngField then Typed(v) else f.lng)
    ensures g.isHistoric == f.isHistoric && g.image == f.image
  {
    match field
    case NameField => f.(name := v)
    case UniqueIdField => f.(uniqueId := v)
    case AddressField => f.(address := v)
    case LatField => f.(lat := Typed(v))
    case LngField => f.(lng := Typed(v))
  }

  /** A row of `temples`. A coordinate is the text of the stored number; the
      donation columns are written elsewhere and only carried along here. */
  datatype TempleRow = TempleRow(name: string, uniqueId: string, address: string,
                                 lat: Option<string>, lng: Option<string>, isHistoric: bool,
                                 image: string, donationPct: Option<int>, donationPoints: Option<int>)

  /** The columns `handleSave` writes. */
  datatype TemplePayload = TemplePayload(name: string, uniqueId: string, address: string,
                                         lat: Option<string>, lng: Option<string>,
                                         isHistoric: bool, image: string)

  /** `form.unique_id || slug(form.name)`: the id the image folder is named
      after, before cleaning. */
  function FolderId(f: TempleForm): (r: string)
    ensures f.uniqueId != "" ==> r == f.uniqueId
    ensures f.uniqueId == "" ==> r == Slug(f.name)
  {
    if f.uniqueId != "" then f.uniqueId else Slug(f.name)
  }

  /** The storage path: the cleaned id, '/', the time stamp, '-', the file
      name as chosen (unlike the NGO page, the file name is not sanitised). */
  function ImagePath(id: string, stamp: string, fileName: string): (r: string)
    ensures |r| == |CleanId(id)| + |stamp| + |fileName| + 2
    ensures r[..|CleanId(id)|] == CleanId(id) && r[|CleanId(id)|] == '/'
    ensures r[|CleanId(id)| + 1..|CleanId(id)| + 1 + |stamp|] == stamp
    ensures r[|r| - |fileName| - 1..] == "-" + fileName
  {
    var head := CleanId(id) + "/" + stamp;
    assert (head + "-" + fileName)[|head|..] == "-" + fileName;
    assert head[|CleanId(id)| + 1..] == stamp;
    head + "-" + fileName
  }

  /** `x ? Number(x) : null`, sent as JSON. Empty text, a zero or null
      number, NaN and the infinities (which JSON writes as null) are all
      stored as null. A typed coordinate is stored as its trimmed text, or
      "0" for blank text, which `Number` reads as 0; a loaded number is
      written back as it is. */
  function Coordinate(c: CoordInput): (r: Option<string>)
    ensures c.Typed? ==>
      (r.None? <==> c.text == "" || NumberClassOf(c.text) == Infinite || NumberClassOf(c.text) == NotANumber)
    ensures c.Loaded? ==> (r.None? <==> c.number.None? || NumberClassOf(c.number.value) != NonZero)
    ensures c.Typed? && r.Some? ==> r.value == StoredText(c.text)
    ensures c.Loaded? && r.Some? ==> r == c.number
    ensures r.Some? ==> NumberClassOf(r.value) == if c.Typed? then NumberClassOf(c.text) else NonZero
  {
    match c
    case Typed(s) =>
      if s == "" then None
      else
        var k := NumberClassOf(s);
        if k == Zero || k == NonZero then
          StoredTextClass(s);
          Some(StoredText(s))
        else None
    case Loaded(n) =>
      if n.Some? && NumberClassOf(n.value) == NonZero then n else None
  }

  /** The text a typed coordinate is stored as. */
  function StoredText(s: string): string
  {
    if Trim(s) == "" then "0" else Trim(s)
  }

  /** The stored text denotes the number that was typed. */
  lemma StoredTextClass(s: string)
    ensures NumberClassOf(StoredText(s)) == NumberClassOf(s)
  {
    var t := Trim(s);
    if t == "" {
      ZeroTextIsZero();
      assert NumberClassOf(s) == LiteralClass(t);
    } else {
      TrimIdempotent(s);
      assert StoredText(s) == t;
      assert NumberClassOf(t) == LiteralClass(Trim(t));
    }
  }

  function PayloadOf(f: TempleForm, imageUrl: string): (p: TemplePayload)
    ensures p.name == f.name && p.uniqueId == f.uniqueId && p.address == f.address
    ensures p.lat == Coordinate(f.lat) && p.lng == Coordinate(f.lng)
    ensures p.isHistoric == f.isHistoric && p.image == imageUrl
  {
    TemplePayload(f.name, f.uniqueId, f.address, Coordinate(f.lat), Coordinate(f.lng),
                  f.isHistoric, imageUrl)
  }

  /** The row the payload updates `row` into: the written columns change and
      the donation columns are kept. */
  function Updated(row: TempleRow, p: TemplePayload): TempleRow
  {
    TempleRow(p.name, p.uniqueId, p.address, p.lat, p.lng, p.isHistoric, p.image,
              row.donationPct, row.donationPoints)
  }

  /** `update(payload).eq("unique_id", code)`. */
  function UpdateByCode(rows: seq<TempleRow>, code: string, p: TemplePayload): (r: seq<TempleRow>)
    ensures |r| == |rows|
    ensures forall i :: 0 <= i < |rows| ==>
      r[i] == if rows[i].uniqueId == code then Updated(rows[i], p) else rows[i]
  {
    if rows == [] then []
    else [if rows[0].uniqueId == code then Updated(rows[0], p) else rows[0]]
         + UpdateByCode(rows[1..], code, p)
  }

  /** `insert([payload])`: the donation columns start out null. */
  function Inserted(p: TemplePayload): TempleRow
  {
    TempleRow(p.name, p.uniqueId, p.address, p.lat, p.lng, p.isHistoric, p.image, None, None)
  }

  /** `delete().eq("unique_id", code)`. */
  function DeleteByCode(rows: seq<TempleRow>, code: string): (r: seq<TempleRow>)
    ensures |r| <= |rows|
    ensures forall i :: 0 <= i < |r| ==> r[i].uniqueId != code && r[i] in rows
    ensures forall x :: x in rows && x.uniqueId != code ==> x in r
    ensures (forall i :: 0 <= i < |rows| ==> rows[i].uniqueId != code) ==> r == rows
  {
    if rows == [] then []
    else (if rows[0].uniqueId == code then [] else [rows[0]]) + DeleteByCode(rows[1..], code)
  }

  /** `if (editId)`: null and "" are falsy. */
  predicate Truthy(editId: Option<string>)
  {
    editId.Some? && editId.value != ""
  }

  /** The `temples` table after a successful save: the rows with the edited
      id are updated, or, when no id is being edited, the new row is added. */
  function SavedTemples(rows: seq<TempleRow>, editId: Option<string>, p: TemplePayload): seq<TempleRow>
  {
    if Truthy(editId) then UpdateByCode(rows, editId.value, p) else rows + [Inserted(p)]
  }

  /** Editing keeps the donation columns of the edited rows. */
  lemma SaveKeepsDonations(rows: seq<TempleRow>, code: string, p: TemplePayload, i: int)
    requires code != "" && 0 <= i < |rows|
    ensures var r := SavedTemples(rows, Some(code), p);
      r[i].donationPct == rows[i].donationPct && r[i].donationPoints == rows[i].donationPoints
  {
  }

  const OsmPrefix := "https://www.openstreetmap.org/?mlat="

  /** `mapPreview(lat, lng)`: the marker at (lat, lng), and the view centred
      on it at zoom 18. */
  function MapPreview(lat: string, lng: string): (r: string)
    ensures |r| == 51 + 2 * |lat| + 2 * |lng|
    ensures r[..36] == OsmPrefix && r[36..36 + |lat|] == lat
    ensures r[36 + |lat|..42 + |lat|] == "&mlon="
    ensures r[42 + |lat|..42 + |lat| + |lng|] == lng
    ensures r[42 + |lat| + |lng|..50 + |lat| + |lng|] == "#map=18/"
    ensures r[50 + |lat| + |lng|..50 + 2 * |lat| + |lng|] == lat
    ensures r[50 + 2 * |lat| + |lng|] == '/' && r[51 + 2 * |lat| + |lng|..] == lng
  {
    var a := OsmPrefix + lat;
    var b := a + "&mlon=";
    var c := b + lng;
    var d := c + "#map=18/";
    var e := d + lat;
    var f := e + "/";
    assert (f + lng)[..|f|] == f && (f + lng)[|f|..] == lng;
    assert f[..|e|] == e && e[..|d|] == d && d[..|c|] == c && c[..|b|] == b && b[..|a|] == a;
    assert e[|d|..] == lat && d[|c|..] == "#map=18/" && c[|b|..] == lng && b[|a|..] == "&mlon=";
    assert a[..36] == OsmPrefix && a[36..] == lat;
    f + lng
  }

  /** The card's map button, `t.lat && t.lng`: shown only when both
      coordinates are truthy numbers, so a null, zero or NaN coordinate
      hides it. */
  function MapLink(t: TempleRow): (r: Option<string>)
    ensures r.Some? <==>
      t.lat.Some? && t.lng.Some? && IsTruthyNumber(t.lat.value) && IsTruthyNumber(t.lng.value)
    ensures r.Some? ==> r.value == MapPreview(t.lat.value, t.lng.value)
  {
    if t.lat.Some? && t.lng.Some? && IsTruthyNumber(t.lat.value) && IsTruthyNumber(t.lng.value)
    then Some(MapPreview(t.lat.value, t.lng.value))
    else None
  }

  /** The card's image: the stored URL, or the placeholder when it is empty. */
  function CardImage(t: TempleRow): (r: string)
    ensures t.image != "" ==> r == t.image
    ensures t.image == "" ==> r == ImageFallback
  {
    if t.image != "" then t.image else ImageFallback
  }

  /** `setForm(t)` in `openEdit`: the row's columns, with its coordinates
      as the numbers (or nulls) they are. */
  function FormOf(t: TempleRow): (f: TempleForm)
    ensures f.name == t.name && f.uniqueId == t.uniqueId && f.address == t.address
    ensures f.lat == Loaded(t.lat) && f.lng == Loaded(t.lng)
    ensures f.isHistoric == t.isHistoric && f.image == t.image
  {
    TempleForm(t.name, t.uniqueId, t.address, Loaded(t.lat), Loaded(t.lng), t.isHistoric, t.image)
  }

  /** Opening a row for editing and saving it unchanged, without a file,
      writes back the same columns, provided each coordinate is null or a
      non-zero number. */
  lemma EditRoundTrip(t: TempleRow)
    requires t.lat.None? || NumberClassOf(t.lat.value) == NonZero
    requires t.lng.None? || NumberClassOf(t.lng.value) == NonZero
    ensures Updated(t, PayloadOf(FormOf(t), FormOf(t).image)) == t
  {
  }

  /** A latitude of 0 is falsy: a typed "0" is stored as 0, but the card then
      hides the map button, and opening the row and saving it unchanged
      writes the latitude back as null. */
  lemma ZeroLatitudeLostOnEdit(t: TempleRow)
    requires t.lat == Some("0")
    ensures Coordinate(Typed("0")) == Some("0")
    ensures MapLink(t).None?
    ensures Updated(t, PayloadOf(FormOf(t), FormOf(t).image)).lat.None?
  {
    ZeroTextIsZero();
    assert PayloadOf(FormOf(t), FormOf(t).image).lat == Coordinate(Loaded(Some("0")));
  }

  /** "0" is the number 0, and is stored as typed. */
  lemma ZeroTextIsZero()
    ensures NumberClassOf("0") == Zero && StoredText("0") == "0"
  {
    DigitsAreNumbers("0");
    TrimUnspaced("0");
  }

  /** Text that is not a number becomes NaN, which is stored as null. */
  lemma NonNumericCoordinateIsNull(s: string)
    requires s != [] && IsAsciiLetter(s[0]) && s[0] != 'I'
    ensures Coordinate(Typed(s)).None?
  {
    NonNumericIsNaN(s);
  }

  /** A failed upload still saves, with the image column emptied. */
  lemma FailedUploadClearsImage(rows: seq<TempleRow>, code: string, f: TempleForm, i: int)
    requires code != "" && 0 <= i < |rows| && rows[i].uniqueId == code
    ensures SavedTemples(rows, Some(code), PayloadOf(f, ""))[i].image == ""
  {
  }

  class TempleManager {
    /** The `temples` table. */
    var temples: seq<TempleRow>
    var form: TempleForm
    var editId: Option<string>
    /** Whether the add / edit dialog is open. */
    var open: bool
    /** The messages shown with `alert`, oldest first. */
    var alerts: seq<string>

    constructor (temples: seq<TempleRow>)
      ensures this.temples == temples && form == BlankTempleForm && editId == None
      ensures !open && alerts == []
    {
      this.temples := temples;
      form := BlankTempleForm;
      editId := None;
      open := false;
      alerts := [];
    }

    /** `uploadImage`: without a file the form's current image is kept;
        otherwise the file goes to `ImagePath` and its public URL is
        returned, or "" after an alert when the upload fails. */
    method UploadImage(file: Option<FileInfo>, id: string, stamp: string, upload: UploadResult)
      returns (url: string, path: Option<string>)
      modifies this`alerts
      ensures file.None? ==> url == form.image && path == None && alerts == old(alerts)
      ensures file.Some? ==> path == Some(ImagePath(id, stamp, file.value.name))
      ensures file.Some? && upload.UploadFailed? ==>
        url == "" && alerts == old(alerts) + ["Image upload failed!"]
      ensures file.Some? && upload.Uploaded? ==> url == upload.publicUrl && alerts == old(alerts)
    {
      if file.None? {
        return form.image, None;
      }
      path := Some(ImagePath(id, stamp, file.value.name));
      match upload
      case UploadFailed(_) =>
        alerts := alerts + ["Image upload failed!"];
        url := "";
      case Uploaded(u) =>
        url := u;
    }

    /** `handleSave`: `upload` is the storage result and `write` that of the
        update or insert. `editId` is left as it was. */
    method HandleSave(file: Option<FileInfo>, stamp: string, upload: UploadResult, write: WriteResult)
      modifies this`temples, this`form, this`open, this`alerts
      ensures editId == old(editId)
      ensures write.WriteFailed? ==>
        && temples == old(temples) && form == old(form) && open == old(open)
        && alerts == old(alerts) + (if file.Some? && upload.UploadFailed? then ["Image upload failed!"] else [])
                                 + ["Database error: " + write.message]
      ensures write.WriteOk? ==>
        var url := if file.None? then old(form).image else if upload.Uploaded? then upload.publicUrl else "";
        && temples == SavedTemples(old(temples), old(editId), PayloadOf(old(form), url))
        && form == BlankTempleForm && !open
        && alerts == old(alerts) + (if file.Some? && upload.UploadFailed? then ["Image upload failed!"] else [])
    {
      var f := form;
      var url, _ := UploadImage(file, FolderId(f), stamp, upload);
      assert url == if file.None? then f.image else if upload.Uploaded? then upload.publicUrl else "";
      assert alerts == old(alerts) + (if file.Some? && upload.UploadFailed? then ["Image upload failed!"] else []);
      Save(PayloadOf(f, url), write);
    }

    /** The write at the end of `handleSave`. */
    method Save(p: TemplePayload, write: WriteResult)
      modifies this`temples, this`form, this`open, this`alerts
      ensures write.WriteFailed? ==>
        && temples == old(temples) && form == old(form) && open == old(open)
        && alerts == old(alerts) + ["Database error: " + write.message]
      ensures write.WriteOk? ==>
        && temples == SavedTemples(old(temples), editId, p)
        && form == BlankTempleForm && !open && alerts == old(alerts)
    {
      if write.WriteFailed? {
        alerts := alerts + ["Database error: " + write.message];
        return;
      }
      if Truthy(editId) {
        temples := UpdateByCode(temples, editId.value, p);
      } else {
        temples := temples + [Inserted(p)];
      }
      open := false;
      form := BlankTempleForm;
    }

    /** `handleDelete`: `confirmed` is the answer to the confirmation dialog. */
    method HandleDelete(id: string, confirmed: bool, write: WriteResult)
      modifies this`temples, this`alerts
      ensures !confirmed ==> temples == old(temples) && alerts == old(alerts)
      ensures confirmed && write.WriteFailed? ==>
        temples == old(temples) && alerts == old(alerts) + [write.message]
      ensures confirmed && write.WriteOk? ==>
        temples == DeleteByCode(old(temples), id) && alerts == old(alerts)
    {
      if !confirmed {
        return;
      }
      if write.WriteFailed? {
        alerts := alerts + [write.message];
      } else {
        temples := DeleteByCode(temples, id);
      }
    }

    /** `openCreate`: a blank form in add mode. */
    method OpenCreate()
      modifies this`editId, this`form, this`open
      ensures editId == None && form == BlankTempleForm && open
    {
      editId := None;
      form := BlankTempleForm;
      open := true;
    }

    /** A text field's `onChange`. */
    method ChangeText(field: TempleField, v: string)
      modifies this`form
      ensures form == WithText(old(form), field, v)
    {
      form := WithText(form, field, v);
    }

    /** `openEdit`: the row's values in edit mode for its id. */
    method OpenEdit(t: TempleRow)
      modifies this`editId, this`form, this`open
      ensures editId == Some(t.uniqueId) && form == FormOf(t) && open
    {
      editId := Some(t.uniqueId);
      form := FormOf(t);
      open := true;
    }
  }
}
