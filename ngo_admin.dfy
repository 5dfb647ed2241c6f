/** The admin "NGO manager" page: the storage-path sanitiser, the logo upload
    path, and the add / edit / delete handlers over the `ngos` table. */
module NgoAdmin {
  import opened Common

  const LogoBucket := "ngo-logos"

  /** The characters `/[^a-z0-9_\-\.]/gi` leaves alone. */
  predicate IsPathSafe(c: char)
  {
    IsAsciiLetter(c) || IsDigit(c) || c == '_' || c == '-' || c == '.'
  }

  /** `sanitizePathSegment`: every character outside [A-Za-z0-9_.-] becomes
      '_'; `SanitizeEachChar` states it position by position. */
  function SanitizePathSegment(s: string): (r: string)
    ensures |r| == |s|
  {
    if s == [] then [] else [if IsPathSafe(s[0]) then s[0] else '_'] + SanitizePathSegment(s[1..])
  }

  lemma {:induction false} SanitizeEachChar(s: string)
    ensures forall i :: 0 <= i < |s| ==>
      SanitizePathSegment(s)[i] == if IsPathSafe(s[i]) then s[i] else '_'
  {
    if s != [] {
      SanitizeEachChar(s[1..]);
      var r := SanitizePathSegment(s);
      forall i | 0 < i < |s|
        ensures r[i] == if IsPathSafe(s[i]) then s[i] else '_'
      {
        assert r[i] == SanitizePathSegment(s[1..])[i - 1];
      }
    }
  }

  lemma SanitizeIsSafe(s: string)
    ensures forall i :: 0 <= i < |s| ==> IsPathSafe(SanitizePathSegment(s)[i])
  {
    SanitizeEachChar(s);
  }

  /** A segment already made of safe characters is left as it is. */
  lemma SanitizeKeepsSafe(s: string)
    requires forall i :: 0 <= i < |s| ==> IsPathSafe(s[i])
    ensures SanitizePathSegment(s) == s
  {
    SanitizeEachChar(s);
  }

  lemma SanitizeIdempotent(s: string)
    ensures SanitizePathSegment(SanitizePathSegment(s)) == SanitizePathSegment(s)
  {
    SanitizeIsSafe(s);
    SanitizeKeepsSafe(SanitizePathSegment(s));
  }

  /** `String(ngoName || "ngo")`: the folder name before sanitising. */
  function FolderName(ngoName: string): string
  {
    if ngoName == "" then "ngo" else ngoName
  }

  /** The object path of an uploaded logo: the sanitised folder, '/', the
      upload time stamp, '-', the sanitised file name. */
  function LogoPath(ngoName: string, stamp: string, fileName: string): string
  {
    SanitizePathSegment(FolderName(ngoName)) + "/" + stamp + "-" + SanitizePathSegment(fileName)
  }

  /** The path starts with the sanitised folder and ends with the sanitised
      file name; when the stamp holds no '/', the folder separator is the
      path's only '/'. */
  lemma LogoPathShape(ngoName: string, stamp: string, fileName: string)
    ensures var r := LogoPath(ngoName, stamp, fileName);
      && |r| == |FolderName(ngoName)| + 1 + |stamp| + 1 + |fileName|
      && r[..|FolderName(ngoName)|] == SanitizePathSegment(FolderName(ngoName))
      && r[|FolderName(ngoName)|] == '/'
      && r[|FolderName(ngoName)| + 1..|FolderName(ngoName)| + 1 + |stamp|] == stamp
      && r[|FolderName(ngoName)| + 1 + |stamp|] == '-'
      && r[|r| - |fileName|..] == SanitizePathSegment(fileName)
      && ('/' !in stamp ==> forall i :: 0 <= i < |r| ==> (r[i] == '/' <==> i == |FolderName(ngoName)|))
  {
    var folder := SanitizePathSegment(FolderName(ngoName));
    var file := SanitizePathSegment(fileName);
    var a := folder + "/";
    var b := a + stamp;
    var c := b + "-";
    assert LogoPath(ngoName, stamp, fileName) == c + file;
    assert (c + file)[..|c|] == c && (c + file)[|c|..] == file;
    assert c[..|b|] == b && b[..|a|] == a && b[|a|..] == stamp && a[..|folder|] == folder;
    if '/' !in stamp {
      SanitizeIsSafe(FolderName(ngoName));
      SanitizeIsSafe(fileName);
      SlashOnlyAfterFolder(folder, stamp, file);
    }
  }

  /** Between segments without a '/', the separator is the only '/'. */
  lemma SlashOnlyAfterFolder(folder: string, stamp: string, file: string)
    requires forall i :: 0 <= i < |folder| ==> folder[i] != '/'
    requires forall i :: 0 <= i < |file| ==> file[i] != '/'
    requires '/' !in stamp
    ensures var r := folder + "/" + stamp + "-" + file;
      forall i :: 0 <= i < |r| ==> (r[i] == '/' <==> i == |folder|)
  {
    var r := folder + "/" + stamp + "-" + file;
    forall i | 0 <= i < |r| ensures r[i] == '/' <==> i == |folder| {
      if i < |folder| {
        assert r[i] == folder[i];
      } else if |folder| < i <= |folder| + |stamp| {
        assert r[i] == stamp[i - |folder| - 1];
      } else if i > |folder| + |stamp| + 1 {
        assert r[i] == file[i - |folder| - |stamp| - 2];
      }
    }
  }

  /** The add / edit form. */
  datatype NgoForm = NgoForm(name: string, contact: string, assignTemple: string)

  const BlankNgoForm := NgoForm("", "", "")

  /** A row of `ngos`; null columns are None. */
  datatype NgoRow = NgoRow(id: int, name: Option<string>, contact: Option<string>,
                           logo: Option<string>, assignedTemple: Option<string>, createdAt: string)

  /** The insert / update payload of `handleAddNGO`. */
  datatype NgoPayload = NgoPayload(name: string, contact: Option<string>, logo: Option<string>,
                                   assignedTemple: Option<string>, createdAt: string)

  /** The name is trimmed, and an empty contact, logo or temple becomes null. */
  function PayloadOf(f: NgoForm, logoUrl: string, now: string): (p: NgoPayload)
    ensures p.name == Trim(f.name)
    ensures p.contact.None? <==> f.contact == ""
    ensures p.logo.None? <==> logoUrl == ""
    ensures p.assignedTemple.None? <==> f.assignTemple == ""
    ensures p.contact.Some? ==> p.contact.value == f.contact
    ensures p.logo.Some? ==> p.logo.value == logoUrl
    ensures p.assignedTemple.Some? ==> p.assignedTemple.value == f.assignTemple
    ensures p.createdAt == now
  {
    NgoPayload(Trim(f.name), NullIfEmpty(f.contact), NullIfEmpty(logoUrl),
               NullIfEmpty(f.assignTemple), now)
  }

  /** `update(payload).eq("id", id)`: every row with that id takes the
      payload's columns; the other rows are unchanged. */
  function UpdateById(rows: seq<NgoRow>, id: int, p: NgoPayload): (r: seq<NgoRow>)
    ensures |r| == |rows|
    ensures forall i :: 0 <= i < |rows| ==>
      r[i] == if rows[i].id == id
              then NgoRow(id, Some(p.name), p.contact, p.logo, p.assignedTemple, p.createdAt)
              else rows[i]
  {
    if rows == [] then []
    else [if rows[0].id == id
          then NgoRow(id, Some(p.name), p.contact, p.logo, p.assignedTemple, p.createdAt)
          else rows[0]] + UpdateById(rows[1..], id, p)
  }

  /** `delete().eq("id", id)`: the rows with that id go and the others
      stay. */
  function DeleteById(rows: seq<NgoRow>, id: int): (r: seq<NgoRow>)
    ensures |r| <= |rows|
    ensures forall i :: 0 <= i < |r| ==> r[i].id != id && r[i] in rows
    ensures forall x :: x in rows && x.id != id ==> x in r
    ensures (forall i :: 0 <= i < |rows| ==> rows[i].id != id) ==> r == rows
  {
    if rows == [] then []
    else (if rows[0].id == id then [] else [rows[0]]) + DeleteById(rows[1..], id)
  }

  /** Editing a row and saving it without choosing a new file clears its logo,
      because the logo column is rewritten with the empty upload result. */
  lemma EditWithoutFileClearsLogo(rows: seq<NgoRow>, i: int, now: string)
    requires 0 <= i < |rows|
    ensures var n := rows[i];
      var f := NgoForm(OrEmpty(n.name), OrEmpty(n.contact), OrEmpty(n.assignedTemple));
      UpdateById(rows, n.id, PayloadOf(f, "", now))[i].logo == None
  {
  }

  /** `if (editing)`: an id of 0 is falsy, as is null. */
  predicate Truthy(editing: Option<int>)
  {
    editing.Some? && editing.value != 0
  }

  /** The `ngos` table after a successful save of `p`: the row being edited
      is updated, or, when nothing is being edited, a row with the table's
      new id is appended. */
  function Saved(rows: seq<NgoRow>, editing: Option<int>, p: NgoPayload, newId: int): seq<NgoRow>
  {
    if Truthy(editing) then UpdateById(rows, editing.value, p)
    else rows + [NgoRow(newId, Some(p.name), p.contact, p.logo, p.assignedTemple, p.createdAt)]
  }

  /** The URL `uploadLogo` resolves to: "" without a file or when the upload
      fails. */
  function LogoUrl(file: Option<FileInfo>, upload: UploadResult): string
  {
    if file.Some? && upload.Uploaded? then upload.publicUrl else ""
  }

  class NgoManager {
    /** The `ngos` table. */
    var ngos: seq<NgoRow>
    var form: NgoForm
    var editing: Option<int>
    var notif: Notice
    var loading: bool

    constructor (ngos: seq<NgoRow>)
      ensures this.ngos == ngos && form == BlankNgoForm && editing == None
      ensures notif == Notice(false, Info, "") && loading
    {
      this.ngos := ngos;
      form := BlankNgoForm;
      editing := None;
      notif := Notice(false, Info, "");
      loading := true;
    }

    /** `uploadLogo`: no file gives ""; otherwise the logo is stored under
        `LogoPath` and its public URL returned, or "" with an error
        notification when the upload fails. `path` is the path handed to the
        storage service. */
    method UploadLogo(file: Option<FileInfo>, ngoName: string, stamp: string, upload: UploadResult)
      returns (url: string, path: Option<string>)
      modifies this`notif
      ensures url == LogoUrl(file, upload)
      ensures file.None? ==> path == None && notif == old(notif)
      ensures file.Some? ==> path == Some(LogoPath(ngoName, stamp, file.value.name))
      ensures file.Some? && upload.UploadFailed? ==> notif == Shown(Error, "Upload failed: " + upload.message)
      ensures file.Some? && upload.Uploaded? ==> notif == old(notif)
    {
      if file.None? {
        return "", None;
      }
      path := Some(LogoPath(ngoName, stamp, file.value.name));
      match upload
      case UploadFailed(m) =>
        notif := Shown(Error, "Upload failed: " + m);
        url := "";
      case Uploaded(u) =>
        url := u;
    }

    /** `handleAddNGO`: `upload` is the storage result, `write` that of the
        update or insert, `newId` the id the table gives an inserted row and
        `now` the `created_at` time stamp. */
    method HandleAddNgo(file: Option<FileInfo>, stamp: string, upload: UploadResult,
                        write: WriteResult, newId: int, now: string)
      modifies this
      ensures Trim(old(form.name)) == "" ==>
        && notif == Shown(Warning, "Please enter an NGO name.")
        && ngos == old(ngos) && form == old(form) && editing == old(editing) && loading == old(loading)
      ensures Trim(old(form.name)) != "" ==> !loading
      ensures Trim(old(form.name)) != "" && write.WriteFailed? ==>
        && notif == Shown(Error, "Save failed: " + write.message)
        && ngos == old(ngos) && form == old(form) && editing == old(editing)
      ensures Trim(old(form.name)) != "" && write.WriteOk? ==>
        && ngos == Saved(old(ngos), old(editing), PayloadOf(old(form), LogoUrl(file, upload), now), newId)
        && notif == Shown(Success, if Truthy(old(editing)) then "NGO updated!" else "NGO added!")
        && form == BlankNgoForm && editing == None
    {
      var f := form;
      if Trim(f.name) == "" {
        notif := Shown(Warning, "Please enter an NGO name.");
        return;
      }
      loading := true;
      var logoUrl, _ := UploadLogo(file, f.name, stamp, upload);
      Save(PayloadOf(f, logoUrl, now), write, newId);
      loading := false;
    }

    /** The write at the end of `handleAddNGO`: an update of the row being
        edited, or an insert, then the form is reset; on failure only the
        notification changes. */
    method Save(p: NgoPayload, write: WriteResult, newId: int)
      modifies this`ngos, this`notif, this`form, this`editing
      ensures write.WriteFailed? ==>
        && notif == Shown(Error, "Save failed: " + write.message)
        && ngos == old(ngos) && form == old(form) && editing == old(editing)
      ensures write.WriteOk? ==>
        && ngos == Saved(old(ngos), old(editing), p, newId)
        && notif == Shown(Success, if Truthy(old(editing)) then "NGO updated!" else "NGO added!")
        && form == BlankNgoForm && editing == None
    {
      if write.WriteFailed? {
        notif := Shown(Error, "Save failed: " + write.message);
        return;
      }
      if Truthy(editing) {
        ngos := UpdateById(ngos, editing.value, p);
        notif := Shown(Success, "NGO updated!");
      } else {
        ngos := ngos + [NgoRow(newId, Some(p.name), p.contact, p.logo, p.assignedTemple, p.createdAt)];
        notif := Shown(Success, "NGO added!");
      }
      form := BlankNgoForm;
      editing := None;
    }

    /** `handleDelete`: `confirmed` is the answer to the confirmation dialog. */
    method HandleDelete(ngo: NgoRow, confirmed: bool, write: WriteResult)
      modifies this
      ensures form == old(form) && editing == old(editing)
      ensures !confirmed ==> ngos == old(ngos) && notif == old(notif) && loading == old(loading)
      ensures confirmed ==> !loading
      ensures confirmed && write.WriteFailed? ==>
        ngos == old(ngos) && notif == Shown(Error, "Delete failed: " + write.message)
      ensures confirmed && write.WriteOk? ==>
        ngos == DeleteById(old(ngos), ngo.id) && notif == Shown(Success, "Deleted")
    {
      if !confirmed {
        return;
      }
      loading := true;
      if write.WriteFailed? {
        notif := Shown(Error, "Delete failed: " + write.message);
      } else {
        ngos := DeleteById(ngos, ngo.id);
        notif := Shown(Success, "Deleted");
      }
      loading := false;
    }

    /** `setEditValues`: edit mode for the row, with its missing fields read
        as "". */
    method SetEditValues(n: NgoRow)
      modifies this`editing, this`form
      ensures editing == Some(n.id)
      ensures form == NgoForm(OrEmpty(n.name), OrEmpty(n.contact), OrEmpty(n.assignedTemple))
    {
      editing := Some(n.id);
      form := NgoForm(OrEmpty(n.name), OrEmpty(n.contact), OrEmpty(n.assignedTemple));
    }
  }
}
