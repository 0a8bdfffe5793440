/**
  The administrator's dashboard: the search over every letter, the page
  title, the status badge, and the two record transitions an administrator
  triggers (upload of the signed result, rejection).
*/
module AdminPage {
  import opened Wrappers
  import opened JsStrings
  import opened JsValues
  import opened Seqs
  import opened SuratList

  /** `StatusBadge` of this page: the tone's look, and "Ditolak" for a rejected letter. */
  function AdminBadge(status: Value): (b: Badge)
    ensures b.style == ToneStyle(ToneOf(status)) && b.icon == ToneIcon(ToneOf(status))
    ensures status == Str("Rejected") ==> b.text == Str("Ditolak")
    ensures status != Str("Rejected") ==> b.text == status
  {
    var t := ToneOf(status);
    Badge(ToneStyle(t), ToneIcon(t), if status == Str("Rejected") then Str("Ditolak") else status)
  }

  /** A row matches when its title or its leader's name contains the term. */
  predicate AdminMatches(item: Record, term: string)
  {
    FieldContains(item, "judul", term) || FieldContains(item, "ketua_nama", term)
  }

  /** `submissions.filter(...)`: the matching rows, in their order. */
  function AdminFilter(items: seq<Record>, term: string): (r: seq<Record>)
    ensures IsSubsequence(r, items)
    ensures forall x :: x in r <==> x in items && AdminMatches(x, term)
    ensures |r| == Count(items, (x: Record) => AdminMatches(x, term))
  {
    Filter(items, (x: Record) => AdminMatches(x, term))
  }

  /** The dashboard's callback on one row: the title first, the leader only when the title does not match. */
  function AdminProbe(item: Record, term: string): Result<bool, string>
  {
    var title := SearchProbe(item, "judul", term);
    if title.Err? || title.value then title else SearchProbe(item, "ketua_nama", term)
  }

  /** The columns the dashboard's callback reads on a row are all strings, null or missing. */
  predicate AdminSearchable(item: Record, term: string)
  {
    Searchable(item, "judul") && (FieldContains(item, "judul", term) || Searchable(item, "ketua_nama"))
  }

  /**
    `submissions.filter(...)` as the page runs it: the matching rows, or the
    throw of the first row where a column it reads is neither text, null
    nor missing.
  */
  function AdminSearch(items: seq<Record>, term: string): (r: Result<seq<Record>, string>)
    ensures r.Ok? <==> forall i :: 0 <= i < |items| ==> AdminSearchable(items[i], term)
    ensures r.Ok? ==> r.value == AdminFilter(items, term)
  {
    var f := (x: Record) => AdminProbe(x, term);
    var r := TryFilter(items, f);
    if r.Ok? then
      FilterSame(items, Accepts(f), (x: Record) => AdminMatches(x, term));
      r
    else r
  }

  /**
    With an empty search box a row is listed exactly when it has a title or
    a leader's name: a row with neither is hidden even then.
  */
  lemma AdminFilterEmptyTerm(items: seq<Record>)
    ensures forall x :: x in AdminFilter(items, "") <==>
      x in items && (TextField(x, "judul").Some? || TextField(x, "ketua_nama").Some?)
  {
    forall x | x in items
      ensures AdminMatches(x, "") <==> TextField(x, "judul").Some? || TextField(x, "ketua_nama").Some?
    {
      FieldContainsEmptyTerm(x, "judul");
      FieldContainsEmptyTerm(x, "ketua_nama");
    }
  }

  /** `getPageTitle` */
  function AdminTitle(filterType: Option<string>): (t: string)
    ensures !HasFilter(filterType) ==> t == "Dashboard Semua Surat"
    ensures HasFilter(filterType) ==> t == "Data " + Capitalise(TypeLabelText(filterType.value))
  {
    PageTitle(filterType, "Dashboard Semua Surat", "Data ")
  }

  // ---------------------------------------------------------------------
  // Record transitions
  // ---------------------------------------------------------------------

  /** `{ file_hasil: publicUrl, status: 'Selesai' }` */
  function CompletedPatch(url: string): Record
  {
    map["file_hasil" := Str(url), "status" := Str("Selesai")]
  }

  const RejectedPatch: Record := map["status" := Str("Rejected")]

  /** `.update(patch).eq('id', id)`: every row with that id takes the patch, nothing else changes. */
  function UpdateWhere(rows: seq<Record>, id: Value, patch: Record): (r: seq<Record>)
    ensures |r| == |rows|
    ensures forall i :: 0 <= i < |rows| && Get(rows[i], "id") != id ==> r[i] == rows[i]
    ensures forall i :: 0 <= i < |rows| && Get(rows[i], "id") == id ==>
      r[i].Keys == rows[i].Keys + patch.Keys &&
      (forall k :: k in patch ==> r[i][k] == patch[k]) &&
      (forall k :: k in rows[i] && k !in patch ==> r[i][k] == rows[i][k])
  {
    seq(|rows|, i requires 0 <= i < |rows| => if Get(rows[i], "id") == id then rows[i] + patch else rows[i])
  }

  /**
    Completion sets the result file and the status together and whatever the
    status was before; every other column is kept.
  */
  lemma CompletionIsUnguarded(row: Record, url: string, before: Value)
    ensures var r := row + CompletedPatch(url);
      && r["status"] == Str("Selesai") && r["file_hasil"] == Str(url)
      && (forall k :: k in row && k != "status" && k != "file_hasil" ==> r[k] == row[k])
    ensures row["status" := before] + CompletedPatch(url) == row + CompletedPatch(url)
  {
  }

  /**
    Rejection changes only the status, whatever it was: a letter already
    completed keeps its result file.
  */
  lemma RejectionIsUnguarded(row: Record, url: string)
    ensures var r := row + RejectedPatch;
      && r["status"] == Str("Rejected")
      && r.Keys == row.Keys + {"status"}
      && (forall k :: k in row && k != "status" ==> r[k] == row[k])
    ensures (row + CompletedPatch(url) + RejectedPatch)["file_hasil"] == Str(url)
  {
  }

  /** The file chosen in the upload input. */
  datatype SelectedFile = SelectedFile(name: string)

  /** `${Date.now()}-${file.name}` */
  function StoragePath(now: nat, name: string): string
  {
    DecimalString(now) + "-" + name
  }

  const RejectConfirmed := "Surat berhasil ditolak/dihapus."

  /**
    The dashboard's state: the rows storage holds (which the page reloads
    after each change), the row whose upload is in progress, and the alerts
    shown so far.
  */
  class AdminDashboard {
    var table: seq<Record>
    var uploading: Option<Value>
    var alerts: seq<string>

    constructor(rows: seq<Record>)
      ensures table == rows && uploading == None && alerts == []
    {
      table := rows;
      uploading := None;
      alerts := [];
    }

    /**
      `handleUploadHasil`. `now` is the clock, `uploadError` what storage
      answers to the upload, `publicUrl` the address it gives the file,
      `updateError` what it answers to the row update. Returns the storage
      path used, if any.
    */
    method HandleUploadHasil(file: Option<SelectedFile>, suratId: Value, now: nat,
                             uploadError: Option<string>, publicUrl: string, updateError: Option<string>)
      returns (storedAs: Option<string>)
      modifies this
      ensures file.None? ==>
        storedAs == None && table == old(table) && uploading == old(uploading) && alerts == old(alerts)
      ensures file.Some? ==> storedAs == Some(StoragePath(now, file.value.name)) && uploading == None
      ensures file.Some? && uploadError.Some? ==>
        table == old(table) && alerts == old(alerts) + ["Upload gagal: " + uploadError.value]
      ensures file.Some? && uploadError.None? && updateError.Some? ==>
        table == old(table) && alerts == old(alerts) + ["Upload gagal: " + updateError.value]
      ensures file.Some? && uploadError.None? && updateError.None? ==>
        table == UpdateWhere(old(table), suratId, CompletedPatch(publicUrl)) && alerts == old(alerts)
    {
      storedAs := None;
      if file.None? {
        return;
      }
      uploading := Some(suratId);
      var fileName := StoragePath(now, file.value.name);
      storedAs := Some(fileName);
      if uploadError.Some? {
        alerts := alerts + ["Upload gagal: " + uploadError.value];
      } else if updateError.Some? {
        alerts := alerts + ["Upload gagal: " + updateError.value];
      } else {
        table := UpdateWhere(table, suratId, CompletedPatch(publicUrl));
      }
      uploading := None;
    }

    /** `handleReject`: only after the administrator confirms. */
    method HandleReject(id: Value, confirmed: bool, updateError: Option<string>)
      modifies this
      ensures uploading == old(uploading)
      ensures !confirmed ==> table == old(table) && alerts == old(alerts)
      ensures confirmed && updateError.Some? ==>
        table == old(table) && alerts == old(alerts) + ["Gagal menghapus surat: " + updateError.value]
      ensures confirmed && updateError.None? ==>
        table == UpdateWhere(old(table), id, RejectedPatch) && alerts == old(alerts) + [RejectConfirmed]
    {
      if !confirmed {
        return;
      }
      if updateError.Some? {
        alerts := alerts + ["Gagal menghapus surat: " + updateError.value];
      } else {
        table := UpdateWhere(table, id, RejectedPatch);
        alerts := alerts + [RejectConfirmed];
      }
    }
  }
}
