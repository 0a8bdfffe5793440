/**
  The user's own letter archive: its search (titles only), its title, its
  badge (status shown verbatim), the type column and the download cell.
*/
module DaftarSuratPage {
  import opened Wrappers
  import opened JsStrings
  import opened JsValues
  import opened Seqs
  import opened SuratList
  import AdminPage

  /** `StatusBadge` of this page: the tone's look, the status as stored. */
  function UserBadge(status: Value): (b: Badge)
    ensures b.style == ToneStyle(ToneOf(status)) && b.icon == ToneIcon(ToneOf(status))
    ensures b.text == status
  {
    var t := ToneOf(status);
    Badge(ToneStyle(t), ToneIcon(t), status)
  }

  /** The two pages' badges look the same; their text differs only for a rejected letter. */
  lemma BadgesAgreeButRejected(status: Value)
    ensures UserBadge(status).style == AdminPage.AdminBadge(status).style
    ensures UserBadge(status).icon == AdminPage.AdminBadge(status).icon
    ensures UserBadge(status).text == AdminPage.AdminBadge(status).text <==> status != Str("Rejected")
  {
  }

  predicate UserMatches(item: Record, term: string)
  {
    FieldContains(item, "judul", term)
  }

  /** `submissions.filter(item => item.judul?...)`: the rows whose title contains the term. */
  function UserFilter(items: seq<Record>, term: string): (r: seq<Record>)
    ensures IsSubsequence(r, items)
    ensures forall x :: x in r <==> x in items && UserMatches(x, term)
    ensures |r| == Count(items, (x: Record) => UserMatches(x, term))
  {
    Filter(items, (x: Record) => UserMatches(x, term))
  }

  /**
    The filter as the page runs it: the rows whose title contains the term,
    or the throw of the first row whose title is neither text, null nor
    missing.
  */
  function UserSearch(items: seq<Record>, term: string): (r: Result<seq<Record>, string>)
    ensures r.Ok? <==> forall i :: 0 <= i < |items| ==> Searchable(items[i], "judul")
    ensures r.Ok? ==> r.value == UserFilter(items, term)
  {
    var f := (x: Record) => SearchProbe(x, "judul", term);
    var r := TryFilter(items, f);
    if r.Ok? then
      FilterSame(items, Accepts(f), (x: Record) => UserMatches(x, term));
      r
    else r
  }

  /** Wherever the dashboard's search runs through, this page's search does too. */
  lemma UserSearchRunsWhereAdminRuns(items: seq<Record>, term: string)
    requires AdminPage.AdminSearch(items, term).Ok?
    ensures UserSearch(items, term) == Ok(Filter(AdminPage.AdminSearch(items, term).value, (x: Record) => UserMatches(x, term)))
  {
    UserFilterNarrowsAdmin(items, term);
  }

  /**
    A title that is neither text, null nor missing breaks both searches,
    falsy values such as 0 or `false` included; a numeric leader name breaks
    only the dashboard's, and only when the title does not match.
  */
  lemma NonTextColumnThrows(v: Value, term: string)
    requires !(v.Str? || v.Null? || v.Undefined?)
    ensures AdminPage.AdminSearch([map["judul" := v]], term).Err?
    ensures UserSearch([map["judul" := v]], term).Err?
    ensures AdminPage.AdminSearch([map["judul" := Str(""), "ketua_nama" := v]], "x").Err?
    ensures UserSearch([map["judul" := Str(""), "ketua_nama" := v]], "x") == Ok([])
  {
    var row: Record := map["judul" := Str(""), "ketua_nama" := v];
    assert !FieldContains(row, "judul", "x") by {
      assert ToLower("") == "";
      assert ToLower("x") == "x";
      assert !OccursAt("", "x", 0);
      IncludesIff("", "x");
    }
    assert !AdminPage.AdminSearchable(row, "x");
    assert Searchable(row, "judul");
  }

  /**
    This page's search is the dashboard's narrowed to titles: filtering the
    dashboard's result by title gives this page's result.
  */
  lemma UserFilterNarrowsAdmin(items: seq<Record>, term: string)
    ensures UserFilter(items, term) == Filter(AdminPage.AdminFilter(items, term), (x: Record) => UserMatches(x, term))
  {
    FilterNarrower(items, (x: Record) => AdminPage.AdminMatches(x, term), (x: Record) => UserMatches(x, term));
  }

  /** The leader's name is not searched here: a row known only by its leader is found by the dashboard alone. */
  lemma LeaderNameNotSearched()
    ensures var row: Record := map["ketua_nama" := Str("budi")];
      AdminPage.AdminMatches(row, "budi") && !UserMatches(row, "budi")
  {
    var row: Record := map["ketua_nama" := Str("budi")];
    assert ToLower("budi") == "budi";
    assert OccursAt("budi", "budi", 0);
    FirstOccurrence("budi", "budi", 0);
  }

  /** `getPageTitle` */
  function UserTitle(filterType: Option<string>): (t: string)
    ensures !HasFilter(filterType) ==> t == "Semua Surat Saya"
    ensures HasFilter(filterType) ==> t == "Arsip " + Capitalise(TypeLabelText(filterType.value))
  {
    PageTitle(filterType, "Semua Surat Saya", "Arsip ")
  }

  /**
    For a template key `<stem>.docx` whose stem has no '.', the archive is
    titled "Arsip " and the stem with '_' read as ' ' and each word
    capitalised (so `surat_izin_penelitian.docx` gives "Arsip Surat Izin
    Penelitian").
  */
  lemma UserTitleOfKey(stem: string)
    requires '.' !in stem
    ensures UserTitle(Some(stem + ".docx")) == "Arsip " + Capitalise(ReplaceAllChar(stem, '_', ' '))
  {
    RemoveSuffix(stem, ".docx");
  }

  /** The type column (header and cells) appears only on the unfiltered archive. */
  predicate TypeColumnShown(filterType: Option<string>)
  {
    !HasFilter(filterType)
  }

  /** The type column is shown exactly on the unfiltered archive, the page titled "Semua Surat Saya". */
  lemma TypeColumnOnUnfilteredArchive(filterType: Option<string>)
    ensures TypeColumnShown(filterType) <==> UserTitle(filterType) == "Semua Surat Saya"
  {
    if HasFilter(filterType) {
      assert UserTitle(filterType)[0] == 'A';
    }
  }

  /** What the last cell of a row shows. */
  datatype DownloadCell = DownloadLink(href: Value) | Menunggu

  /** `item.status === 'Selesai' && item.file_hasil ? <a href=...> : 'Menunggu'` */
  function DownloadCellOf(item: Record): (c: DownloadCell)
    ensures c.DownloadLink? <==> Get(item, "status") == Str("Selesai") && Truthy(Get(item, "file_hasil"))
    ensures c.DownloadLink? ==> c.href == item["file_hasil"]
  {
    if Get(item, "status") == Str("Selesai") && Truthy(Get(item, "file_hasil")) then DownloadLink(item["file_hasil"])
    else Menunggu
  }

  /**
    After the administrator completes a letter with a non-empty address the
    user gets its link; after a rejection the user waits, even if a result
    file is still recorded.
  */
  lemma DownloadAfterAdminAction(row: Record, url: string)
    ensures DownloadCellOf(row + AdminPage.CompletedPatch(url)) == (if url != "" then DownloadLink(Str(url)) else Menunggu)
    ensures DownloadCellOf(row + AdminPage.RejectedPatch) == Menunggu
    ensures DownloadCellOf(row + AdminPage.CompletedPatch(url) + AdminPage.RejectedPatch) == Menunggu
  {
  }
}
