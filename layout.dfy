/**
  The side navigation: the two link tables, which of them a role sees, and
  the rule that highlights the link for the current location.
*/
module Layout {
  import opened Wrappers
  import opened JsStrings
  import FormPage

  /** One navigation entry; `linkType` is `'form'`, `null` or a template key. */
  datatype NavLink = NavLink(name: string, path: string, icon: string, linkType: Option<string>)

  const FormType := "form"

  // The filtered links of both tables, in the order they are listed; each
  // path literal is written as its query prefix followed by the template key.

  /** `/daftar-surat?type=`, the start of every filtered link of this table. */
  const UserQuery := "/daftar-surat?type="
  const UserIzinPenelitianLink := NavLink("Surat Izin Penelitian", UserQuery + "surat_izin_penelitian.docx", "document-text-outline", Some("surat_izin_penelitian.docx"))
  const UserIzinPengabdianLink := NavLink("Surat Izin Pengabdian", UserQuery + "surat_izin_pengabdian.docx", "document-text-outline", Some("surat_izin_pengabdian.docx"))
  const UserTugasPenelitianLink := NavLink("Surat Tugas Penelitian", UserQuery + "surat_tugas_penelitian.docx", "briefcase-outline", Some("surat_tugas_penelitian.docx"))
  const UserTugasPengabdianLink := NavLink("Surat Tugas Pengabdian", UserQuery + "surat_tugas_pengabdian.docx", "briefcase-outline", Some("surat_tugas_pengabdian.docx"))
  const UserSptjmLink := NavLink("SPTJM", UserQuery + "sptjm.docx", "shield-checkmark-outline", Some("sptjm.docx"))

  /** `/admin-dashboard?type=`, the start of every filtered link of this table. */
  const AdminQuery := "/admin-dashboard?type="
  const AdminIzinPenelitianLink := NavLink("Surat Izin Penelitian", AdminQuery + "surat_izin_penelitian.docx", "document-text-outline", Some("surat_izin_penelitian.docx"))
  const AdminIzinPengabdianLink := NavLink("Surat Izin Pengabdian", AdminQuery + "surat_izin_pengabdian.docx", "document-text-outline", Some("surat_izin_pengabdian.docx"))
  const AdminTugasPenelitianLink := NavLink("Surat Tugas Penelitian", AdminQuery + "surat_tugas_penelitian.docx", "briefcase-outline", Some("surat_tugas_penelitian.docx"))
  const AdminTugasPengabdianLink := NavLink("Surat Tugas Pengabdian", AdminQuery + "surat_tugas_pengabdian.docx", "briefcase-outline", Some("surat_tugas_pengabdian.docx"))
  const AdminSptjmLink := NavLink("SPTJM", AdminQuery + "sptjm.docx", "shield-checkmark-outline", Some("sptjm.docx"))

  const UserLinks: seq<NavLink> := [
    NavLink("Buat Pengajuan Baru", "/form", "add-circle-outline", Some("form")),
    NavLink("Semua Surat Saya", "/daftar-surat", "folder-open-outline", None),
    UserIzinPenelitianLink, UserIzinPengabdianLink, UserTugasPenelitianLink, UserTugasPengabdianLink, UserSptjmLink
  ]

  const AdminLinks: seq<NavLink> := [
    NavLink("Dashboard (Semua)", "/admin-dashboard", "grid-outline", None),
    AdminIzinPenelitianLink, AdminIzinPengabdianLink, AdminTugasPenelitianLink, AdminTugasPengabdianLink, AdminSptjmLink
  ]

  predicate IsAdmin(role: Option<string>) { role == Some("admin") }

  /** `role === 'admin' ? adminLinks : userLinks` */
  function NavLinks(role: Option<string>): seq<NavLink>
  {
    if IsAdmin(role) then AdminLinks else UserLinks
  }

  /** The listing page a non-form link points into. */
  function PathBase(role: Option<string>): string
  {
    if IsAdmin(role) then "/admin-dashboard" else "/daftar-surat"
  }

  /** `!currentType`: no `?type=` parameter, or an empty one. */
  predicate NoCurrentType(currentType: Option<string>)
  {
    currentType.None? || currentType.value == ""
  }

  /** Whether `link` is highlighted at `pathname` with the query's `type` parameter `currentType`. */
  predicate IsActive(link: NavLink, role: Option<string>, pathname: string, currentType: Option<string>)
  {
    if link.linkType == Some(FormType) then pathname == "/form"
    else
      pathname == PathBase(role) &&
      (if link.linkType.None? then NoCurrentType(currentType) else currentType == link.linkType)
  }

  /** The admin table is shown exactly to the admin role. */
  lemma NavLinksByRole(role: Option<string>)
    ensures NavLinks(role) == AdminLinks <==> IsAdmin(role)
    ensures NavLinks(role) == UserLinks <==> !IsAdmin(role)
  {
    assert |AdminLinks| != |UserLinks|;
  }

  /** The untyped link points at the list page itself. */
  predicate UntypedAtBase(links: seq<NavLink>, base: string)
  {
    forall i :: 0 <= i < |links| && links[i].linkType.None? ==> links[i].path == base
  }

  /** Every typed link filters the list page by a template key. */
  predicate TypedAtBase(links: seq<NavLink>, base: string)
  {
    forall i :: 0 <= i < |links| && links[i].linkType.Some? && links[i].linkType.value != FormType ==>
      links[i].path == base + "?type=" + links[i].linkType.value &&
      links[i].linkType.value in FormPage.TemplateKeys()
  }

  predicate DistinctTypes(links: seq<NavLink>)
  {
    forall i, j :: 0 <= i < j < |links| ==> links[i].linkType != links[j].linkType
  }

  predicate FormAtForm(links: seq<NavLink>)
  {
    forall i :: 0 <= i < |links| && links[i].linkType == Some(FormType) ==> links[i].path == "/form"
  }

  predicate WellFormedTable(links: seq<NavLink>, base: string)
  {
    UntypedAtBase(links, base) && TypedAtBase(links, base) && DistinctTypes(links) && FormAtForm(links)
  }

  /** The link types of a table, in order. */
  function Types(links: seq<NavLink>): (ts: seq<Option<string>>)
    ensures |ts| == |links| && forall i :: 0 <= i < |links| ==> ts[i] == links[i].linkType
  {
    seq(|links|, i requires 0 <= i < |links| => links[i].linkType)
  }

  lemma TemplateKeyTypes()
    ensures forall k :: k in FormPage.TemplateKeys() <==>
      k in {FormPage.IzinPenelitian, FormPage.IzinPengabdian, FormPage.TugasPenelitian, FormPage.TugasPengabdian, FormPage.Sptjm}
  {
    FormPage.TemplateKeysDistinct();
  }

  lemma UserTypes()
    ensures Types(UserLinks) == [Some(FormType), None, Some(FormPage.IzinPenelitian), Some(FormPage.IzinPengabdian),
      Some(FormPage.TugasPenelitian), Some(FormPage.TugasPengabdian), Some(FormPage.Sptjm)]
  {
  }

  lemma UserUntyped()
    ensures UntypedAtBase(UserLinks, "/daftar-surat")
  {
  }

  lemma UserQuerySplit() ensures UserQuery == "/daftar-surat" + "?type=" { }

  lemma UserTyped()
    ensures TypedAtBase(UserLinks, "/daftar-surat")
  {
    TemplateKeyTypes();
    UserTypes();
    UserQuerySplit();
  }

  lemma UserDistinct()
    ensures DistinctTypes(UserLinks)
  {
    UserTypes();
  }

  lemma AdminTypes()
    ensures Types(AdminLinks) == [None, Some(FormPage.IzinPenelitian), Some(FormPage.IzinPengabdian),
      Some(FormPage.TugasPenelitian), Some(FormPage.TugasPengabdian), Some(FormPage.Sptjm)]
  {
  }

  lemma AdminUntyped()
    ensures UntypedAtBase(AdminLinks, "/admin-dashboard")
  {
  }

  lemma AdminQuerySplit() ensures AdminQuery == "/admin-dashboard" + "?type=" { }

  lemma AdminTyped()
    ensures TypedAtBase(AdminLinks, "/admin-dashboard")
  {
    TemplateKeyTypes();
    AdminTypes();
    AdminQuerySplit();
  }

  lemma AdminDistinct()
    ensures DistinctTypes(AdminLinks)
  {
    AdminTypes();
  }

  lemma UserLinksWellFormed()
    ensures WellFormedTable(UserLinks, "/daftar-surat")
  {
    UserUntyped();
    UserTyped();
    UserDistinct();
  }

  lemma AdminLinksWellFormed()
    ensures WellFormedTable(AdminLinks, "/admin-dashboard")
    ensures forall i :: 0 <= i < |AdminLinks| ==> AdminLinks[i].linkType != Some(FormType)
  {
    AdminUntyped();
    AdminTyped();
    AdminDistinct();
  }

  /**
    Every typed link's path is the role's list page plus `?type=` and its
    type, which is a template key; the untyped link points at the list page.
  */
  lemma LinkPaths(role: Option<string>)
    ensures WellFormedTable(NavLinks(role), PathBase(role))
  {
    UserLinksWellFormed();
    AdminLinksWellFormed();
  }

  /** In a table whose types are distinct and whose typed entries are non-empty, at most one link is active. */
  lemma AtMostOneActiveIn(links: seq<NavLink>, role: Option<string>, pathname: string, currentType: Option<string>, i: int, j: int)
    requires forall a, b :: 0 <= a < b < |links| ==> links[a].linkType != links[b].linkType
    requires forall a :: 0 <= a < |links| && links[a].linkType.Some? ==> links[a].linkType.value != ""
    requires PathBase(role) != "/form"
    requires 0 <= i < |links| && 0 <= j < |links|
    requires IsActive(links[i], role, pathname, currentType) && IsActive(links[j], role, pathname, currentType)
    ensures i == j
  {
  }

  /** Whatever the role and location, at most one navigation link is highlighted. */
  lemma AtMostOneActive(role: Option<string>, pathname: string, currentType: Option<string>, i: int, j: int)
    requires 0 <= i < |NavLinks(role)| && 0 <= j < |NavLinks(role)|
    requires IsActive(NavLinks(role)[i], role, pathname, currentType)
    requires IsActive(NavLinks(role)[j], role, pathname, currentType)
    ensures i == j
  {
    LinkPaths(role);
    AtMostOneActiveIn(NavLinks(role), role, pathname, currentType, i, j);
  }

  /**
    On the role's list page, without a filter or filtered by a template key,
    some link is highlighted: the untyped one or the one for that key.
  */
  lemma SomeLinkActiveOnListPage(role: Option<string>, currentType: Option<string>)
    requires NoCurrentType(currentType) || currentType.value in FormPage.TemplateKeys()
    ensures exists i :: 0 <= i < |NavLinks(role)| && IsActive(NavLinks(role)[i], role, PathBase(role), currentType)
  {
    FormPage.TemplateKeysDistinct();
    var links := NavLinks(role);
    var first := if IsAdmin(role) then 0 else 1;
    if NoCurrentType(currentType) {
      assert IsActive(links[first], role, PathBase(role), currentType);
    } else {
      var k := currentType.value;
      var i := if k == FormPage.IzinPenelitian then first + 1
        else if k == FormPage.IzinPengabdian then first + 2
        else if k == FormPage.TugasPenelitian then first + 3
        else if k == FormPage.TugasPengabdian then first + 4
        else first + 5;
      assert IsActive(links[i], role, PathBase(role), currentType);
    }
  }

  /** The form link is highlighted exactly on `/form`, and only users have it. */
  lemma FormLinkActive(role: Option<string>, pathname: string, currentType: Option<string>)
    ensures !IsAdmin(role) ==>
      NavLinks(role)[0].linkType == Some(FormType) &&
      (IsActive(NavLinks(role)[0], role, pathname, currentType) <==> pathname == "/form")
    ensures IsAdmin(role) ==> forall i :: 0 <= i < |NavLinks(role)| ==> NavLinks(role)[i].linkType != Some(FormType)
  {
    AdminLinksWellFormed();
  }
}
