# surat_app-v2 letter service, modelled in Dafny

surat_app-v2 is a letter-request system for a research office. It has three parts:

- **Request form.** A lecturer fills in a request for one of five letter templates: two research or community-service permits (*surat izin*), two assignment letters (*surat tugas*) and the SPTJM liability statement.
- **Server.** An Express server stores the request and later fills the chosen Word template from the stored row.
- **List pages.** Administrators and users browse, search and act on the stored letters.

This project models the logic of those pieces and proves properties about it.

- **Server route** (`surat-app-server/routes/surat.js`):
  - **`POST /submit`** (`SuratSubmit`): the body minus `anggota`, owned by the caller, becomes the record row, and the members become rows that point to it.
  - **`GET /generate/:id`** (`SuratGenerate`, `LetterData`, `DownloadName`):
    - the default template key and the template URL;
    - the member rank alias;
    - the placeholder map `dataToRender`. A JavaScript spread followed by overrides is exactly Dafny's right-biased map union `m1 + m2`;
    - the letter date, as the stored date or the injected date in Indonesian (`5 Maret 2025`);
    - the download filename;
    - the split of failures into "Template Error" and "Server Error" (`ServerResponses`).
- **Form page** (`FormPage`): the state of the form is a class with one method per handler. The module also covers:
  - which inputs each template shows and requires;
  - the team-member editor. Adding, removing and editing keep a non-empty list numbered "2", "3", and so on;
  - the payload, which drops members without a name.
- **Admin and user list pages** (`AdminPage`, `DaftarSuratPage`, `SuratList`):
  - the two search filters, which differ, and the throw when a searched column is neither text, null nor missing;
  - the page titles, the type label and the status badge;
  - the download cell;
  - the dashboard's upload and reject handlers, which change the stored rows.
- **Side navigation** (`Layout`): the link tables, which table each role gets, and the rule that highlights a link.
- **End to end** (`EndToEnd`): a submitted form's fields reach the placeholders of the letter, given a store that hands each column back as sent.

Shared pieces:

- `JsValues` holds JSON-like JavaScript values. It keeps `undefined` and `null` apart and models JavaScript truthiness.
- `JsStrings` holds the string operations the pages use: `toLowerCase`, `includes`, `replace`, `\b\w` capitalisation, `join`/`split` and decimal printing.
- `Seqs` holds `Array.prototype.filter`.

Storage, the template download and the clock are not modelled as services. The handlers receive their answers as parameters.

Some behaviours of the code are stated as properties:

- `resetForm` puts the activity kind back to `"peneliti"`. That is not one of its select's options, and the initial value is `"penelitian"` (`FormPage.ResetMatchesInitialButOne`).
- Neither admin action checks the current status. A rejected letter keeps a result file it already had, and the user then sees "Menunggu" (`AdminPage.RejectionIsUnguarded`, `DaftarSuratPage.DownloadAfterAdminAction`).
- The dashboard search hides rows that have neither a title nor a leader's name, even when the search box is empty (`AdminPage.AdminFilterEmptyTerm`).
- On `/generate/:id` the 404 branch needs storage to answer with no row and no error. The model keeps it as the `Loaded(None)` outcome.

## Model

| member | source | states |
|---|---|---|
| JsStrings.ToLower | surat-app-client/src/pages/AdminPage.jsx:71-72 | ASCII `toLowerCase`: same length, each character lowered |
| JsStrings.ToLowerHasNoUpper | surat-app-client/src/pages/AdminPage.jsx:71-72 | a lowered string has no upper-case letter |
| JsStrings.ToLowerIdempotent | surat-app-client/src/pages/AdminPage.jsx:71-72 | lowering twice is lowering once |
| JsStrings.IndexOf | surat-app-client/src/pages/AdminPage.jsx:71 | the first index where the pattern occurs, or -1 exactly when it occurs nowhere |
| JsStrings.IncludesIff | surat-app-client/src/pages/AdminPage.jsx:71 | `includes` holds exactly when the pattern occurs somewhere |
| JsStrings.FirstOccurrence | surat-app-client/src/pages/AdminPage.jsx:129 | an occurrence with none before it is the index `indexOf` finds |
| JsStrings.RemoveFirst | surat-app-client/src/pages/AdminPage.jsx:129 | `replace('.docx', '')` leaves a string without the pattern unchanged; otherwise it cuts out the first occurrence, the one `indexOf` finds, and keeps everything before and after it |
| JsStrings.ReplaceAllChar | surat-app-client/src/pages/AdminPage.jsx:129 | `replace(/_/g, ' ')`: every `_` becomes a space, everything else stays |
| JsStrings.RemoveFirstCommutes | surat-app-client/src/pages/AdminPage.jsx:129 | replacing a character the pattern lacks commutes with removing the pattern's first occurrence, which is why the title and the row label (line 203) agree |
| JsStrings.CapitaliseFrom | surat-app-client/src/pages/AdminPage.jsx:130 | upper-cases exactly the word characters that start a word |
| JsStrings.Capitalise | surat-app-client/src/pages/AdminPage.jsx:130 | `replace(/\b\w/g, toUpperCase)`: same length; a character is upper-cased exactly when it is a word character not preceded by one |
| JsStrings.CapitaliseIdempotent | surat-app-client/src/pages/AdminPage.jsx:130 | capitalising twice is capitalising once |
| JsStrings.Join | surat-app-server/routes/surat.js:167 | `join` of one part is that part, of none the empty string |
| JsStrings.SplitAtFirst | surat-app-server/routes/surat.js:167 | splitting at a separator whose first character the prefix lacks yields the prefix first |
| JsStrings.SplitJoin | surat-app-server/routes/surat.js:167 | splitting a join at its separator gives the parts back when no part holds the separator's first character |
| JsStrings.DecimalString | surat-app-client/src/pages/FormPage.jsx:110 | `String(n)` of a natural number: digits only, no leading zero |
| JsStrings.ParseDecimalString | surat-app-client/src/pages/FormPage.jsx:110 | reading the decimal string back gives the number |
| JsStrings.DecimalStringInjective | surat-app-client/src/pages/FormPage.jsx:117 | different numbers print differently, so member numbers are distinct |
| JsStrings.StringToNumberOfDecimal | surat-app-server/routes/surat.js:30 | `Number` reads `String(n)` back as `n`, with a leading `-` as `-n` and a leading `+` as `n` |
| JsStrings.StringToNumberNaN | surat-app-server/routes/surat.js:30 | a string holding a character other than a digit or a leading sign converts to NaN |
| JsValues.Or | surat-app-server/routes/surat.js:128 | `a \|\| b` is `a` when truthy and `b` otherwise |
| JsValues.IntString | surat-app-server/routes/surat.js:90 | a non-negative number converts to its decimal digits |
| JsValues.GreaterThanZeroOf | surat-app-server/routes/surat.js:30 | `v > 0` holds for a positive number, `true`, a positive decimal string, or a one-element array of one |
| JsValues.NotGreaterThanZeroOf | surat-app-server/routes/surat.js:30 | `v > 0` fails for a negative decimal string, `null`, `undefined`, `false`, `""` and `[]` |
| JsValues.ObjectNotGreaterThanZero | surat-app-server/routes/surat.js:30 | an object converts to NaN, so `v > 0` fails |
| Seqs.Filter | surat-app-client/src/pages/AdminPage.jsx:70-73 | `filter` keeps, in order, exactly the elements that satisfy the predicate |
| Seqs.FilterAppend | surat-app-client/src/pages/FormPage.jsx:137 | filtering a concatenation filters each part |
| Seqs.FilterNarrower | surat-app-client/src/pages/DaftarSuratPage.jsx:73-75 | filtering by a stronger predicate after a weaker one is filtering by the stronger alone |
| Seqs.FilterAll | surat-app-client/src/pages/FormPage.jsx:137 | a predicate true of every element keeps the whole sequence |
| Seqs.FilterSame | surat-app-client/src/pages/AdminPage.jsx:70-73 | predicates that agree on every element filter alike |
| Seqs.FirstThrow | surat-app-client/src/pages/AdminPage.jsx:70-73 | the first element on which the callback throws: none before it throws, and it does |
| Seqs.TryFilter | surat-app-client/src/pages/AdminPage.jsx:70-73 | `filter` with a callback that may throw: succeeds exactly when the callback throws on no element, then keeps the accepted elements in order; otherwise it fails with the first throw |
| ServerResponses.ErrorResponse | surat-app-server/routes/surat.js:162-171 | status 500 with `msg` and `error`; "Template Error" exactly for an engine error with per-tag messages, otherwise "Server Error" with the thrown message |
| ServerResponses.TemplateErrorListsEveryMessage | surat-app-server/routes/surat.js:166-168 | the template error text is the messages joined by ", ", and splitting it gives them back in order |
| SuratSubmit.StoredRow | surat-app-server/routes/surat.js:15-23 | the inserted row is the body without `anggota`, with `user_id` the caller's id even when the body sent one; every other body key is kept |
| SuratSubmit.MemberRows | surat-app-server/routes/surat.js:31-34 | one row per member, in order, each with its own fields and `surat_id` the new record's id |
| SuratSubmit.PlanMembers | surat-app-server/routes/surat.js:30-34 | members are inserted exactly for a non-empty array; none for a falsy value or an empty array; a non-array whose `length` compares as positive (a string's length, or an object's `length` property converted to a number) throws on `map` |
| SuratSubmit.Submit | surat-app-server/routes/surat.js:12-46 | sends the stored row; a failed record insert answers 500 "Server Error"; member rows are sent exactly as planned; a failed member insert answers 500; otherwise 201 with the stored row |
| SuratSubmit.ObjectLengthConverted | surat-app-server/routes/surat.js:30-31 | an object whose `length` is a positive number, its decimal string, `true` or a one-element array passes the guard and throws on `map`; a negative string or no `length` inserts nothing |
| LetterData.FormatDateFields | surat-app-server/routes/surat.js:106-107 | the date text is day, full month name and year separated by single spaces |
| LetterData.FormatDateExample | surat-app-server/routes/surat.js:107 | 5 March 2025 is written "5 Maret 2025" |
| LetterData.MonthNamesDistinct | surat-app-server/routes/surat.js:107 | no two months share a name |
| LetterData.FormatDateInjective | surat-app-server/routes/surat.js:107 | different dates give different date texts |
| LetterData.AliasMember | surat-app-server/routes/surat.js:112-117 | a member keeps all its fields and gets its rank under both `pangkat_gol` and `pangkat_golongan`; `null`/`undefined` throws |
| LetterData.FirstNullish | surat-app-server/routes/surat.js:112 | the index of the first `null`/`undefined` member, the one `map` throws on |
| LetterData.AliasMembers | surat-app-server/routes/surat.js:112-117 | succeeds exactly when no member is nullish, with the same length and order; otherwise fails with the first nullish member's error |
| LetterData.RenderMembers | surat-app-server/routes/surat.js:110-118 | a falsy `anggota` gives the empty list, an array its aliased members, and any other truthy value throws |
| LetterData.LetterDate | surat-app-server/routes/surat.js:128 | the stored `tanggal_surat` when truthy, otherwise today's formatted date |
| LetterData.DataToRender | surat-app-server/routes/surat.js:121-147 | the row's keys plus the override keys; a key outside the overrides keeps its stored value; each override takes its mapped value |
| LetterData.RenamedPlaceholders | surat-app-server/routes/surat.js:129-145 | every renamed placeholder carries the stored field it renames |
| LetterData.LeaderPlaceholders | surat-app-server/routes/surat.js:132-134 | `nama_ketua`, `nip_ketua` and `pangkat_gol_ketua` are the stored `ketua_nama`, `ketua_nip` and `ketua_pangkat_gol` |
| LetterData.RestatedPlaceholders | surat-app-server/routes/surat.js:125-142 | the identity overrides hold the stored values, present even when missing; `anggota` is the aliased list; `tanggal_surat` is the letter date |
| LetterData.Lookup | surat-app-server/routes/surat.js:102 | `nullGetter`: a missing, `null` or `undefined` value renders as "" and any other value as itself |
| LetterData.Render | surat-app-server/routes/surat.js:150 | each template text part is kept, and each tag is filled with its looked-up value |
| LetterData.StoredNamesNotOverridden | surat-app-server/routes/surat.js:121-147 | no override writes over a field that a placeholder renames |
| LetterData.RenamedFieldsRenderAlike | surat-app-server/routes/surat.js:129-145 | a placeholder and the field it renames render the same text, even when the field is missing |
| LetterData.MemberRankRendersAlike | surat-app-server/routes/surat.js:115-116 | every rendered member shows the same rank under both names |
| DownloadName.Sanitise | surat-app-server/routes/surat.js:156 | same length, alphanumerics kept, every other character `_` |
| DownloadName.SanitiseIdempotent | surat-app-server/routes/surat.js:156 | sanitising twice is sanitising once |
| DownloadName.SafeFilename | surat-app-server/routes/surat.js:156 | "Dokumen" for a falsy leader name, the sanitised name for a string, a thrown error for another truthy value |
| DownloadName.DispositionFilename | surat-app-server/routes/surat.js:158 | the header is `attachment; filename=Surat-<safe>.docx`, and the suggested name uses only `[A-Za-z0-9_.-]` |
| SuratGenerate.WithTemplateKey | surat-app-server/routes/surat.js:83-85 | a falsy `template_key` becomes "surat_izin_penelitian.docx"; a truthy one and every other column are kept |
| SuratGenerate.TemplateUrlForRow | surat-app-server/routes/surat.js:88-90 | the template URL is base + "/" + the stored key, or + the default key |
| SuratGenerate.Generate | surat-app-server/routes/surat.js:67-173 | load error goes to "Server Error"; no row gives 404; download or archive errors give "Server Error"; tag errors give "Template Error"; member or filename errors throw; otherwise the rendered document is returned under its disposition and the docx content type |
| FormPage.TemplateKeys | surat-app-client/src/pages/FormPage.jsx:54-60 | the keys of the template options, in order |
| FormPage.TemplateKeysDistinct | surat-app-client/src/pages/FormPage.jsx:54-60 | the five keys, in order, all different |
| FormPage.AllFieldsComplete | surat-app-client/src/pages/FormPage.jsx:69-93 | every state variable of the form is in the field list |
| FormPage.ResetMatchesInitialButOne | surat-app-client/src/pages/FormPage.jsx:89-102 | `resetForm` restores every initial value except `peneliti_pengabdian`, which becomes "peneliti", an option its select lacks |
| FormPage.InitialValues | surat-app-client/src/pages/FormPage.jsx:69-93 | a value for every field, each its `useState` initial value |
| FormPage.ResetValues | surat-app-client/src/pages/FormPage.jsx:96-104 | a value for every field, each what `resetForm` sets |
| FormPage.RequiredAreRendered | surat-app-client/src/pages/FormPage.jsx:188-293 | every required input is one the template's form shows |
| FormPage.RequiredByTemplate | surat-app-client/src/pages/FormPage.jsx:188-293 | required inputs per template:<br>- `judul`, leader name and NIP always;<br>- recipient and location exactly for the permits;<br>- dates and places exactly for assignments;<br>- year, unit and funding exactly for SPTJM;<br>- scheme, letter date, source, rank, faculty and the selects never |
| FormPage.EditorInTeamSection | surat-app-client/src/pages/FormPage.jsx:196-229 | the member editor is shown exactly when the team section's faculty input and the funding-source input are, that is outside SPTJM |
| FormPage.Appended | surat-app-client/src/pages/FormPage.jsx:107-112 | one blank member numbered `String(n + 2)` is added at the end; earlier members are unchanged; numbering stays contiguous |
| FormPage.SpliceStart | surat-app-client/src/pages/FormPage.jsx:116 | `splice`'s start: in range it is the index, otherwise clamped (negative counts from the end) |
| FormPage.Splice1 | surat-app-client/src/pages/FormPage.jsx:115-116 | removes the element at the start index and shifts the rest down; a start at the end removes nothing |
| FormPage.Renumbered | surat-app-client/src/pages/FormPage.jsx:117 | member `i` is numbered `String(i + 2)` with its other details kept |
| FormPage.RemovedDropsExactlyOne | surat-app-client/src/pages/FormPage.jsx:113-118 | removing at a valid index from two or more drops exactly that member; the others keep order and details and are renumbered |
| FormPage.RemovedKeepsOne | surat-app-client/src/pages/FormPage.jsx:114 | a list of at most one member is left as it is, so the list never empties |
| FormPage.Edited | surat-app-client/src/pages/FormPage.jsx:119-124 | only the named input of member `index` changes; its number, its other inputs and all other members stay |
| FormPage.ApplyPreservesInvariant | surat-app-client/src/pages/FormPage.jsx:107-124 | add, remove and edit each keep the list non-empty and numbered "2".."n+1" |
| FormPage.EditorInvariantHolds | surat-app-client/src/pages/FormPage.jsx:107-124 | any sequence of editor actions keeps that invariant |
| FormPage.FromFirstMember | surat-app-client/src/pages/FormPage.jsx:77-79 | starting from the single member "2", the invariant holds after any actions |
| FormPage.MemberValues | surat-app-client/src/pages/FormPage.jsx:137 | each member as the JSON object sent, in order |
| FormPage.NamedMembers | surat-app-client/src/pages/FormPage.jsx:137 | the in-order subsequence of members whose `nama` is non-empty, each counted as often as it occurs |
| FormPage.BlankMemberNotSent | surat-app-client/src/pages/FormPage.jsx:107-112 | a member added and left blank does not change what is sent |
| FormPage.AllNamedAllSent | surat-app-client/src/pages/FormPage.jsx:137 | when every member has a name, all are sent, in order |
| FormPage.FieldNamesNotReserved | surat-app-client/src/pages/FormPage.jsx:133-141 | no field is sent as `anggota`, `user_id` or `template_key` |
| FormPage.PayloadFieldsCarry | surat-app-client/src/pages/FormPage.jsx:133-141 | the payload's field part holds each field under its input name, as typed |
| FormPage.LeaderAndTitleCarried | surat-app-client/src/pages/FormPage.jsx:135-136 | the title, funding, year and leader fields are carried as typed |
| FormPage.OtherFieldsCarried | surat-app-client/src/pages/FormPage.jsx:136-140 | the remaining fields are carried as typed |
| FormPage.PayloadCarriesEveryField | surat-app-client/src/pages/FormPage.jsx:133-141 | whatever the template, the payload holds every field as typed |
| FormPage.PayloadFieldsTemplate | surat-app-client/src/pages/FormPage.jsx:134 | `template_key` is the selected template |
| FormPage.PayloadTemplateAndMembers | surat-app-client/src/pages/FormPage.jsx:134-137 | the payload names the selected template and sends the named members for every template, SPTJM included |
| FormPage.SubmittableSendsRequired | surat-app-client/src/pages/FormPage.jsx:133-141 | once the browser lets a form through, every input the template requires is sent under its name as the non-empty text typed into it |
| FormPage.MembersSentWithoutEditor | surat-app-client/src/pages/FormPage.jsx:137 | SPTJM hides the member editor, yet its payload sends the named members left in the state, and no member for the initial state |
| FormPage.FormState.constructor | surat-app-client/src/pages/FormPage.jsx:64-93 | first template selected, initial values, the single member "2", no message |
| FormPage.FormState.SetField | surat-app-client/src/pages/FormPage.jsx:190-290 | an input's `onChange` sets that field only |
| FormPage.FormState.SelectTemplate | surat-app-client/src/pages/FormPage.jsx:176 | choosing a template changes only the choice |
| FormPage.FormState.Reset | surat-app-client/src/pages/FormPage.jsx:96-104 | every field gets its reset value and the list becomes the single member "2"; the template choice stays |
| FormPage.FormState.AddMember | surat-app-client/src/pages/FormPage.jsx:107-112 | the list becomes `Appended` of the old list; nothing else changes |
| FormPage.FormState.RemoveMember | surat-app-client/src/pages/FormPage.jsx:113-118 | the list becomes `Removed` of the old list; nothing else changes |
| FormPage.FormState.EditMember | surat-app-client/src/pages/FormPage.jsx:119-124 | the list becomes `Edited` of the old list; nothing else changes |
| FormPage.FormState.HandleSubmit | surat-app-client/src/pages/FormPage.jsx:127-156 | runs only once every required input is filled, as the browser enforces; sends the payload of the pre-submit state, with every required input as typed; on success shows the success message and resets; on failure shows the failure message and keeps the inputs |
| SuratList.TextField | surat-app-client/src/pages/AdminPage.jsx:71-72 | the string of a column holding a string, nothing otherwise (the pages reach it only through `SearchProbe`, after a non-string has thrown) |
| SuratList.SearchProbe | surat-app-client/src/pages/AdminPage.jsx:71-72 | `row.key?.toLowerCase().includes(...)` runs exactly for a string, null or missing column, then answers `FieldContains`; any other value throws |
| SuratList.FieldContainsIgnoresCase | surat-app-client/src/pages/AdminPage.jsx:71-72 | a term and its lower-case form find the same rows |
| SuratList.FieldContainsEmptyTerm | surat-app-client/src/pages/AdminPage.jsx:71-72 | the empty term matches exactly the rows whose column is a string |
| SuratList.ToneOf | surat-app-client/src/pages/AdminPage.jsx:14-23 | "Selesai", "Pending" and "Rejected" each get their own tone, and anything else is neutral |
| SuratList.TonesLookDifferent | surat-app-client/src/pages/AdminPage.jsx:10-23 | different tones have different styles and different icons |
| SuratList.ReadableNameIsCapitalisedLabel | surat-app-client/src/pages/AdminPage.jsx:129-130 | the page-title name equals the capitalised row label, although the two replacements run in opposite orders |
| SuratList.RemoveSuffix | surat-app-client/src/pages/AdminPage.jsx:129 | ".docx" appended to a stem without '.' is removed, leaving the stem |
| SuratList.TypeLabel | surat-app-client/src/pages/AdminPage.jsx:203 | "Dokumen Umum" without a key; otherwise the key minus ".docx" with `_` as spaces |
| AdminPage.AdminBadge | surat-app-client/src/pages/AdminPage.jsx:10-31 | style and icon from the status's tone; the text is "Ditolak" for "Rejected" and the status verbatim otherwise |
| AdminPage.AdminFilter | surat-app-client/src/pages/AdminPage.jsx:70-73 | the in-order subsequence of rows whose `judul` or `ketua_nama` contains the term, ignoring case, each counted as often as it occurs |
| AdminPage.AdminSearch | surat-app-client/src/pages/AdminPage.jsx:70-73 | the page's filter succeeds exactly when every row's title, and its leader's name where the title does not match, is a string, null or missing; it then gives `AdminFilter` |
| AdminPage.AdminFilterEmptyTerm | surat-app-client/src/pages/AdminPage.jsx:71-72 | with an empty term a row is listed exactly when it has a title or a leader's name |
| AdminPage.AdminTitle | surat-app-client/src/pages/AdminPage.jsx:127-131 | "Dashboard Semua Surat" without a filter, otherwise "Data " + the capitalised type label |
| SuratList.PageTitle | surat-app-client/src/pages/AdminPage.jsx:127-131 | a list page's fixed title without a type filter, otherwise its prefix and the capitalised type label |
| AdminPage.UpdateWhere | surat-app-client/src/pages/AdminPage.jsx:100 | rows with the id take the patch over their own columns, and all other rows are unchanged |
| AdminPage.CompletionIsUnguarded | surat-app-client/src/pages/AdminPage.jsx:100 | completion sets `status` "Selesai" and `file_hasil` together, whatever the status was, keeping every other column |
| AdminPage.RejectionIsUnguarded | surat-app-client/src/pages/AdminPage.jsx:112-115 | rejection sets only `status` "Rejected", whatever it was; a completed letter keeps its file |
| AdminPage.AdminDashboard.constructor | surat-app-client/src/pages/AdminPage.jsx:38-40 | the loaded rows, no upload in progress, no alerts |
| AdminPage.AdminDashboard.HandleUploadHasil | surat-app-client/src/pages/AdminPage.jsx:91-105 | no file does nothing; otherwise the file is stored as `<now>-<name>`; an upload or update error adds an alert "Upload gagal: " + message; success completes the row |
| AdminPage.AdminDashboard.HandleReject | surat-app-client/src/pages/AdminPage.jsx:107-125 | nothing without confirmation; an update error adds "Gagal menghapus surat: " + message; success rejects the row and adds the confirmation alert |
| DaftarSuratPage.UserBadge | surat-app-client/src/pages/DaftarSuratPage.jsx:9-30 | style and icon from the tone; the text is always the status verbatim |
| DaftarSuratPage.BadgesAgreeButRejected | surat-app-client/src/pages/DaftarSuratPage.jsx:9-30 | both pages' badges look the same; their texts differ exactly for "Rejected" |
| DaftarSuratPage.UserFilter | surat-app-client/src/pages/DaftarSuratPage.jsx:73-75 | the in-order subsequence of rows whose `judul` contains the term, ignoring case, each counted as often as it occurs |
| DaftarSuratPage.UserSearch | surat-app-client/src/pages/DaftarSuratPage.jsx:73-75 | the page's filter succeeds exactly when every row's title is a string, null or missing; it then gives `UserFilter` |
| DaftarSuratPage.UserFilterNarrowsAdmin | surat-app-client/src/pages/DaftarSuratPage.jsx:73-75 | this page's result is the dashboard's result narrowed to title matches |
| DaftarSuratPage.LeaderNameNotSearched | surat-app-client/src/pages/DaftarSuratPage.jsx:73-75 | a row known only by its leader's name is found by the dashboard and not by this page |
| DaftarSuratPage.UserSearchRunsWhereAdminRuns | surat-app-client/src/pages/DaftarSuratPage.jsx:73-75 | wherever the dashboard's search succeeds, this page's search succeeds too, with the dashboard's result narrowed to titles |
| DaftarSuratPage.NonTextColumnThrows | surat-app-client/src/pages/DaftarSuratPage.jsx:74 | a title that is not a string, null or missing (0 and `false` included) breaks both searches; such a leader's name breaks only the dashboard's, under a title that does not match |
| DaftarSuratPage.UserTitle | surat-app-client/src/pages/DaftarSuratPage.jsx:78-83 | "Semua Surat Saya" without a filter, otherwise "Arsip " + the capitalised type label |
| DaftarSuratPage.UserTitleOfKey | surat-app-client/src/pages/DaftarSuratPage.jsx:80-82 | for `<stem>.docx` the title is "Arsip " + the stem with `_` as spaces, each word capitalised |
| DaftarSuratPage.TypeColumnOnUnfilteredArchive | surat-app-client/src/pages/DaftarSuratPage.jsx:138 | the type column is shown exactly on the unfiltered page, titled "Semua Surat Saya" |
| DaftarSuratPage.DownloadCellOf | surat-app-client/src/pages/DaftarSuratPage.jsx:196-210 | a link to `file_hasil` exactly when the status is "Selesai" and the file is truthy, otherwise "Menunggu" |
| DaftarSuratPage.DownloadAfterAdminAction | surat-app-client/src/pages/DaftarSuratPage.jsx:196 | after completion with a non-empty address the user gets that link; after a rejection the user waits |
| Layout.NavLinksByRole | surat-app-client/src/components/Layout.jsx:37 | the admin table is shown exactly to the admin role, the user table otherwise |
| Layout.TemplateKeyTypes | surat-app-client/src/components/Layout.jsx:21-34 | the form's template keys are exactly the five keys the typed links filter by |
| Layout.UserLinksWellFormed | surat-app-client/src/components/Layout.jsx:18-26 | user links:<br>- the form link points at `/form`;<br>- the untyped link points at the list page;<br>- every typed link's path is list page + `?type=` + its template key;<br>- types are distinct |
| Layout.AdminLinksWellFormed | surat-app-client/src/components/Layout.jsx:28-35 | the same for the admin table, which has no form link |
| Layout.LinkPaths | surat-app-client/src/components/Layout.jsx:18-37 | the table each role sees is well formed for that role's list page |
| Layout.AtMostOneActive | surat-app-client/src/components/Layout.jsx:82-88 | whatever the role, path and query, at most one link is highlighted |
| Layout.SomeLinkActiveOnListPage | surat-app-client/src/components/Layout.jsx:86-87 | on the list page, unfiltered or filtered by a template key, some link is highlighted |
| Layout.FormLinkActive | surat-app-client/src/components/Layout.jsx:84 | the form link is highlighted exactly on `/form`, and only users have it |
| EndToEnd.LoadedRow | surat-app-server/routes/surat.js:15-23 | the reloaded row is owned by the submitter and has an `anggota` column only if storage adds one |
| EndToEnd.FieldReachesRow | surat-app-server/routes/surat.js:15-23 | each form field reaches the stored row unchanged |
| EndToEnd.PayloadCarriesForm | surat-app-client/src/pages/FormPage.jsx:133-141 | the payload carries the whole form |
| EndToEnd.StoredRowCarriesForm | surat-app-server/routes/surat.js:15-23 | storing a body that carries the form keeps carrying it, whatever columns storage adds |
| EndToEnd.LoadedRowCarriesForm | surat-app-server/routes/surat.js:15-23 | the reloaded row of a submission carries the whole form |
| EndToEnd.LeaderShown | surat-app-server/routes/surat.js:132-134 | the leader placeholders show the stored leader's name, NIP and rank |
| EndToEnd.FundingShown | surat-app-server/routes/surat.js:136-137 | the funding placeholders show the stored amounts |
| EndToEnd.SourceShown | surat-app-server/routes/surat.js:145 | `sumber` shows the stored funding source |
| EndToEnd.TitleShown | surat-app-server/routes/surat.js:122 | `judul` passes through unchanged |
| EndToEnd.LetterDateShown | surat-app-server/routes/surat.js:128 | the letter date shows the stored date, or today's when it is empty |
| EndToEnd.ReadField | surat-app-server/routes/surat.js:122 | a row carrying the form holds each field as typed |
| EndToEnd.RowShowsLeader | surat-app-server/routes/surat.js:132-134 | from a row carrying the form, the leader placeholders show what was typed |
| EndToEnd.RowShowsFunding | surat-app-server/routes/surat.js:136-137 | the funding placeholders show what was typed |
| EndToEnd.RowShowsSourceAndTitle | surat-app-server/routes/surat.js:122-145 | the source and title placeholders show what was typed |
| EndToEnd.RowShowsDate | surat-app-server/routes/surat.js:128 | the date shows what was typed, or today's date when left empty |
| EndToEnd.RowShowsForm | surat-app-server/routes/surat.js:121-147 | all four groups together |
| EndToEnd.FormReachesLetter | surat-app-server/routes/surat.js:121-147 | the letter generated from a submitted form's stored row shows what the form sent |

## Left out

- The document engine (Docxtemplater over PizZip) is reduced to one lookup per tag, returning "" for missing, `null` or `undefined` values. Loops, line breaks, ZIP parsing and serialisation are not modelled. A template file is given as already-parsed parts, malformed tags, or an unreadable archive.
- The axios template download, the Supabase inserts, queries, ordering, storage upload, public URL and row-level security are parameters of the handlers. The `?type=` query filter of the two list pages is also part of the storage query and is not modelled. After an admin action, the dashboard's reload is modelled as applying the update to the rows it holds.
- `new Date()`, `toLocaleString('id-ID')` and `Date.now()` are not modelled. The date is passed in as day, month and year, with an explicit table of Indonesian month names. The clock reading is a `nat` parameter. The created-at dates shown in the list pages are not modelled.
- Thrown `TypeError` messages (a non-array `anggota`, a `null` member, a non-string leader name) are written in V8's style. Only the fact that an error is thrown, and which branch reports it, is meant to match.
- Spreading a string literally gives index keys. The model spreads every non-object to nothing. JSON member values are objects in practice.
- Numbers are integers, so floats do not arise. NaN arises only as the result of a `Number(...)` conversion, written `None`.
- SuratSubmit.PlanMembers: an object's `length` is converted with `JsStrings.StringToNumber`, which reads only an optional sign and decimal digits. Strings with surrounding white space, a fraction, an exponent, a hex prefix or `Infinity` convert to a number in JavaScript but read as NaN here, so such an object inserts nothing instead of throwing.

- `toLowerCase`, `toUpperCase`, `\b\w` and `[^a-z0-9]` work on ASCII letters only.
- `handleAnggotaChange` writes into member objects shared with the previous state. The model copies the list instead, so that aliasing is not captured.
- SuratList.TypeLabel: a truthy `template_key` that is not a string makes the page throw on `replace`. The model shows "Dokumen Umum" for it.
- EndToEnd.LoadedRow: storage is assumed to hand back each inserted column exactly as sent, as the same string. A typed column could change it: `dana` read back as a number, or `tanggal_surat` as a date, which would also reject the empty string that `LetterDateShown` reads as falsy.
- These are not modelled:
  - loading flags, the refresh button and fetch-on-mount;
  - `handleGenerate`'s Blob download (surat-app-client/src/pages/AdminPage.jsx:75-89);
  - JSX markup and CSS.
- surat-app-server/middleware/authMiddleware.js, surat-app-client/src/App.jsx, surat-app-client/src/pages/LoginPage.jsx, surat-app-server/supabaseClient.js and surat-app-server/server.js are not part of this model. They handle authentication, session handling and bootstrap.
- `GET /my-surat` (surat-app-server/routes/surat.js:50-63) is a storage query whose only local step is the error response. That response is `ServerResponses.ErrorResponse`.
