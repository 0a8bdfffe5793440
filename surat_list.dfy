/**
  Pieces the two letter-list pages share: reading a text column of a
  fetched row, the case-insensitive "contains" test of the search box, the
  status tone behind the badge, the human-readable template name and the
  type label.
*/
module SuratList {
  import opened Wrappers
  import opened JsStrings
  import opened JsValues

  /** A text column of a fetched row: its string, or `None` for any other value. */
  function TextField(row: Record, key: string): (r: Option<string>)
    ensures r.Some? <==> key in row && row[key].Str?
    ensures r.Some? ==> row[key] == Str(r.value)
  {
    match Get(row, key)
    case Str(s) => Some(s)
    case _ => None
  }

  /** `row.key?.toLowerCase().includes(term.toLowerCase())`, read as a truth value. */
  predicate FieldContains(row: Record, key: string, term: string)
  {
    TextField(row, key).Some? && Includes(ToLower(TextField(row, key).value), ToLower(term))
  }

  /** `row.key?.toLowerCase()` reaches a string, or stops at null or a missing column. */
  predicate Searchable(row: Record, key: string)
  {
    Get(row, key).Str? || Get(row, key).Null? || Get(row, key).Undefined?
  }

  /**
    `row.key?.toLowerCase().includes(term.toLowerCase())` as the page
    evaluates it: `?.` stops only at null or undefined, so any other
    non-string column (a number, a boolean, an array, an object) throws,
    having no `toLowerCase`.
  */
  function SearchProbe(row: Record, key: string, term: string): (r: Result<bool, string>)
    ensures r.Ok? <==> Searchable(row, key)
    ensures r.Ok? ==> (r.value <==> FieldContains(row, key, term))
  {
    match Get(row, key)
    case Str(s) => Ok(Includes(ToLower(s), ToLower(term)))
    case Null => Ok(false)
    case Undefined => Ok(false)
    case _ => Err("toLowerCase is not a function")
  }

  /** The search ignores case: the term and its lower-case form find the same rows. */
  lemma FieldContainsIgnoresCase(row: Record, key: string, term: string)
    ensures FieldContains(row, key, ToLower(term)) == FieldContains(row, key, term)
  {
    ToLowerIdempotent(term);
  }

  /** An empty search term is contained in every text, so only a missing column excludes a row. */
  lemma FieldContainsEmptyTerm(row: Record, key: string)
    ensures FieldContains(row, key, "") <==> TextField(row, key).Some?
  {
    if TextField(row, key).Some? {
      var s := ToLower(TextField(row, key).value);
      assert ToLower("") == "";
      assert OccursAt(s, "", 0);
      FirstOccurrence(s, "", 0);
    }
  }

  // ---------------------------------------------------------------------
  // Status badge
  // ---------------------------------------------------------------------

  datatype Tone = Neutral | Done | Waiting | Refused

  /** The `if` chain on `status === ...`; anything unknown (or missing) stays neutral. */
  function ToneOf(status: Value): (t: Tone)
    ensures t == Done <==> status == Str("Selesai")
    ensures t == Waiting <==> status == Str("Pending")
    ensures t == Refused <==> status == Str("Rejected")
  {
    if status == Str("Selesai") then Done
    else if status == Str("Pending") then Waiting
    else if status == Str("Rejected") then Refused
    else Neutral
  }

  function ToneStyle(t: Tone): string
  {
    match t
    case Neutral => "bg-gray-100 text-gray-600"
    case Done => "bg-green-100 text-green-700 border border-green-200"
    case Waiting => "bg-yellow-50 text-yellow-700 border border-yellow-200"
    case Refused => "bg-red-50 text-red-700 border border-red-200"
  }

  function ToneIcon(t: Tone): string
  {
    match t
    case Neutral => "ellipse"
    case Done => "checkmark-circle"
    case Waiting => "time"
    case Refused => "close-circle"
  }

  /** Each tone has its own style and its own icon, so the badge shows which case applied. */
  lemma TonesLookDifferent(a: Tone, b: Tone)
    requires a != b
    ensures ToneStyle(a) != ToneStyle(b) && ToneIcon(a) != ToneIcon(b)
  {
  }

  /** What a badge shows: its classes, its icon name and its text (a JSX child value). */
  datatype Badge = Badge(style: string, icon: string, text: Value)

  // ---------------------------------------------------------------------
  // Template names
  // ---------------------------------------------------------------------

  /** `searchParams.get('type')` is falsy: absent, or the empty string. */
  predicate HasFilter(filterType: Option<string>)
  {
    filterType.Some? && filterType.value != ""
  }

  /**
    The page-title form of a template key:
    `key.replace(/_/g, ' ').replace('.docx', '')`, then every word's first
    letter upper-cased.
  */
  function ReadableName(key: string): string
  {
    Capitalise(RemoveFirst(ReplaceAllChar(key, '_', ' '), ".docx"))
  }

  /** The row label form: `key.replace('.docx', '').replace(/_/g, ' ')`. */
  function TypeLabelText(key: string): string
  {
    ReplaceAllChar(RemoveFirst(key, ".docx"), '_', ' ')
  }

  /**
    The title and the row label apply the two replacements in opposite
    orders; as ".docx" holds neither '_' nor ' ', the title is always the
    capitalised row label.
  */
  lemma ReadableNameIsCapitalisedLabel(key: string)
    ensures ReadableName(key) == Capitalise(TypeLabelText(key))
  {
    RemoveFirstCommutes(key, ".docx", '_', ' ');
  }

  /**
    `getPageTitle` of either list page: its fixed title without a type
    filter, otherwise its prefix and the template's readable name.
  */
  function PageTitle(filterType: Option<string>, unfiltered: string, prefix: string): (t: string)
    ensures !HasFilter(filterType) ==> t == unfiltered
    ensures HasFilter(filterType) ==> t == prefix + Capitalise(TypeLabelText(filterType.value))
  {
    if !HasFilter(filterType) then unfiltered
    else
      ReadableNameIsCapitalisedLabel(filterType.value);
      prefix + ReadableName(filterType.value)
  }

  /** A pattern whose first character the prefix lacks is removed from the end it was appended to. */
  lemma RemoveSuffix(p: string, pat: string)
    requires |pat| > 0 && pat[0] !in p
    ensures RemoveFirst(p + pat, pat) == p
  {
    var s := p + pat;
    assert s[|p|..|p| + |pat|] == pat;
    forall j | 0 <= j < |p| ensures !OccursAt(s, pat, j) {
      if j + |pat| <= |s| {
        assert s[j..j + |pat|][0] == p[j] && p[j] in p;
      }
    }
    FirstOccurrence(s, pat, |p|);
    assert s[..|p|] == p;
  }

  /** `item.template_key ? <label> : 'Dokumen Umum'` */
  function TypeLabel(item: Record): (shown: string)
    ensures !Truthy(Get(item, "template_key")) ==> shown == "Dokumen Umum"
    ensures Get(item, "template_key").Str? && Get(item, "template_key").s != "" ==>
      shown == TypeLabelText(Get(item, "template_key").s)
  {
    match TextField(item, "template_key")
    case Some(k) => if k != "" then TypeLabelText(k) else "Dokumen Umum"
    case None => "Dokumen Umum"
  }
}
