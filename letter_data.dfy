/**
  What the letter generator hands the document engine: the letter date,
  the member list with its rank alias, and the placeholder map built from a
  stored row. The engine itself is modelled only as "look each tag up in
  the data, `""` when the value is missing".
*/
module LetterData {
  import opened Wrappers
  import opened JsStrings
  import opened JsValues
  import opened ServerResponses

  /** Full month names of the `id-ID` locale, January first. */
  const MonthNames: seq<string> := [
    "Januari", "Februari", "Maret", "April", "Mei", "Juni",
    "Juli", "Agustus", "September", "Oktober", "November", "Desember"
  ]

  /** A calendar date as `getDate()`, `getMonth() + 1` and `getFullYear()` give it. */
  datatype CalendarDate = CalendarDate(day: nat, month: nat, year: nat)

  predicate ValidDate(d: CalendarDate)
  {
    1 <= d.day <= 31 && 1 <= d.month <= 12
  }

  /** `${today.getDate()} ${month name} ${today.getFullYear()}` */
  function FormatDate(d: CalendarDate): string
    requires ValidDate(d)
  {
    Join([DecimalString(d.day), MonthNames[d.month - 1], DecimalString(d.year)], " ")
  }

  /** The letter date reads as three space-separated fields: day, month name, year. */
  lemma FormatDateFields(d: CalendarDate)
    requires ValidDate(d)
    ensures SplitOn(FormatDate(d), " ") == [DecimalString(d.day), MonthNames[d.month - 1], DecimalString(d.year)]
  {
    var fields := [DecimalString(d.day), MonthNames[d.month - 1], DecimalString(d.year)];
    assert forall k :: 0 <= k < 3 ==> ' ' !in fields[k] by {
      var day, year := DecimalString(d.day), DecimalString(d.year);
      assert forall i :: 0 <= i < |day| ==> day[i] != ' ';
      assert forall i :: 0 <= i < |year| ==> year[i] != ' ';
    }
    SplitJoin(fields, " ");
  }

  lemma FormatDateExample()
    ensures FormatDate(CalendarDate(5, 3, 2025)) == "5 Maret 2025"
  {
    assert DecimalString(2025) == "2025" by {
      assert DecimalString(2) == "2";
      assert DecimalString(20) == "20";
      assert DecimalString(202) == "202";
    }
    assert MonthNames[2] == "Maret";
    assert Join(["Maret", "2025"], " ") == "Maret 2025" by {
      assert ["Maret", "2025"][1..] == ["2025"];
    }
    assert ["5", "Maret", "2025"][1..] == ["Maret", "2025"];
  }

  /** No two months share a name. */
  lemma MonthNamesDistinct(i: nat, j: nat)
    requires i < 12 && j < 12 && MonthNames[i] == MonthNames[j]
    ensures i == j
  {
    var a, b := MonthNames[i], MonthNames[j];
    assert |a| == |b| && a[0] == b[0] && a[2] == b[2];
  }

  /** Different calendar dates give different letter dates. */
  lemma FormatDateInjective(a: CalendarDate, b: CalendarDate)
    requires ValidDate(a) && ValidDate(b)
    requires FormatDate(a) == FormatDate(b)
    ensures a == b
  {
    var fa := [DecimalString(a.day), MonthNames[a.month - 1], DecimalString(a.year)];
    var fb := [DecimalString(b.day), MonthNames[b.month - 1], DecimalString(b.year)];
    FormatDateFields(a);
    FormatDateFields(b);
    assert fa[0] == fb[0] && fa[1] == fb[1] && fa[2] == fb[2];
    DecimalStringInjective(a.day, b.day);
    MonthNamesDistinct(a.month - 1, b.month - 1);
    DecimalStringInjective(a.year, b.year);
  }

  /** `a.prop` on a member element. */
  function MemberProp(a: Value, prop: string): Value
  {
    if a.Obj? then Get(a.fields, prop) else Undefined
  }

  predicate IsNullish(v: Value) { v.Undefined? || v.Null? }

  /**
    `({ ...a, pangkat_gol: a.pangkat_golongan, pangkat_golongan: a.pangkat_golongan })`:
    the member's own fields, with the rank under both names; reading a
    property of `null` or `undefined` throws.
  */
  function AliasMember(a: Value): (r: Result<Value, string>)
    ensures r.Ok? <==> !IsNullish(a)
    ensures r.Ok? ==>
      && r.value.Obj?
      && r.value.fields.Keys == Spread(a).Keys + {"pangkat_gol", "pangkat_golongan"}
      && r.value.fields["pangkat_gol"] == r.value.fields["pangkat_golongan"] == MemberProp(a, "pangkat_golongan")
      && forall k :: k in Spread(a) && k != "pangkat_gol" && k != "pangkat_golongan" ==>
           r.value.fields[k] == Spread(a)[k]
  {
    if a.Undefined? then Err("Cannot read properties of undefined (reading 'pangkat_golongan')")
    else if a.Null? then Err("Cannot read properties of null (reading 'pangkat_golongan')")
    else
      var g := MemberProp(a, "pangkat_golongan");
      Ok(Obj(Spread(a) + map["pangkat_gol" := g, "pangkat_golongan" := g]))
  }

  /** Index of the first `null` or `undefined` element, or `|items|` when there is none. */
  function FirstNullish(items: seq<Value>): (i: nat)
    ensures i <= |items|
    ensures forall j :: 0 <= j < i ==> !IsNullish(items[j])
    ensures i < |items| ==> IsNullish(items[i])
  {
    if items == [] then 0
    else if IsNullish(items[0]) then 0
    else
      assert forall j :: 1 <= j < |items| ==> items[1..][j - 1] == items[j];
      1 + FirstNullish(items[1..])
  }

  /** `anggota.map(AliasMember)`: every element mapped in order, or the first element's error. */
  function AliasMembers(items: seq<Value>): (r: Result<seq<Value>, string>)
    ensures r.Ok? <==> forall i :: 0 <= i < |items| ==> !IsNullish(items[i])
    ensures r.Ok? ==> |r.value| == |items| && forall i :: 0 <= i < |items| ==> AliasMember(items[i]) == Ok(r.value[i])
    ensures r.Err? ==> FirstNullish(items) < |items| && r == Err(AliasMember(items[FirstNullish(items)]).error)
  {
    if items == [] then Ok([])
    else
      assert forall j :: 1 <= j < |items| ==> items[1..][j - 1] == items[j];
      match AliasMember(items[0])
      case Err(e) => Err(e)
      case Ok(v) =>
        var rest := AliasMembers(items[1..]);
        if rest.Err? then Err(rest.error)
        else
          var r := [v] + rest.value;
          assert forall j :: 1 <= j < |items| ==> r[j] == rest.value[j - 1];
          Ok(r)
  }

  /** `let anggotaData = []; if (suratData.anggota) anggotaData = suratData.anggota.map(...)` */
  function RenderMembers(anggota: Value): (r: Result<seq<Value>, string>)
    ensures !Truthy(anggota) ==> r == Ok([])
    ensures anggota.Arr? ==> r == AliasMembers(anggota.items)
    ensures Truthy(anggota) && !anggota.Arr? ==> r.Err?
  {
    if !Truthy(anggota) then Ok([])
    else if anggota.Arr? then AliasMembers(anggota.items)
    else Err("suratData.anggota.map is not a function")
  }

  /** Placeholders that carry a stored field under another name: placeholder to field. */
  const RenamedFields: map<string, string> := map[
    "tanggal mulai" := "tanggal_mulai",
    "nama_ketua" := "ketua_nama",
    "nip_ketua" := "ketua_nip",
    "pangkat_gol_ketua" := "ketua_pangkat_gol",
    "nama kota/kabupaten/lokasi tempat tujuan" := "lokasi_tujuan",
    "sumber" := "sumber_pendanaan"
  ]

  /** Overrides whose value is the stored field of the same name. */
  const IdentityKeys: set<string> := {
    "dana", "dana_terbilang", "satuan_kerja",
    "peneliti_pelaksana", "peneliti_pengabdian", "tim_peneliti", "skema_pengabdian"
  }

  /**
    Every key the override layer writes over the stored row: `anggota`,
    `tanggal_surat`, the renamed placeholders and the identity keys.
  */
  const OverrideKeys: set<string> := {
    "anggota", "tanggal_surat", "tanggal mulai",
    "nama_ketua", "nip_ketua", "pangkat_gol_ketua",
    "dana", "dana_terbilang", "satuan_kerja",
    "peneliti_pelaksana", "peneliti_pengabdian", "tim_peneliti",
    "nama kota/kabupaten/lokasi tempat tujuan", "sumber", "skema_pengabdian"
  }

  /** The letter date: the stored one when truthy, or else today's. */
  function LetterDate(row: Record, today: CalendarDate): (v: Value)
    requires ValidDate(today)
    ensures Truthy(Get(row, "tanggal_surat")) ==> v == row["tanggal_surat"]
    ensures !Truthy(Get(row, "tanggal_surat")) ==> v == Str(FormatDate(today))
  {
    Or(Get(row, "tanggal_surat"), Str(FormatDate(today)))
  }

  /** The value the override layer gives key `k` of `OverrideKeys`. */
  function Override(row: Record, members: seq<Value>, today: CalendarDate, k: string): Value
    requires ValidDate(today)
  {
    if k in IdentityKeys then Get(row, k)
    else if k in RenamedFields then Get(row, RenamedFields[k])
    else if k == "anggota" then Arr(members)
    else LetterDate(row, today)
  }

  /**
    `dataToRender`: the stored row spread first, then the override layer;
    JavaScript's later keys win exactly as the right operand of `+` does.
  */
  function DataToRender(row: Record, members: seq<Value>, today: CalendarDate): (r: Record)
    requires ValidDate(today)
    ensures r.Keys == row.Keys + OverrideKeys
    ensures forall k :: k in row && k !in OverrideKeys ==> r[k] == row[k]
    ensures forall k :: k in OverrideKeys ==> r[k] == Override(row, members, today, k)
  {
    row + map k | k in OverrideKeys :: Override(row, members, today, k)
  }

  /** A placeholder that renames a stored field carries that field's value. */
  lemma RenamedPlaceholders(row: Record, members: seq<Value>, today: CalendarDate)
    requires ValidDate(today)
    ensures forall k :: k in RenamedFields ==> DataToRender(row, members, today)[k] == Get(row, RenamedFields[k])
  {
    assert RenamedFields.Keys !! IdentityKeys;
  }

  lemma RenamedPlaceholder(row: Record, members: seq<Value>, today: CalendarDate, k: string, field: string)
    requires ValidDate(today) && k in RenamedFields && RenamedFields[k] == field
    ensures var r := DataToRender(row, members, today);
      k in r && r[k] == Get(row, field)
  {
    RenamedPlaceholders(row, members, today);
  }

  /** The leader's name, NIP and rank placeholders, spelled out. */
  lemma LeaderPlaceholders(row: Record, members: seq<Value>, today: CalendarDate)
    requires ValidDate(today)
    ensures var r := DataToRender(row, members, today);
      && r["nama_ketua"] == Get(row, "ketua_nama")
      && r["nip_ketua"] == Get(row, "ketua_nip")
      && r["pangkat_gol_ketua"] == Get(row, "ketua_pangkat_gol")
  {
    RenamedPlaceholder(row, members, today, "nama_ketua", "ketua_nama");
    RenamedPlaceholder(row, members, today, "nip_ketua", "ketua_nip");
    RenamedPlaceholder(row, members, today, "pangkat_gol_ketua", "ketua_pangkat_gol");
  }

  /**
    The SPTJM inputs are written back under their own names, so a field the
    row lacks is present in the placeholder map as `undefined`; `anggota` is
    the aliased member list and `tanggal_surat` the letter date.
  */
  lemma RestatedPlaceholders(row: Record, members: seq<Value>, today: CalendarDate)
    requires ValidDate(today)
    ensures var r := DataToRender(row, members, today);
      && (forall k :: k in IdentityKeys ==> k in r && r[k] == Get(row, k))
      && r["anggota"] == Arr(members)
      && r["tanggal_surat"] == LetterDate(row, today)
  {
    assert "anggota" !in IdentityKeys && "anggota" !in RenamedFields;
    assert "tanggal_surat" !in IdentityKeys && "tanggal_surat" !in RenamedFields;
  }

  // The document engine, as far as the model needs it

  datatype Part = Text(text: string) | Tag(name: string)

  /** What the downloaded bytes turn out to be once opened. */
  datatype TemplateFile =
    | Parsed(parts: seq<Part>)           // a well-formed template
    | Malformed(errors: seq<string>)     // tags the engine rejects, one message each
    | Unreadable(message: string)        // not an archive at all

  /** `nullGetter: () => ""`: a missing, null or undefined value renders as "". */
  function Lookup(data: Record, name: string): (v: Value)
    ensures name !in data ==> v == Str("")
    ensures name in data && !IsNullish(data[name]) ==> v == data[name]
    ensures IsNullish(Get(data, name)) ==> v == Str("")
  {
    if name in data && !IsNullish(data[name]) then data[name] else Str("")
  }

  function Render(parts: seq<Part>, data: Record): (r: seq<Piece>)
    ensures |r| == |parts|
    ensures forall i :: 0 <= i < |parts| && parts[i].Text? ==> r[i] == Literal(parts[i].text)
    ensures forall i :: 0 <= i < |parts| && parts[i].Tag? ==> r[i] == Filled(Lookup(data, parts[i].name))
  {
    seq(|parts|, i requires 0 <= i < |parts| =>
      match parts[i]
      case Text(t) => Literal(t)
      case Tag(n) => Filled(Lookup(data, n)))
  }

  /** The override layer never writes over the field a placeholder renames. */
  lemma StoredNamesNotOverridden(k: string)
    requires k in RenamedFields
    ensures RenamedFields[k] !in OverrideKeys
  {
    if k == "tanggal mulai" {
      assert RenamedFields[k] == "tanggal_mulai";
    } else if k == "nama_ketua" {
      assert RenamedFields[k] == "ketua_nama";
    } else if k == "nip_ketua" {
      assert RenamedFields[k] == "ketua_nip";
    } else if k == "pangkat_gol_ketua" {
      assert RenamedFields[k] == "ketua_pangkat_gol";
    } else if k == "sumber" {
      assert RenamedFields[k] == "sumber_pendanaan";
    } else {
      assert RenamedFields[k] == "lokasi_tujuan";
    }
  }

  /**
    Whichever of the two names a template uses, it renders the same text:
    the placeholder and the storage name resolve to the same value, also when
    the field is missing.
  */
  lemma RenamedFieldsRenderAlike(row: Record, members: seq<Value>, today: CalendarDate, k: string)
    requires ValidDate(today) && k in RenamedFields
    ensures Lookup(DataToRender(row, members, today), k)
         == Lookup(DataToRender(row, members, today), RenamedFields[k])
  {
    var field := RenamedFields[k];
    RenamedPlaceholder(row, members, today, k, field);
    StoredNamesNotOverridden(k);
    StoredFieldLooksAlike(DataToRender(row, members, today), row, k, field);
  }

  /** A key holding the stored value of a field that passes through unchanged looks up alike. */
  lemma StoredFieldLooksAlike(r: Record, row: Record, k: string, field: string)
    requires k in r && r[k] == Get(row, field)
    requires r.Keys == row.Keys + OverrideKeys && field !in OverrideKeys
    requires forall j :: j in row && j !in OverrideKeys ==> r[j] == row[j]
    ensures Lookup(r, k) == Lookup(r, field)
  {
    if field in row {
      assert r[field] == row[field];
    }
  }

  /** Every member, whatever its stored fields, renders its rank under both names. */
  lemma MemberRankRendersAlike(items: seq<Value>, i: nat)
    requires AliasMembers(items).Ok? && i < |items|
    ensures Lookup(AliasMembers(items).value[i].fields, "pangkat_gol")
         == Lookup(AliasMembers(items).value[i].fields, "pangkat_golongan")
  {
  }
}
