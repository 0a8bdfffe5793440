/**
  A submission followed through: the form's payload, the record row the
  server stores for it, and the placeholder data the letter is rendered
  from once that row is loaded again.
*/
module EndToEnd {
  import opened JsValues
  import opened FormPage
  import opened SuratSubmit
  import opened LetterData

  /**
    The row loaded for a submitted letter: what the server stored, over any
    columns storage fills in itself (its id, timestamps, default status).
  */
  function LoadedRow(template: string, values: map<Field, string>, anggota: seq<Member>,
                     userId: string, columns: Record): (row: Record)
    requires HasEveryField(values)
    ensures "user_id" in row && row["user_id"] == Str(userId)
    ensures "anggota" in row ==> "anggota" in columns && row["anggota"] == columns["anggota"]
  {
    columns + StoredRow(SubmissionData(template, values, anggota), userId)
  }

  /** Every form field reaches the loaded row unchanged. */
  lemma FieldReachesRow(template: string, values: map<Field, string>, anggota: seq<Member>,
                        userId: string, columns: Record, f: Field)
    requires HasEveryField(values)
    ensures var row := LoadedRow(template, values, anggota, userId, columns);
      FieldName(f) in row && row[FieldName(f)] == Str(values[f])
  {
    PayloadCarriesEveryField(template, values, anggota, f);
    FieldNamesNotReserved(f);
  }

  /** `row` holds every form field under its input name, as typed. */
  predicate CarriesForm(row: Record, values: map<Field, string>)
    requires HasEveryField(values)
  {
    forall f :: FieldName(f) in row && row[FieldName(f)] == Str(values[f])
  }

  /** The payload carries the form. */
  lemma PayloadCarriesForm(template: string, values: map<Field, string>, anggota: seq<Member>)
    requires HasEveryField(values)
    ensures CarriesForm(SubmissionData(template, values, anggota), values)
  {
    forall f ensures var p := SubmissionData(template, values, anggota);
      FieldName(f) in p && p[FieldName(f)] == Str(values[f])
    {
      PayloadCarriesEveryField(template, values, anggota, f);
    }
  }

  /** The stored row, under whatever columns storage adds, carries what the body carried. */
  lemma StoredRowCarriesForm(body: Record, values: map<Field, string>, userId: string, columns: Record)
    requires HasEveryField(values) && CarriesForm(body, values)
    ensures CarriesForm(columns + StoredRow(body, userId), values)
  {
    forall f ensures FieldName(f) != "anggota" && FieldName(f) != "user_id" {
      FieldNamesNotReserved(f);
    }
  }

  lemma LoadedRowCarriesForm(template: string, values: map<Field, string>, anggota: seq<Member>,
                             userId: string, columns: Record)
    requires HasEveryField(values)
    ensures CarriesForm(LoadedRow(template, values, anggota, userId, columns), values)
  {
    PayloadCarriesForm(template, values, anggota);
    StoredRowCarriesForm(SubmissionData(template, values, anggota), values, userId, columns);
  }

  /**
    The letter's leader placeholders show the stored leader's name, NIP and
    rank.
  */
  lemma LeaderShown(row: Record, members: seq<Value>, today: CalendarDate, nama: string, nip: string, pangkat: string)
    requires ValidDate(today)
    requires Get(row, "ketua_nama") == Str(nama) && Get(row, "ketua_nip") == Str(nip)
    requires Get(row, "ketua_pangkat_gol") == Str(pangkat)
    ensures var d := DataToRender(row, members, today);
      Lookup(d, "nama_ketua") == Str(nama) && Lookup(d, "nip_ketua") == Str(nip) &&
      Lookup(d, "pangkat_gol_ketua") == Str(pangkat)
  {
    LeaderPlaceholders(row, members, today);
  }

  /** The amount placeholders show the stored amount and amount in words. */
  lemma FundingShown(row: Record, members: seq<Value>, today: CalendarDate, dana: string, terbilang: string)
    requires ValidDate(today)
    requires Get(row, "dana") == Str(dana) && Get(row, "dana_terbilang") == Str(terbilang)
    ensures var d := DataToRender(row, members, today);
      Lookup(d, "dana") == Str(dana) && Lookup(d, "dana_terbilang") == Str(terbilang)
  {
    RestatedPlaceholders(row, members, today);
  }

  /** The `sumber` placeholder shows the stored funding source. */
  lemma SourceShown(row: Record, members: seq<Value>, today: CalendarDate, sumber: string)
    requires ValidDate(today)
    requires Get(row, "sumber_pendanaan") == Str(sumber)
    ensures Lookup(DataToRender(row, members, today), "sumber") == Str(sumber)
  {
    RenamedPlaceholders(row, members, today);
    assert RenamedFields["sumber"] == "sumber_pendanaan";
  }

  /** The title is not overridden: its placeholder shows the stored title. */
  lemma TitleShown(row: Record, members: seq<Value>, today: CalendarDate, judul: string)
    requires ValidDate(today)
    requires Get(row, "judul") == Str(judul)
    ensures Lookup(DataToRender(row, members, today), "judul") == Str(judul)
  {
    assert "judul" !in OverrideKeys;
  }

  /**
    A letter date stored empty is falsy, so the letter carries the date of
    generation; a filled one is shown as stored.
  */
  lemma LetterDateShown(row: Record, members: seq<Value>, today: CalendarDate, tanggal: string)
    requires ValidDate(today)
    requires Get(row, "tanggal_surat") == Str(tanggal)
    ensures var d := DataToRender(row, members, today);
      && (tanggal == "" ==> Lookup(d, "tanggal_surat") == Str(FormatDate(today)))
      && (tanggal != "" ==> Lookup(d, "tanggal_surat") == Str(tanggal))
  {
    RestatedPlaceholders(row, members, today);
  }

  /** A row carrying the form holds field `f` as typed. */
  lemma ReadField(row: Record, values: map<Field, string>, f: Field, name: string)
    requires HasEveryField(values) && CarriesForm(row, values)
    requires name == FieldName(f)
    ensures Get(row, name) == Str(values[f])
  {
  }

  /** What a letter renders from a row carrying the form: the fields as typed, or today for an empty date. */
  predicate ShowsLeader(d: Record, values: map<Field, string>)
    requires HasEveryField(values)
  {
    && Lookup(d, "nama_ketua") == Str(values[KetuaNama])
    && Lookup(d, "nip_ketua") == Str(values[KetuaNip])
    && Lookup(d, "pangkat_gol_ketua") == Str(values[KetuaPangkatGol])
  }

  predicate ShowsFunding(d: Record, values: map<Field, string>)
    requires HasEveryField(values)
  {
    && Lookup(d, "dana") == Str(values[Dana])
    && Lookup(d, "dana_terbilang") == Str(values[DanaTerbilang])
  }

  predicate ShowsSourceAndTitle(d: Record, values: map<Field, string>)
    requires HasEveryField(values)
  {
    && Lookup(d, "sumber") == Str(values[SumberPendanaan])
    && Lookup(d, "judul") == Str(values[Judul])
  }

  predicate ShowsDate(d: Record, values: map<Field, string>, today: CalendarDate)
    requires HasEveryField(values) && ValidDate(today)
  {
    && (values[TanggalSurat] == "" ==> Lookup(d, "tanggal_surat") == Str(FormatDate(today)))
    && (values[TanggalSurat] != "" ==> Lookup(d, "tanggal_surat") == Str(values[TanggalSurat]))
  }

  predicate ShowsForm(d: Record, values: map<Field, string>, today: CalendarDate)
    requires HasEveryField(values) && ValidDate(today)
  {
    ShowsLeader(d, values) && ShowsFunding(d, values) && ShowsSourceAndTitle(d, values) && ShowsDate(d, values, today)
  }

  lemma RowShowsLeader(row: Record, values: map<Field, string>, members: seq<Value>, today: CalendarDate)
    requires HasEveryField(values) && ValidDate(today) && CarriesForm(row, values)
    ensures ShowsLeader(DataToRender(row, members, today), values)
  {
    ReadField(row, values, KetuaNama, "ketua_nama");
    ReadField(row, values, KetuaNip, "ketua_nip");
    ReadField(row, values, KetuaPangkatGol, "ketua_pangkat_gol");
    LeaderShown(row, members, today, values[KetuaNama], values[KetuaNip], values[KetuaPangkatGol]);
  }

  lemma RowShowsFunding(row: Record, values: map<Field, string>, members: seq<Value>, today: CalendarDate)
    requires HasEveryField(values) && ValidDate(today) && CarriesForm(row, values)
    ensures ShowsFunding(DataToRender(row, members, today), values)
  {
    ReadField(row, values, Dana, "dana");
    ReadField(row, values, DanaTerbilang, "dana_terbilang");
    FundingShown(row, members, today, values[Dana], values[DanaTerbilang]);
  }

  lemma RowShowsSourceAndTitle(row: Record, values: map<Field, string>, members: seq<Value>, today: CalendarDate)
    requires HasEveryField(values) && ValidDate(today) && CarriesForm(row, values)
    ensures ShowsSourceAndTitle(DataToRender(row, members, today), values)
  {
    ReadField(row, values, SumberPendanaan, "sumber_pendanaan");
    ReadField(row, values, Judul, "judul");
    SourceShown(row, members, today, values[SumberPendanaan]);
    TitleShown(row, members, today, values[Judul]);
  }

  lemma RowShowsDate(row: Record, values: map<Field, string>, members: seq<Value>, today: CalendarDate)
    requires HasEveryField(values) && ValidDate(today) && CarriesForm(row, values)
    ensures ShowsDate(DataToRender(row, members, today), values, today)
  {
    ReadField(row, values, TanggalSurat, "tanggal_surat");
    LetterDateShown(row, members, today, values[TanggalSurat]);
  }

  lemma RowShowsForm(row: Record, values: map<Field, string>, members: seq<Value>, today: CalendarDate)
    requires HasEveryField(values) && ValidDate(today) && CarriesForm(row, values)
    ensures ShowsForm(DataToRender(row, members, today), values, today)
  {
    RowShowsLeader(row, values, members, today);
    RowShowsFunding(row, values, members, today);
    RowShowsSourceAndTitle(row, values, members, today);
    RowShowsDate(row, values, members, today);
  }

  /**
    The whole chain: the letter generated from a submitted form's stored
    row shows what the form sent, whatever columns storage adds.
  */
  lemma FormReachesLetter(template: string, values: map<Field, string>, anggota: seq<Member>,
                          userId: string, columns: Record, members: seq<Value>, today: CalendarDate)
    requires HasEveryField(values) && ValidDate(today)
    ensures ShowsForm(DataToRender(LoadedRow(template, values, anggota, userId, columns), members, today), values, today)
  {
    LoadedRowCarriesForm(template, values, anggota, userId, columns);
    RowShowsForm(LoadedRow(template, values, anggota, userId, columns), values, members, today);
  }
}
