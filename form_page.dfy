/**
  The letter request form: the template choice, the per-template sections
  and their required inputs, the team-member editor with its renumbering,
  and the payload sent on submit. The component's state variables are the
  fields of `FormState`; each handler is a method on it.
*/
module FormPage {
  import opened Wrappers
  import opened JsStrings
  import opened JsValues
  import opened Seqs

  // =====================================================================
  // Templates
  // =====================================================================

  datatype TemplateOption = TemplateOption(key: string, title: string)

  const IzinPenelitian := "surat_izin_penelitian.docx"
  const IzinPengabdian := "surat_izin_pengabdian.docx"
  const TugasPenelitian := "surat_tugas_penelitian.docx"
  const TugasPengabdian := "surat_tugas_pengabdian.docx"
  const Sptjm := "sptjm.docx"

  const TemplateOptions: seq<TemplateOption> := [
    TemplateOption(IzinPenelitian, "Surat Izin Penelitian"),
    TemplateOption(IzinPengabdian, "Surat Izin Pengabdian"),
    TemplateOption(TugasPenelitian, "Surat Tugas Penelitian"),
    TemplateOption(TugasPengabdian, "Surat Tugas Pengabdian"),
    TemplateOption(Sptjm, "SPTJM (Tanggung Jawab Mutlak)")
  ]

  /** The five template keys, in the order the form offers them. */
  function TemplateKeys(): (keys: seq<string>)
    ensures |keys| == |TemplateOptions|
    ensures forall i :: 0 <= i < |keys| ==> keys[i] == TemplateOptions[i].key
  {
    seq(|TemplateOptions|, i requires 0 <= i < |TemplateOptions| => TemplateOptions[i].key)
  }

  lemma TemplateKeysDistinct()
    ensures TemplateKeys() == [IzinPenelitian, IzinPengabdian, TugasPenelitian, TugasPengabdian, Sptjm]
    ensures forall i, j :: 0 <= i < j < |TemplateKeys()| ==> TemplateKeys()[i] != TemplateKeys()[j]
  {
  }

  predicate IsIzin(key: string) { key == IzinPenelitian || key == IzinPengabdian }
  predicate IsTugas(key: string) { key == TugasPenelitian || key == TugasPengabdian }

  // =====================================================================
  // Form fields
  // =====================================================================

  /** One state variable of the form per constructor. */
  datatype Field =
    | Judul | SumberPendanaan | Tahun
    | KetuaNama | KetuaNip | KetuaPangkatGol | KetuaProdiFak | SatuanKerja
    | Penerima | LokasiTujuan | SkemaPengabdian
    | Skema | TanggalMulai | TanggalAkhir | Lokasi | KabupatenLokasi | TanggalSurat
    | PenelitiPelaksana | Dana | DanaTerbilang | PenelitiPengabdian | TimPeneliti

  const AllFields: set<Field> := {
    Judul, SumberPendanaan, Tahun,
    KetuaNama, KetuaNip, KetuaPangkatGol, KetuaProdiFak, SatuanKerja,
    Penerima, LokasiTujuan, SkemaPengabdian,
    Skema, TanggalMulai, TanggalAkhir, Lokasi, KabupatenLokasi, TanggalSurat,
    PenelitiPelaksana, Dana, DanaTerbilang, PenelitiPengabdian, TimPeneliti
  }

  lemma AllFieldsComplete(f: Field)
    ensures f in AllFields
  {
  }

  /** A value for every field: the shape of the form's `formData` state. */
  predicate HasEveryField(values: map<Field, string>)
  {
    forall f :: f in values
  }

  /** The payload key (and input `name`) of each field. */
  function FieldName(f: Field): string
  {
    match f
    case Judul => "judul"
    case SumberPendanaan => "sumber_pendanaan"
    case Tahun => "tahun"
    case KetuaNama => "ketua_nama"
    case KetuaNip => "ketua_nip"
    case KetuaPangkatGol => "ketua_pangkat_gol"
    case KetuaProdiFak => "ketua_prodi_fak"
    case SatuanKerja => "satuan_kerja"
    case Penerima => "penerima"
    case LokasiTujuan => "lokasi_tujuan"
    case SkemaPengabdian => "skema_pengabdian"
    case Skema => "skema"
    case TanggalMulai => "tanggal_mulai"
    case TanggalAkhir => "tanggal_akhir"
    case Lokasi => "lokasi"
    case KabupatenLokasi => "kabupaten_lokasi"
    case TanggalSurat => "tanggal_surat"
    case PenelitiPelaksana => "peneliti_pelaksana"
    case Dana => "dana"
    case DanaTerbilang => "dana_terbilang"
    case PenelitiPengabdian => "peneliti_pengabdian"
    case TimPeneliti => "tim_peneliti"
  }

  /** The `useState` initial value of each field. */
  function InitialValue(f: Field): string
  {
    match f
    case PenelitiPelaksana => "peneliti"
    case PenelitiPengabdian => "penelitian"
    case TimPeneliti => "peneliti"
    case _ => ""
  }

  /** The value `resetForm` gives each field. */
  function ResetValue(f: Field): string
  {
    match f
    case PenelitiPelaksana => "peneliti"
    case PenelitiPengabdian => "peneliti"
    case TimPeneliti => "peneliti"
    case _ => ""
  }

  /** The option values of the three fields that are selects. */
  function SelectOptions(f: Field): set<string>
  {
    match f
    case PenelitiPelaksana => {"peneliti", "pelaksana"}
    case PenelitiPengabdian => {"penelitian", "pengabdian"}
    case TimPeneliti => {"peneliti", "pelaksana"}
    case _ => {}
  }

  /**
    Resetting restores every initial value but one: the activity kind goes
    back to "peneliti", which is not one of its select's options, whereas
    its initial value is.
  */
  lemma ResetMatchesInitialButOne()
    ensures forall f :: f != PenelitiPengabdian ==> ResetValue(f) == InitialValue(f)
    ensures ResetValue(PenelitiPengabdian) != InitialValue(PenelitiPengabdian)
    ensures InitialValue(PenelitiPengabdian) in SelectOptions(PenelitiPengabdian)
    ensures ResetValue(PenelitiPengabdian) !in SelectOptions(PenelitiPengabdian)
    ensures forall f :: f != PenelitiPengabdian && SelectOptions(f) != {} ==> ResetValue(f) in SelectOptions(f)
  {
  }

  function InitialValues(): (m: map<Field, string>)
    ensures m.Keys == AllFields && HasEveryField(m)
    ensures forall f :: f in m ==> m[f] == InitialValue(f)
  {
    forall f ensures f in AllFields { AllFieldsComplete(f); }
    map f | f in AllFields :: InitialValue(f)
  }

  function ResetValues(): (m: map<Field, string>)
    ensures m.Keys == AllFields && HasEveryField(m)
    ensures forall f :: f in m ==> m[f] == ResetValue(f)
  {
    forall f ensures f in AllFields { AllFieldsComplete(f); }
    map f | f in AllFields :: ResetValue(f)
  }

  // =====================================================================
  // Sections and required inputs per template
  // =====================================================================

  /** The fields the form shows for a template, section by section. */
  function RenderedFields(key: string): set<Field>
  {
    (if IsIzin(key) then {Penerima, LokasiTujuan} else {})
    + (if key != Sptjm then {KetuaNama, KetuaNip, KetuaPangkatGol, KetuaProdiFak} else {})
    + {Judul}
    + (if key != Sptjm then {SumberPendanaan, Tahun} else {Tahun})
    + (if key == IzinPengabdian then {SkemaPengabdian} else if IsTugas(key) then {Skema} else {})
    + (if IsTugas(key) then {TanggalMulai, TanggalAkhir, Lokasi, KabupatenLokasi, TanggalSurat} else {})
    + (if key == Sptjm then
         {PenelitiPelaksana, KetuaNama, KetuaNip, KetuaPangkatGol, SatuanKerja,
          Dana, DanaTerbilang, PenelitiPengabdian, TimPeneliti}
       else {})
  }

  /** The shown inputs carrying `required`, section by section. */
  function RequiredFields(key: string): set<Field>
  {
    (if IsIzin(key) then {Penerima, LokasiTujuan} else {})
    + (if key != Sptjm then {KetuaNama, KetuaNip} else {})
    + {Judul}
    + (if key == Sptjm then {Tahun} else {})
    + (if IsTugas(key) then {TanggalMulai, TanggalAkhir, Lokasi, KabupatenLokasi} else {})
    + (if key == Sptjm then {KetuaNama, KetuaNip, SatuanKerja, Dana, DanaTerbilang} else {})
  }

  /** The member editor is part of the team section, absent for SPTJM. */
  predicate MemberEditorShown(key: string) { key != Sptjm }

  /** Every required input is one the form actually shows. */
  lemma RequiredAreRendered(key: string)
    ensures RequiredFields(key) <= RenderedFields(key)
  {
  }

  /** Which inputs each template requires, field by field. */
  lemma RequiredByTemplate(key: string)
    requires key in TemplateKeys()
    ensures Judul in RequiredFields(key)
    ensures KetuaNama in RequiredFields(key) && KetuaNip in RequiredFields(key)
    ensures Penerima in RequiredFields(key) <==> IsIzin(key)
    ensures LokasiTujuan in RequiredFields(key) <==> IsIzin(key)
    ensures forall f :: f in {TanggalMulai, TanggalAkhir, Lokasi, KabupatenLokasi} ==>
              (f in RequiredFields(key) <==> IsTugas(key))
    ensures forall f :: f in {Tahun, SatuanKerja, Dana, DanaTerbilang} ==>
              (f in RequiredFields(key) <==> key == Sptjm)
    ensures forall f :: f in {Skema, SkemaPengabdian, TanggalSurat, SumberPendanaan, KetuaPangkatGol,
                              KetuaProdiFak, PenelitiPelaksana, PenelitiPengabdian, TimPeneliti} ==>
              f !in RequiredFields(key)
  {
  }

  /** The browser blocks submission while a required input is empty. */
  predicate CanSubmit(key: string, values: map<Field, string>)
  {
    forall f :: f in RequiredFields(key) ==> f in values && values[f] != ""
  }

  /**
    The member editor is shown exactly with the team section's faculty input
    and the funding-source input, both of which SPTJM leaves out.
  */
  lemma EditorInTeamSection(key: string)
    ensures MemberEditorShown(key) <==> KetuaProdiFak in RenderedFields(key)
    ensures MemberEditorShown(key) <==> SumberPendanaan in RenderedFields(key)
  {
  }

  // =====================================================================
  // Team members
  // =====================================================================

  datatype Member = Member(no: string, nama: string, nip: string, pangkatGolongan: string, prodiFakultas: string)

  /** The inputs of one member row, by their `name`. */
  datatype MemberField = Nama | Nip | PangkatGolongan | ProdiFakultas

  function BlankMember(no: string): Member
  {
    Member(no, "", "", "", "")
  }

  /** `{ no: '2', nama: '', ... }` */
  const FirstMember := BlankMember("2")

  /** Member `i` (0-based) is numbered `i + 2`; the leader is number 1. */
  predicate Numbered(ms: seq<Member>)
  {
    forall i :: 0 <= i < |ms| ==> ms[i].no == DecimalString(i + 2)
  }

  /** Two members agree on everything but `no`. */
  predicate SameDetails(a: Member, b: Member)
  {
    a.(no := "") == b.(no := "")
  }

  /** `tambahAnggota`: `[...anggota, { no: String(anggota.length + 2), ... }]` */
  function Appended(ms: seq<Member>): (r: seq<Member>)
    ensures |r| == |ms| + 1
    ensures r[..|ms|] == ms
    ensures r[|ms|] == BlankMember(DecimalString(|ms| + 2))
    ensures Numbered(ms) ==> Numbered(r)
  {
    ms + [BlankMember(DecimalString(|ms| + 2))]
  }

  /** Where `splice(index, 1)` starts: a negative index counts from the end. */
  function SpliceStart(index: int, len: nat): (s: nat)
    ensures s <= len
    ensures 0 <= index <= len ==> s == index
  {
    if index < 0 then (if len + index < 0 then 0 else len + index)
    else if index > len then len
    else index
  }

  /** `list.splice(index, 1)` on a copy of the list. */
  function Splice1(ms: seq<Member>, index: int): (r: seq<Member>)
    ensures var s := SpliceStart(index, |ms|);
      s < |ms| ==>
        && |r| == |ms| - 1
        && (forall i :: 0 <= i < s ==> r[i] == ms[i])
        && (forall i :: s <= i < |r| ==> r[i] == ms[i + 1])
    ensures SpliceStart(index, |ms|) == |ms| ==> r == ms
  {
    var s := SpliceStart(index, |ms|);
    if s < |ms| then ms[..s] + ms[s + 1..] else ms
  }

  /** `.map((item, i) => ({ ...item, no: String(i + 2) }))` */
  function Renumbered(ms: seq<Member>): (r: seq<Member>)
    ensures |r| == |ms| && Numbered(r)
    ensures forall i :: 0 <= i < |ms| ==> SameDetails(r[i], ms[i])
  {
    seq(|ms|, i requires 0 <= i < |ms| => ms[i].(no := DecimalString(i + 2)))
  }

  /** `hapusAnggota`: a lone member is kept; otherwise splice, then renumber. */
  function Removed(ms: seq<Member>, index: int): seq<Member>
  {
    if |ms| <= 1 then ms else Renumbered(Splice1(ms, index))
  }

  /**
    Removing the member at a valid index drops exactly that member: the
    others keep their order and details, and the numbering is contiguous
    again.
  */
  lemma RemovedDropsExactlyOne(ms: seq<Member>, index: int)
    requires |ms| > 1 && 0 <= index < |ms|
    ensures var r := Removed(ms, index);
      && |r| == |ms| - 1
      && Numbered(r)
      && (forall i :: 0 <= i < index ==> SameDetails(r[i], ms[i]))
      && (forall i :: index <= i < |r| ==> SameDetails(r[i], ms[i + 1]))
  {
  }

  /** The list never shrinks below one member. */
  lemma RemovedKeepsOne(ms: seq<Member>, index: int)
    ensures |ms| <= 1 ==> Removed(ms, index) == ms
    ensures |ms| >= 1 ==> |Removed(ms, index)| >= 1
  {
  }

  /** `member[name] = value` for one of the four inputs. */
  function SetMemberField(m: Member, field: MemberField, value: string): Member
  {
    match field
    case Nama => m.(nama := value)
    case Nip => m.(nip := value)
    case PangkatGolongan => m.(pangkatGolongan := value)
    case ProdiFakultas => m.(prodiFakultas := value)
  }

  /** Reads one of the four inputs. */
  function MemberFieldValue(m: Member, field: MemberField): string
  {
    match field
    case Nama => m.nama
    case Nip => m.nip
    case PangkatGolongan => m.pangkatGolongan
    case ProdiFakultas => m.prodiFakultas
  }

  /**
    `handleAnggotaChange`: only the named input of member `index` changes;
    an index outside the list leaves it as it was (the assignment throws).
  */
  function Edited(ms: seq<Member>, index: int, field: MemberField, value: string): (r: seq<Member>)
    ensures |r| == |ms|
    ensures forall j :: 0 <= j < |ms| && j != index ==> r[j] == ms[j]
    ensures 0 <= index < |ms| ==>
      && MemberFieldValue(r[index], field) == value
      && r[index].no == ms[index].no
      && forall g :: g != field ==> MemberFieldValue(r[index], g) == MemberFieldValue(ms[index], g)
  {
    if 0 <= index < |ms| then ms[index := SetMemberField(ms[index], field, value)] else ms
  }

  /** One user action on the member editor. */
  datatype EditorOp = Add | Remove(index: int) | Edit(index: int, field: MemberField, value: string)

  function Apply(ms: seq<Member>, op: EditorOp): seq<Member>
  {
    match op
    case Add => Appended(ms)
    case Remove(i) => Removed(ms, i)
    case Edit(i, f, v) => Edited(ms, i, f, v)
  }

  function ApplyAll(ms: seq<Member>, ops: seq<EditorOp>): seq<Member>
    decreases |ops|
  {
    if ops == [] then ms else ApplyAll(Apply(ms, ops[0]), ops[1..])
  }

  /** What the member editor keeps true: at least one row, numbered 2, 3, ... */
  predicate EditorInvariant(ms: seq<Member>)
  {
    |ms| >= 1 && Numbered(ms)
  }

  lemma ApplyPreservesInvariant(ms: seq<Member>, op: EditorOp)
    requires EditorInvariant(ms)
    ensures EditorInvariant(Apply(ms, op))
  {
  }

  /** Whatever the user does, the list has a member and `no` runs from "2" to `String(n + 1)`. */
  lemma {:induction false} EditorInvariantHolds(ms: seq<Member>, ops: seq<EditorOp>)
    requires EditorInvariant(ms)
    ensures EditorInvariant(ApplyAll(ms, ops))
    decreases |ops|
  {
    if ops != [] {
      ApplyPreservesInvariant(ms, ops[0]);
      EditorInvariantHolds(Apply(ms, ops[0]), ops[1..]);
    }
  }

  lemma FromFirstMember(ops: seq<EditorOp>)
    ensures EditorInvariant(ApplyAll([FirstMember], ops))
  {
    assert DecimalString(2) == "2";
    EditorInvariantHolds([FirstMember], ops);
  }

  // =====================================================================
  // The submitted payload
  // =====================================================================

  predicate HasName(m: Member) { m.nama != "" }

  /** A member as the JSON object the form sends. */
  function MemberValue(m: Member): Value
  {
    Obj(map[
      "no" := Str(m.no), "nama" := Str(m.nama), "nip" := Str(m.nip),
      "pangkat_golongan" := Str(m.pangkatGolongan), "prodi_fakultas" := Str(m.prodiFakultas)
    ])
  }

  function MemberValues(ms: seq<Member>): (r: seq<Value>)
    ensures |r| == |ms| && forall i :: 0 <= i < |ms| ==> r[i] == MemberValue(ms[i])
  {
    seq(|ms|, i requires 0 <= i < |ms| => MemberValue(ms[i]))
  }

  /** `anggota.filter(a => a.nama !== '')` */
  function NamedMembers(ms: seq<Member>): (r: seq<Member>)
    ensures IsSubsequence(r, ms)
    ensures forall m :: m in r <==> m in ms && m.nama != ""
    ensures |r| == Count(ms, HasName)
  {
    Filter(ms, HasName)
  }

  /** A row added with "+ Tambah Anggota" and left blank is not sent. */
  lemma BlankMemberNotSent(ms: seq<Member>)
    ensures NamedMembers(Appended(ms)) == NamedMembers(ms)
  {
    FilterAppend(ms, [BlankMember(DecimalString(|ms| + 2))], HasName);
    assert Filter([BlankMember(DecimalString(|ms| + 2))], HasName) == [];
    assert NamedMembers(ms) + [] == NamedMembers(ms);
  }

  /** When every member has a name, all of them are sent, in order. */
  lemma AllNamedAllSent(ms: seq<Member>)
    requires forall i :: 0 <= i < |ms| ==> ms[i].nama != ""
    ensures NamedMembers(ms) == ms
  {
    FilterAll(ms, HasName);
  }

  /**
    The body of `POST /submit` without its `anggota` entry: the template key
    and every field under its input name, in the order they are listed.
  */
  function PayloadFields(template: string, values: map<Field, string>): Record
    requires HasEveryField(values)
  {
    map[
      "template_key" := Str(template),
      "judul" := Str(values[Judul]),
      "sumber_pendanaan" := Str(values[SumberPendanaan]),
      "tahun" := Str(values[Tahun]),
      "ketua_nama" := Str(values[KetuaNama]),
      "ketua_nip" := Str(values[KetuaNip]),
      "ketua_pangkat_gol" := Str(values[KetuaPangkatGol]),
      "ketua_prodi_fak" := Str(values[KetuaProdiFak]),
      "satuan_kerja" := Str(values[SatuanKerja]),
      "penerima" := Str(values[Penerima]),
      "lokasi_tujuan" := Str(values[LokasiTujuan]),
      "skema_pengabdian" := Str(values[SkemaPengabdian]),
      "skema" := Str(values[Skema]),
      "tanggal_mulai" := Str(values[TanggalMulai]),
      "tanggal_akhir" := Str(values[TanggalAkhir]),
      "lokasi" := Str(values[Lokasi]),
      "kabupaten_lokasi" := Str(values[KabupatenLokasi]),
      "tanggal_surat" := Str(values[TanggalSurat]),
      "peneliti_pelaksana" := Str(values[PenelitiPelaksana]),
      "dana" := Str(values[Dana]),
      "dana_terbilang" := Str(values[DanaTerbilang]),
      "peneliti_pengabdian" := Str(values[PenelitiPengabdian]),
      "tim_peneliti" := Str(values[TimPeneliti])
    ]
  }

  /** The body of `POST /submit`: the template key, every field, and the named members. */
  function SubmissionData(template: string, values: map<Field, string>, anggota: seq<Member>): Record
    requires HasEveryField(values)
  {
    PayloadFields(template, values)["anggota" := Arr(MemberValues(NamedMembers(anggota)))]
  }

  /** No field is sent under the names the payload and the server set aside. */
  lemma FieldNamesNotReserved(f: Field)
    ensures FieldName(f) != "anggota" && FieldName(f) != "user_id" && FieldName(f) != "template_key"
  {
  }

  lemma PayloadFieldsCarry(template: string, values: map<Field, string>, f: Field)
    requires HasEveryField(values)
    ensures var p := PayloadFields(template, values);
      FieldName(f) in p && p[FieldName(f)] == Str(values[f])
  {
    match f {
      case Judul => LeaderAndTitleCarried(template, values, f);
      case SumberPendanaan => LeaderAndTitleCarried(template, values, f);
      case Tahun => LeaderAndTitleCarried(template, values, f);
      case KetuaNama => LeaderAndTitleCarried(template, values, f);
      case KetuaNip => LeaderAndTitleCarried(template, values, f);
      case KetuaPangkatGol => LeaderAndTitleCarried(template, values, f);
      case KetuaProdiFak => LeaderAndTitleCarried(template, values, f);
      case _ => OtherFieldsCarried(template, values, f);
    }
  }

  lemma LeaderAndTitleCarried(template: string, values: map<Field, string>, f: Field)
    requires HasEveryField(values)
    requires f.Judul? || f.SumberPendanaan? || f.Tahun? || f.KetuaNama? || f.KetuaNip? || f.KetuaPangkatGol? || f.KetuaProdiFak?
    ensures var p := PayloadFields(template, values);
      FieldName(f) in p && p[FieldName(f)] == Str(values[f])
  {
    var p := PayloadFields(template, values);
    match f {
      case Judul => case SumberPendanaan => case Tahun =>
      case KetuaNama => case KetuaNip => case KetuaPangkatGol => case KetuaProdiFak =>
    }
  }

  lemma OtherFieldsCarried(template: string, values: map<Field, string>, f: Field)
    requires HasEveryField(values)
    requires !(f.Judul? || f.SumberPendanaan? || f.Tahun? || f.KetuaNama? || f.KetuaNip? || f.KetuaPangkatGol? || f.KetuaProdiFak?)
    ensures var p := PayloadFields(template, values);
      FieldName(f) in p && p[FieldName(f)] == Str(values[f])
  {
    var p := PayloadFields(template, values);
    match f {
      case SatuanKerja => case Penerima => case LokasiTujuan => case SkemaPengabdian =>
      case Skema => case TanggalMulai => case TanggalAkhir => case Lokasi =>
      case KabupatenLokasi => case TanggalSurat => case PenelitiPelaksana => case Dana =>
      case DanaTerbilang => case PenelitiPengabdian => case TimPeneliti =>
    }
  }

  /** Whatever the template, the payload holds every field under its input name. */
  lemma PayloadCarriesEveryField(template: string, values: map<Field, string>, anggota: seq<Member>, f: Field)
    requires HasEveryField(values)
    ensures var p := SubmissionData(template, values, anggota);
      FieldName(f) in p && p[FieldName(f)] == Str(values[f])
  {
    PayloadFieldsCarry(template, values, f);
    FieldNamesNotReserved(f);
  }

  /**
    The payload names the chosen template and sends as `anggota` exactly the
    members with a name, in order, for every template including SPTJM.
  */
  lemma PayloadTemplateAndMembers(template: string, values: map<Field, string>, anggota: seq<Member>)
    requires HasEveryField(values)
    ensures var p := SubmissionData(template, values, anggota);
      && p["template_key"] == Str(template)
      && p["anggota"] == Arr(MemberValues(NamedMembers(anggota)))
  {
    PayloadFieldsTemplate(template, values);
  }

  /**
    A form the browser lets through sends every input the template
    requires, each as the non-empty text typed into it.
  */
  lemma SubmittableSendsRequired(template: string, values: map<Field, string>, anggota: seq<Member>, f: Field)
    requires HasEveryField(values) && CanSubmit(template, values)
    requires f in RequiredFields(template)
    ensures var p := SubmissionData(template, values, anggota);
      FieldName(f) in p && p[FieldName(f)].Str? && p[FieldName(f)].s == values[f] != ""
  {
    PayloadCarriesEveryField(template, values, anggota, f);
  }

  /**
    SPTJM hides the member editor, yet its payload still carries the named
    members left in the state (the initial member "2" gives an empty list).
  */
  lemma MembersSentWithoutEditor(values: map<Field, string>, anggota: seq<Member>)
    requires HasEveryField(values)
    ensures !MemberEditorShown(Sptjm)
    ensures SubmissionData(Sptjm, values, anggota)["anggota"] == Arr(MemberValues(NamedMembers(anggota)))
    ensures SubmissionData(Sptjm, values, [FirstMember])["anggota"] == Arr([])
  {
    PayloadTemplateAndMembers(Sptjm, values, anggota);
    PayloadTemplateAndMembers(Sptjm, values, [FirstMember]);
  }

  lemma PayloadFieldsTemplate(template: string, values: map<Field, string>)
    requires HasEveryField(values)
    ensures var p := PayloadFields(template, values);
      "template_key" in p && p["template_key"] == Str(template)
  {
  }

  // =====================================================================
  // The form's state
  // =====================================================================

  datatype MessageKind = Success | Failure
  datatype Message = Message(kind: MessageKind, text: string)

  const SubmittedMessage := Message(Success, "Surat berhasil diajukan!")
  const FailedMessage := Message(Failure, "Gagal mengajukan surat. Coba lagi.")

  class FormState {
    var selectedTemplate: string
    var values: map<Field, string>
    var anggota: seq<Member>
    var message: Option<Message>

    predicate Valid()
      reads this
    {
      HasEveryField(values) && EditorInvariant(anggota)
    }

    constructor()
      ensures Valid()
      ensures selectedTemplate == TemplateOptions[0].key
      ensures values == InitialValues() && anggota == [FirstMember] && message == None
    {
      selectedTemplate := TemplateOptions[0].key;
      values := InitialValues();
      anggota := [FirstMember];
      message := None;
      assert DecimalString(2) == "2";
    }

    /** The `onChange` of one input: its setter. */
    method SetField(f: Field, value: string)
      requires Valid()
      modifies this
      ensures Valid()
      ensures values == old(values)[f := value]
      ensures selectedTemplate == old(selectedTemplate) && anggota == old(anggota) && message == old(message)
    {
      values := values[f := value];
    }

    method SelectTemplate(key: string)
      requires Valid()
      modifies this
      ensures Valid()
      ensures selectedTemplate == key
      ensures values == old(values) && anggota == old(anggota) && message == old(message)
    {
      selectedTemplate := key;
    }

    /** `resetForm`: every field and the member list; the template choice stays. */
    method Reset()
      modifies this
      ensures Valid()
      ensures values == ResetValues() && anggota == [FirstMember]
      ensures selectedTemplate == old(selectedTemplate) && message == old(message)
    {
      values := ResetValues();
      anggota := [FirstMember];
      assert DecimalString(2) == "2";
    }

    method AddMember()
      requires Valid()
      modifies this
      ensures Valid()
      ensures anggota == Appended(old(anggota))
      ensures selectedTemplate == old(selectedTemplate) && values == old(values) && message == old(message)
    {
      anggota := anggota + [BlankMember(DecimalString(|anggota| + 2))];
    }

    method RemoveMember(index: int)
      requires Valid()
      modifies this
      ensures Valid()
      ensures anggota == Removed(old(anggota), index)
      ensures selectedTemplate == old(selectedTemplate) && values == old(values) && message == old(message)
    {
      if |anggota| <= 1 {
        return;
      }
      var list := Splice1(anggota, index);
      anggota := Renumbered(list);
    }

    method EditMember(index: int, field: MemberField, value: string)
      requires Valid()
      modifies this
      ensures Valid()
      ensures anggota == Edited(old(anggota), index, field, value)
      ensures selectedTemplate == old(selectedTemplate) && values == old(values) && message == old(message)
    {
      if 0 <= index < |anggota| {
        anggota := anggota[index := SetMemberField(anggota[index], field, value)];
      }
    }

    /**
      `handleSubmit`: sends the payload; `postSucceeded` is the outcome of
      the request. On success the form is reset, on failure it is kept.
    */
    method HandleSubmit(postSucceeded: bool) returns (payload: Record)
      requires Valid()
      requires CanSubmit(selectedTemplate, values)
      modifies this
      ensures Valid()
      ensures payload == SubmissionData(old(selectedTemplate), old(values), old(anggota))
      ensures forall f :: f in RequiredFields(old(selectedTemplate)) ==>
        FieldName(f) in payload && payload[FieldName(f)] == Str(old(values)[f]) && old(values)[f] != ""
      ensures selectedTemplate == old(selectedTemplate)
      ensures postSucceeded ==> message == Some(SubmittedMessage) && values == ResetValues() && anggota == [FirstMember]
      ensures !postSucceeded ==> message == Some(FailedMessage) && values == old(values) && anggota == old(anggota)
    {
      message := None;
      payload := SubmissionData(selectedTemplate, values, anggota);
      forall f | f in RequiredFields(selectedTemplate)
        ensures FieldName(f) in payload && payload[FieldName(f)] == Str(values[f]) && values[f] != ""
      {
        SubmittableSendsRequired(selectedTemplate, values, anggota, f);
      }
      if postSucceeded {
        message := Some(SubmittedMessage);
        Reset();
      } else {
        message := Some(FailedMessage);
      }
    }
  }
}
