/**
  `GET /generate/:id`: load a stored letter, choose its template, build the
  placeholder map, render, and answer with the document or a classified
  error. Storage, the template download and the clock are parameters.
*/
module SuratGenerate {
  import opened Wrappers
  import opened JsValues
  import opened ServerResponses
  import opened LetterData
  import opened DownloadName

  const DefaultTemplateKey := "surat_izin_penelitian.docx"
  const DocxContentType := "application/vnd.openxmlformats-officedocument.wordprocessingml.document"


  /** Older rows without a `template_key` use the research-permit template. */
  function WithTemplateKey(row: Record): (r: Record)
    ensures r.Keys == row.Keys + {"template_key"}
    ensures forall k :: k in row && k != "template_key" ==> r[k] == row[k]
    ensures Truthy(r["template_key"])
    ensures r["template_key"] == (if Truthy(Get(row, "template_key")) then row["template_key"] else Str(DefaultTemplateKey))
  {
    if Truthy(Get(row, "template_key")) then row else row["template_key" := Str(DefaultTemplateKey)]
  }

  /** `${baseStorageUrl}/${templateFilename}` */
  function TemplateUrl(baseUrl: Value, row: Record): string
    requires "template_key" in row
  {
    JsString(baseUrl) + "/" + JsString(row["template_key"])
  }

  lemma TemplateUrlForRow(base: string, row: Record)
    ensures Truthy(Get(row, "template_key")) && row["template_key"].Str? ==>
      TemplateUrl(Str(base), WithTemplateKey(row)) == base + "/" + row["template_key"].s
    ensures !Truthy(Get(row, "template_key")) ==>
      TemplateUrl(Str(base), WithTemplateKey(row)) == base + "/" + DefaultTemplateKey
  {
  }

  /** Outcome of reading the row (with its `anggota`) by id. */
  datatype Load = LoadFailed(message: string) | Loaded(row: Option<Record>)

  /** Outcome of downloading the template from object storage. */
  datatype Fetch = FetchFailed(message: string) | Fetched(file: TemplateFile)

  /**
    The `/generate/:id` handler. `load` is what storage answers for the id,
    `baseUrl` the configured storage base, `today` the server's date, `fetch`
    what the template download yields for the URL returned in `templateUrl`.
  */
  method Generate(load: Load, baseUrl: Value, today: CalendarDate, fetch: Fetch)
    returns (templateUrl: Option<string>, response: Response)
    requires ValidDate(today)
    ensures load.LoadFailed? ==> templateUrl == None && response == ErrorResponse(Thrown(load.message))
    ensures load == Loaded(None) ==> templateUrl == None && response == NotFoundResponse
    ensures load.Loaded? && load.row.Some? ==>
      var surat := WithTemplateKey(load.row.value);
      && templateUrl == Some(TemplateUrl(baseUrl, surat))
      && match fetch
         case FetchFailed(m) => response == ErrorResponse(Thrown(m))
         case Fetched(Unreadable(m)) => response == ErrorResponse(Thrown(m))
         case Fetched(Malformed(errs)) => response == ErrorResponse(TemplateErrors(errs))
         case Fetched(Parsed(parts)) =>
           var members := RenderMembers(Get(surat, "anggota"));
           var name := SafeFilename(Get(surat, "ketua_nama"));
           if members.Err? then response == ErrorResponse(Thrown(members.error))
           else if name.Err? then response == ErrorResponse(Thrown(name.error))
           else response == DocumentResponse(Disposition(name.value), DocxContentType,
                                             Render(parts, DataToRender(surat, members.value, today)))
  {
    templateUrl := None;
    if load.LoadFailed? {
      response := ErrorResponse(Thrown(load.message));
      return;
    }
    if load.row.None? {
      response := NotFoundResponse;
      return;
    }
    var suratData := load.row.value;
    if !Truthy(Get(suratData, "template_key")) {
      suratData := suratData["template_key" := Str(DefaultTemplateKey)];
    }
    assert suratData == WithTemplateKey(load.row.value);
    templateUrl := Some(TemplateUrl(baseUrl, suratData));

    var parts: seq<Part>;
    match fetch {
      case FetchFailed(m) =>
        response := ErrorResponse(Thrown(m));
        return;
      case Fetched(Unreadable(m)) =>
        response := ErrorResponse(Thrown(m));
        return;
      case Fetched(Malformed(errs)) =>
        response := ErrorResponse(TemplateErrors(errs));
        return;
      case Fetched(Parsed(ps)) =>
        parts := ps;
    }

    var anggotaData: seq<Value> := [];
    var anggota := Get(suratData, "anggota");
    if Truthy(anggota) {
      var mapped := RenderMembers(anggota);
      if mapped.Err? {
        response := ErrorResponse(Thrown(mapped.error));
        return;
      }
      anggotaData := mapped.value;
    }
    assert anggotaData == RenderMembers(anggota).value;
    var dataToRender := DataToRender(suratData, anggotaData, today);
    var content := Render(parts, dataToRender);

    var safe := SafeFilename(Get(suratData, "ketua_nama"));
    if safe.Err? {
      response := ErrorResponse(Thrown(safe.error));
      return;
    }
    response := DocumentResponse(Disposition(safe.value), DocxContentType, content);
  }
}
