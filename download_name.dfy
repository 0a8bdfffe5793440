/** The filename a generated letter is offered under. */
module DownloadName {
  import opened Wrappers
  import opened JsStrings
  import opened JsValues


  /** `name.replace(/[^a-z0-9]/gi, '_')` */
  function Sanitise(name: string): (r: string)
    ensures |r| == |name|
    ensures forall i :: 0 <= i < |r| ==> IsAlnum(r[i]) || r[i] == '_'
    ensures forall i :: 0 <= i < |r| ==> IsAlnum(name[i]) ==> r[i] == name[i]
    ensures forall i :: 0 <= i < |r| ==> !IsAlnum(name[i]) ==> r[i] == '_'
  {
    seq(|name|, i requires 0 <= i < |name| => if IsAlnum(name[i]) then name[i] else '_')
  }

  lemma SanitiseIdempotent(name: string)
    ensures Sanitise(Sanitise(name)) == Sanitise(name)
  {
    var once := Sanitise(name);
    var twice := Sanitise(once);
    forall i | 0 <= i < |once| ensures twice[i] == once[i] {
      if !IsAlnum(once[i]) { assert once[i] == '_'; }
    }
  }

  /** `(suratData.ketua_nama || 'Dokumen').replace(...)`; a non-string has no `replace`. */
  function SafeFilename(ketuaNama: Value): (r: Result<string, string>)
    ensures !Truthy(ketuaNama) ==> r == Ok("Dokumen")
    ensures Truthy(ketuaNama) && ketuaNama.Str? ==> r == Ok(Sanitise(ketuaNama.s))
    ensures Truthy(ketuaNama) && !ketuaNama.Str? ==> r.Err?
    ensures r.Ok? ==> forall i :: 0 <= i < |r.value| ==> IsAlnum(r.value[i]) || r.value[i] == '_'
  {
    var name := Or(ketuaNama, Str("Dokumen"));
    if name.Str? then
      assert Sanitise("Dokumen") == "Dokumen" by {
        assert forall i :: 0 <= i < |"Dokumen"| ==> IsAlnum("Dokumen"[i]);
      }
      Ok(Sanitise(name.s))
    else Err("(suratData.ketua_nama || \"Dokumen\").replace is not a function")
  }

  /** `Surat-${safeFilename}.docx` */
  function SuggestedName(safe: string): string
  {
    "Surat-" + safe + ".docx"
  }

  /** The `Content-Disposition` header value. */
  function Disposition(safe: string): string
  {
    "attachment; filename=" + SuggestedName(safe)
  }

  predicate FilenameChar(c: char) { IsAlnum(c) || c == '_' || c == '.' || c == '-' }

  predicate AllFilenameChars(s: string) { forall i :: 0 <= i < |s| ==> FilenameChar(s[i]) }

  lemma ConcatFilenameChars(a: string, b: string)
    requires AllFilenameChars(a) && AllFilenameChars(b)
    ensures AllFilenameChars(a + b)
  {
    forall i | 0 <= i < |a + b| ensures FilenameChar((a + b)[i]) {
      if i >= |a| { assert (a + b)[i] == b[i - |a|]; }
    }
  }

  lemma FixedPartsAreFilenameChars()
    ensures AllFilenameChars("Surat-") && AllFilenameChars(".docx")
  {
  }

  /**
    The header is `attachment; filename=Surat-<safe>.docx`, and the suggested
    name uses only `[A-Za-z0-9_.-]` whatever the leader's name was.
  */
  lemma DispositionFilename(ketuaNama: Value)
    requires SafeFilename(ketuaNama).Ok?
    ensures var safe := SafeFilename(ketuaNama).value;
      && Disposition(safe) == "attachment; filename=" + SuggestedName(safe)
      && AllFilenameChars(SuggestedName(safe))
  {
    var safe := SafeFilename(ketuaNama).value;
    assert AllFilenameChars(safe);
    FixedPartsAreFilenameChars();
    ConcatFilenameChars("Surat-", safe);
    ConcatFilenameChars("Surat-" + safe, ".docx");
  }
}
