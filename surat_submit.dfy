/**
  `POST /submit`: the request body becomes one stored letter row, owned by
  the caller, plus one row per team member. Storage is outside the model:
  the handler receives its answers as parameters.
*/
module SuratSubmit {
  import opened Wrappers
  import opened JsStrings
  import opened JsValues
  import opened ServerResponses


  /** The row inserted into `surat`: the body without `anggota`, owned by the caller. */
  function StoredRow(body: Record, userId: string): (row: Record)
    ensures row.Keys == (body.Keys - {"anggota"}) + {"user_id"}
    ensures row["user_id"] == Str(userId)
    ensures forall k :: k in body && k != "anggota" && k != "user_id" ==> row[k] == body[k]
  {
    (body - {"anggota"})["user_id" := Str(userId)]
  }

  /** `{ ...a, surat_id: id }` */
  function MemberRow(a: Value, suratId: Value): Record
  {
    Spread(a)["surat_id" := suratId]
  }

  /** `anggota.map(a => ({ ...a, surat_id: id }))` */
  function MemberRows(anggota: seq<Value>, suratId: Value): (rows: seq<Record>)
    ensures |rows| == |anggota|
    ensures forall i :: 0 <= i < |rows| ==>
      rows[i].Keys == Spread(anggota[i]).Keys + {"surat_id"} &&
      rows[i]["surat_id"] == suratId &&
      forall k :: k in Spread(anggota[i]) && k != "surat_id" ==> rows[i][k] == Spread(anggota[i])[k]
  {
    seq(|anggota|, i requires 0 <= i < |anggota| => MemberRow(anggota[i], suratId))
  }

  /**
    `anggota.length > 0`: an array's or a string's length, or the `length`
    property of an object converted to a number by `>`.
  */
  predicate HasPositiveLength(v: Value)
  {
    match v
    case Arr(items) => |items| > 0
    case Str(s) => |s| > 0
    case Obj(m) => GreaterThanZero(Get(m, "length"))
    case _ => false
  }

  /** What the handler does about members once the record is stored. */
  datatype MemberPlan =
    | NoMemberInsert
    | InsertMembers(rows: seq<Record>)
    | MemberMapFails(message: string)

  /** `if (anggota && anggota.length > 0)`, then `anggota.map(...)` (only arrays have `map`). */
  function PlanMembers(anggota: Value, suratId: Value): (p: MemberPlan)
    ensures p.InsertMembers? <==> anggota.Arr? && |anggota.items| > 0
    ensures p.InsertMembers? ==> p.rows == MemberRows(anggota.items, suratId)
    ensures p.MemberMapFails? <==> !anggota.Arr? && HasPositiveLength(anggota)
    ensures !Truthy(anggota) ==> p == NoMemberInsert
  {
    if !(Truthy(anggota) && HasPositiveLength(anggota)) then NoMemberInsert
    else if anggota.Arr? then InsertMembers(MemberRows(anggota.items, suratId))
    else MemberMapFails("anggota.map is not a function")
  }

  /** Outcome of an insert into storage: the row storage returns, or its error. */
  datatype Insert = Inserted(row: Record) | InsertFailed(message: string)

  /**
    The `/submit` handler. `recordInsert` is what storage answers to the
    record insert, `memberInsertError` what it answers to the member insert.
    Returns the row sent for insertion, the member rows sent (if any) and
    the response.
  */
  method Submit(body: Record, userId: string, recordInsert: Insert, memberInsertError: Option<string>)
    returns (recordRow: Record, memberRows: Option<seq<Record>>, response: Response)
    ensures recordRow == StoredRow(body, userId)
    ensures recordInsert.InsertFailed? ==>
      memberRows == None && response == ErrorResponse(Thrown(recordInsert.message))
    ensures recordInsert.Inserted? ==>
      var plan := PlanMembers(Get(body, "anggota"), Get(recordInsert.row, "id"));
      && memberRows == (if plan.InsertMembers? then Some(plan.rows) else None)
      && response == (
        if plan.MemberMapFails? then ErrorResponse(Thrown(plan.message))
        else if plan.InsertMembers? && memberInsertError.Some? then ErrorResponse(Thrown(memberInsertError.value))
        else JsonResponse(201, recordInsert.row))
  {
    var anggota := Get(body, "anggota");
    recordRow := StoredRow(body, userId);
    memberRows := None;
    if recordInsert.InsertFailed? {
      response := ErrorResponse(Thrown(recordInsert.message));
      return;
    }
    var newSurat := recordInsert.row;
    var plan := PlanMembers(anggota, Get(newSurat, "id"));
    match plan {
      case MemberMapFails(m) =>
        response := ErrorResponse(Thrown(m));
        return;
      case InsertMembers(rows) =>
        memberRows := Some(rows);
        if memberInsertError.Some? {
          response := ErrorResponse(Thrown(memberInsertError.value));
          return;
        }
      case NoMemberInsert =>
    }
    response := JsonResponse(201, newSurat);
  }

  /**
    An object whose `length` compares as positive passes the guard and then
    fails on `map`, whether that `length` is a number, a decimal string,
    `true` or a one-element array; `Submit` then answers an error.
  */
  lemma ObjectLengthConverted(n: nat, suratId: Value)
    requires n > 0
    ensures PlanMembers(Obj(map["length" := Str(DecimalString(n))]), suratId).MemberMapFails?
    ensures PlanMembers(Obj(map["length" := Bool(true)]), suratId).MemberMapFails?
    ensures PlanMembers(Obj(map["length" := Arr([Num(n)])]), suratId).MemberMapFails?
    ensures PlanMembers(Obj(map["length" := Num(n)]), suratId).MemberMapFails?
    ensures PlanMembers(Obj(map["length" := Str("-" + DecimalString(n))]), suratId) == NoMemberInsert
    ensures PlanMembers(Obj(map[]), suratId) == NoMemberInsert
  {
    GreaterThanZeroOf(n);
    NotGreaterThanZeroOf(n);
  }
}
