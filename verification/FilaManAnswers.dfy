/** The answers of the server, and what the device makes of them before it believes them. */
module FilaManAnswers {
  import opened Text
  import opened Identity
  import opened Inventory
  import opened FilaManServer

  /** An answer after HTTP and JSON. `Unusable` is an error status, or a text that is none of the others. */
  datatype Answer =
    | Listed(found: Option<ExistingSpool>)
    | Imported(status: string, spoolId: nat, externalId: string)
    | Moved(status: string, spoolId: nat, locationId: nat)
    | Unusable

  predicate NamesSpool(spool: FilamentSpool, externalId: string) {
    EqIgnoreCase(externalId, CanonicalId(spool)) || EqIgnoreCase(externalId, spool.externalId)
  }

  /** `import_spool_inner` with the decision of `apply_storage_online` after it. */
  function ReadImport(spool: FilamentSpool, answer: Answer): Progress {
    if !answer.Imported? then Failed(false)
    else if answer.status !in {"created", "existing", "updated"} then Failed(false)
    else if !NamesSpool(spool, answer.externalId) then Failed(false)
    else if answer.status == "created" then Done(answer.spoolId)
    else Next(Move(answer.spoolId))
  }

  /** `move_spool_inner` */
  function ReadMove(spoolId: nat, locationId: nat, answer: Answer): Progress {
    if !answer.Moved? then Failed(false)
    else if answer.status != "moved" || answer.spoolId != spoolId || answer.locationId != locationId then Failed(false)
    else Done(spoolId)
  }

  function ReadList(locationId: nat, answer: Answer): Progress {
    if !answer.Listed? then Failed(false)
    else if answer.found.None? then Next(Import)
    else if answer.found.value.locationId == Some(locationId) then Done(answer.found.value.id)
    else Next(Move(answer.found.value.id))
  }

  /** What the device learns from an answer. */
  function ReadAnswer(spool: FilamentSpool, locationId: nat, call: Call, answer: Answer): Progress {
    match call
    case Find => ReadList(locationId, answer)
    case Import => ReadImport(spool, answer)
    case Move(spoolId) => ReadMove(spoolId, locationId, answer)
  }

  /** What the server says to a request. */
  function AnswerOf(s: Server, id: string, locationId: nat, call: Call): Answer {
    match call
    case Find =>
      Listed(if id in s.records then Some(ExistingSpool(s.records[id].spoolId, s.records[id].locationId)) else None)
    case Import =>
      if id in s.records then Imported("existing", s.records[id].spoolId, id) else Imported("created", s.nextId, id)
    case Move(spoolId) => if HasSpool(s, spoolId) then Moved("moved", spoolId, locationId) else Unusable
  }

  /** The device believes the server's own answers, whatever spool they are about, and learns from them what the
      server did. */
  lemma OwnAnswersAreBelieved(s: Server, spool: FilamentSpool, locationId: nat, call: Call)
    ensures ReadAnswer(spool, locationId, call, AnswerOf(s, CanonicalId(spool), locationId, call))
         == Serve(s, CanonicalId(spool), locationId, call).1
  {
  }

  /** An import counts only with a status the plugin knows, and as new only with the status for new. */
  lemma ImportStatus(spool: FilamentSpool, locationId: nat, status: string, spoolId: nat)
    ensures ReadAnswer(spool, locationId, Import, Imported(status, spoolId, CanonicalId(spool)))
         == if status == "created" then Done(spoolId)
            else if status == "existing" || status == "updated" then Next(Move(spoolId))
            else Failed(false)
  {
  }

  /** An import may answer with the canonical id or with the bare one, in any letter case. */
  lemma ImportNames(spool: FilamentSpool, locationId: nat, spoolId: nat, externalId: string)
    ensures ReadAnswer(spool, locationId, Import, Imported("created", spoolId, externalId))
         == if ToLower(externalId) == ToLower(CanonicalId(spool)) || ToLower(externalId) == ToLower(spool.externalId)
            then Done(spoolId) else Failed(false)
  {
    CaseFolding(externalId, CanonicalId(spool));
    CaseFolding(externalId, spool.externalId);
  }

  /** A move counts only with its own status. */
  lemma MoveStatus(spool: FilamentSpool, locationId: nat, status: string, spoolId: nat)
    ensures ReadAnswer(spool, locationId, Move(spoolId), Moved(status, spoolId, locationId))
         == if status == "moved" then Done(spoolId) else Failed(false)
  {
  }

  /** An answer to one request is refused as the answer to another: it names another spool, another place, or
      another kind of request. */
  lemma ForeignAnswersAreRefused(s: Server, spool: FilamentSpool, locationId: nat, call: Call,
                                 other: string, otherPlace: nat, otherCall: Call)
    requires !call.Find? && !NamesSpool(spool, other)
    requires call.Move? && otherCall.Move? ==> (call.spoolId, locationId) != (otherCall.spoolId, otherPlace)
    ensures ReadAnswer(spool, locationId, call, AnswerOf(s, other, otherPlace, otherCall)) == Failed(false)
  {
  }
}
