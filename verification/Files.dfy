/** Fiscal documents at rest: create-if-absent objects and one metadata row per
    (company, invoice, kind). Pure operations; FileService.dfy runs them on live objects. */
module Files {
  import opened Documents
  import K = ObjectKeys

  /** How a call to a backend ends: done; refused; or done with the answer lost. */
  datatype Fault = NoFault | NotDone | DoneUnreported

  datatype RowId = RowId(companyId: string, invoiceId: string, kind: string)

  datatype FileRow = FileRow(id: RowId, storageKey: string, sha: Digest, size: nat, contentType: string)

  datatype Files = Files(objects: map<string, string>, rows: map<RowId, FileRow>)

  /** The table's primary key is part of each row. */
  predicate Keyed(rows: map<RowId, FileRow>) {
    forall id | id in rows :: rows[id].id == id
  }

  // ---- Backend operations ----------------------------------------------------------

  datatype PutOutcome = Created | AlreadyExists | PutFailed

  /** `Storage.Put`: never replaces an object; a declared size must match. */
  function PutObject(objects: map<string, string>, key: string, content: string, size: nat, fault: Fault)
    : (map<string, string>, PutOutcome)
  {
    if fault == NotDone then (objects, PutFailed)
    else if key in objects then (objects, if fault == NoFault then AlreadyExists else PutFailed)
    else if size > 0 && size != |content| then (objects, PutFailed)
    else (objects[key := content], if fault == NoFault then Created else PutFailed)
  }

  function DeleteObject(objects: map<string, string>, key: string, fault: Fault): (map<string, string>, bool) {
    if fault == NotDone then (objects, false) else (objects - {key}, fault == NoFault)
  }

  /** `CreateFile`: the table is unique on its identity. */
  function CreateRow(rows: map<RowId, FileRow>, row: FileRow, fault: Fault): (map<RowId, FileRow>, bool) {
    if fault == NotDone || row.id in rows then (rows, false)
    else (rows[row.id := row], fault == NoFault)
  }

  /** `DeleteFile`: only the row that still points at this object. */
  function DeleteRow(rows: map<RowId, FileRow>, id: RowId, storageKey: string, fault: Fault)
    : (map<RowId, FileRow>, bool)
  {
    if fault == NotDone then (rows, false)
    else (if id in rows && rows[id].storageKey == storageKey then rows - {id} else rows, fault == NoFault)
  }

  // ---- SaveWithStatus ----------------------------------------------------------------

  datatype Ownership = Owned | Foreign | OwnershipUnknown

  datatype SaveRequest = SaveRequest(
    companyId: string, invoiceId: string, cuf: string, kind: string, content: string, size: nat)
  {
    function Id(): RowId {
      RowId(companyId, invoiceId, kind)
    }

    function Key(): string {
      K.Key(companyId, invoiceId, cuf, kind)
    }

    function ContentType(): string {
      if kind == "pdf" then "application/pdf" else "application/xml"
    }

    /** The row a successful save is described by. */
    function Row(): FileRow {
      FileRow(Id(), Key(), DigestOf(content), |content|, ContentType())
    }
  }

  datatype SaveFaults = SaveFaults(
    ownership: Ownership, put: Fault, stat: Fault, find: Fault, create: Fault, delete: Fault)

  const NO_FAULTS := SaveFaults(Owned, NoFault, NoFault, NoFault, NoFault, NoFault)

  datatype SaveError = BadKey | NotOwned | OwnershipError | PutError | StatError
    | DifferentContent | NoMatchingMetadata | MetadataError

  datatype SaveOutcome = Saved(row: FileRow, created: bool) | SaveFailed(error: SaveError)

  /** The object already exists: accept it only if it is this content, and repair a missing row. */
  function Reconcile(fs: Files, req: SaveRequest, faults: SaveFaults): (Files, SaveOutcome) {
    if req.Key() !in fs.objects || faults.stat != NoFault then (fs, SaveFailed(StatError))
    else
      var stored := fs.objects[req.Key()];
      if DigestOf(stored) != DigestOf(req.content) || (req.size > 0 && |stored| != req.size) then
        (fs, SaveFailed(DifferentContent))
      else if faults.find == NoFault && req.Id() in fs.rows then
        var existing := fs.rows[req.Id()];
        if existing.storageKey == req.Key() && existing.sha == DigestOf(req.content) then (fs, Saved(existing, false))
        else (fs, SaveFailed(NoMatchingMetadata))
      else if faults.find == NoFault then
        var (rows, ok) := CreateRow(fs.rows, req.Row(), faults.create);
        (fs.(rows := rows), if ok then Saved(req.Row(), false) else SaveFailed(NoMatchingMetadata))
      else (fs, SaveFailed(NoMatchingMetadata))
  }

  /** The object was created: register it, or take it back. */
  function Register(fs: Files, req: SaveRequest, faults: SaveFaults): (Files, SaveOutcome) {
    var (rows, ok) := CreateRow(fs.rows, req.Row(), faults.create);
    if ok then (fs.(rows := rows), Saved(req.Row(), true))
    else
      (Files(DeleteObject(fs.objects, req.Key(), faults.delete).0, rows), SaveFailed(MetadataError))
  }

  function Save(fs: Files, req: SaveRequest, faults: SaveFaults): (Files, SaveOutcome) {
    if K.InvoiceObjectKey(req.companyId, req.invoiceId, req.cuf, req.kind).Err? then (fs, SaveFailed(BadKey))
    else if faults.ownership == OwnershipUnknown then (fs, SaveFailed(OwnershipError))
    else if faults.ownership == Foreign then (fs, SaveFailed(NotOwned))
    else
      var (objects, put) := PutObject(fs.objects, req.Key(), req.content, req.size, faults.put);
      var staged := fs.(objects := objects);
      match put
      case AlreadyExists => Reconcile(staged, req, faults)
      case PutFailed => (staged, SaveFailed(PutError))
      case Created => Register(staged, req, faults)
  }

  /** `RemoveCreated`: the row first, then the object. */
  function Remove(fs: Files, row: FileRow, deleteRow: Fault, deleteObject: Fault): (Files, bool) {
    var (rows, rowGone) := DeleteRow(fs.rows, row.id, row.storageKey, deleteRow);
    if !rowGone then (fs.(rows := rows), false)
    else
      var (objects, objectGone) := DeleteObject(fs.objects, row.storageKey, deleteObject);
      (Files(objects, rows), objectGone)
  }

  datatype ReadOutcome = Read(content: string, row: FileRow) | Missing | Unreadable

  /** `ReadAll`: the row, then the object it points at. */
  function ReadFile(fs: Files, id: RowId, ownership: Ownership, find: Fault, get: Fault): ReadOutcome {
    if id.kind != "xml" && id.kind != "pdf" then Unreadable
    else if ownership == OwnershipUnknown then Unreadable
    else if ownership == Foreign then Missing
    else if find != NoFault then Unreadable
    else if id !in fs.rows then Missing
    else if get != NoFault then Unreadable
    else if fs.rows[id].storageKey !in fs.objects then Missing
    else Read(fs.objects[fs.rows[id].storageKey], fs.rows[id])
  }

  // ---- What they guarantee -------------------------------------------------------------

  /** The document is at rest: its object holds exactly `content` and its row says so. */
  predicate Holds(fs: Files, companyId: string, invoiceId: string, cuf: string, kind: string, content: string) {
    var key := K.Key(companyId, invoiceId, cuf, kind);
    var id := RowId(companyId, invoiceId, kind);
    && K.Accepted(companyId, invoiceId, cuf, kind)
    && key in fs.objects && fs.objects[key] == content
    && id in fs.rows && fs.rows[id].storageKey == key && fs.rows[id].sha == DigestOf(content)
  }

  /** Nothing stored changed, and nothing but this document was added. */
  predicate OnlyAdds(fs: Files, after: Files, req: SaveRequest) {
    && (forall k | k in fs.objects :: k in after.objects && after.objects[k] == fs.objects[k])
    && after.objects.Keys <= fs.objects.Keys + {req.Key()}
    && (forall id | id in fs.rows :: id in after.rows && after.rows[id] == fs.rows[id])
    && after.rows.Keys <= fs.rows.Keys + {req.Id()}
  }

  lemma RegisterOnlyAdds(fs: Files, staged: Files, req: SaveRequest, faults: SaveFaults)
    requires req.Key() !in fs.objects && staged == fs.(objects := fs.objects[req.Key() := req.content])
    ensures OnlyAdds(fs, Register(staged, req, faults).0, req)
  {
  }

  lemma ReconcileOnlyAdds(fs: Files, req: SaveRequest, faults: SaveFaults)
    ensures OnlyAdds(fs, Reconcile(fs, req, faults).0, req)
  {
  }

  /** Whatever fails, a stored object is never changed, and nothing but this document is touched. */
  lemma SaveNeverOverwrites(fs: Files, req: SaveRequest, faults: SaveFaults)
    ensures OnlyAdds(fs, Save(fs, req, faults).0, req)
  {
    hide Register, Reconcile;
    var (objects, put) := PutObject(fs.objects, req.Key(), req.content, req.size, faults.put);
    if put == Created {
      RegisterOnlyAdds(fs, fs.(objects := objects), req, faults);
    } else if put == AlreadyExists {
      assert fs.(objects := objects) == fs;
      ReconcileOnlyAdds(fs, req, faults);
    }
  }

  /** Success means the document is at rest, and `created` tells whether this call put it there. */
  lemma SavedMeansAtRest(fs: Files, req: SaveRequest, faults: SaveFaults)
    ensures var (fs', r) := Save(fs, req, faults);
            r.Saved? ==>
              && Holds(fs', req.companyId, req.invoiceId, req.cuf, req.kind, req.content)
              && fs'.rows[req.Id()] == r.row
              && (r.created <==> req.Key() !in fs.objects)
              && (r.created ==> req.Id() !in fs.rows)
              && (req.size > 0 ==> req.size == |req.content|)
  {
  }

  /** The whole effect of a successful save: object and row, or at most the missing row. */
  lemma SavedEffect(fs: Files, req: SaveRequest, faults: SaveFaults)
    requires Keyed(fs.rows) && Save(fs, req, faults).1.Saved?
    ensures var (after, r) := Save(fs, req, faults);
            && r.row.id == req.Id() && r.row.storageKey == req.Key() && r.row.sha == DigestOf(req.content)
            && K.Accepted(req.companyId, req.invoiceId, req.cuf, req.kind)
            && (r.created ==>
                  && r.row.id !in fs.rows && r.row.storageKey !in fs.objects
                  && after == Files(fs.objects[req.Key() := req.content], fs.rows[req.Id() := r.row]))
            && (!r.created ==>
                  && r.row.storageKey in fs.objects && (r.row.id in fs.rows ==> fs.rows[r.row.id] == r.row)
                  && after == Files(fs.objects, fs.rows[req.Id() := r.row]))
  {
    var (after, r) := Save(fs, req, faults);
    SavedMeansAtRest(fs, req, faults);
    if r.row.id in fs.rows { assert fs.rows[r.row.id := r.row] == fs.rows; }
  }

  /** What was saved is what is read back, under the row the save returned, from then on: whatever
      else is saved meanwhile, and however it fails. */
  lemma SavedIsReadBack(fs: Files, req: SaveRequest, faults: SaveFaults, other: SaveRequest, later: SaveFaults)
    requires Save(fs, req, faults).1.Saved?
    ensures var (fs', r) := Save(fs, req, faults);
            ReadFile(Save(fs', other, later).0, req.Id(), Owned, NoFault, NoFault) == Read(req.content, r.row)
  {
    SavedMeansAtRest(fs, req, faults);
    SaveNeverOverwrites(Save(fs, req, faults).0, other, later);
  }

  /** Saving again changes nothing and reports that nothing was created. */
  lemma SaveTwice(fs: Files, req: SaveRequest, faults: SaveFaults)
    ensures var (fs', r) := Save(fs, req, faults);
            r.Saved? ==> Save(fs', req, NO_FAULTS) == (fs', Saved(r.row, false))
  {
    SavedMeansAtRest(fs, req, faults);
  }

  /** A document at rest is saved again without a trace. */
  lemma SaveAtRest(fs: Files, req: SaveRequest)
    requires Holds(fs, req.companyId, req.invoiceId, req.cuf, req.kind, req.content)
    requires req.size > 0 ==> req.size == |req.content|
    ensures Save(fs, req, NO_FAULTS) == (fs, Saved(fs.rows[req.Id()], false))
  {
    K.AcceptedKeysAreValid(req.companyId, req.invoiceId, req.cuf, req.kind);
    assert fs.(objects := fs.objects) == fs;
  }

  /** A document at rest admits no other: with a different CUF or different bytes the save fails. */
  lemma SecondDocumentRefused(fs: Files, req: SaveRequest, faults: SaveFaults, cuf: string, content: string)
    requires Holds(fs, req.companyId, req.invoiceId, cuf, req.kind, content)
    ensures Save(fs, req, faults).1.Saved? ==> req.cuf == cuf && req.content == content
  {
    var (fs', r) := Save(fs, req, faults);
    if r.Saved? {
      SavedMeansAtRest(fs, req, faults);
      SaveNeverOverwrites(fs, req, faults);
      K.KeyInjective(req.companyId, req.invoiceId, req.cuf, req.kind, req.companyId, req.invoiceId, cuf, req.kind);
    }
  }

  /** A failed save whose backend calls report truthfully, and whose own cleanup works, leaves no trace. */
  lemma FailedSaveLeavesNoTrace(fs: Files, req: SaveRequest, faults: SaveFaults)
    requires faults.put != DoneUnreported && faults.create != DoneUnreported && faults.delete != NotDone
    ensures var (fs', r) := Save(fs, req, faults); r.SaveFailed? ==> fs' == fs
  {
    var (fs', r) := Save(fs, req, faults);
    var (objects, put) := PutObject(fs.objects, req.Key(), req.content, req.size, faults.put);
    if put == Created {
      assert objects - {req.Key()} == fs.objects;
    }
  }

  /** `RemoveCreated` undoes a creating save exactly. */
  lemma RemoveUndoesSave(fs: Files, req: SaveRequest, faults: SaveFaults)
    ensures var (fs', r) := Save(fs, req, faults);
            r.Saved? && r.created ==> Remove(fs', r.row, NoFault, NoFault) == (fs, true)
  {
    var (fs', r) := Save(fs, req, faults);
    if r.Saved? && r.created {
      SavedMeansAtRest(fs, req, faults);
      assert fs'.rows - {req.Id()} == fs.rows;
      assert fs'.objects - {req.Key()} == fs.objects;
    }
  }

  // ---- When a save succeeds, and what it leaves --------------------------------------------------------

  predicate Declared(req: SaveRequest) {
    req.size == 0 || req.size == |req.content|
  }

  /** The row under the request's identity points at this object and carries its digest. */
  predicate Matches(row: FileRow, req: SaveRequest) {
    row.storageKey == req.Key() && row.sha == DigestOf(req.content)
  }

  /** The exact condition under every fault: a key, an owned invoice, an honest size, a put that is answered,
      and either nothing there and a row that gets written, or the same content there with a row that matches
      or is absent and gets repaired. */
  lemma SavedIff(fs: Files, req: SaveRequest, faults: SaveFaults)
    ensures var (key, id) := (req.Key(), RowId(req.companyId, req.invoiceId, req.kind));
            Save(fs, req, faults).1.Saved? <==>
            && K.Accepted(req.companyId, req.invoiceId, req.cuf, req.kind)
            && faults.ownership == Owned && faults.put == NoFault && Declared(req)
            && (|| (key !in fs.objects && id !in fs.rows && faults.create == NoFault)
                || (&& key in fs.objects && fs.objects[key] == req.content
                    && faults.stat == NoFault && faults.find == NoFault
                    && if id in fs.rows then Matches(fs.rows[id], req) else faults.create == NoFault))
  {
    if K.Accepted(req.companyId, req.invoiceId, req.cuf, req.kind) {
      K.AcceptedKeysAreValid(req.companyId, req.invoiceId, req.cuf, req.kind);
    }
    hide K.ValidObjectKey, K.Key;
  }

  /** The row of a document, in full. */
  predicate Describes(row: FileRow, req: SaveRequest) {
    && row.id == RowId(req.companyId, req.invoiceId, req.kind)
    && row.storageKey ==
       "companies/" + req.companyId + "/invoices/" + req.invoiceId + "/" + req.cuf + "." + req.kind
    && row.sha == DigestOf(req.content) && row.size == |req.content|
    && row.contentType == (if req.kind == "pdf" then "application/pdf" else "application/xml")
  }

  /** The first save of a document, if nothing fails: its object, its row, and `created`. */
  lemma FirstSaveStores(fs: Files, req: SaveRequest)
    requires K.Accepted(req.companyId, req.invoiceId, req.cuf, req.kind) && Declared(req)
    requires req.Key() !in fs.objects && RowId(req.companyId, req.invoiceId, req.kind) !in fs.rows
    ensures var (after, r) := Save(fs, req, NO_FAULTS);
            && r.Saved? && r.created && Describes(r.row, req)
            && after == Files(fs.objects[r.row.storageKey := req.content], fs.rows[r.row.id := r.row])
  {
    SavedIff(fs, req, NO_FAULTS);
    KeyText(req);
    hide K.ValidObjectKey, K.Key;
  }

  /** A save that finds its own document without a row writes that row, and has not created the document. */
  lemma SaveRepairsTheRow(fs: Files, req: SaveRequest)
    requires K.Accepted(req.companyId, req.invoiceId, req.cuf, req.kind) && Declared(req)
    requires req.Key() in fs.objects && fs.objects[req.Key()] == req.content
    requires RowId(req.companyId, req.invoiceId, req.kind) !in fs.rows
    ensures var (after, r) := Save(fs, req, NO_FAULTS);
            && r.Saved? && !r.created && Describes(r.row, req)
            && after == Files(fs.objects, fs.rows[r.row.id := r.row])
  {
    SavedIff(fs, req, NO_FAULTS);
    KeyText(req);
    hide K.ValidObjectKey, K.Key;
  }

  lemma KeyText(req: SaveRequest)
    ensures req.Key() == "companies/" + req.companyId + "/invoices/" + req.invoiceId + "/" + req.cuf + "." + req.kind
  {
  }

  /** What a failed first save leaves: nothing, unless the put took effect unheard, the row did, or the object
      could not be taken back. */
  lemma FailedFirstSave(fs: Files, req: SaveRequest, faults: SaveFaults)
    requires req.Key() !in fs.objects && Save(fs, req, faults).1.SaveFailed?
    ensures var (after, r) := Save(fs, req, faults);
            var id := RowId(req.companyId, req.invoiceId, req.kind);
            var started := K.Accepted(req.companyId, req.invoiceId, req.cuf, req.kind) && faults.ownership == Owned
                           && faults.put != NotDone && Declared(req);
            && (req.Key() in after.objects <==>
                  started && (faults.put == DoneUnreported || faults.delete == NotDone))
            && (id !in fs.rows ==>
                  (id in after.rows <==> started && faults.put == NoFault && faults.create == DoneUnreported))
            && (r.error == BadKey <==> !K.Accepted(req.companyId, req.invoiceId, req.cuf, req.kind))
            && (r.error == MetadataError <==> started && faults.put == NoFault)
            && (r.error == OwnershipError <==> r.error != BadKey && faults.ownership == OwnershipUnknown)
            && (r.error == NotOwned <==> r.error != BadKey && faults.ownership == Foreign)
            && r.error in {BadKey, OwnershipError, NotOwned, PutError, MetadataError}
  {
    SavedIff(fs, req, faults);
    if K.Accepted(req.companyId, req.invoiceId, req.cuf, req.kind) {
      K.AcceptedKeysAreValid(req.companyId, req.invoiceId, req.cuf, req.kind);
    }
    hide K.ValidObjectKey, K.Key;
  }

  /** A save that fails over an object already there changes no object, and says why. */
  lemma FailedSecondSave(fs: Files, req: SaveRequest, faults: SaveFaults)
    requires K.Accepted(req.companyId, req.invoiceId, req.cuf, req.kind) && faults.ownership == Owned
    requires req.Key() in fs.objects && Save(fs, req, faults).1.SaveFailed?
    ensures var (after, r) := Save(fs, req, faults);
            var same := fs.objects[req.Key()] == req.content && Declared(req);
            && after.objects == fs.objects
            && r.error == if faults.put != NoFault then PutError
                          else if faults.stat != NoFault then StatError
                          else if !same then DifferentContent
                          else NoMatchingMetadata
  {
    K.AcceptedKeysAreValid(req.companyId, req.invoiceId, req.cuf, req.kind);
    hide K.ValidObjectKey, K.Key;
  }

  /** What is read is what is there: the bytes under the row's key; nothing for another company's invoice, or
      without a row or an object; an error for any failure. */
  lemma ReadFileIff(fs: Files, id: RowId, ownership: Ownership, find: Fault, get: Fault)
    ensures var r := ReadFile(fs, id, ownership, find, get);
            && (r.Unreadable? <==>
                  || id.kind !in {"xml", "pdf"} || ownership == OwnershipUnknown
                  || (ownership == Owned && (find != NoFault || (id in fs.rows && get != NoFault))))
            && (r.Read? ==> id in fs.rows && r.row == fs.rows[id] && r.row.storageKey in fs.objects
                            && r.content == fs.objects[r.row.storageKey] && ownership == Owned)
            && (r.Missing? <==>
                  && id.kind in {"xml", "pdf"}
                  && (ownership == Foreign ||
                      (ownership == Owned && find == NoFault &&
                       (id !in fs.rows || (get == NoFault && fs.rows[id].storageKey !in fs.objects)))))
  {
  }

  /** What a removal takes away: this row if it still points at this object, and then the object. */
  lemma RemoveTakes(fs: Files, row: FileRow, deleteRow: Fault, deleteObject: Fault)
    ensures var (after, ok) := Remove(fs, row, deleteRow, deleteObject);
            && (ok <==> deleteRow == NoFault && deleteObject == NoFault)
            && after.rows ==
               (if deleteRow != NotDone && row.id in fs.rows && fs.rows[row.id].storageKey == row.storageKey
                then fs.rows - {row.id} else fs.rows)
            && after.objects == (if deleteRow == NoFault && deleteObject != NotDone
                                 then fs.objects - {row.storageKey} else fs.objects)
  {
  }
}
