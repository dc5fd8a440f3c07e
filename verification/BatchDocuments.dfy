/** Storing the signed documents of a batch before it is sent, all or nothing. */
module BatchDocuments {
  import opened Wrappers
  import opened Documents
  import opened Files
  import FileService
  import K = ObjectKeys

  datatype BatchDocument = BatchDocument(invoiceId: string, cuf: string, xml: string, xmlHash: Digest)
  {
    function Request(companyId: string): SaveRequest {
      SaveRequest(companyId, invoiceId, cuf, "xml", xml, |xml|)
    }
  }

  datatype DeleteFaults = DeleteFaults(row: Fault, stored: Fault)

  /** How the backends would take the compensation of each row. */
  type Deletions = FileRow -> DeleteFaults

  datatype PersistError = NotSaved(invoiceId: string, error: SaveError) | HashMismatch(invoiceId: string)

  // ---- The operations on values -----------------------------------------------------------

  /** `cleanupBatchDocuments`: every row gets its compensation; failures are only logged. */
  function Cleanup(fs: Files, created: seq<FileRow>, deletes: Deletions): Files
    decreases |created|
  {
    if created == [] then fs
    else
      var f := deletes(created[0]);
      Cleanup(Remove(fs, created[0], f.row, f.stored).0, created[1..], deletes)
  }

  /** `persistBatchDocuments`, with `created` staged so far. */
  function Persist(fs: Files, companyId: string, docs: seq<BatchDocument>, faults: seq<SaveFaults>,
                   created: seq<FileRow>, deletes: Deletions)
    : (Files, Result<seq<FileRow>, PersistError>)
    requires |faults| == |docs|
    decreases |docs|
  {
    if docs == [] then (fs, Ok(created))
    else
      var doc := docs[0];
      var (saved, outcome) := Save(fs, doc.Request(companyId), faults[0]);
      if outcome.SaveFailed? then
        (Cleanup(saved, created, deletes), Err(NotSaved(doc.invoiceId, outcome.error)))
      else if outcome.row.sha != doc.xmlHash then
        var undone := if outcome.created then Cleanup(saved, [outcome.row], deletes) else saved;
        (Cleanup(undone, created, deletes), Err(HashMismatch(doc.invoiceId)))
      else
        var staged := if outcome.created then created + [outcome.row] else created;
        Persist(saved, companyId, docs[1..], faults[1..], staged, deletes)
  }

  // ---- The loops on live objects --------------------------------------------------------------

  method CleanupBatchDocuments(files: FileService.InvoiceFileService, created: seq<FileRow>, deletes: Deletions)
    requires files.Valid() && forall r | r in created :: K.ValidObjectKey(r.storageKey)
    modifies files, files.storage
    ensures files.Valid() && files.Contents() == Cleanup(old(files.Contents()), created, deletes)
  {
    var i := 0;
    while i < |created|
      invariant 0 <= i <= |created| && files.Valid()
      invariant Cleanup(old(files.Contents()), created, deletes) == Cleanup(files.Contents(), created[i..], deletes)
    {
      var f := deletes(created[i]);
      var removed := files.RemoveCreated(created[i], f.row, f.stored);
      assert created[i..][1..] == created[i + 1..];
      i := i + 1;
    }
  }

  method PersistBatchDocuments(files: FileService.InvoiceFileService, companyId: string, docs: seq<BatchDocument>,
                               faults: seq<SaveFaults>, deletes: Deletions)
    returns (r: Result<seq<FileRow>, PersistError>)
    requires files.Valid() && |faults| == |docs|
    modifies files, files.storage
    ensures files.Valid()
            && (files.Contents(), r) == Persist(old(files.Contents()), companyId, docs, faults, [], deletes)
  {
    var created: seq<FileRow> := [];
    var i := 0;
    while i < |docs|
      invariant 0 <= i <= |docs| && files.Valid()
      invariant forall row | row in created :: K.ValidObjectKey(row.storageKey)
      invariant Persist(old(files.Contents()), companyId, docs, faults, [], deletes)
             == Persist(files.Contents(), companyId, docs[i..], faults[i..], created, deletes)
    {
      var doc := docs[i];
      assert docs[i..][1..] == docs[i + 1..] && faults[i..][1..] == faults[i + 1..];
      var reader := new FileService.ByteReader(doc.xml);
      var appetite: nat := *;
      ghost var before := files.Contents();
      var outcome := files.SaveWithStatus(
        companyId, doc.invoiceId, doc.cuf, "xml", reader, |doc.xml|, faults[i], appetite);
      if outcome.SaveFailed? {
        CleanupBatchDocuments(files, created, deletes);
        return Err(NotSaved(doc.invoiceId, outcome.error));
      }
      SavedMeansAtRest(before, doc.Request(companyId), faults[i]);
      K.AcceptedKeysAreValid(companyId, doc.invoiceId, doc.cuf, "xml");
      if outcome.row.sha != doc.xmlHash {
        if outcome.created { CleanupBatchDocuments(files, [outcome.row], deletes); }
        CleanupBatchDocuments(files, created, deletes);
        return Err(HashMismatch(doc.invoiceId));
      }
      if outcome.created { created := created + [outcome.row]; }
      i := i + 1;
    }
    r := Ok(created);
  }

  // ---- All ... ------------------------------------------------------------------------------------

  predicate AllAtRest(fs: Files, companyId: string, docs: seq<BatchDocument>) {
    forall i | 0 <= i < |docs| ::
      && Holds(fs, companyId, docs[i].invoiceId, docs[i].cuf, "xml", docs[i].xml)
      && docs[i].xmlHash == DigestOf(docs[i].xml)
  }

  lemma {:induction false} PersistGrows(fs: Files, companyId: string, docs: seq<BatchDocument>, faults: seq<SaveFaults>,
                                        created: seq<FileRow>, deletes: Deletions)
    requires |faults| == |docs| && Persist(fs, companyId, docs, faults, created, deletes).1.Ok?
    ensures var fs' := Persist(fs, companyId, docs, faults, created, deletes).0;
            && (forall k | k in fs.objects :: k in fs'.objects && fs'.objects[k] == fs.objects[k])
            && (forall id | id in fs.rows :: id in fs'.rows && fs'.rows[id] == fs.rows[id])
    decreases |docs|
  {
    if docs != [] {
      SaveNeverOverwrites(fs, docs[0].Request(companyId), faults[0]);
      var (saved, outcome) := Save(fs, docs[0].Request(companyId), faults[0]);
      var staged := if outcome.created then created + [outcome.row] else created;
      PersistGrows(saved, companyId, docs[1..], faults[1..], staged, deletes);
    }
  }

  /** Success: every document of the batch is at rest with the hash it was prepared with. */
  lemma {:induction false} PersistedMeansAllAtRest(fs: Files, companyId: string, docs: seq<BatchDocument>,
                                                   faults: seq<SaveFaults>, created: seq<FileRow>, deletes: Deletions)
    requires |faults| == |docs| && Persist(fs, companyId, docs, faults, created, deletes).1.Ok?
    ensures AllAtRest(Persist(fs, companyId, docs, faults, created, deletes).0, companyId, docs)
    decreases |docs|
  {
    if docs != [] {
      SavedMeansAtRest(fs, docs[0].Request(companyId), faults[0]);
      var (saved, outcome) := Save(fs, docs[0].Request(companyId), faults[0]);
      var staged := if outcome.created then created + [outcome.row] else created;
      PersistGrows(saved, companyId, docs[1..], faults[1..], staged, deletes);
      PersistedMeansAllAtRest(saved, companyId, docs[1..], faults[1..], staged, deletes);
      var fs' := Persist(fs, companyId, docs, faults, created, deletes).0;
      forall i | 0 <= i < |docs|
        ensures Holds(fs', companyId, docs[i].invoiceId, docs[i].cuf, "xml", docs[i].xml)
        ensures docs[i].xmlHash == DigestOf(docs[i].xml)
      {
        if i > 0 { assert docs[i] == docs[1..][i - 1]; }
      }
    }
  }

  /** A batch that names an invoice twice with two documents is never persisted. */
  lemma OneDocumentPerInvoice(fs: Files, companyId: string, docs: seq<BatchDocument>, faults: seq<SaveFaults>,
                              deletes: Deletions, i: nat, j: nat)
    requires |faults| == |docs| && i < j < |docs| && docs[i].invoiceId == docs[j].invoiceId
    requires Persist(fs, companyId, docs, faults, [], deletes).1.Ok?
    ensures docs[i] == docs[j]
  {
    PersistedMeansAllAtRest(fs, companyId, docs, faults, [], deletes);
    K.KeyInjective(companyId, docs[i].invoiceId, docs[i].cuf, "xml", companyId, docs[j].invoiceId, docs[j].cuf, "xml");
  }

  /** New documents of different invoices, prepared with their own hashes. */
  predicate AllNew(fs: Files, companyId: string, docs: seq<BatchDocument>) {
    && (forall i | 0 <= i < |docs| :: IsNew(fs, companyId, docs[i]))
    && (forall i, j | 0 <= i < j < |docs| :: docs[i].invoiceId != docs[j].invoiceId)
  }

  predicate IsNew(fs: Files, companyId: string, doc: BatchDocument) {
    && K.Accepted(companyId, doc.invoiceId, doc.cuf, "xml") && doc.xmlHash == DigestOf(doc.xml)
    && K.Key(companyId, doc.invoiceId, doc.cuf, "xml") !in fs.objects
    && RowId(companyId, doc.invoiceId, "xml") !in fs.rows
  }

  function NoFaults(n: nat): seq<SaveFaults> {
    seq(n, _ => NO_FAULTS)
  }

  /** One row for each document, in order. */
  predicate AllDescribed(rows: seq<FileRow>, companyId: string, docs: seq<BatchDocument>) {
    |rows| == |docs| && forall i | 0 <= i < |docs| :: Describes(rows[i], docs[i].Request(companyId))
  }

  /** If nothing fails, a batch of new documents is stored, and every one of them is reported as created, in
      order, with its own row. */
  lemma {:induction false} NewBatchIsStored(fs: Files, companyId: string, docs: seq<BatchDocument>,
                                            created: seq<FileRow>, deletes: Deletions)
    returns (rows: seq<FileRow>)
    requires AllNew(fs, companyId, docs)
    ensures Persist(fs, companyId, docs, NoFaults(|docs|), created, deletes).1 == Ok(created + rows)
    ensures AllDescribed(rows, companyId, docs)
    decreases |docs|
  {
    rows := [];
    if docs == [] {
      assert created + [] == created;
    } else {
      hide Persist, Save, Describes, AllNew;
      var (after, outcome) := Save(fs, docs[0].Request(companyId), NO_FAULTS);
      FirstIsStored(fs, companyId, docs, created, deletes);
      OthersStayNew(fs, companyId, docs);
      var rest := NewBatchIsStored(after, companyId, docs[1..], created + [outcome.row], deletes);
      rows := [outcome.row] + rest;
      assert created + [outcome.row] + rest == created + rows;
    }
  }

  lemma FirstIsStored(fs: Files, companyId: string, docs: seq<BatchDocument>, created: seq<FileRow>, deletes: Deletions)
    requires docs != [] && AllNew(fs, companyId, docs)
    ensures var (after, outcome) := Save(fs, docs[0].Request(companyId), NO_FAULTS);
            && outcome.Saved? && Describes(outcome.row, docs[0].Request(companyId))
            && Persist(fs, companyId, docs, NoFaults(|docs|), created, deletes) ==
               Persist(after, companyId, docs[1..], NoFaults(|docs[1..]|), created + [outcome.row], deletes)
  {
    FirstSaveStores(fs, docs[0].Request(companyId));
    hide Save;
    assert NoFaults(|docs|)[1..] == NoFaults(|docs[1..]|);
  }

  lemma OthersStayNew(fs: Files, companyId: string, docs: seq<BatchDocument>)
    requires docs != [] && AllNew(fs, companyId, docs)
    ensures AllNew(Save(fs, docs[0].Request(companyId), NO_FAULTS).0, companyId, docs[1..])
  {
    var after := Save(fs, docs[0].Request(companyId), NO_FAULTS).0;
    FirstSaveStores(fs, docs[0].Request(companyId));
    SavedEffectKeys(fs, companyId, docs[0]);
    hide Save, K.Key;
    forall i | 0 <= i < |docs[1..]| ensures IsNew(after, companyId, docs[1..][i]) {
      var (a, b) := (docs[0], docs[i + 1]);
      assert IsNew(fs, companyId, b);
      if K.Key(companyId, a.invoiceId, a.cuf, "xml") == K.Key(companyId, b.invoiceId, b.cuf, "xml") {
        K.KeyInjective(companyId, a.invoiceId, a.cuf, "xml", companyId, b.invoiceId, b.cuf, "xml");
      }
    }
  }

  lemma SavedEffectKeys(fs: Files, companyId: string, doc: BatchDocument)
    requires IsNew(fs, companyId, doc)
    ensures var after := Save(fs, doc.Request(companyId), NO_FAULTS).0;
            && after.objects.Keys == fs.objects.Keys + {K.Key(companyId, doc.invoiceId, doc.cuf, "xml")}
            && after.rows.Keys == fs.rows.Keys + {RowId(companyId, doc.invoiceId, "xml")}
  {
    FirstSaveStores(fs, doc.Request(companyId));
    KeyText(doc.Request(companyId));
    hide Save;
  }

  // ---- ... or nothing -------------------------------------------------------------------------------

  predicate Truthful(faults: SaveFaults) {
    faults.put != DoneUnreported && faults.create != DoneUnreported && faults.delete != NotDone
  }

  ghost predicate Works(deletes: Deletions) {
    forall r: FileRow :: deletes(r) == DeleteFaults(NoFault, NoFault)
  }

  /** A row that a save of this company builds. */
  ghost predicate Proper(r: FileRow, companyId: string) {
    exists cuf: string ::
      && K.Accepted(companyId, r.id.invoiceId, cuf, "xml") && r.id == RowId(companyId, r.id.invoiceId, "xml")
      && r.storageKey == K.Key(companyId, r.id.invoiceId, cuf, "xml")
  }

  lemma ProperKeysNameTheirRow(r1: FileRow, r2: FileRow, companyId: string)
    requires Proper(r1, companyId) && Proper(r2, companyId)
    ensures r1.storageKey == r2.storageKey ==> r1.id == r2.id
  {
    var c1: string :| K.Accepted(companyId, r1.id.invoiceId, c1, "xml")
      && r1.storageKey == K.Key(companyId, r1.id.invoiceId, c1, "xml");
    var c2: string :| K.Accepted(companyId, r2.id.invoiceId, c2, "xml")
      && r2.storageKey == K.Key(companyId, r2.id.invoiceId, c2, "xml");
    if r1.storageKey == r2.storageKey {
      K.KeyInjective(companyId, r1.id.invoiceId, c1, "xml", companyId, r2.id.invoiceId, c2, "xml");
    }
  }

  /** New rows only describe objects that were there before. */
  predicate Undone(fs0: Files, fs: Files) {
    && fs.objects == fs0.objects
    && (forall id | id in fs0.rows :: id in fs.rows && fs.rows[id] == fs0.rows[id])
    && (forall id | id in fs.rows && id !in fs0.rows :: fs.rows[id].storageKey in fs0.objects)
  }

  /** Every staged row is new, is in the table, and has its object. */
  ghost predicate Fresh(fs0: Files, fs: Files, created: set<FileRow>, companyId: string) {
    forall r | r in created ::
      && Proper(r, companyId) && r.id !in fs0.rows && r.storageKey !in fs0.objects
      && r.id in fs.rows && fs.rows[r.id] == r && r.storageKey in fs.objects
  }

  ghost predicate ObjectsStaged(initial: map<string, string>, objects: map<string, string>, created: set<FileRow>) {
    && (forall k | k in initial :: k in objects && objects[k] == initial[k])
    && (forall k | k in objects && k !in initial :: exists r :: r in created && r.storageKey == k)
  }

  ghost predicate RowsStaged(fs0: Files, rows: map<RowId, FileRow>, created: set<FileRow>) {
    && Keyed(rows)
    && (forall id | id in fs0.rows :: id in rows && rows[id] == fs0.rows[id])
    && (forall id | id in rows && id !in fs0.rows :: rows[id] in created || rows[id].storageKey in fs0.objects)
  }

  /** `fs` is `fs0` with the objects and rows of `created` on top, and otherwise undone. */
  ghost predicate Staged(fs0: Files, fs: Files, created: set<FileRow>, companyId: string) {
    && Fresh(fs0, fs, created, companyId)
    && ObjectsStaged(fs0.objects, fs.objects, created)
    && RowsStaged(fs0, fs.rows, created)
  }

  ghost function AsSet(rows: seq<FileRow>): set<FileRow> {
    set r | r in rows
  }

  predicate NoRepeats(rows: seq<FileRow>) {
    forall i, j | 0 <= i < j < |rows| :: rows[i] != rows[j]
  }

  lemma OneMoreRow(rows: seq<FileRow>, row: FileRow)
    requires NoRepeats(rows) && row !in AsSet(rows)
    ensures NoRepeats(rows + [row]) && AsSet(rows + [row]) == AsSet(rows) + {row}
  {
  }

  lemma StagedNothing(fs0: Files, fs: Files, companyId: string)
    requires Staged(fs0, fs, {}, companyId)
    ensures Undone(fs0, fs)
  {
  }

  lemma UnstageOne(fs0: Files, fs: Files, created: set<FileRow>, companyId: string, r: FileRow)
    requires Staged(fs0, fs, created, companyId) && r in created
    ensures Staged(fs0, Remove(fs, r, NoFault, NoFault).0, created - {r}, companyId)
  {
    forall r' | r' in created - {r} ensures r'.storageKey != r.storageKey && r'.id != r.id {
      if r'.storageKey == r.storageKey { ProperKeysNameTheirRow(r, r', companyId); }
    }
    UnstageObject(fs0.objects, fs.objects, created, r);
    UnstageRow(fs0, fs.rows, created, r);
    var rest := Files(fs.objects - {r.storageKey}, fs.rows - {r.id});
    assert Remove(fs, r, NoFault, NoFault).0 == rest;
    assert Fresh(fs0, rest, created - {r}, companyId);
  }

  lemma UnstageObject(initial: map<string, string>, objects: map<string, string>, created: set<FileRow>, r: FileRow)
    requires ObjectsStaged(initial, objects, created) && r in created && r.storageKey !in initial
    ensures ObjectsStaged(initial, objects - {r.storageKey}, created - {r})
  {
    forall k | k in objects - {r.storageKey} && k !in initial
      ensures exists r' :: r' in created - {r} && r'.storageKey == k
    {
      var r' :| r' in created && r'.storageKey == k;
      assert r' in created - {r};
    }
  }

  lemma UnstageRow(fs0: Files, rows: map<RowId, FileRow>, created: set<FileRow>, r: FileRow)
    requires RowsStaged(fs0, rows, created) && r.id !in fs0.rows
    ensures RowsStaged(fs0, rows - {r.id}, created - {r})
  {
  }

  lemma {:induction false} CleanupUnstages(fs0: Files, fs: Files, created: seq<FileRow>, companyId: string,
                                           deletes: Deletions)
    requires Works(deletes) && Staged(fs0, fs, AsSet(created), companyId)
    requires NoRepeats(created)
    ensures Undone(fs0, Cleanup(fs, created, deletes))
    decreases |created|
  {
    hide Staged, Undone, Remove;
    if created == [] {
      assert AsSet(created) == {};
      StagedNothing(fs0, fs, companyId);
    } else {
      UnstageOne(fs0, fs, AsSet(created), companyId, created[0]);
      assert AsSet(created) - {created[0]} == AsSet(created[1..]);
      var rest := Remove(fs, created[0], NoFault, NoFault).0;
      CleanupUnstages(fs0, rest, created[1..], companyId, deletes);
    }
  }

  /** A successful save stages its row if it created it, and otherwise leaves the staging as it was. */
  lemma SaveStages(fs0: Files, fs: Files, created: set<FileRow>, companyId: string, doc: BatchDocument,
                   faults: SaveFaults)
    requires Staged(fs0, fs, created, companyId)
    requires Save(fs, doc.Request(companyId), faults).1.Saved?
    ensures var (fs', r) := Save(fs, doc.Request(companyId), faults);
            && Staged(fs0, fs', if r.created then created + {r.row} else created, companyId)
            && (r.created ==> r.row !in created)
  {
    SavedEffect(fs, doc.Request(companyId), faults);
    var r := Save(fs, doc.Request(companyId), faults).1;
    ProperRow(r.row, companyId, doc);
    if r.created {
      StageRow(fs0, fs, created, companyId, r.row, doc.xml);
    } else {
      RepairRow(fs0, fs, created, companyId, r.row);
    }
  }

  lemma ProperRow(row: FileRow, companyId: string, doc: BatchDocument)
    requires row.id == doc.Request(companyId).Id() && row.storageKey == doc.Request(companyId).Key()
    requires K.Accepted(companyId, doc.invoiceId, doc.cuf, "xml")
    ensures Proper(row, companyId)
  {
    assert K.Accepted(companyId, row.id.invoiceId, doc.cuf, "xml");
    assert row.storageKey == K.Key(companyId, row.id.invoiceId, doc.cuf, "xml");
  }

  lemma StageObject(initial: map<string, string>, objects: map<string, string>, created: set<FileRow>, row: FileRow,
                    xml: string)
    requires ObjectsStaged(initial, objects, created) && row.storageKey !in objects
    ensures ObjectsStaged(initial, objects[row.storageKey := xml], created + {row})
  {
    forall k | k in objects[row.storageKey := xml] && k !in initial
      ensures exists r :: r in created + {row} && r.storageKey == k
    {
      if k == row.storageKey {
        assert row in created + {row};
      } else {
        var r :| r in created && r.storageKey == k;
        assert r in created + {row};
      }
    }
  }

  lemma StageRow(fs0: Files, fs: Files, created: set<FileRow>, companyId: string, row: FileRow, xml: string)
    requires Staged(fs0, fs, created, companyId) && Proper(row, companyId)
    requires row.id !in fs.rows && row.storageKey !in fs.objects
    ensures Staged(fs0, Files(fs.objects[row.storageKey := xml], fs.rows[row.id := row]), created + {row}, companyId)
    ensures row !in created
  {
    StageObject(fs0.objects, fs.objects, created, row, xml);
    StageFresh(fs0, fs, created, companyId, row, xml);
  }

  lemma StageFresh(fs0: Files, fs: Files, created: set<FileRow>, companyId: string, row: FileRow, xml: string)
    requires Staged(fs0, fs, created, companyId) && Proper(row, companyId)
    requires row.id !in fs.rows && row.storageKey !in fs.objects
    ensures var after := Files(fs.objects[row.storageKey := xml], fs.rows[row.id := row]);
            Fresh(fs0, after, created + {row}, companyId) && RowsStaged(fs0, after.rows, created + {row})
  {
    hide Proper;
  }

  lemma RepairRow(fs0: Files, fs: Files, created: set<FileRow>, companyId: string, row: FileRow)
    requires Staged(fs0, fs, created, companyId) && Proper(row, companyId)
    requires row.storageKey in fs.objects && (row.id in fs.rows ==> fs.rows[row.id] == row)
    ensures Staged(fs0, Files(fs.objects, fs.rows[row.id := row]), created, companyId)
  {
    hide Proper;
    if row.id in fs.rows {
      assert fs.rows[row.id := row] == fs.rows;
    } else if row.storageKey !in fs0.objects {
      var other :| other in created && other.storageKey == row.storageKey;
      ProperKeysNameTheirRow(other, row, companyId);
    }
  }

  /** If the batch is refused at any document, for whatever reason, the objects are exactly as before,
      earlier rows survive, and new rows describe only objects that were already there; if it succeeds,
      cleaning up what it created does the same. */
  lemma {:induction false} AllOrNothing(fs0: Files, fs: Files, companyId: string, docs: seq<BatchDocument>,
                                        faults: seq<SaveFaults>, created: seq<FileRow>, deletes: Deletions)
    requires |faults| == |docs| && (forall i | 0 <= i < |faults| :: Truthful(faults[i])) && Works(deletes)
    requires Staged(fs0, fs, AsSet(created), companyId)
    requires NoRepeats(created)
    ensures var (fs', r) := Persist(fs, companyId, docs, faults, created, deletes);
            Undone(fs0, if r.Ok? then Cleanup(fs', r.value, deletes) else fs')
    decreases |docs|
  {
    hide Staged, Undone, Remove, Save;
    if docs == [] {
      CleanupUnstages(fs0, fs, created, companyId, deletes);
    } else {
      var doc := docs[0];
      var all := AsSet(created);
      var (saved, outcome) := Save(fs, doc.Request(companyId), faults[0]);
      if outcome.SaveFailed? {
        FailedSaveLeavesNoTrace(fs, doc.Request(companyId), faults[0]);
        CleanupUnstages(fs0, fs, created, companyId, deletes);
      } else {
        SaveStages(fs0, fs, all, companyId, doc, faults[0]);
        if outcome.row.sha != doc.xmlHash {
          MismatchUnstages(fs0, saved, created, outcome, companyId, deletes);
        } else {
          var staged := if outcome.created then created + [outcome.row] else created;
          if outcome.created { OneMoreRow(created, outcome.row); }
          AllOrNothing(fs0, saved, companyId, docs[1..], faults[1..], staged, deletes);
        }
      }
    }
  }

  /** Only the document whose hash disagrees is undone first. */
  lemma MismatchUnstages(fs0: Files, fs: Files, created: seq<FileRow>, outcome: SaveOutcome, companyId: string,
                         deletes: Deletions)
    requires Works(deletes) && outcome.Saved? && (outcome.created ==> outcome.row !in created)
    requires NoRepeats(created)
    requires var all := AsSet(created);
             Staged(fs0, fs, if outcome.created then all + {outcome.row} else all, companyId)
    ensures var undone := if outcome.created then Cleanup(fs, [outcome.row], deletes) else fs;
            Undone(fs0, Cleanup(undone, created, deletes))
  {
    hide Staged, Undone, Remove;
    var all := AsSet(created);
    if outcome.created {
      UnstageOne(fs0, fs, all + {outcome.row}, companyId, outcome.row);
      assert all + {outcome.row} - {outcome.row} == all;
      assert Cleanup(fs, [outcome.row], deletes) == Remove(fs, outcome.row, NoFault, NoFault).0;
      CleanupUnstages(fs0, Remove(fs, outcome.row, NoFault, NoFault).0, created, companyId, deletes);
    } else {
      CleanupUnstages(fs0, fs, created, companyId, deletes);
    }
  }

  /** The same, from the start of a call. */
  lemma BatchIsAllOrNothing(fs: Files, companyId: string, docs: seq<BatchDocument>, faults: seq<SaveFaults>,
                            deletes: Deletions)
    requires |faults| == |docs| && (forall i | 0 <= i < |faults| :: Truthful(faults[i])) && Works(deletes)
    requires Keyed(fs.rows)
    ensures var (fs', r) := Persist(fs, companyId, docs, faults, [], deletes);
            && (r.Ok? ==> AllAtRest(fs', companyId, docs))
            && Undone(fs, if r.Ok? then Cleanup(fs', r.value, deletes) else fs')
  {
    var none: seq<FileRow> := [];
    assert AsSet(none) == {};
    AllOrNothing(fs, fs, companyId, docs, faults, none, deletes);
    if Persist(fs, companyId, docs, faults, [], deletes).1.Ok? {
      PersistedMeansAllAtRest(fs, companyId, docs, faults, [], deletes);
    }
  }

  /** Documents already at rest, as a package's always are, cost nothing: nothing is created, nothing
      changes, and so nothing would be removed if the reservation failed. */
  lemma {:induction false} AtRestPersistsNothing(fs: Files, companyId: string, docs: seq<BatchDocument>,
                                                 faults: seq<SaveFaults>, deletes: Deletions)
    requires |faults| == |docs| && (forall i | 0 <= i < |faults| :: faults[i] == NO_FAULTS)
    requires AllAtRest(fs, companyId, docs)
    ensures Persist(fs, companyId, docs, faults, [], deletes) == (fs, Ok([]))
    decreases |docs|
  {
    if docs != [] {
      var doc := docs[0];
      assert Holds(fs, companyId, doc.invoiceId, doc.cuf, "xml", doc.xml);
      SaveAtRest(fs, doc.Request(companyId));
      forall i | 0 <= i < |docs[1..]|
        ensures Holds(fs, companyId, docs[1..][i].invoiceId, docs[1..][i].cuf, "xml", docs[1..][i].xml)
        ensures docs[1..][i].xmlHash == DigestOf(docs[1..][i].xml)
      {
        assert docs[1..][i] == docs[i + 1];
      }
      AtRestPersistsNothing(fs, companyId, docs[1..], faults[1..], deletes);
    }
  }
}
