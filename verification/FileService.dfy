/** The file service on live objects: a reader consumed once, a running hash fed on the way, an
    object store and a metadata table updated in place. Each method is one of the operations of
    Files.dfy, however much of the reader the backend consumed before it noticed a collision. */
module FileService {
  import opened Wrappers
  import opened Documents
  import opened Files
  import K = ObjectKeys

  /** `io.Reader` over a string. */
  class ByteReader {
    const content: string
    var pos: nat

    ghost predicate Valid()
      reads this
    {
      pos <= |content|
    }

    function Rest(): string
      requires Valid()
      reads this
    {
      content[pos..]
    }

    constructor (content: string)
      ensures Valid() && Rest() == content
    {
      this.content := content;
      pos := 0;
    }

    /** At most `n` bytes; fewer only at the end. */
    method Read(n: nat) returns (chunk: string)
      requires Valid()
      modifies this
      ensures Valid() && chunk + Rest() == old(Rest())
      ensures |chunk| == n || Rest() == ""
    {
      var end := if pos + n <= |content| then pos + n else |content|;
      chunk := content[pos..end];
      pos := end;
    }
  }

  /** `sha256.New()`: the digest of everything written so far. */
  class Sha256Hash {
    var fed: string

    constructor ()
      ensures fed == ""
    {
      fed := "";
    }

    method Write(chunk: string)
      modifies this
      ensures fed == old(fed) + chunk
    {
      fed := fed + chunk;
    }

    function Sum(): Digest
      reads this
    {
      DigestOf(fed)
    }
  }

  const CHUNK: nat := 32 * 1024

  /** `io.Copy(hash, reader)`, and, through `io.TeeReader`, the way a backend drains its input. */
  method Drain(reader: ByteReader, hash: Sha256Hash) returns (data: string)
    requires reader.Valid()
    modifies reader, hash
    ensures reader.Valid() && reader.Rest() == ""
    ensures data == old(reader.Rest()) && hash.fed == old(hash.fed) + data
  {
    data := "";
    while reader.pos < |reader.content|
      invariant reader.Valid()
      invariant data + reader.Rest() == old(reader.Rest())
      invariant hash.fed == old(hash.fed) + data
      decreases |reader.content| - reader.pos
    {
      var chunk := reader.Read(CHUNK);
      hash.Write(chunk);
      data := data + chunk;
    }
  }

  datatype ObjectInfo = ObjectInfo(key: string, size: nat, contentType: string, sha: Digest)

  /** `MemoryObjectStorage`; `appetite` is how much a backend reads before it reports that the key
      is taken: nothing in memory, everything on disk or over the network. */
  class ObjectStorage {
    var objects: map<string, string>
    var infos: map<string, ObjectInfo>

    ghost predicate Valid()
      reads this
    {
      && infos.Keys == objects.Keys
      && forall k | k in objects :: infos[k].size == |objects[k]| && infos[k].sha == DigestOf(objects[k])
    }

    constructor ()
      ensures Valid() && objects == map[]
    {
      objects, infos := map[], map[];
    }

    method Put(key: string, reader: ByteReader, hash: Sha256Hash, contentType: string, size: nat, appetite: nat,
               fault: Fault)
      returns (outcome: PutOutcome, info: Option<ObjectInfo>)
      requires Valid() && reader.Valid() && hash.fed == ""
      modifies this, reader, hash
      ensures Valid() && reader.Valid() && hash.fed + reader.Rest() == old(reader.Rest())
      ensures if K.ValidObjectKey(key)
              then (objects, outcome) == PutObject(old(objects), key, old(reader.Rest()), size, fault)
              else objects == old(objects) && outcome == PutFailed
      ensures outcome == Created <==> info.Some?
      ensures info.Some? ==> info.value.sha == DigestOf(old(reader.Rest())) && info.value.size == |old(reader.Rest())|
    {
      outcome, info := PutFailed, None;
      if !K.ValidObjectKey(key) || fault == NotDone {
        return;
      }
      if key in objects {
        var chunk := reader.Read(appetite);
        hash.Write(chunk);
        if fault == NoFault { outcome := AlreadyExists; }
        return;
      }
      var data := Drain(reader, hash);
      assert hash.fed == data;
      if size > 0 && size != |data| {
        return;
      }
      objects := objects[key := data];
      infos := infos[key := ObjectInfo(key, |data|, contentType, hash.Sum())];
      if fault == NoFault {
        outcome, info := Created, Some(infos[key]);
      }
    }

    method Stat(key: string, fault: Fault) returns (info: Option<ObjectInfo>)
      requires Valid()
      ensures info.Some? <==> K.ValidObjectKey(key) && fault == NoFault && key in objects
      ensures info.Some? ==> info.value.size == |objects[key]| && info.value.sha == DigestOf(objects[key])
    {
      info := if K.ValidObjectKey(key) && fault == NoFault && key in infos then Some(infos[key]) else None;
    }

    method Delete(key: string, fault: Fault) returns (ok: bool)
      requires Valid()
      modifies this
      ensures Valid()
      ensures if K.ValidObjectKey(key)
              then (objects, ok) == DeleteObject(old(objects), key, fault)
              else objects == old(objects) && !ok
    {
      if !K.ValidObjectKey(key) || fault == NotDone {
        return false;
      }
      objects, infos := objects - {key}, infos - {key};
      ok := fault == NoFault;
    }
  }

  class InvoiceFileService {
    const storage: ObjectStorage
    var rows: map<RowId, FileRow>

    /** Every row points at a key the service built itself. */
    ghost predicate Valid()
      reads this, storage
    {
      storage.Valid() && Keyed(rows) && forall id | id in rows :: K.ValidObjectKey(rows[id].storageKey)
    }

    function Contents(): Files
      reads this, storage
    {
      Files(storage.objects, rows)
    }

    constructor (storage: ObjectStorage)
      requires storage.Valid()
      ensures this.storage == storage && Valid() && Contents() == Files(storage.objects, map[])
    {
      this.storage := storage;
      rows := map[];
    }

    method CreateFile(row: FileRow, fault: Fault) returns (ok: bool)
      modifies this
      ensures (rows, ok) == CreateRow(old(rows), row, fault)
    {
      if fault == NotDone || row.id in rows {
        return false;
      }
      rows := rows[row.id := row];
      ok := fault == NoFault;
    }

    method DeleteFile(id: RowId, storageKey: string, fault: Fault) returns (ok: bool)
      modifies this
      ensures (rows, ok) == DeleteRow(old(rows), id, storageKey, fault)
    {
      if fault == NotDone {
        return false;
      }
      if id in rows && rows[id].storageKey == storageKey {
        rows := rows - {id};
      }
      ok := fault == NoFault;
    }

    /** What it does to objects and rows, and what it answers, depend on the bytes, not on how far the
        backend read before it reported a collision. */
    method SaveWithStatus(companyId: string, invoiceId: string, cuf: string, kind: string, reader: ByteReader,
                          size: nat, faults: SaveFaults, appetite: nat)
      returns (outcome: SaveOutcome)
      requires Valid() && reader.Valid()
      modifies this, storage, reader
      ensures Valid()
      ensures var req := SaveRequest(companyId, invoiceId, cuf, kind, old(reader.Rest()), size);
              (Contents(), outcome) == Save(old(Contents()), req, faults)
    {
      ghost var req := SaveRequest(companyId, invoiceId, cuf, kind, reader.Rest(), size);
      var checkedKey := K.InvoiceObjectKey(companyId, invoiceId, cuf, kind);
      if checkedKey.Err? { return SaveFailed(BadKey); }
      if faults.ownership == OwnershipUnknown { return SaveFailed(OwnershipError); }
      if faults.ownership == Foreign { return SaveFailed(NotOwned); }
      var key := checkedKey.value;
      K.AcceptedKeysAreValid(companyId, invoiceId, cuf, kind);
      var contentType := if kind == "pdf" then "application/pdf" else "application/xml";
      var hash := new Sha256Hash();
      var put, info := storage.Put(key, reader, hash, contentType, size, appetite, faults.put);
      match put
      case PutFailed => outcome := SaveFailed(PutError);
      case AlreadyExists =>
        var rest := Drain(reader, hash);
        outcome := AcceptExisting(req, RowId(companyId, invoiceId, kind), key, hash.Sum(), size, contentType, faults);
      case Created =>
        var row := FileRow(RowId(companyId, invoiceId, kind), key, info.value.sha, info.value.size, contentType);
        outcome := RegisterCreated(req, row, faults);
    }

    /** Metadata after the object, or the object goes again. */
    method RegisterCreated(ghost req: SaveRequest, row: FileRow, faults: SaveFaults) returns (outcome: SaveOutcome)
      requires Valid() && row == req.Row() && K.ValidObjectKey(row.storageKey)
      modifies this, storage
      ensures Valid() && (Contents(), outcome) == Register(old(Contents()), req, faults)
    {
      var registered := CreateFile(row, faults.create);
      if registered { return Saved(row, true); }
      var withdrawn := storage.Delete(row.storageKey, faults.delete);
      outcome := SaveFailed(MetadataError);
    }

    method AcceptExisting(ghost req: SaveRequest, id: RowId, key: string, digest: Digest, size: nat,
                          contentType: string, faults: SaveFaults)
      returns (outcome: SaveOutcome)
      requires Valid() && K.ValidObjectKey(key)
      requires id == req.Id() && key == req.Key() && digest == DigestOf(req.content) && size == req.size
      requires contentType == req.ContentType()
      modifies this
      ensures Valid() && (Contents(), outcome) == Reconcile(old(Contents()), req, faults)
    {
      var stored := storage.Stat(key, faults.stat);
      if stored.None? { return SaveFailed(StatError); }
      if stored.value.sha != digest || (size > 0 && stored.value.size != size) {
        return SaveFailed(DifferentContent);
      }
      if faults.find == NoFault && id in rows {
        var existing := rows[id];
        if existing.storageKey == key && existing.sha == digest { return Saved(existing, false); }
      } else if faults.find == NoFault {
        var row := FileRow(id, key, digest, stored.value.size, contentType);
        var repaired := CreateFile(row, faults.create);
        if repaired { return Saved(row, false); }
      }
      outcome := SaveFailed(NoMatchingMetadata);
    }

    method RemoveCreated(row: FileRow, deleteRow: Fault, deleteObject: Fault) returns (ok: bool)
      requires Valid() && K.ValidObjectKey(row.storageKey)
      modifies this, storage
      ensures Valid() && (Contents(), ok) == Remove(old(Contents()), row, deleteRow, deleteObject)
    {
      ok := DeleteFile(row.id, row.storageKey, deleteRow);
      if ok {
        ok := storage.Delete(row.storageKey, deleteObject);
      }
    }

    method ReadAll(companyId: string, invoiceId: string, kind: string, ownership: Ownership, find: Fault, get: Fault)
      returns (outcome: ReadOutcome)
      requires Valid()
      ensures outcome == ReadFile(Contents(), RowId(companyId, invoiceId, kind), ownership, find, get)
    {
      if kind != "xml" && kind != "pdf" { return Unreadable; }
      if ownership == OwnershipUnknown { return Unreadable; }
      if ownership == Foreign { return Missing; }
      if find != NoFault { return Unreadable; }
      var id := RowId(companyId, invoiceId, kind);
      if id !in rows { return Missing; }
      var row := rows[id];
      if get != NoFault { return Unreadable; }
      var info := storage.Stat(row.storageKey, get);
      if info.None? { return Missing; }
      outcome := Read(storage.objects[row.storageKey], row);
    }
  }
}
