/** The TAR.GZ of a lot: packing it, and taking the documents back out of what will be sent. */
module LotArchive {
  import opened Wrappers
  import opened Text
  import opened Documents
  import B = BatchPreparation

  // ---- The archive ---------------------------------------------------------------------------

  datatype TarEntry = TarEntry(name: string, regular: bool, body: Option<string>)

  /** How the stream ends after its entries: cleanly or broken, and whether the gzip trailer checks. */
  datatype Archive =
    | NotBase64
    | NotGzip
    | Tar(entries: seq<TarEntry>, cleanEnd: bool, trailerOk: bool)

  datatype LotHash = Sha256Of(archive: Archive)

  datatype PackedLot = PackedLot(archive: Archive, hash: LotHash)

  datatype LotError = EmptyLot | EmptyDocument(at: nat)
    | CufCount | BadArchive | UnreadableEntry(at: nat) | UnexpectedEntry(at: nat) | ExtraEntries | BadTrailer
    | Identity | NotBuilt(at: nat)

  /** `factura_%d.xml`, counting from 1. */
  function EntryName(i: nat): string {
    "factura_" + Decimal(i + 1) + ".xml"
  }

  /** No two documents of a lot share a name. */
  lemma EntryNamesDiffer(i: nat, j: nat)
    ensures EntryName(i) == EntryName(j) ==> i == j
  {
    hide Decimal, ParseDecimal;
    if EntryName(i) == EntryName(j) {
      var a, b := Decimal(i + 1), Decimal(j + 1);
      assert EntryName(i)[8..|EntryName(i)| - 4] == a && EntryName(j)[8..|EntryName(j)| - 4] == b;
      DecimalParses(i + 1);
      DecimalParses(j + 1);
    }
  }

  function EntryFor(i: nat, xml: string): TarEntry {
    TarEntry(EntryName(i), true, Some(xml))
  }

  /** `Packer.PackLot`: one regular entry per document, in order. */
  method PackLot(documents: seq<string>) returns (r: Result<PackedLot, LotError>)
    ensures r.Ok? <==> documents != [] && forall i | 0 <= i < |documents| :: documents[i] != ""
    ensures r == Err(EmptyLot) <==> documents == []
    ensures r.Err? && documents != [] ==>
              && r.error.EmptyDocument? && r.error.at < |documents| && documents[r.error.at] == ""
              && forall k | 0 <= k < r.error.at :: documents[k] != ""
    ensures r.Ok? ==>
              && r.value.archive.Tar? && r.value.archive.cleanEnd && r.value.archive.trailerOk
              && r.value.hash == Sha256Of(r.value.archive)
              && |r.value.archive.entries| == |documents|
              && (forall i | 0 <= i < |documents| :: r.value.archive.entries[i] == EntryFor(i, documents[i]))
              && (forall i | 0 <= i < |documents| ::
                    && r.value.archive.entries[i].regular && r.value.archive.entries[i].body == Some(documents[i])
                    && r.value.archive.entries[i].name == "factura_" + Decimal(i + 1) + ".xml")
              && r.value.archive.entries[0].name == "factura_1.xml"
              && r.value.archive.entries[|documents| - 1].name == "factura_" + Decimal(|documents|) + ".xml"
  {
    if documents == [] { return Err(EmptyLot); }
    var entries: seq<TarEntry> := [];
    for i := 0 to |documents|
      invariant |entries| == i
      invariant forall k | 0 <= k < i :: documents[k] != "" && entries[k] == EntryFor(k, documents[k])
    {
      if documents[i] == "" { return Err(EmptyDocument(i)); }
      entries := entries + [EntryFor(i, documents[i])];
    }
    var archive := Tar(entries, true, true);
    assert Decimal(1) == "1";
    r := Ok(PackedLot(archive, Sha256Of(archive)));
  }

  // ---- Taking the documents back -----------------------------------------------------------------

  /** A document of the lot, with its own archive. */
  datatype Factura = Factura(document: B.Document, archivo: Archivo, hashArchivo: Option<Digest>)
  {
    function Xml(): string {
      document.xml
    }

    function Cuf(): string {
      document.cuf
    }
  }

  /** The archive is exactly `n` readable, named, regular entries in order, and nothing else. */
  predicate Exact(archive: Archive, n: nat) {
    && archive.Tar? && |archive.entries| == n && archive.cleanEnd && archive.trailerOk
    && forall i | 0 <= i < n :: Readable(archive.entries[i], i)
  }

  predicate Readable(e: TarEntry, i: nat) {
    e.name == EntryName(i) && e.regular && e.body.Some? && e.body.value != ""
  }

  /** What recovery accepts, entry by entry. */
  lemma ExactIff(archive: Archive, n: nat)
    ensures Exact(archive, n) <==>
            && archive.Tar? && |archive.entries| == n && archive.cleanEnd && archive.trailerOk
            && forall i | 0 <= i < n ::
                 && archive.entries[i].name == "factura_" + Decimal(i + 1) + ".xml"
                 && archive.entries[i].regular
                 && archive.entries[i].body.Some? && archive.entries[i].body.value != ""
  {
  }

  /** What recovery writes into a document: the entry's bytes, its CUF, and its own packed archive. */
  function Recovered(f: Factura, xml: string, cuf: string): Factura {
    Factura(f.document.(xml := xml, cuf := cuf), Pack(xml), Some(PackHash(xml)))
  }

  /** `recuperarDocumentosLote`, in place. It succeeds exactly on an archive that holds this lot and
      nothing else; on failure the documents before the failing one have already been rewritten. */
  method RecuperarDocumentosLote(archive: Archive, facturas: array<Factura>, cufs: seq<string>)
    returns (error: Option<LotError>)
    modifies facturas
    ensures error.None? <==> |cufs| == facturas.Length && Exact(archive, facturas.Length)
    ensures error == Some(CufCount) <==> |cufs| != facturas.Length
    ensures error == Some(BadArchive) <==> |cufs| == facturas.Length && !archive.Tar?
    ensures error == Some(ExtraEntries) ==> |archive.entries| > facturas.Length || !archive.cleanEnd
    ensures error.None? ==>
              forall i | 0 <= i < facturas.Length ::
                facturas[i] == Recovered(old(facturas[i]), archive.entries[i].body.value, cufs[i])
    ensures error.None? ==>
              forall i | 0 <= i < facturas.Length ::
                var xml := archive.entries[i].body.value;
                && facturas[i].document == old(facturas[i]).document.(xml := xml, cuf := cufs[i])
                && facturas[i].archivo == Pack(xml) && facturas[i].hashArchivo == Some(PackHash(xml))
    ensures exists w: nat :: w <= facturas.Length && Rewritten(old(facturas[..]), facturas[..], archive, cufs, w)
  {
    ghost var before := facturas[..];
    if |cufs| != facturas.Length {
      assert Rewritten(before, facturas[..], archive, cufs, 0);
      return Some(CufCount);
    }
    if !archive.Tar? {
      assert Rewritten(before, facturas[..], archive, cufs, 0);
      return Some(BadArchive);
    }
    for i := 0 to facturas.Length
      invariant i <= |archive.entries|
      invariant forall k | 0 <= k < i :: Readable(archive.entries[k], k)
      invariant Rewritten(before, facturas[..], archive, cufs, i)
    {
      if i == |archive.entries| { return Some(UnreadableEntry(i)); }
      var e := archive.entries[i];
      if e.name != EntryName(i) || !e.regular { return Some(UnexpectedEntry(i)); }
      if e.body.None? { return Some(UnreadableEntry(i)); }
      if e.body.value == "" { return Some(EmptyDocument(i)); }
      facturas[i] := Recovered(facturas[i], e.body.value, cufs[i]);
    }
    if |archive.entries| > facturas.Length || !archive.cleanEnd { return Some(ExtraEntries); }
    if !archive.trailerOk { return Some(BadTrailer); }
    error := None;
  }

  /** The first `w` documents carry their entries, the others are untouched. */
  predicate Rewritten(before: seq<Factura>, after: seq<Factura>, archive: Archive, cufs: seq<string>, w: nat) {
    && |after| == |before| && w <= |before|
    && (w > 0 ==> archive.Tar? && w <= |archive.entries| && w <= |cufs|)
    && (forall i | 0 <= i < w ::
          archive.entries[i].body.Some? && after[i] == Recovered(before[i], archive.entries[i].body.value, cufs[i]))
    && (forall i | w <= i < |before| :: after[i] == before[i])
  }

  // ---- Building a lot ----------------------------------------------------------------------------------

  /** What builders and signature yield for a document that has no XML yet. */
  datatype Built = BuiltDocument(xml: string, cuf: string) | IdentityConflict | BuildFails

  function Texts(facturas: seq<Factura>): seq<string> {
    seq(|facturas|, i requires 0 <= i < |facturas| => facturas[i].Xml())
  }

  function Cufs(facturas: seq<Factura>): seq<string> {
    seq(|facturas|, i requires 0 <= i < |facturas| => facturas[i].Cuf())
  }

  /** `prepararXMLLote`, in place: persisted XML passes through, other documents get built and signed. */
  method PrepararXmlLote(facturas: array<Factura>, built: seq<Built>)
    returns (r: Result<PackedLot, LotError>, cufs: seq<string>)
    requires |built| == facturas.Length
    modifies facturas
    ensures forall i | 0 <= i < facturas.Length && old(facturas[i].Xml()) != "" :: facturas[i] == old(facturas[i])
    ensures r.Ok? ==>
              && cufs == Cufs(facturas[..])
              && Exact(r.value.archive, facturas.Length)
              && (forall i | 0 <= i < facturas.Length :: r.value.archive.entries[i] == EntryFor(i, facturas[i].Xml()))
              && (forall i | 0 <= i < facturas.Length && old(facturas[i].Xml()) == "" ::
                    built[i].BuiltDocument? && facturas[i].Xml() == built[i].xml && facturas[i].Cuf() == built[i].cuf)
    ensures (forall i | 0 <= i < facturas.Length ::
               old(facturas[i].Xml()) != "" || (built[i].BuiltDocument? && built[i].xml != "")) && facturas.Length > 0
            ==> r.Ok?
  {
    var documents: seq<string> := [];
    cufs := [];
    for i := 0 to facturas.Length
      invariant documents == Texts(facturas[..i]) && cufs == Cufs(facturas[..i])
      invariant forall k | i <= k < facturas.Length :: facturas[k] == old(facturas[k])
      invariant forall k | 0 <= k < i && old(facturas[k].Xml()) != "" :: facturas[k] == old(facturas[k])
      invariant forall k | 0 <= k < i && old(facturas[k].Xml()) == "" ::
                  built[k].BuiltDocument? && facturas[k].Xml() == built[k].xml && facturas[k].Cuf() == built[k].cuf
    {
      var f := facturas[i];
      if f.Xml() == "" {
        if built[i].IdentityConflict? { return Err(Identity), cufs; }
        if built[i].BuildFails? { return Err(NotBuilt(i)), cufs; }
        facturas[i] := f.(document := f.document.(xml := built[i].xml, cuf := built[i].cuf));
      }
      documents := documents + [facturas[i].Xml()];
      cufs := cufs + [facturas[i].Cuf()];
    }
    assert facturas[..facturas.Length] == facturas[..];
    r := PackLot(documents);
  }

  /** What `prepararMasiva` and `prepararPaquete` share once the lot is valid: build, pack, and take back
      out of the archive the very bytes that will be sent. Recovery cannot fail on what was just packed,
      it changes no XML, and each document ends with the archive of its own bytes. */
  method PrepararLote(facturas: array<Factura>, built: seq<Built>) returns (r: Result<PackedLot, LotError>)
    requires |built| == facturas.Length
    modifies facturas
    ensures r.Ok? ==>
              && Exact(r.value.archive, facturas.Length)
              && forall i | 0 <= i < facturas.Length ::
                   && r.value.archive.entries[i].body == Some(facturas[i].Xml())
                   && facturas[i].archivo == Pack(facturas[i].Xml())
                   && facturas[i].hashArchivo == Some(PackHash(facturas[i].Xml()))
                   && (old(facturas[i].Xml()) != "" ==>
                         facturas[i].Xml() == old(facturas[i].Xml()) && facturas[i].Cuf() == old(facturas[i].Cuf()))
    ensures (forall i | 0 <= i < facturas.Length ::
               old(facturas[i].Xml()) != "" || (built[i].BuiltDocument? && built[i].xml != "")) && facturas.Length > 0
            ==> r.Ok?
  {
    var packed, cufs := PrepararXmlLote(facturas, built);
    if packed.Err? { return packed; }
    var error := RecuperarDocumentosLote(packed.value.archive, facturas, cufs);
    r := packed;
  }
}
