/** The sector catalogue: finding a document-sector's profile, and the fiscal type it resolves to. */
module SectorProfiles {
  import opened Wrappers
  import opened Text

  const COMPRA_VENTA := 1
  const NOTA_CREDITO_DEBITO := 24
  const FACTURA_CON_CREDITO := 1
  const ELECTRONICA := 1
  const COMPUTARIZADA := 2

  datatype Profile = Profile(codigo: int, layout: string, tipoFactura: int, modalidades: seq<int>)
  {
    /** An explicit type wins over the profile's. */
    function TipoDocumentoResuelto(requested: int): (tipo: int)
      ensures tipo > 0
    {
      if requested > 0 then requested else if tipoFactura <= 0 then FACTURA_CON_CREDITO else tipoFactura
    }

    predicate ValidaModalidad(modalidad: int) {
      && modalidad in {ELECTRONICA, COMPUTARIZADA}
      && (modalidades == [] || modalidad in modalidades)
    }
  }

  /** `init` panics unless this holds. */
  predicate Registrable(catalog: seq<Profile>) {
    forall i, j | 0 <= i < j < |catalog| ::
      catalog[i].codigo != catalog[j].codigo || catalog[i].layout != catalog[j].layout
  }

  /** `sectorRegistry.entries`. */
  function Entry(catalog: seq<Profile>, codigo: int, layout: string): Option<Profile> {
    if catalog == [] then None
    else if catalog[0].codigo == codigo && catalog[0].layout == layout then Some(catalog[0])
    else Entry(catalog[1..], codigo, layout)
  }

  /** `registroSectores`: the first profile listed for a code. */
  function FirstOf(catalog: seq<Profile>, codigo: int): Option<Profile> {
    if catalog == [] then None
    else if catalog[0].codigo == codigo then Some(catalog[0])
    else FirstOf(catalog[1..], codigo)
  }

  function SectorOf(codigo: int): int {
    if codigo <= 0 then COMPRA_VENTA else codigo
  }

  function PerfilSectorLayout(catalog: seq<Profile>, codigo: int, layout: string): Option<Profile> {
    var c := SectorOf(codigo);
    if c == NOTA_CREDITO_DEBITO && Blank(layout) then None
    else if layout == "" && FirstOf(catalog, c).Some? then FirstOf(catalog, c)
    else Entry(catalog, c, layout)
  }

  lemma {:induction false} EntryIsListed(catalog: seq<Profile>, p: Profile)
    requires Registrable(catalog) && p in catalog
    ensures Entry(catalog, p.codigo, p.layout) == Some(p)
  {
    if p != catalog[0] {
      assert p in catalog[1..];
      EntryIsListed(catalog[1..], p);
      var j :| 0 <= j < |catalog[1..]| && catalog[1..][j] == p;
      assert catalog[1 + j] == p;
    }
  }

  lemma {:induction false} FoundIsListed(catalog: seq<Profile>, codigo: int, layout: string)
    ensures Entry(catalog, codigo, layout).Some? ==>
              var p := Entry(catalog, codigo, layout).value; p in catalog && p.codigo == codigo && p.layout == layout
    ensures FirstOf(catalog, codigo).Some? ==>
              var p := FirstOf(catalog, codigo).value; p in catalog && p.codigo == codigo
    ensures Entry(catalog, codigo, layout).Some? ==> FirstOf(catalog, codigo).Some?
  {
    if catalog != [] {
      FoundIsListed(catalog[1..], codigo, layout);
    }
  }

  lemma LookedUp(catalog: seq<Profile>, codigo: int, layout: string)
    ensures var p := PerfilSectorLayout(catalog, codigo, layout);
            p.Some? ==> p.value in catalog && p.value.codigo == SectorOf(codigo)
  {
    FoundIsListed(catalog, SectorOf(codigo), layout);
  }

  /** Which profile is found: sector 1 for none, the first of the sector without a layout, the exact one with
      it, and none for sector 24 without one. */
  lemma FoundIff(catalog: seq<Profile>, codigo: int, layout: string)
    requires Registrable(catalog)
    ensures var sector := if codigo > 0 then codigo else 1;
            var found := PerfilSectorLayout(catalog, codigo, layout);
            && (sector == 24 && Blank(layout) ==> found.None?)
            && (!(sector == 24 && Blank(layout)) && layout == "" ==>
                  && (found.Some? <==> exists i :: 0 <= i < |catalog| && catalog[i].codigo == sector)
                  && (found.Some? ==>
                        exists i :: && 0 <= i < |catalog| && catalog[i] == found.value
                                    && forall k | 0 <= k < i :: catalog[k].codigo != sector))
            && (!(sector == 24 && Blank(layout)) && layout != "" ==>
                  forall p :: found == Some(p) <==> p in catalog && p.codigo == sector && p.layout == layout)
  {
    var sector := if codigo > 0 then codigo else 1;
    FirstIsFirst(catalog, sector);
    FoundIsListed(catalog, sector, layout);
    forall p | p in catalog && p.codigo == sector && p.layout == layout
      ensures Entry(catalog, sector, layout) == Some(p)
    {
      EntryIsListed(catalog, p);
    }
  }

  lemma {:induction false} FirstIsFirst(catalog: seq<Profile>, codigo: int)
    ensures FirstOf(catalog, codigo).Some? <==> exists i :: 0 <= i < |catalog| && catalog[i].codigo == codigo
    ensures FirstOf(catalog, codigo).Some? ==>
              exists i :: && 0 <= i < |catalog| && catalog[i] == FirstOf(catalog, codigo).value
                          && forall k | 0 <= k < i :: catalog[k].codigo != codigo
  {
    if catalog != [] && catalog[0].codigo != codigo {
      FirstIsFirst(catalog[1..], codigo);
      if i :| 0 <= i < |catalog[1..]| && catalog[1..][i].codigo == codigo {
        assert catalog[i + 1].codigo == codigo;
      }
      if FirstOf(catalog, codigo).Some? {
        var i :| && 0 <= i < |catalog[1..]| && catalog[1..][i] == FirstOf(catalog[1..], codigo).value
                 && forall k | 0 <= k < i :: catalog[1..][k].codigo != codigo;
        assert catalog[i + 1] == FirstOf(catalog, codigo).value;
        forall k | 0 <= k < i + 1 ensures catalog[k].codigo != codigo {
          if k > 0 { assert catalog[k] == catalog[1..][k - 1]; }
        }
      }
    }
  }

  /** A requested type is kept; an unset one is the profile's, or 1 if that has none. */
  lemma TypeResolves(p: Profile, requested: int)
    ensures requested > 0 ==> p.TipoDocumentoResuelto(requested) == requested
    ensures requested <= 0 && p.tipoFactura > 0 ==> p.TipoDocumentoResuelto(requested) == p.tipoFactura
    ensures requested <= 0 && p.tipoFactura <= 0 ==> p.TipoDocumentoResuelto(requested) == 1
  {
  }

  /** Looking up the layout a profile answered with finds the same profile again, and its resolved type
      resolves to itself: what the use case wrote into a document, the adapter reads back from it. */
  lemma LookupIsCanonical(catalog: seq<Profile>, codigo: int, layout: string, tipo: int)
    requires Registrable(catalog) && PerfilSectorLayout(catalog, codigo, layout).Some?
    ensures var p := PerfilSectorLayout(catalog, codigo, layout).value;
            && PerfilSectorLayout(catalog, codigo, p.layout) == Some(p)
            && p.codigo == SectorOf(codigo)
            && p.TipoDocumentoResuelto(p.TipoDocumentoResuelto(tipo)) == p.TipoDocumentoResuelto(tipo)
  {
    var c := SectorOf(codigo);
    var p := PerfilSectorLayout(catalog, codigo, layout).value;
    FoundIsListed(catalog, c, layout);
    EntryIsListed(catalog, p);
  }
}
