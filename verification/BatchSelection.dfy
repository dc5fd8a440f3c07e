/** Which invoices go into a batch call, and in which order. */
module BatchSelection {
  import opened Wrappers
  import opened Text
  import opened InvoiceState
  import opened BatchPreparation
  import P = BatchProtocol

  /** A closed, registered contingency event. */
  datatype ContingencyEvent = ContingencyEvent(id: string, start: int, end: int)

  /** An invoice as found, with the columns selection looks at. */
  datatype Candidate = Candidate(
    invoice: Invoice, companyId: string, pointOfSaleId: string, status: InvoiceStatus, received: bool,
    eventId: Option<string>, emissionType: string)

  datatype SelectError = NoIds | BadIds | NotAllFound | Foreign | NotPendingForBatch | OtherEvent | OutsideEvent
    | HasIdentity

  // ---- Order ---------------------------------------------------------------------------------

  /** Go's `<` on strings, code unit by code unit. */
  predicate TextLess(a: string, b: string) {
    b != [] && (a == [] || a[0] < b[0] || (a[0] == b[0] && TextLess(a[1..], b[1..])))
  }

  lemma {:induction false} TextLessIsTotal(a: string, b: string)
    ensures TextLess(a, b) || TextLess(b, a) || a == b
    ensures TextLess(a, b) ==> !TextLess(b, a) && a != b
  {
    if a != [] && b != [] {
      TextLessIsTotal(a[1..], b[1..]);
      if a[0] == b[0] && a[1..] == b[1..] {
        assert a == [a[0]] + a[1..] == b;
      }
    }
  }

  /** `a` and `b` agree on the first `k` code units, and at the next one `a` has the smaller. */
  predicate DiffersAt(a: string, b: string, k: nat) {
    k < |a| && k < |b| && a[..k] == b[..k] && a[k] < b[k]
  }

  lemma DiffersInTail(a: string, b: string, k: nat)
    requires a != [] && b != [] && a[0] == b[0]
    ensures DiffersAt(a, b, k + 1) <==> DiffersAt(a[1..], b[1..], k)
  {
    if k < |a| - 1 && k < |b| - 1 {
      assert a[..k + 1] == [a[0]] + a[1..][..k] && b[..k + 1] == [b[0]] + b[1..][..k];
      assert a[..k + 1][1..] == a[1..][..k] && b[..k + 1][1..] == b[1..][..k];
    }
  }

  lemma {:induction false} LessHasDifference(a: string, b: string)
    requires TextLess(a, b) && !(a <= b)
    ensures exists k: nat :: DiffersAt(a, b, k)
  {
    if a[0] < b[0] {
      assert DiffersAt(a, b, 0);
    } else {
      assert a == [a[0]] + a[1..] && b == [b[0]] + b[1..];
      LessHasDifference(a[1..], b[1..]);
      var k: nat :| DiffersAt(a[1..], b[1..], k);
      DiffersInTail(a, b, k);
    }
  }

  lemma {:induction false} DifferenceIsLess(a: string, b: string, k: nat)
    requires DiffersAt(a, b, k)
    ensures TextLess(a, b)
  {
    if k > 0 {
      assert a[0] == a[..k][0] && b[0] == b[..k][0];
      DiffersInTail(a, b, k - 1);
      DifferenceIsLess(a[1..], b[1..], k - 1);
    }
  }

  lemma {:induction false} PrefixIsLess(a: string, b: string)
    requires a <= b && a != b
    ensures TextLess(a, b)
  {
    if a != [] {
      assert a == [a[0]] + a[1..] && b == [b[0]] + b[1..];
      PrefixIsLess(a[1..], b[1..]);
    }
  }

  /** A proper prefix comes first; otherwise the first difference decides. */
  lemma TextLessIff(a: string, b: string)
    ensures TextLess(a, b) <==> (a <= b && a != b) || exists k: nat :: DiffersAt(a, b, k)
  {
    if TextLess(a, b) {
      if a <= b { TextLessIsTotal(a, b); } else { LessHasDifference(a, b); }
    } else {
      if a <= b && a != b { PrefixIsLess(a, b); }
      if k: nat :| DiffersAt(a, b, k) { DifferenceIsLess(a, b, k); }
    }
  }

  lemma {:induction false} TextLessIsTransitive(a: string, b: string, c: string)
    requires TextLess(a, b) && TextLess(b, c)
    ensures TextLess(a, c)
  {
    if a != [] && a[0] == b[0] == c[0] {
      TextLessIsTransitive(a[1..], b[1..], c[1..]);
    }
  }

  /** By number, then by identifier. */
  predicate Before(x: Candidate, y: Candidate) {
    x.invoice.number < y.invoice.number ||
    (x.invoice.number == y.invoice.number && TextLess(x.invoice.id, y.invoice.id))
  }

  lemma BeforeIsStrict(x: Candidate, y: Candidate, z: Candidate)
    ensures Before(x, y) ==> !Before(y, x)
    ensures Before(x, y) && Before(y, z) ==> Before(x, z)
    ensures !Before(x, y) && !Before(y, x) ==> x.invoice.number == y.invoice.number && x.invoice.id == y.invoice.id
    ensures !Before(y, x) && Before(y, z) ==> Before(x, z)
    ensures Before(x, y) && !Before(z, y) ==> Before(x, z)
  {
    TextLessIsTotal(x.invoice.id, y.invoice.id);
    TextLessIsTotal(y.invoice.id, z.invoice.id);
    var (a, b, c) := (x.invoice.id, y.invoice.id, z.invoice.id);
    if TextLess(a, b) && TextLess(b, c) { TextLessIsTransitive(a, b, c); }
  }

  predicate Ordered(s: seq<Candidate>) {
    forall i, j | 0 <= i < j < |s| :: !Before(s[j], s[i])
  }

  predicate DistinctIds(s: seq<Candidate>) {
    forall i, j | 0 <= i < j < |s| :: s[i].invoice.id != s[j].invoice.id
  }

  /** The order leaves no choice: however the database returns the invoices, and whatever algorithm
      sorts them, the list that is cut into batches is the same. */
  lemma {:induction false} OrderIsDetermined(s: seq<Candidate>, t: seq<Candidate>)
    requires Ordered(s) && Ordered(t) && DistinctIds(s) && multiset(s) == multiset(t)
    ensures s == t
    decreases |s|
  {
    hide Before;
    assert |s| == |multiset(s)| == |multiset(t)| == |t|;
    if s != [] {
      FirstIsSame(s, t);
      assert s == [s[0]] + s[1..] && t == [t[0]] + t[1..];
      assert multiset(s[1..]) == multiset(s) - multiset{s[0]};
      assert multiset(t[1..]) == multiset(t) - multiset{t[0]};
      OrderIsDetermined(s[1..], t[1..]);
    }
  }

  lemma FirstIsSame(s: seq<Candidate>, t: seq<Candidate>)
    requires s != [] && t != [] && Ordered(s) && Ordered(t) && DistinctIds(s) && multiset(s) == multiset(t)
    ensures s[0] == t[0]
  {
    assert t[0] in multiset(t) && s[0] in multiset(s);
    var i :| 0 <= i < |s| && s[i] == t[0];
    var j :| 0 <= j < |t| && t[j] == s[0];
    BeforeIsStrict(s[0], t[0], s[0]);
  }

  /** Puts one candidate in its place. */
  method Insert(s: seq<Candidate>, x: Candidate) returns (r: seq<Candidate>)
    requires Ordered(s)
    ensures Ordered(r) && multiset(r) == multiset(s) + multiset{x}
  {
    var i := 0;
    while i < |s| && !Before(x, s[i])
      invariant 0 <= i <= |s|
      invariant forall k | 0 <= k < i :: !Before(x, s[k])
    {
      i := i + 1;
    }
    r := s[..i] + [x] + s[i..];
    assert s == s[..i] + s[i..];
    forall a, b | 0 <= a < b < |r| ensures !Before(r[b], r[a]) {
      if a == i {
        BeforeIsStrict(x, s[i], r[b]);
        BeforeIsStrict(r[b], x, s[i]);
      }
    }
  }

  /** `sort.Slice`, with any algorithm: here, by insertion. */
  method SortInvoices(found: seq<Candidate>) returns (r: seq<Candidate>)
    ensures Ordered(r) && multiset(r) == multiset(found)
  {
    r := [];
    for i := 0 to |found|
      invariant Ordered(r) && multiset(r) == multiset(found[..i])
    {
      assert found[..i + 1] == found[..i] + [found[i]];
      r := Insert(r, found[i]);
    }
    assert found[..|found|] == found;
  }

  // ---- Checks -----------------------------------------------------------------------------------

  predicate ValidIds(ids: seq<string>) {
    && (forall i | 0 <= i < |ids| :: !Blank(ids[i]))
    && (forall i, j | 0 <= i < j < |ids| :: ids[i] != ids[j])
  }

  /** The `seen` loop over explicit identifiers. */
  method CheckIds(ids: seq<string>) returns (error: Option<SelectError>)
    ensures error.None? <==> ids != [] && ValidIds(ids)
    ensures error == Some(NoIds) <==> ids == []
    ensures error in {None, Some(NoIds), Some(BadIds)}
  {
    if ids == [] { return Some(NoIds); }
    var seen: set<string> := {};
    for i := 0 to |ids|
      invariant seen == set k | 0 <= k < i :: ids[k]
      invariant ValidIds(ids[..i])
    {
      if Blank(ids[i]) || ids[i] in seen { return Some(BadIds); }
      seen := seen + {ids[i]};
    }
    assert ids[..|ids|] == ids;
    error := None;
  }

  function Wanted(event: Option<ContingencyEvent>): InvoiceStatus {
    if event.Some? then Offline else Pending
  }

  function CheckOne(c: Candidate, companyId: string, posId: string,
                    event: Option<ContingencyEvent>): Option<SelectError> {
    if c.companyId != companyId || c.pointOfSaleId != posId then Some(Foreign)
    else if c.status != Wanted(event) || c.received then Some(NotPendingForBatch)
    else if event.Some? then
      if c.eventId != Some(event.value.id) then Some(OtherEvent)
      else if c.invoice.issueDate.None? || c.invoice.issueDate.value < event.value.start
              || event.value.end < c.invoice.issueDate.value then Some(OutsideEvent)
      else None
    else if c.eventId.Some? || c.emissionType == "OFFLINE" || c.emissionType == "MASIVA" || c.invoice.cuf != "" then
      Some(HasIdentity)
    else None
  }

  /** What selection asks of an invoice: for a package, issued OFFLINE within this event; for a bulk batch, PENDING,
      of no event, and without a fiscal identity. */
  lemma SelectedIff(c: Candidate, companyId: string, posId: string, event: Option<ContingencyEvent>)
    ensures CheckOne(c, companyId, posId, event).None? <==>
            && c.companyId == companyId && c.pointOfSaleId == posId && !c.received
            && (event.Some? ==>
                  && c.status == Offline && c.eventId == Some(event.value.id)
                  && c.invoice.issueDate.Some?
                  && event.value.start <= c.invoice.issueDate.value <= event.value.end)
            && (event.None? ==>
                  && c.status == Pending && c.eventId == None
                  && c.emissionType !in {"OFFLINE", "MASIVA"} && c.invoice.cuf == "")
  {
  }

  /** Why an invoice is refused, the first reason winning. */
  lemma RefusedFor(c: Candidate, companyId: string, posId: string, event: Option<ContingencyEvent>)
    ensures var e := CheckOne(c, companyId, posId, event);
            var foreign := c.companyId != companyId || c.pointOfSaleId != posId;
            var wanted := c.status == (if event.Some? then Offline else Pending) && !c.received;
            && (e == Some(Foreign) <==> foreign)
            && (e == Some(NotPendingForBatch) <==> !foreign && !wanted)
            && (e == Some(OtherEvent) <==> !foreign && wanted && event.Some? && c.eventId != Some(event.value.id))
            && (e == Some(HasIdentity) <==>
                  && !foreign && wanted && event.None?
                  && (c.eventId.Some? || c.emissionType in {"OFFLINE", "MASIVA"} || c.invoice.cuf != ""))
            && (e.Some? ==> e.value in {Foreign, NotPendingForBatch, OtherEvent, OutsideEvent, HasIdentity})
            && (e == Some(OutsideEvent) ==> event.Some?)
  {
  }

  /** `selectBatchInvoices`, over what the repository found for the identifiers, or for none. */
  method SelectBatchInvoices(companyId: string, posId: string, ids: Option<seq<string>>,
                             event: Option<ContingencyEvent>, found: seq<Candidate>)
    returns (r: Result<seq<Candidate>, SelectError>)
    ensures r.Ok? <==>
              && (ids.Some? ==>
                    && ids.value != [] && |found| == |ids.value|
                    && (forall i | 0 <= i < |ids.value| :: !Blank(ids.value[i]))
                    && (forall i, j | 0 <= i < j < |ids.value| :: ids.value[i] != ids.value[j]))
              && forall i | 0 <= i < |found| :: CheckOne(found[i], companyId, posId, event).None?
    ensures r == Err(NoIds) <==> ids == Some([])
    ensures r == Err(BadIds) <==> ids.Some? && ids.value != [] && !ValidIds(ids.value)
    ensures r == Err(NotAllFound) <==>
              ids.Some? && ids.value != [] && ValidIds(ids.value) && |found| != |ids.value|
    ensures r.Err? && r.error !in {NoIds, BadIds, NotAllFound} ==>
              exists i :: && 0 <= i < |found| && CheckOne(found[i], companyId, posId, event) == Some(r.error)
                          && forall k | 0 <= k < i :: CheckOne(found[k], companyId, posId, event).None?
    ensures r.Ok? ==> Ordered(r.value) && multiset(r.value) == multiset(found)
    ensures r.Ok? ==>
              forall i, j | 0 <= i < j < |r.value| ::
                && r.value[i].invoice.number <= r.value[j].invoice.number
                && (r.value[i].invoice.number == r.value[j].invoice.number ==>
                      !TextLess(r.value[j].invoice.id, r.value[i].invoice.id))
    ensures r.Ok? && event.Some? ==>
              forall i | 0 <= i < |found| ::
                && found[i].status == Offline && found[i].invoice.issueDate.Some?
                && event.value.start <= found[i].invoice.issueDate.value <= event.value.end
    ensures r.Ok? && event.None? ==>
              forall i | 0 <= i < |found| :: found[i].status == Pending && found[i].invoice.cuf == ""
  {
    if ids.Some? {
      var bad := CheckIds(ids.value);
      if bad.Some? { return Err(bad.value); }
      if |found| != |ids.value| { return Err(NotAllFound); }
    }
    for i := 0 to |found|
      invariant forall k | 0 <= k < i :: CheckOne(found[k], companyId, posId, event).None?
    {
      var bad := CheckOne(found[i], companyId, posId, event);
      if bad.Some? { return Err(bad.value); }
    }
    var sorted := SortInvoices(found);
    r := Ok(sorted);
  }

  /** What selection lets through, the reservation takes, if the invoice has not changed since. */
  lemma SelectedIsAvailable(c: Candidate, companyId: string, posId: string, event: Option<ContingencyEvent>)
    requires CheckOne(c, companyId, posId, event).None?
    ensures P.Available(P.Line(c.status, c.invoice.cuf, c.received), if event.Some? then Paquete else Masiva)
  {
  }
}
