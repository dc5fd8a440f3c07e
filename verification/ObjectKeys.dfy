/** Keys of fiscal documents in object storage. */
module ObjectKeys {
  import opened Wrappers
  import opened Text

  datatype KeyError = InvalidKey

  // ---- ValidateObjectKey -------------------------------------------------------

  /** `strings.Split(s, "/")`. */
  function Split(s: string): (parts: seq<string>)
    ensures |parts| >= 1
    ensures forall i | 0 <= i < |parts| :: '/' !in parts[i]
  {
    if s == [] then [""]
    else
      var rest := Split(s[1..]);
      if s[0] == '/' then [""] + rest
      else [[s[0]] + rest[0]] + rest[1..]
  }

  function Join(parts: seq<string>): string {
    if parts == [] then ""
    else if |parts| == 1 then parts[0]
    else parts[0] + "/" + Join(parts[1..])
  }

  /** The element stack `path.Clean` keeps while it walks a relative path. */
  function CleanParts(parts: seq<string>, done: seq<string>): seq<string> {
    if parts == [] then done
    else if parts[0] == "" || parts[0] == "." then CleanParts(parts[1..], done)
    else if parts[0] == ".." && done != [] && done[|done| - 1] != ".." then
      CleanParts(parts[1..], done[..|done| - 1])
    else CleanParts(parts[1..], done + [parts[0]])
  }

  /** `path.Clean` on a path that does not start with a slash. */
  function Clean(path: string): string {
    var parts := CleanParts(Split(path), []);
    if parts == [] then "." else Join(parts)
  }

  predicate PortablePart(part: string) {
    part != "" && part != "." && part != ".." && ':' !in part
  }

  predicate AllPortable(parts: seq<string>) {
    forall i | 0 <= i < |parts| :: PortablePart(parts[i])
  }

  /** `ValidateObjectKey` returns no error. */
  predicate ValidObjectKey(key: string) {
    && key != "" && key[0] != '/'
    && '\\' !in key && '\0' !in key
    && Clean(key) == key
    && AllPortable(Split(key))
  }

  lemma {:induction false} JoinSplit(s: string)
    ensures Join(Split(s)) == s
  {
    if s != [] {
      JoinSplit(s[1..]);
      var rest := Split(s[1..]);
      if s[0] == '/' {
        assert ([""] + rest)[1..] == rest;
      } else if |rest| > 1 {
        var parts := Split(s);
        assert parts[1..] == rest[1..];
        assert Join(parts) == [s[0]] + rest[0] + "/" + Join(rest[1..]);
      }
    }
  }

  lemma {:induction false} PortablePartsAreClean(parts: seq<string>, done: seq<string>)
    requires AllPortable(parts)
    ensures CleanParts(parts, done) == done + parts
  {
    if parts == [] {
      assert done + parts == done;
    } else {
      PortablePartsAreClean(parts[1..], done + [parts[0]]);
      assert done + [parts[0]] + parts[1..] == done + parts;
    }
  }

  /** The parts decide: the leading-slash, emptiness and `path.Clean` tests add nothing to them. */
  lemma {:induction false} ValidIffPartsPortable(key: string)
    ensures ValidObjectKey(key) <==>
            && '\\' !in key && '\0' !in key
            && forall part | part in Split(key) :: part !in {"", ".", ".."} && ':' !in part
  {
    var parts := Split(key);
    assert AllPortable(parts) <==> forall part | part in parts :: PortablePart(part);
    assert key == "" || key[0] == '/' ==> !PortablePart(parts[0]);
    if AllPortable(parts) {
      PortablePartsAreClean(parts, []);
      JoinSplit(key);
      assert [] + parts == parts;
    }
  }

  // ---- InvoiceObjectKey ----------------------------------------------------------

  predicate IdChar(c: char) {
    'A' <= c <= 'Z' || 'a' <= c <= 'z' || '0' <= c <= '9' || c == '_' || c == '-'
  }

  /** Which characters those are, one by one. */
  lemma IdCharsAreListed(c: char)
    ensures IdChar(c) <==>
            || c in "ABCDEFGHIJKLMNOPQRSTUVWXYZ" || c in "abcdefghijklmnopqrstuvwxyz" || c in "0123456789"
            || c == '_' || c == '-'
  {
    BigLetters(c);
    SmallLetters(c);
    ArabicDigits(c);
  }

  lemma BigLetters(c: char)
    ensures 'A' <= c <= 'Z' <==> c in "ABCDEFGHIJKLMNOPQRSTUVWXYZ"
  {
    var big := "ABCDEFGHIJKLMNOPQRSTUVWXYZ";
    assert forall k | 0 <= k < 26 :: big[k] as int == 'A' as int + k;
    if 'A' <= c <= 'Z' { assert c == big[c as int - 'A' as int]; }
  }

  lemma SmallLetters(c: char)
    ensures 'a' <= c <= 'z' <==> c in "abcdefghijklmnopqrstuvwxyz"
  {
    var small := "abcdefghijklmnopqrstuvwxyz";
    assert forall k | 0 <= k < 26 :: small[k] as int == 'a' as int + k;
    if 'a' <= c <= 'z' { assert c == small[c as int - 'a' as int]; }
  }

  lemma ArabicDigits(c: char)
    ensures '0' <= c <= '9' <==> c in "0123456789"
  {
    var digits := "0123456789";
    assert forall k | 0 <= k < 10 :: digits[k] as int == '0' as int + k;
    if '0' <= c <= '9' { assert c == digits[c as int - '0' as int]; }
  }

  /** `^[A-Za-z0-9_-]+$`. */
  predicate IsId(s: string) {
    s != "" && forall i | 0 <= i < |s| :: IdChar(s[i])
  }

  predicate Accepted(companyId: string, invoiceId: string, cuf: string, kind: string) {
    IsId(companyId) && IsId(invoiceId) && IsId(cuf) && (kind == "xml" || kind == "pdf")
  }

  /** The last path element: the CUF and the kind. */
  function FileName(cuf: string, kind: string): string {
    cuf + "." + kind
  }

  function Key(companyId: string, invoiceId: string, cuf: string, kind: string): string {
    "companies" + "/" + (companyId + "/" + ("invoices" + "/" + (invoiceId + "/" + FileName(cuf, kind))))
  }

  function InvoiceObjectKey(companyId: string, invoiceId: string, cuf: string, kind: string): Result<string, KeyError> {
    if !Accepted(companyId, invoiceId, cuf, kind) then Err(InvalidKey)
    else if !ValidObjectKey(Key(companyId, invoiceId, cuf, kind)) then Err(InvalidKey)
    else Ok(Key(companyId, invoiceId, cuf, kind))
  }

  lemma {:induction false} SplitAtSlash(a: string, rest: string)
    requires '/' !in a
    ensures Split(a + "/" + rest) == [a] + Split(rest)
  {
    var s := a + "/" + rest;
    if a == [] {
      assert s[1..] == rest;
    } else {
      SplitAtSlash(a[1..], rest);
      assert s[1..] == a[1..] + "/" + rest;
      assert s[0] == a[0] && a[0] in a;
      assert [a[0]] + a[1..] == a;
      assert ([a[1..]] + Split(rest))[1..] == Split(rest);
    }
  }

  lemma {:induction false} SplitWithoutSlash(a: string)
    requires '/' !in a
    ensures Split(a) == [a]
  {
    if a != [] {
      SplitWithoutSlash(a[1..]);
      assert a[0] in a;
      assert [a[0]] + a[1..] == a;
    }
  }

  lemma KeyParts(companyId: string, invoiceId: string, cuf: string, kind: string)
    requires Accepted(companyId, invoiceId, cuf, kind)
    ensures Split(Key(companyId, invoiceId, cuf, kind)) ==
            ["companies", companyId, "invoices", invoiceId, FileName(cuf, kind)]
  {
    hide Split;
    var name := FileName(cuf, kind);
    var k3 := invoiceId + "/" + name;
    var k2 := "invoices" + "/" + k3;
    var k1 := companyId + "/" + k2;
    SplitAtSlash("companies", k1);
    SplitAtSlash(companyId, k2);
    SplitAtSlash("invoices", k3);
    SplitAtSlash(invoiceId, name);
    SplitWithoutSlash(name);
  }

  lemma IdIsPortable(s: string)
    requires IsId(s)
    ensures PortablePart(s)
  {
    assert IdChar(s[0]);
  }

  lemma AcceptedKeysArePlain(companyId: string, invoiceId: string, cuf: string, kind: string)
    requires Accepted(companyId, invoiceId, cuf, kind)
    ensures '\\' !in Key(companyId, invoiceId, cuf, kind) && '\0' !in Key(companyId, invoiceId, cuf, kind)
  {
    assert forall i | 0 <= i < |companyId| :: IdChar(companyId[i]);
    assert forall i | 0 <= i < |invoiceId| :: IdChar(invoiceId[i]);
    assert forall i | 0 <= i < |cuf| :: IdChar(cuf[i]);
  }

  /** Accepted identifiers always give a portable key: the second check never fails. */
  lemma AcceptedKeysAreValid(companyId: string, invoiceId: string, cuf: string, kind: string)
    requires Accepted(companyId, invoiceId, cuf, kind)
    ensures InvoiceObjectKey(companyId, invoiceId, cuf, kind) == Ok(Key(companyId, invoiceId, cuf, kind))
  {
    var key := Key(companyId, invoiceId, cuf, kind);
    KeyParts(companyId, invoiceId, cuf, kind);
    ValidIffPartsPortable(key);
    var name := FileName(cuf, kind);
    assert |name| > 3 && ':' !in name;
    AcceptedKeysArePlain(companyId, invoiceId, cuf, kind);
    IdIsPortable(companyId);
    IdIsPortable(invoiceId);
  }

  /** Distinct documents never share a key. */
  lemma KeyInjective(c1: string, i1: string, f1: string, k1: string, c2: string, i2: string, f2: string, k2: string)
    requires Accepted(c1, i1, f1, k1) && Accepted(c2, i2, f2, k2)
    requires Key(c1, i1, f1, k1) == Key(c2, i2, f2, k2)
    ensures c1 == c2 && i1 == i2 && f1 == f2 && k1 == k2
  {
    KeyParts(c1, i1, f1, k1);
    KeyParts(c2, i2, f2, k2);
    var parts := Split(Key(c1, i1, f1, k1));
    assert c1 == parts[1] == c2 && i1 == parts[3] == i2;
    assert f1 + ['.'] + k1 == parts[4] == f2 + ['.'] + k2;
    CutAtSeparator(f1, k1, f2, k2, '.');
  }

  lemma SidecarText(c: string, i: string, f: string, k: string)
    ensures Key(c, i, f, k) + ".meta" ==
            "companies" + "/" + (c + "/" + ("invoices" + "/" + (i + "/" + (FileName(f, k) + ".meta"))))
  {
    var name := FileName(f, k);
    var k3 := i + "/" + name;
    assert k3 + ".meta" == i + "/" + (name + ".meta");
    var k2 := "invoices" + "/" + k3;
    assert k2 + ".meta" == "invoices" + "/" + (k3 + ".meta");
    var k1 := c + "/" + k2;
    assert k1 + ".meta" == c + "/" + (k2 + ".meta");
  }

  lemma SidecarParts(c: string, i: string, f: string, k: string)
    requires Accepted(c, i, f, k)
    ensures Split(Key(c, i, f, k) + ".meta") == ["companies", c, "invoices", i, FileName(f, k) + ".meta"]
  {
    hide Split;
    SidecarText(c, i, f, k);
    var name := FileName(f, k) + ".meta";
    var t3 := i + "/" + name;
    var t2 := "invoices" + "/" + t3;
    var t1 := c + "/" + t2;
    SplitAtSlash("companies", t1);
    SplitAtSlash(c, t2);
    SplitAtSlash("invoices", t3);
    SplitAtSlash(i, name);
    SplitWithoutSlash(name);
  }

  /** The local backend's `<key>.meta` sidecar never lands on an invoice document. */
  lemma SidecarsNeverCollide(c1: string, i1: string, f1: string, k1: string, c2: string, i2: string, f2: string,
                             k2: string)
    requires Accepted(c1, i1, f1, k1) && Accepted(c2, i2, f2, k2)
    ensures Key(c1, i1, f1, k1) != Key(c2, i2, f2, k2) + ".meta"
  {
    assert |k1| == |k2| == 3;
    if Key(c1, i1, f1, k1) == Key(c2, i2, f2, k2) + ".meta" {
      KeyParts(c1, i1, f1, k1);
      SidecarParts(c2, i2, f2, k2);
      assert FileName(f1, k1) == Split(Key(c1, i1, f1, k1))[4] == FileName(f2, k2) + ".meta";
      assert f1 + ['.'] + k1 == f2 + ['.'] + (k2 + ".meta");
      CutAtSeparator(f1, k1, f2, k2 + ".meta", '.');
    }
  }
}
