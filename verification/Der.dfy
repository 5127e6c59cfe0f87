/** Finding the end of the first DER item, so that OpenSSL's trailing trust data can be cut off a certificate. */
module Der {
  import opened Common

  type Octet = x: int | 0 <= x < 256

  /** Section 8.1.3.5 of ITU-T X.690: the length octets, most significant first. */
  function BigEndian(octets: seq<Octet>): nat {
    if octets == [] then 0 else 256 * BigEndian(octets[..|octets| - 1]) + octets[|octets| - 1]
  }

  /** Where the first item ends, read with unbounded integers; None for the indefinite form and a cut-off header. */
  function ItemEnd(der: seq<Octet>): Option<nat> {
    if |der| < 2 then None
    else if der[1] < 128 then Some(2 + der[1])
    else
      var k := der[1] - 128;
      if k == 0 || |der| < 2 + k then None else Some(2 + k + BigEndian(der[2..2 + k]))
  }

  function ItemLength(der: seq<Octet>): (r: Option<nat>)
    ensures r.Some? ==> 2 <= r.value <= |der|
  {
    var end := ItemEnd(der);
    if end.Some? && end.value <= |der| then end else None
  }

  // ---- Checked machine arithmetic ----

  lemma {:induction false} PrefixIsSmaller(octets: seq<Octet>, n: nat)
    requires n <= |octets|
    ensures BigEndian(octets[..n]) <= BigEndian(octets)
    decreases |octets|
  {
    if n == |octets| {
      assert octets[..n] == octets;
    } else {
      var front := octets[..|octets| - 1];
      assert front[..n] == octets[..n];
      PrefixIsSmaller(front, n);
    }
  }

  function CheckedMul(max: nat, a: nat, b: nat): Option<nat> { if a * b <= max then Some(a * b) else None }

  function CheckedAdd(max: nat, a: nat, b: nat): Option<nat> { if a + b <= max then Some(a + b) else None }

  lemma OverflowMeansTooLong(max: nat, octets: seq<Octet>, i: nat)
    requires i < |octets| && 256 * BigEndian(octets[..i]) + octets[i] > max
    ensures BigEndian(octets) > max
  {
    assert octets[..i + 1][..i] == octets[..i];
    PrefixIsSmaller(octets, i + 1);
  }

  /**
    The byte loop, with every product and sum checked against the machine's largest `usize`. Leaving on an overflow
    never rejects an item that would have fitted.
   */
  method DerItemLength(usizeMax: nat, der: seq<Octet>) returns (r: Option<nat>)
    requires 0xFFFF <= usizeMax && |der| <= usizeMax
    ensures r == ItemLength(der)
  {
    if |der| < 2 {
      return None;
    }
    var lengthOctet := der[1];
    if lengthOctet < 128 {
      return if 2 + lengthOctet <= |der| then Some(2 + lengthOctet) else None;
    }
    var lengthOctets := lengthOctet - 128;
    if lengthOctets == 0 {
      return None;
    }
    var lengthEnd := CheckedAdd(usizeMax, 2, lengthOctets);
    if lengthEnd.None? || |der| < lengthEnd.value {
      return None;
    }
    var lengthBytes := der[2..lengthEnd.value];
    var contentLength := 0;
    for i := 0 to |lengthBytes|
      invariant contentLength == BigEndian(lengthBytes[..i]) <= usizeMax
    {
      assert lengthBytes[..i + 1][..i] == lengthBytes[..i];
      var product := CheckedMul(usizeMax, contentLength, 256);
      if product.None? {
        OverflowMeansTooLong(usizeMax, lengthBytes, i);
        return None;
      }
      var sum := CheckedAdd(usizeMax, product.value, lengthBytes[i]);
      if sum.None? {
        OverflowMeansTooLong(usizeMax, lengthBytes, i);
        return None;
      }
      contentLength := sum.value;
    }
    assert lengthBytes[..|lengthBytes|] == lengthBytes;
    var total := CheckedAdd(usizeMax, lengthEnd.value, contentLength);
    return if total.Some? && total.value <= |der| then total else None;
  }

  // ---- Encoding ----

  /** A definite length: one octet below 128, or a count of one to 127 octets and that many octets. */
  datatype LengthForm = Short(n: Octet) | Long(octets: seq<Octet>) {
    predicate Valid() {
      match this
      case Short(n) => n < 128
      case Long(octets) => 1 <= |octets| <= 127
    }

    function Value(): nat {
      match this
      case Short(n) => n
      case Long(octets) => BigEndian(octets)
    }

    function Encode(): seq<Octet>
      requires Valid()
    {
      match this
      case Short(n) => [n]
      case Long(octets) => [128 + |octets|] + octets
    }
  }

  datatype Item = Item(tag: Octet, length: LengthForm, content: seq<Octet>) {
    predicate Valid() { length.Valid() && length.Value() == |content| }

    function Encode(): seq<Octet>
      requires Valid()
    {
      [tag] + length.Encode() + content
    }
  }

  function FirstItem(der: seq<Octet>): Option<seq<Octet>> {
    match ItemLength(der) case None => None case Some(n) => Some(der[..n])
  }

  /** Cutting an encoded item off whatever follows it gives that item back. */
  lemma FirstItemOfEncoded(item: Item, rest: seq<Octet>)
    requires item.Valid()
    ensures FirstItem(item.Encode() + rest) == Some(item.Encode())
  {
    var der := item.Encode() + rest;
    match item.length {
      case Short(n) =>
        assert der[1] == n;
      case Long(octets) =>
        assert der[1] == 128 + |octets|;
        assert der[2..2 + |octets|] == octets;
    }
    assert der[..|item.Encode()|] == item.Encode();
  }

  /** And only encoded items are found: whatever is cut off was one, so the two directions make an equivalence. */
  lemma FoundIsEncoded(der: seq<Octet>) returns (item: Item)
    requires FirstItem(der).Some?
    ensures item.Valid() && FirstItem(der) == Some(item.Encode())
    ensures item.Encode() <= der && item.tag == der[0]
    ensures item.length.Long? ==> der[1] == 128 + |item.length.octets|
    ensures item.length.Short? ==> der[1] == item.length.n
  {
    var n := ItemLength(der).value;
    if der[1] < 128 {
      item := Item(der[0], Short(der[1]), der[2..n]);
      assert der[..n] == [der[0]] + [der[1]] + der[2..n];
    } else {
      var k := der[1] - 128;
      item := Item(der[0], Long(der[2..2 + k]), der[2 + k..n]);
      assert der[..n] == [der[0]] + ([der[1]] + der[2..2 + k]) + der[2 + k..n];
    }
  }

  // ---- Trimming ----

  /** The answer depends on nothing after the item. */
  lemma DependsOnPrefix(der: seq<Octet>, other: seq<Octet>)
    requires FirstItem(der).Some? && FirstItem(der).value <= other
    ensures FirstItem(other) == FirstItem(der)
  {
    var item := FoundIsEncoded(der);
    assert other == item.Encode() + other[|item.Encode()|..];
    FirstItemOfEncoded(item, other[|item.Encode()|..]);
  }

  /** No proper prefix of an item is taken for an item. */
  lemma NoShorterPrefix(der: seq<Octet>, cut: seq<Octet>)
    requires FirstItem(der).Some? && cut < FirstItem(der).value
    ensures FirstItem(cut) == None
  {
    if FirstItem(cut).Some? {
      assert FirstItem(cut).value <= cut;
      DependsOnPrefix(cut, der);
      assert false;
    }
  }

  lemma TrimIsIdempotent(der: seq<Octet>)
    requires FirstItem(der).Some?
    ensures FirstItem(FirstItem(der).value) == FirstItem(der)
  {
    DependsOnPrefix(der, FirstItem(der).value);
  }

  // ---- The reserved length octet ----

  /** Section 8.1.3.5 c) of ITU-T X.690 forbids the first length octet 255, that is 127 following octets. */
  predicate StandardForm(length: LengthForm) {
    length.Valid() && (length.Long? ==> |length.octets| <= 126)
  }

  ghost predicate StandardItem(der: seq<Octet>, found: seq<Octet>) {
    exists item: Item :: item.Valid() && StandardForm(item.length) && found == item.Encode() && found <= der
  }

  /** The code does not check this, so it is exactly the inputs with that octet on which it leaves the standard. */
  lemma StandardUnlessReserved(der: seq<Octet>, found: seq<Octet>)
    ensures StandardItem(der, found) <==> FirstItem(der) == Some(found) && der[1] != 255
  {
    if StandardItem(der, found) {
      var item: Item :| item.Valid() && StandardForm(item.length) && found == item.Encode() && found <= der;
      assert der == found + der[|found|..];
      FirstItemOfEncoded(item, der[|found|..]);
      assert found[1] == item.length.Encode()[0];
    } else if FirstItem(der) == Some(found) && der[1] != 255 {
      var item := FoundIsEncoded(der);
      assert StandardForm(item.length);
      assert false;
    }
  }

  lemma ReservedIsAccepted() returns (der: seq<Octet>)
    ensures FirstItem(der) == Some(der) && !StandardItem(der, der)
  {
    var zeros: seq<Octet> := seq(127, _ => 0);
    var item := Item(0x30, Long(zeros), []);
    ZerosReadAsZero(zeros);
    der := item.Encode();
    FirstItemOfEncoded(item, []);
    assert der + [] == der;
    assert der[1] == 255;
    StandardUnlessReserved(der, der);
  }

  lemma {:induction false} ZerosReadAsZero(octets: seq<Octet>)
    requires forall i :: 0 <= i < |octets| ==> octets[i] == 0
    ensures BigEndian(octets) == 0
  {
    if octets == [] {
    } else {
      ZerosReadAsZero(octets[..|octets| - 1]);
    }
  }

  // ---- The certificates of a bundle ----

  datatype Section = Certificate(der: seq<Octet>) | Crl | OtherSection | Malformed

  datatype BundleError = PemError | InvalidDerLength | NoItemsFound

  /** Only bundles that hold a TRUSTED CERTIFICATE are trimmed. */
  function CertificateDer(trusted: bool, der: seq<Octet>): Option<seq<Octet>> {
    if trusted then FirstItem(der) else Some(der)
  }

  predicate Breaks(trusted: bool, section: Section) {
    section.Malformed? || (section.Certificate? && CertificateDer(trusted, section.der).None?)
  }

  /** The certificates of sections none of which breaks, in order. */
  function Certificates(trusted: bool, sections: seq<Section>): seq<seq<Octet>>
    requires forall i :: 0 <= i < |sections| ==> !Breaks(trusted, sections[i])
  {
    if sections == [] then []
    else
      var front, last := Certificates(trusted, sections[..|sections| - 1]), sections[|sections| - 1];
      assert !Breaks(trusted, last);
      if last.Certificate? then front + [CertificateDer(trusted, last.der).value] else front
  }

  method ParseCertificates(trusted: bool, sections: seq<Section>) returns (r: Result<seq<seq<Octet>>, BundleError>)
    ensures r.Ok? ==>
      && (forall i :: 0 <= i < |sections| ==> !Breaks(trusted, sections[i]))
      && r.value == Certificates(trusted, sections) != []
    ensures r == Err(NoItemsFound) ==>
      (forall i :: 0 <= i < |sections| ==> !Breaks(trusted, sections[i])) && Certificates(trusted, sections) == []
    ensures r == Err(PemError) || r == Err(InvalidDerLength) ==>
      exists i :: 0 <= i < |sections| && Breaks(trusted, sections[i]) &&
                  (r.error.PemError? <==> sections[i].Malformed?) &&
                  forall j :: 0 <= j < i ==> !Breaks(trusted, sections[j])
  {
    var certificates: seq<seq<Octet>> := [];
    for i := 0 to |sections|
      invariant forall j :: 0 <= j < i ==> !Breaks(trusted, sections[j])
      invariant certificates == Certificates(trusted, sections[..i])
    {
      assert sections[..i + 1][..i] == sections[..i];
      match sections[i] {
        case Malformed => return Err(PemError);
        case Certificate(der) =>
          var cert := CertificateDer(trusted, der);
          if cert.None? {
            return Err(InvalidDerLength);
          }
          certificates := certificates + [cert.value];
        case Crl =>
        case OtherSection =>
      }
    }
    assert sections[..|sections|] == sections;
    return if certificates == [] then Err(NoItemsFound) else Ok(certificates);
  }

  /** What the certificate sections hold, as it is. */
  function Ders(sections: seq<Section>): seq<seq<Octet>> {
    if sections == [] then []
    else Ders(sections[..|sections| - 1]) +
         if sections[|sections| - 1].Certificate? then [sections[|sections| - 1].der] else []
  }

  /** A bundle without a TRUSTED CERTIFICATE only fails on malformed PEM, and its certificates are left unchanged. */
  lemma {:induction false} UntrustedUnchanged(sections: seq<Section>)
    ensures forall i :: 0 <= i < |sections| ==> (Breaks(false, sections[i]) <==> sections[i] == Malformed)
    ensures Malformed !in sections ==> Certificates(false, sections) == Ders(sections)
  {
    if sections == [] {
    } else {
      UntrustedUnchanged(sections[..|sections| - 1]);
      assert Malformed !in sections ==> !Breaks(false, sections[|sections| - 1]);
    }
  }

  /** A section that holds this encoded item, perhaps followed by trust data. */
  ghost predicate Carries(section: Section, item: Item) {
    item.Valid() && section.Certificate? && item.Encode() <= section.der
  }

  lemma CarriedIsFound(section: Section, item: Item)
    requires Carries(section, item)
    ensures !Breaks(true, section) && CertificateDer(true, section.der) == Some(item.Encode())
  {
    var n := |item.Encode()|;
    assert section.der == item.Encode() + section.der[n..];
    FirstItemOfEncoded(item, section.der[n..]);
  }

  /** The section holds this item, or is one that is ignored when there is none. */
  ghost predicate Holds(section: Section, item: Option<Item>) {
    if item.Some? then Carries(section, item.value) else section.Crl? || section.OtherSection?
  }

  function Encodings(items: seq<Option<Item>>): seq<seq<Octet>>
    requires forall i :: 0 <= i < |items| && items[i].Some? ==> items[i].value.Valid()
  {
    if items == [] then []
    else
      var front, last := Encodings(items[..|items| - 1]), items[|items| - 1];
      if last.Some? then front + [last.value.Encode()] else front
  }

  lemma HeldDoesNotBreak(section: Section, item: Option<Item>)
    requires Holds(section, item)
    ensures !Breaks(true, section) && (item.Some? ==> item.value.Valid())
  {
    if item.Some? {
      CarriedIsFound(section, item.value);
    }
  }

  lemma AllHeldDoNotBreak(items: seq<Option<Item>>, sections: seq<Section>)
    requires |items| == |sections| && forall i :: 0 <= i < |items| ==> Holds(sections[i], items[i])
    ensures forall i :: 0 <= i < |sections| ==> !Breaks(true, sections[i])
    ensures forall i :: 0 <= i < |items| && items[i].Some? ==> items[i].value.Valid()
  {
    forall i | 0 <= i < |sections| ensures !Breaks(true, sections[i]) && (items[i].Some? ==> items[i].value.Valid()) {
      HeldDoesNotBreak(sections[i], items[i]);
    }
  }

  /**
    In a bundle of certificate items, some followed by trust data and some not, with revocation lists and other sections
    anywhere between them, trimming gives back exactly the items in order: a standard certificate is unchanged.
   */
  lemma {:induction false} MixedBundle(items: seq<Option<Item>>, sections: seq<Section>)
    requires |items| == |sections| && forall i :: 0 <= i < |items| ==> Holds(sections[i], items[i])
    ensures forall i :: 0 <= i < |sections| ==> !Breaks(true, sections[i])
    ensures forall i :: 0 <= i < |items| && items[i].Some? ==> items[i].value.Valid()
    ensures Certificates(true, sections) == Encodings(items)
  {
    AllHeldDoNotBreak(items, sections);
    if items == [] {
    } else {
      var n := |items| - 1;
      MixedBundle(items[..n], sections[..n]);
      if items[n].Some? {
        CarriedIsFound(sections[n], items[n].value);
      }
    }
  }
}
