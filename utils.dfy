/** The non-payroll helpers of `utils.ts`: the document-series prefix of an
    invoice type, the UUID format check, and the WhatsApp link builder. */
module Utils {
  import opened Common

  /** The invoice types `getDocumentPrefix` lists, and every other one. */
  datatype InvoiceType = FT | FR | RG | NC | ND | PP | OR | GT | GR | VD | Unlisted(name: string)

  /** `getDocumentPrefix`: a receipt (RG) is numbered under "RC", every other
      listed type under its own two-letter code, anything else under "DOC". */
  function DocumentPrefix(t: InvoiceType): (r: string)
    ensures t.Unlisted? <==> r == "DOC"
    ensures !t.Unlisted? ==> |r| == 2
    ensures t == RG ==> r == "RC"
  {
    match t
    case FT => "FT"
    case FR => "FR"
    case RG => "RC"
    case NC => "NC"
    case ND => "ND"
    case PP => "PP"
    case OR => "OR"
    case GT => "GT"
    case GR => "GR"
    case VD => "VD"
    case Unlisted(_) => "DOC"
  }

  /** Distinct listed types never share a prefix, so a document number's
      prefix names its type. */
  lemma PrefixIdentifiesType(a: InvoiceType, b: InvoiceType)
    requires DocumentPrefix(a) == DocumentPrefix(b)
    requires !a.Unlisted?
    ensures a == b
  {
  }

  /** The character classes of the UUID regular expression, matched without
      regard to case (the `/i` flag). */
  datatype CharClass = HexDigit | Dash | VersionDigit | VariantDigit

  predicate InClass(k: CharClass, c: char)
  {
    match k
    case HexDigit => '0' <= c <= '9' || 'a' <= c <= 'f' || 'A' <= c <= 'F'
    case Dash => c == '-'
    case VersionDigit => '1' <= c <= '5'
    case VariantDigit => c in "89abAB"
  }

  function Repeat(k: CharClass, n: nat): (r: seq<CharClass>)
    ensures |r| == n
    ensures forall i :: 0 <= i < n ==> r[i] == k
  {
    if n == 0 then [] else [k] + Repeat(k, n - 1)
  }

  /** `^[0-9a-f]{8}-[0-9a-f]{4}-[1-5][0-9a-f]{3}-[89ab][0-9a-f]{3}-[0-9a-f]{12}$`,
      one class per character, group by group. */
  function UuidPattern(): seq<CharClass>
  {
    Repeat(HexDigit, 8) + [Dash] + Repeat(HexDigit, 4) + [Dash]
    + [VersionDigit] + Repeat(HexDigit, 3) + [Dash]
    + [VariantDigit] + Repeat(HexDigit, 3) + [Dash] + Repeat(HexDigit, 12)
  }

  /** Anchored match of a pattern of single-character classes. */
  predicate MatchesPattern(p: seq<CharClass>, s: string)
    decreases |p|
  {
    if p == [] then s == []
    else s != [] && InClass(p[0], s[0]) && MatchesPattern(p[1..], s[1..])
  }

  /** `isValidUUID`: false on the empty string, otherwise the regular
      expression test. */
  predicate IsValidUUID(uuid: string)
  {
    uuid != "" && MatchesPattern(UuidPattern(), uuid)
  }

  lemma {:induction false} MatchesPatternPointwise(p: seq<CharClass>, s: string)
    ensures MatchesPattern(p, s) <==> |p| == |s| && forall i :: 0 <= i < |p| ==> InClass(p[i], s[i])
    decreases |p|
  {
    if p != [] && s != [] {
      MatchesPatternPointwise(p[1..], s[1..]);
      assert forall i :: 1 <= i < |p| ==> p[1..][i - 1] == p[i];
    }
  }

  /** Which class the pattern demands at each of the 36 positions. */
  function ClassAt(i: nat): CharClass
  {
    if i in {8, 13, 18, 23} then Dash
    else if i == 14 then VersionDigit
    else if i == 19 then VariantDigit
    else HexDigit
  }

  lemma UuidPatternAt()
    ensures |UuidPattern()| == 36
    ensures forall i :: 0 <= i < 36 ==> UuidPattern()[i] == ClassAt(i)
  {
    var p := UuidPattern();
    assert p[..8] == Repeat(HexDigit, 8);
    assert p[9..13] == Repeat(HexDigit, 4);
    assert p[15..18] == Repeat(HexDigit, 3);
    assert p[20..23] == Repeat(HexDigit, 3);
    assert p[24..] == Repeat(HexDigit, 12);
  }

  /** A valid UUID is exactly a 36-character string with dashes at 8, 13, 18
      and 23, a version digit 1-5 at 14, a variant digit 8, 9, a or b at 19
      (either case) and hexadecimal digits everywhere else. */
  lemma {:induction false} ValidUUIDShape(uuid: string)
    ensures IsValidUUID(uuid) <==>
            |uuid| == 36 && forall i :: 0 <= i < 36 ==> InClass(ClassAt(i), uuid[i])
  {
    UuidPatternAt();
    MatchesPatternPointwise(UuidPattern(), uuid);
  }

  predicate IsDigit(c: char)
  {
    '0' <= c <= '9'
  }

  /** `phone.replace(/\D/g, '')`: every non-digit removed. */
  function DigitsOnly(phone: string): (r: string)
    ensures |r| <= |phone|
    ensures forall i :: 0 <= i < |r| ==> IsDigit(r[i])
  {
    if phone == [] then []
    else if IsDigit(phone[0]) then [phone[0]] + DigitsOnly(phone[1..])
    else DigitsOnly(phone[1..])
  }

  /** The cleaned phone number is the subsequence of decimal digits of the
      input, in their original order, with none dropped. */
  lemma {:induction false} DigitsOnlyIsDigitSubsequence(phone: string)
    ensures DigitsOnly(phone) == Filter(phone, IsDigit)
    ensures IsSubsequence(DigitsOnly(phone), phone)
    ensures forall c :: c in phone && IsDigit(c) ==> c in DigitsOnly(phone)
    decreases |phone|
  {
    if phone != [] {
      DigitsOnlyIsDigitSubsequence(phone[1..]);
    }
    FilterIsSubsequence(phone, IsDigit);
  }

  /** Removing non-digits a second time changes nothing. */
  lemma {:induction false} DigitsOnlyIdempotent(phone: string)
    ensures DigitsOnly(DigitsOnly(phone)) == DigitsOnly(phone)
    decreases |phone|
  {
    if phone != [] {
      DigitsOnlyIdempotent(phone[1..]);
      if IsDigit(phone[0]) {
        assert ([phone[0]] + DigitsOnly(phone[1..]))[1..] == DigitsOnly(phone[1..]);
      }
    }
  }

  const WhatsAppBase := "https://wa.me/"

  /** `generateWhatsAppLink`; `encodedMessage` is the result of
      `encodeURIComponent(message)`, which is not modelled. */
  function WhatsAppLink(phone: string, encodedMessage: string): (link: string)
    ensures |link| == |WhatsAppBase| + |DigitsOnly(phone)| + 6 + |encodedMessage|
    ensures StartsWith(link, WhatsAppBase)
    ensures link[|WhatsAppBase|..|WhatsAppBase| + |DigitsOnly(phone)|] == DigitsOnly(phone)
    ensures link[|WhatsAppBase| + |DigitsOnly(phone)|..] == "?text=" + encodedMessage
  {
    WhatsAppBase + DigitsOnly(phone) + "?text=" + encodedMessage
  }
}
