/**
 * The customer-information check of the checkout page
 * (`validateCustomerInfo` in frontend/src/pages/Checkout.js): the four
 * fields must be filled in, the email must match
 * `^[^\s@]+@[^\s@]+\.[^\s@]+$` and the phone must match `^\d{10}$`.
 */
module CustomerValidation {
  import opened Wrappers

  datatype Field = Name | Email | Phone | Address

  /** The `customerInfo` state of the page. */
  datatype CustomerInfo = CustomerInfo(name: string, email: string, phone: string, address: string)
  {
    function Get(f: Field): string
    {
      match f
      case Name => name
      case Email => email
      case Phone => phone
      case Address => address
    }

    /** `{...customerInfo, [e.target.name]: e.target.value}` */
    function Set(f: Field, v: string): (r: CustomerInfo)
      ensures r.Get(f) == v
      ensures forall g :: g != f ==> r.Get(g) == Get(g)
    {
      match f
      case Name => this.(name := v)
      case Email => this.(email := v)
      case Phone => this.(phone := v)
      case Address => this.(address := v)
    }
  }

  /** The initial, empty form. */
  const Blank := CustomerInfo("", "", "", "")

  /** The characters of the JavaScript regular-expression class `\s`. */
  predicate IsSpace(c: char)
  {
    c == '\t' || c == '\n' || c == '\U{000B}' || c == '\U{000C}' || c == '\r' || c == ' '
    || c == '\U{00A0}' || c == '\U{1680}' || ('\U{2000}' <= c <= '\U{200A}')
    || c == '\U{2028}' || c == '\U{2029}' || c == '\U{202F}' || c == '\U{205F}'
    || c == '\U{3000}' || c == '\U{FEFF}'
  }

  /** Every character is in the class `[^\s@]`. */
  predicate Plain(s: string)
  {
    forall i :: 0 <= i < |s| ==> !IsSpace(s[i]) && s[i] != '@'
  }

  predicate NoSpace(s: string)
  {
    forall i :: 0 <= i < |s| ==> !IsSpace(s[i])
  }

  /**
   * The email regular expression `^[^\s@]+@[^\s@]+\.[^\s@]+$`, anchored at
   * both ends: an `@` at `at` and a `.` at `dot` split the string into three
   * non-empty runs of `[^\s@]`.
   */
  predicate MatchesEmailPattern(s: string)
  {
    exists at, dot | 0 < at < |s| && 0 < dot < |s| ::
      at + 1 < dot < |s| - 1 && s[at] == '@' && s[dot] == '.'
      && Plain(s[..at]) && Plain(s[at + 1..dot]) && Plain(s[dot + 1..])
  }

  /** Number of `@` characters in `s`. */
  function AtCount(s: string): nat
  {
    if s == [] then 0 else (if s[0] == '@' then 1 else 0) + AtCount(s[1..])
  }

  /** Index of the first `@`, or `|s|` when there is none. */
  function AtIndex(s: string): (r: nat)
    ensures r <= |s|
    ensures r < |s| ==> s[r] == '@'
    ensures forall i :: 0 <= i < r ==> s[i] != '@'
  {
    if s == [] then 0 else if s[0] == '@' then 0 else 1 + AtIndex(s[1..])
  }

  /** The part before the first `@`. */
  function LocalPart(s: string): string
  {
    s[..AtIndex(s)]
  }

  /** The part after the first `@` (empty when there is none). */
  function DomainPart(s: string): string
  {
    if AtIndex(s) < |s| then s[AtIndex(s) + 1..] else []
  }

  /** A `.` with at least one character on each side. */
  predicate HasInnerDot(d: string)
  {
    exists k | 0 < k < |d| - 1 :: d[k] == '.'
  }

  /**
   * The email shape spelled out part by part: exactly one `@`, a non-empty
   * local part without whitespace, a domain part without whitespace or `@`
   * that holds an inner `.`.
   */
  predicate WellFormedEmail(s: string)
  {
    AtCount(s) == 1 && |LocalPart(s)| > 0 && NoSpace(LocalPart(s))
    && Plain(DomainPart(s)) && HasInnerDot(DomainPart(s))
  }

  lemma {:induction false} AtCountZero(s: string)
    ensures AtCount(s) == 0 <==> forall i :: 0 <= i < |s| ==> s[i] != '@'
  {
    if s != [] {
      AtCountZero(s[1..]);
      assert forall i :: 1 <= i < |s| ==> s[i] == s[1..][i - 1];
    }
  }

  lemma {:induction false} AtCountSplit(s: string, k: nat)
    requires k <= |s|
    ensures AtCount(s) == AtCount(s[..k]) + AtCount(s[k..])
  {
    if k > 0 {
      AtCountSplit(s[1..], k - 1);
      assert s[1..][..k - 1] == s[..k][1..];
      assert s[1..][k - 1..] == s[k..];
    }
  }

  /** A match of the regular expression at `at` and `dot` is a well-formed email. */
  lemma MatchIsWellFormed(s: string, at: nat, dot: nat)
    requires 0 < at && at + 1 < dot < |s| - 1 && s[at] == '@' && s[dot] == '.'
    requires Plain(s[..at]) && Plain(s[at + 1..dot]) && Plain(s[dot + 1..])
    ensures WellFormedEmail(s)
  {
    assert AtIndex(s) == at by {
      assert forall i :: 0 <= i < at ==> s[..at][i] == s[i];
    }
    var d := s[at + 1..];
    assert DomainPart(s) == d;
    assert Plain(d) by {
      forall i | 0 <= i < |d| ensures !IsSpace(d[i]) && d[i] != '@' {
        if i < dot - at - 1 {
          assert d[i] == s[at + 1..dot][i];
        } else if i > dot - at - 1 {
          assert d[i] == s[dot + 1..][i - (dot - at)];
        }
      }
    }
    assert d[dot - at - 1] == '.';
    assert HasInnerDot(d);
    AtCountZero(s[..at]);
    AtCountZero(d);
    AtCountSplit(s, at);
    assert s[at..] == [s[at]] + d;
    assert s[at..][1..] == d;
  }

  lemma PlainSlice(d: string, lo: nat, hi: nat)
    requires Plain(d) && lo <= hi <= |d|
    ensures Plain(d[lo..hi])
  {
    assert forall i :: 0 <= i < hi - lo ==> d[lo..hi][i] == d[lo + i];
  }

  /** A well-formed email gives the regular expression a match. */
  lemma WellFormedMatches(s: string)
    requires WellFormedEmail(s)
    ensures MatchesEmailPattern(s)
  {
    var at := AtIndex(s);
    assert at < |s| by {
      AtCountZero(s);
    }
    var d := s[at + 1..];
    assert DomainPart(s) == d;
    var k :| 0 < k < |d| - 1 && d[k] == '.';
    var dot := at + 1 + k;
    assert Plain(s[..at]) by {
      assert LocalPart(s) == s[..at];
    }
    assert s[at + 1..dot] == d[..k];
    PlainSlice(d, 0, k);
    assert s[dot + 1..] == d[k + 1..];
    PlainSlice(d, k + 1, |d|);
    assert s[dot] == '.';
  }

  /** The regular expression accepts exactly the well-formed emails. */
  lemma EmailPatternCharacterized(s: string)
    ensures MatchesEmailPattern(s) <==> WellFormedEmail(s)
  {
    if MatchesEmailPattern(s) {
      var at, dot :| 0 < at < |s| && 0 < dot < |s|
        && at + 1 < dot < |s| - 1 && s[at] == '@' && s[dot] == '.'
        && Plain(s[..at]) && Plain(s[at + 1..dot]) && Plain(s[dot + 1..]);
      MatchIsWellFormed(s, at, dot);
    }
    if WellFormedEmail(s) {
      WellFormedMatches(s);
    }
  }

  predicate IsDigit(c: char)
  {
    '0' <= c <= '9'
  }

  /** The regular expression `^\d{n}$`: exactly `n` characters, each a `\d`. */
  predicate MatchesDigits(s: string, n: nat)
  {
    if n == 0 then s == [] else |s| > 0 && IsDigit(s[0]) && MatchesDigits(s[1..], n - 1)
  }

  /** The phone regular expression `^\d{10}$`. */
  predicate MatchesPhonePattern(s: string)
  {
    MatchesDigits(s, 10)
  }

  lemma {:induction false} MatchesDigitsIff(s: string, n: nat)
    ensures MatchesDigits(s, n) <==> |s| == n && forall i :: 0 <= i < |s| ==> IsDigit(s[i])
  {
    if n > 0 && |s| > 0 {
      MatchesDigitsIff(s[1..], n - 1);
      assert forall i :: 1 <= i < |s| ==> s[i] == s[1..][i - 1];
    }
  }

  /** The phone is accepted exactly when it is ten characters, all `0`..`9`. */
  lemma PhonePatternCharacterized(s: string)
    ensures MatchesPhonePattern(s) <==> |s| == 10 && forall i :: 0 <= i < |s| ==> IsDigit(s[i])
  {
    MatchesDigitsIff(s, 10);
  }

  /** The three messages `validateCustomerInfo` can set. */
  datatype ValidationError = MissingFields | InvalidEmail | InvalidPhone
  {
    function Message(): string
    {
      match this
      case MissingFields => "Please fill in all required fields"
      case InvalidEmail => "Please enter a valid email address"
      case InvalidPhone => "Please enter a valid 10-digit phone number"
    }
  }

  /** `!name || !email || !phone || !address` is false: no field is the empty string. */
  predicate AllFilled(info: CustomerInfo)
  {
    info.name != "" && info.email != "" && info.phone != "" && info.address != ""
  }

  /** The first failing check of `validateCustomerInfo`, or `None` when it returns true. */
  function Validate(info: CustomerInfo): (r: Option<ValidationError>)
    ensures r == Some(MissingFields) <==> !AllFilled(info)
    ensures r == Some(InvalidEmail) <==> AllFilled(info) && !MatchesEmailPattern(info.email)
    ensures r == None <==> AllFilled(info) && MatchesEmailPattern(info.email) && MatchesPhonePattern(info.phone)
  {
    if !AllFilled(info) then Some(MissingFields)
    else if !MatchesEmailPattern(info.email) then Some(InvalidEmail)
    else if !MatchesPhonePattern(info.phone) then Some(InvalidPhone)
    else None
  }

  /** An empty field is reported first, whatever the email and the phone are. */
  lemma EmptyFieldReportedFirst(info: CustomerInfo, f: Field)
    requires info.Get(f) == ""
    ensures Validate(info) == Some(MissingFields)
    ensures Validate(info).value.Message() == "Please fill in all required fields"
  {
  }

  /** Validation passes exactly when the fields are filled, the email is well formed and the phone is ten digits. */
  lemma ValidateAccepts(info: CustomerInfo)
    ensures Validate(info) == None <==>
      (forall f :: info.Get(f) != "") && WellFormedEmail(info.email)
      && |info.phone| == 10 && (forall i :: 0 <= i < |info.phone| ==> IsDigit(info.phone[i]))
  {
    EmailPatternCharacterized(info.email);
    PhonePatternCharacterized(info.phone);
    assert AllFilled(info) <==> forall f :: info.Get(f) != "" by {
      assert info.Get(Name) == info.name && info.Get(Email) == info.email;
      assert info.Get(Phone) == info.phone && info.Get(Address) == info.address;
    }
  }

  /** With every field filled, a malformed email is the reported error, before the phone is looked at. */
  lemma ValidateRejectsEmail(info: CustomerInfo)
    requires AllFilled(info)
    ensures Validate(info) == Some(InvalidEmail) <==> !WellFormedEmail(info.email)
  {
    EmailPatternCharacterized(info.email);
  }

  /** With the fields filled and the email accepted, the phone error appears exactly for a phone that is not ten digits. */
  lemma ValidateRejectsPhone(info: CustomerInfo)
    requires AllFilled(info) && WellFormedEmail(info.email)
    ensures Validate(info) == Some(InvalidPhone) <==>
      !(|info.phone| == 10 && forall i :: 0 <= i < |info.phone| ==> IsDigit(info.phone[i]))
  {
    EmailPatternCharacterized(info.email);
    PhonePatternCharacterized(info.phone);
  }
}
