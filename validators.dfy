/** The request validators (src/utils/validators.js): two regular expressions,
    stated here as scans over the characters with their shape as the partner
    definition, and two record checks. */
module Validators {
  import opened Common

  /** A character the email pattern's `[^\s@]` class admits. */
  predicate EmailChar(c: char) {
    !IsSpace(c) && c != '@'
  }

  /** `s` matches `^[^\s@]+@[^\s@]+\.[^\s@]+$` with its '@' at `at` and the dot that
      splits the domain at `dot`: a non-empty local part, then a domain whose dot
      has at least one character on each side, and no white space or second '@'
      anywhere. */
  predicate EmailSplit(s: string, at: int, dot: int) {
    0 < at && at + 1 < dot && dot + 1 < |s| &&
    s[at] == '@' && s[dot] == '.' &&
    forall k :: 0 <= k < |s| && k != at ==> EmailChar(s[k])
  }

  /** The first position of `c` in `s`, if any. */
  function IndexOf(s: string, c: char): (r: Option<nat>)
    ensures r.None? <==> c !in s
    ensures r.Some? ==> r.value < |s| && s[r.value] == c && c !in s[..r.value]
  {
    if s == [] then None
    else if s[0] == c then Some(0)
    else
      var rest := IndexOf(s[1..], c);
      assert s == [s[0]] + s[1..];
      if rest.None? then None
      else
        assert s[..rest.value + 1] == [s[0]] + s[1..][..rest.value];
        Some(rest.value + 1)
  }

  /** Every character of `s` is admitted by `[^\s@]`. */
  function AllEmailChars(s: string): (b: bool)
    ensures b <==> forall k :: 0 <= k < |s| ==> EmailChar(s[k])
  {
    if s == [] then true else EmailChar(s[0]) && AllEmailChars(s[1..])
  }

  /** isValidEmail: find the '@', then check both sides and look for a dot with
      something before and after it in the domain. */
  function IsValidEmail(s: string): bool {
    match IndexOf(s, '@')
    case None => false
    case Some(at) =>
      at > 0 && at + 3 <= |s| &&
      AllEmailChars(s[..at]) && AllEmailChars(s[at + 1..]) &&
      '.' in s[at + 2..|s| - 1]
  }

  /** The scan accepts exactly the strings of the pattern's shape. */
  lemma IsValidEmailIff(s: string)
    ensures IsValidEmail(s) <==> exists at, dot :: EmailSplit(s, at, dot)
  {
    var i := IndexOf(s, '@');
    if IsValidEmail(s) {
      var at := i.value;
      var domain := s[at + 2..|s| - 1];
      var d := IndexOf(domain, '.');
      var dot := at + 2 + d.value;
      assert s[dot] == domain[d.value];
      forall k | 0 <= k < |s| && k != at
        ensures EmailChar(s[k])
      {
        if k < at {
          assert s[k] == s[..at][k];
        } else {
          assert s[k] == s[at + 1..][k - at - 1];
        }
      }
      assert EmailSplit(s, at, dot);
    }
    if exists at, dot :: EmailSplit(s, at, dot) {
      var at, dot :| EmailSplit(s, at, dot);
      assert i.Some?;
      assert i.value == at;
      assert s[at + 2..|s| - 1][dot - at - 2] == '.';
    }
  }

  /** A character the phone pattern's `[\d\s\-+$]` class admits. */
  predicate PhoneChar(c: char) {
    IsDigit(c) || IsSpace(c) || c == '-' || c == '+' || c == '$'
  }

  function AllPhoneChars(s: string): (b: bool)
    ensures b <==> forall k :: 0 <= k < |s| ==> PhoneChar(s[k])
  {
    if s == [] then true else PhoneChar(s[0]) && AllPhoneChars(s[1..])
  }

  /** isValidPhone: `^[\d\s\-+$$$$]{10,}$`, ten or more characters of the class. */
  function IsValidPhone(s: string): (b: bool)
    ensures b <==> |s| >= 10 && forall k :: 0 <= k < |s| ==> PhoneChar(s[k])
  {
    |s| >= 10 && AllPhoneChars(s)
  }

  /** A record validation result; the message is the one the source returns. */
  datatype Validation = Valid | Invalid(error: string)

  /** validateProduct: a missing or empty name or description, or a negative price,
      is invalid. A missing price compares as NaN (never below zero), so it passes. */
  function ValidateProduct(name: Option<string>, description: Option<string>, price: Option<real>): (r: Validation)
    ensures r.Invalid? <==> !Given(name) || !Given(description) || (price.Some? && price.value < 0.0)
    ensures r.Invalid? ==> r.error == "Invalid product data"
  {
    if !Given(name) || !Given(description) || (price.Some? && price.value < 0.0) then Invalid("Invalid product data")
    else Valid
  }

  /** validateOrder: the items are checked before the total; a missing or zero total
      is falsy and a negative one is not positive. */
  function ValidateOrder<T>(items: Option<seq<T>>, total: Option<real>): (r: Validation)
    ensures items.None? || items.value == [] ==> r == Invalid("Order must contain items")
    ensures items.Some? && items.value != [] && (total.None? || total.value <= 0.0) ==> r == Invalid("Invalid order total")
    ensures r.Valid? <==> items.Some? && items.value != [] && total.Some? && total.value > 0.0
  {
    if items.None? || items.value == [] then Invalid("Order must contain items")
    else if total.None? || total.value == 0.0 || total.value <= 0.0 then Invalid("Invalid order total")
    else Valid
  }

  /** A concrete address the email pattern accepts. */
  lemma EmailAccepted()
    ensures IsValidEmail("a@b.co")
  {
    var s := "a@b.co";
    forall k | 0 <= k < |s| && k != 1
      ensures EmailChar(s[k])
    {
      assert s[k] in {'a', 'b', '.', 'c', 'o'};
    }
    assert EmailSplit(s, 1, 3);
    IsValidEmailIff(s);
  }

  /** A concrete address the email pattern refuses: nothing between the '@' and the dot. */
  lemma EmailRejected()
    ensures !IsValidEmail("a@.co")
  {
    assert "a@.co"[3..4] == "c";
  }
}
