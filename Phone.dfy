/** The phone-field rule shared by the project enquiry dialog and the crew application
    form: every non-digit is stripped (`value.replace(/\D/g, "")`) and the edit is taken
    only when at most ten digits remain. */
module Phone {
  import opened Backend

  const MaxDigits: nat := 10

  /** `\d` in a JavaScript regular expression: the ASCII digits only. */
  predicate IsDigit(c: char) {
    '0' <= c <= '9'
  }

  predicate AllDigits(s: string) {
    forall i :: 0 <= i < |s| ==> IsDigit(s[i])
  }

  /** What the phone field may hold: digits only, at most ten of them. */
  predicate WellFormed(phone: string) {
    AllDigits(phone) && |phone| <= MaxDigits
  }

  /** `s.replace(/\D/g, "")`: the digits of `s`, in order. */
  function DigitsOnly(s: string): (r: string)
    ensures AllDigits(r)
    ensures |r| <= |s|
  {
    if s == [] then []
    else (if IsDigit(s[0]) then [s[0]] else []) + DigitsOnly(s[1..])
  }

  /** The phone edit: `Some(digits)` when the stripped value fits, `None` when the
      handler returns without touching the form. */
  function Sanitise(value: string): (r: Option<string>)
    ensures r.Some? ==> WellFormed(r.value)
    ensures r.Some? <==> |DigitsOnly(value)| <= MaxDigits
  {
    var digits := DigitsOnly(value);
    if |digits| <= MaxDigits then Some(digits) else None
  }

  /** Stripping distributes over concatenation: each character is kept or dropped on its
      own, so the result keeps the relative order of the digits. */
  lemma {:induction false} DigitsOnlyAppend(a: string, b: string)
    ensures DigitsOnly(a + b) == DigitsOnly(a) + DigitsOnly(b)
  {
    if a == [] {
      assert a + b == b;
    } else {
      assert (a + b)[0] == a[0];
      assert (a + b)[1..] == a[1..] + b;
      DigitsOnlyAppend(a[1..], b);
    }
  }

  /** A string made of digits only is left as it is. */
  lemma {:induction false} DigitsOnlyOfDigits(s: string)
    requires AllDigits(s)
    ensures DigitsOnly(s) == s
  {
    if s != [] {
      DigitsOnlyOfDigits(s[1..]);
    }
  }

  /** Stripping twice is stripping once. */
  lemma {:induction false} DigitsOnlyIdempotent(s: string)
    ensures DigitsOnly(DigitsOnly(s)) == DigitsOnly(s)
  {
    DigitsOnlyOfDigits(DigitsOnly(s));
  }

  /** No digit is lost and nothing else survives: every digit occurs in the result
      exactly as often as in the input, every other character not at all. */
  lemma {:induction false} DigitsOnlyCounts(s: string, c: char)
    ensures IsDigit(c) ==> multiset(DigitsOnly(s))[c] == multiset(s)[c]
    ensures !IsDigit(c) ==> multiset(DigitsOnly(s))[c] == 0
  {
    if s != [] {
      DigitsOnlyCounts(s[1..], c);
      assert s == [s[0]] + s[1..];
      assert multiset(s) == multiset([s[0]]) + multiset(s[1..]);
    }
  }

  /** A phone already stored passes the sanitiser unchanged. */
  lemma SanitiseStored(phone: string)
    requires WellFormed(phone)
    ensures Sanitise(phone) == Some(phone)
  {
    DigitsOnlyOfDigits(phone);
  }
}
