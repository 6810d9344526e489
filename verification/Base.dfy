/** Small shared types and the string helpers of the Go standard library that the
    modelled code calls. */
module Base {

  datatype Option<+T> = None | Some(value: T)

  datatype Result<+T, +E> = Ok(value: T) | Err(error: E)

  /** strings.Join */
  function Join(parts: seq<string>, separator: string): string
  {
    if |parts| == 0 then ""
    else if |parts| == 1 then parts[0]
    else Join(parts[..|parts| - 1], separator) + separator + parts[|parts| - 1]
  }

  /** A join is empty only when there was nothing to say. */
  lemma JoinOfTextIsText(parts: seq<string>, separator: string)
    requires |parts| > 0 && separator != ""
    requires forall k :: 0 <= k < |parts| ==> parts[k] != ""
    ensures Join(parts, separator) != ""
  {
    if |parts| == 1 {
    } else {
      assert |Join(parts, separator)| >= |separator| > 0;
    }
  }

  /** strconv.Itoa on the non-negative numbers the program prints. */
  function Decimal(n: nat): string
  {
    if n < 10 then [('0' as int + n) as char]
    else Decimal(n / 10) + [('0' as int + n % 10) as char]
  }

  predicate IsDigit(c: char)
  {
    '0' <= c <= '9'
  }

  /** The number a string of digits stands for. */
  function Value(digits: string): nat
    requires forall k :: 0 <= k < |digits| ==> IsDigit(digits[k])
  {
    if |digits| == 0 then 0
    else
      assert IsDigit(digits[|digits| - 1]);
      10 * Value(digits[..|digits| - 1]) + (digits[|digits| - 1] as int - '0' as int)
  }

  lemma {:induction false} DecimalIsDigits(n: nat)
    ensures |Decimal(n)| > 0 && forall k :: 0 <= k < |Decimal(n)| ==> IsDigit(Decimal(n)[k])
  {
    if n >= 10 {
      DecimalIsDigits(n / 10);
    }
  }

  /** Reading a printed number gives it back. */
  lemma {:induction false} DecimalRoundTrip(n: nat)
    ensures forall k :: 0 <= k < |Decimal(n)| ==> IsDigit(Decimal(n)[k])
    ensures Value(Decimal(n)) == n
  {
    DecimalIsDigits(n);
    if n >= 10 {
      DecimalRoundTrip(n / 10);
      assert Decimal(n)[..|Decimal(n)| - 1] == Decimal(n / 10);
    } else {
      assert Decimal(n)[..0] == "";
    }
  }

  /** The first slash of such a text comes right after the digits. */
  lemma FirstSlash(n: nat, x: string)
    ensures var s := Decimal(n) + "/" + x;
            s[|Decimal(n)|] == '/' && forall k :: 0 <= k < |Decimal(n)| ==> s[k] != '/'
  {
    DecimalIsDigits(n);
    hide Decimal;
    var s := Decimal(n) + "/" + x;
    forall k | 0 <= k < |Decimal(n)| ensures s[k] != '/' {
      assert s[k] == Decimal(n)[k] && IsDigit(Decimal(n)[k]);
    }
  }

  /** Two texts that start with a number and a slash and are the same start with the same
      number. */
  lemma NumbersSeparate(a: nat, b: nat, x: string, y: string)
    requires Decimal(a) + "/" + x == Decimal(b) + "/" + y
    ensures a == b
  {
    hide Decimal;
    FirstSlash(a, x);
    FirstSlash(b, y);
    var s, t := Decimal(a) + "/" + x, Decimal(b) + "/" + y;
    assert |Decimal(a)| == |Decimal(b)|;
    assert s[..|Decimal(a)|] == Decimal(a) && t[..|Decimal(b)|] == Decimal(b);
    DecimalRoundTrip(a);
    DecimalRoundTrip(b);
  }

  /** agent.truncate, on characters instead of bytes. */
  function Truncate(s: string, max: nat): (r: string)
    ensures |s| <= max ==> r == s
    ensures |s| > max ==> |r| == max + 3 && s[..max] <= r && r[max..] == "..."
  {
    if |s| <= max then s else s[..max] + "..."
  }

  function Quote(s: string): string
  {
    "\"" + s + "\""
  }
}
