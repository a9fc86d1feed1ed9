/**
 * The string helpers of Go's standard library that the request builders rely on:
 * `strings.Join`, `strconv.FormatInt(n, 10)` and `filepath.Base` (with the Unix
 * separator '/'). Each is given together with the facts the builders need.
 */
module Text {
  import opened Outcomes

  /** `strings.Join(elems, sep)`. */
  function Join(elems: seq<string>, sep: string): string
    decreases |elems|
  {
    if |elems| == 0 then ""
    else if |elems| == 1 then elems[0]
    else elems[0] + sep + Join(elems[1..], sep)
  }

  /** Joining two elements puts the separator between them. */
  lemma JoinPair(a: string, b: string, sep: string)
    ensures Join([a, b], sep) == a + sep + b
  {
    assert [a, b][1..] == [b];
  }

  // ---------------------------------------------------------------------------
  // Decimal rendering (strconv.FormatInt with base 10) and its reading back

  predicate IsDigit(c: char) {
    '0' <= c <= '9'
  }

  predicate AllDigits(s: string) {
    forall i | 0 <= i < |s| :: IsDigit(s[i])
  }

  function DigitChar(d: int): char
    requires 0 <= d < 10
  {
    ('0' as int + d) as char
  }

  function DigitValue(c: char): int {
    c as int - '0' as int
  }

  /** Most significant digit first, no leading zero. */
  function Digits(n: nat): string
    decreases n
  {
    if n < 10 then [DigitChar(n)] else Digits(n / 10) + [DigitChar(n % 10)]
  }

  /** `strconv.FormatInt(n, 10)`: a minus sign for negative numbers, then the digits. */
  function FormatInt(n: int): string {
    if n < 0 then "-" + Digits(-n) else Digits(n)
  }

  /** The value of a run of decimal digits. */
  function DigitsValue(s: string): nat
    requires AllDigits(s)
    decreases |s|
  {
    if s == "" then 0 else 10 * DigitsValue(s[..|s| - 1]) + DigitValue(s[|s| - 1])
  }

  /** Reading a decimal integer with an optional sign, as a receiver of a decimal header does. */
  function ParseInt(s: string): Option<int> {
    if |s| > 1 && (s[0] == '-' || s[0] == '+') && AllDigits(s[1..]) then
      var magnitude: int := DigitsValue(s[1..]);
      Some(if s[0] == '-' then -magnitude else magnitude)
    else if |s| > 0 && AllDigits(s) then
      Some(DigitsValue(s))
    else
      None
  }

  /** A canonical decimal: optional '-', at least one digit, no leading zero, no "-0". */
  predicate Canonical(s: string) {
    var digits := if |s| > 0 && s[0] == '-' then s[1..] else s;
    && |digits| > 0
    && AllDigits(digits)
    && (|digits| > 1 ==> digits[0] != '0')
    && (|s| > 0 && s[0] == '-' ==> digits != "0")
  }

  lemma {:induction false} DigitsRoundTrip(n: nat)
    ensures AllDigits(Digits(n)) && |Digits(n)| > 0
    ensures DigitsValue(Digits(n)) == n
    ensures |Digits(n)| > 1 ==> Digits(n)[0] != '0'
    ensures Digits(n) == "0" <==> n == 0
    decreases n
  {
    if n >= 10 {
      DigitsRoundTrip(n / 10);
      var s := Digits(n);
      assert s == Digits(n / 10) + [DigitChar(n % 10)];
      assert s[..|s| - 1] == Digits(n / 10);
      assert s[0] == Digits(n / 10)[0];
    }
  }

  /** The `file_offset` header value reads back as the offset it was rendered from, and is canonical. */
  lemma FormatIntRoundTrip(n: int)
    ensures ParseInt(FormatInt(n)) == Some(n)
    ensures Canonical(FormatInt(n))
    ensures |FormatInt(n)| > 0 && (FormatInt(n)[0] == '-' <==> n < 0)
  {
    var s := FormatInt(n);
    if n < 0 {
      DigitsRoundTrip(-n);
      assert s[1..] == Digits(-n);
    } else {
      DigitsRoundTrip(n);
      assert IsDigit(s[0]);
    }
  }

  /** Distinct offsets give distinct header values. */
  lemma FormatIntInjective(a: int, b: int)
    requires FormatInt(a) == FormatInt(b)
    ensures a == b
  {
    FormatIntRoundTrip(a);
    FormatIntRoundTrip(b);
  }

  // ---------------------------------------------------------------------------
  // filepath.Base with separator '/'

  function TrimTrailingSlashes(p: string): string
    decreases |p|
  {
    if |p| > 0 && p[|p| - 1] == '/' then TrimTrailingSlashes(p[..|p| - 1]) else p
  }

  /** The suffix after the last '/', or all of `p` when it holds none. */
  function LastElement(p: string): string
    decreases |p|
  {
    if |p| == 0 || p[|p| - 1] == '/' then "" else LastElement(p[..|p| - 1]) + [p[|p| - 1]]
  }

  /**
   * `filepath.Base(path)`: "." for the empty path; trailing slashes are dropped;
   * "/" for a path of slashes only; otherwise the last element.
   */
  function Base(path: string): string {
    if path == "" then "."
    else
      var trimmed := TrimTrailingSlashes(path);
      if trimmed == "" then "/" else LastElement(trimmed)
  }

  lemma {:induction false} TrimTrailingSlashesShape(p: string)
    ensures TrimTrailingSlashes(p) <= p
    ensures TrimTrailingSlashes(p) == "" || TrimTrailingSlashes(p)[|TrimTrailingSlashes(p)| - 1] != '/'
    ensures '/' !in p ==> TrimTrailingSlashes(p) == p
    decreases |p|
  {
    if |p| > 0 && p[|p| - 1] == '/' {
      TrimTrailingSlashesShape(p[..|p| - 1]);
    }
  }

  lemma {:induction false} LastElementShape(p: string)
    ensures '/' !in LastElement(p)
    ensures |LastElement(p)| <= |p| && LastElement(p) == p[|p| - |LastElement(p)|..]
    ensures p != "" && p[|p| - 1] != '/' ==> LastElement(p) != ""
    ensures '/' !in p ==> LastElement(p) == p
    decreases |p|
  {
    if |p| > 0 && p[|p| - 1] != '/' {
      var init := p[..|p| - 1];
      LastElementShape(init);
      var e := LastElement(p);
      assert e == LastElement(init) + [p[|p| - 1]];
      assert p == init + [p[|p| - 1]];
      if '/' !in p {
        assert '/' !in init by {
          forall i | 0 <= i < |init| ensures init[i] != '/' {
            assert init[i] == p[i];
          }
        }
      }
    }
  }

  lemma {:induction false} LastElementAfterSlash(dir: string, name: string)
    requires '/' !in name
    ensures LastElement(dir + "/" + name) == name
    decreases |name|
  {
    var p := dir + "/" + name;
    if name == "" {
      assert p[|p| - 1] == '/';
    } else {
      var init := name[..|name| - 1];
      assert '/' !in init by {
        forall i | 0 <= i < |init| ensures init[i] != '/' {
          assert init[i] == name[i];
        }
      }
      LastElementAfterSlash(dir, init);
      assert p[..|p| - 1] == dir + "/" + init;
      assert p[|p| - 1] == name[|name| - 1];
      assert name == init + [name[|name| - 1]];
    }
  }

  /** The file name put into a Content-Disposition is never empty and holds no '/', except the root "/". */
  lemma BaseShape(path: string)
    ensures Base(path) != ""
    ensures '/' in Base(path) ==> Base(path) == "/"
  {
    if path != "" {
      var trimmed := TrimTrailingSlashes(path);
      TrimTrailingSlashesShape(path);
      if trimmed != "" {
        LastElementShape(trimmed);
      }
    }
  }

  /** Taking the base name twice changes nothing. */
  lemma BaseIdempotent(path: string)
    ensures Base(Base(path)) == Base(path)
  {
    BaseShape(path);
    var b := Base(path);
    if b == "/" {
      assert TrimTrailingSlashes(b) == TrimTrailingSlashes("");
    } else {
      assert '/' !in b;
      TrimTrailingSlashesShape(b);
      LastElementShape(b);
    }
  }

  /** The base name of `dir/name` is `name` whenever `name` is a single, non-empty element. */
  lemma BaseOfJoin(dir: string, name: string)
    requires name != "" && '/' !in name
    ensures Base(dir + "/" + name) == name
    ensures Base(name) == name
  {
    var p := dir + "/" + name;
    assert p[|p| - 1] == name[|name| - 1];
    assert p[|p| - 1] != '/' by {
      assert name[|name| - 1] in name;
    }
    LastElementAfterSlash(dir, name);
    TrimTrailingSlashesShape(name);
    LastElementShape(name);
  }
}
