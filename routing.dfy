/** How eventHandler.ServeHTTP classifies a request path.

    The handler matches `r.URL.Path` against `^/(\d+)/?` and, on a match,
    turns the captured digit run into a Go `int` with strconv.Atoi, ignoring
    the error.  The pattern is anchored at the start only, so whatever follows
    the digit run is never looked at.  Here the regular expression is replaced
    by a hand-written scanner (ScanDigits), proved against the declarative
    description of what the capture group holds (IdCapture). */
module Routing {

  /** Largest value of Go's `int` on a 64-bit platform (math.MaxInt64). */
  const MaxInt: int := 0x7FFF_FFFF_FFFF_FFFF

  /** What a request asks for: the whole collection, or one event by id. */
  datatype Intent = Collection | ByIdentifier(id: int)

  /** `\d` in Go's regular-expression syntax: an ASCII decimal digit. */
  predicate IsDigit(c: char) {
    '0' <= c <= '9'
  }

  predicate AllDigits(s: string) {
    forall i :: 0 <= i < |s| ==> IsDigit(s[i])
  }

  function DigitValue(c: char): (v: nat)
    requires IsDigit(c)
    ensures v < 10
  {
    (c as int) - ('0' as int)
  }

  function DigitChar(v: nat): (c: char)
    requires v < 10
    ensures IsDigit(c) && DigitValue(c) == v
  {
    (('0' as int) + v) as char
  }

  /** The mathematical value of a decimal digit run, most significant digit
      first; leading zeros contribute nothing and the empty run is 0. */
  function DecimalValue(d: string): nat
    requires AllDigits(d)
  {
    if d == [] then 0 else 10 * DecimalValue(d[..|d| - 1]) + DigitValue(d[|d| - 1])
  }

  /** The shortest decimal spelling of `n` (what strconv.Itoa produces for a
      non-negative `n`); used as the inverse of DecimalValue. */
  function Decimal(n: nat): (d: string)
    ensures |d| > 0 && AllDigits(d)
    ensures n >= 10 ==> d[0] != '0'
    decreases n
  {
    (if n < 10 then "" else Decimal(n / 10)) + [DigitChar(n % 10)]
  }

  /** strconv.Atoi applied to a digit run, with its error discarded: the value
      itself when it fits in an `int`, otherwise the saturated MaxInt that
      ParseInt returns together with its range error. */
  function Atoi(d: string): (n: int)
    requires AllDigits(d)
    ensures 0 <= n <= MaxInt
    ensures n <= DecimalValue(d)
    ensures n < DecimalValue(d) <==> DecimalValue(d) > MaxInt
    ensures DecimalValue(d) > MaxInt ==> n == MaxInt
  {
    if DecimalValue(d) <= MaxInt then DecimalValue(d) else MaxInt
  }

  /** The scanner: the index just past the maximal run of digits that starts
      at index `i` of `path`. */
  function ScanDigits(path: string, i: nat): (j: nat)
    requires i <= |path|
    ensures i <= j <= |path|
    ensures AllDigits(path[i..j])
    ensures j == |path| || !IsDigit(path[j])
    decreases |path| - i
  {
    if i < |path| && IsDigit(path[i]) then
      var j := ScanDigits(path, i + 1);
      assert path[i..j] == [path[i]] + path[i + 1..j];
      j
    else
      i
  }

  /** `d` is what the group `(\d+)` of `^/(\d+)/?` captures in `path`: the path
      starts with `/`, then the non-empty digit run `d`, and the character
      after `d`, if any, is not a digit (`\d+` is greedy). */
  ghost predicate IdCapture(path: string, d: string) {
    && |d| > 0
    && AllDigits(d)
    && |path| > |d|
    && path[0] == '/'
    && path[1..|d| + 1] == d
    && (|path| == |d| + 1 || !IsDigit(path[|d| + 1]))
  }

  /** ServeHTTP's classification: ByIdentifier exactly when the pattern
      matches, with an id that is never negative and fits in an `int`. */
  function Classify(path: string): (r: Intent)
    ensures r.ByIdentifier? <==> exists d :: IdCapture(path, d)
    ensures r.ByIdentifier? ==> 0 <= r.id <= MaxInt
  {
    if |path| >= 2 && path[0] == '/' && IsDigit(path[1]) then
      var j := ScanDigits(path, 1);
      assert IdCapture(path, path[1..j]);
      ByIdentifier(Atoi(path[1..j]))
    else
      Collection
  }

  /** The capture is unique: a maximal digit run after the leading `/` has only
      one length. */
  lemma CaptureUnique(path: string, d1: string, d2: string)
    requires IdCapture(path, d1) && IdCapture(path, d2)
    ensures d1 == d2
  {
    if |d1| < |d2| {
      CapturedDigitAt(path, d2, |d1|);
      assert false;
    } else if |d2| < |d1| {
      CapturedDigitAt(path, d1, |d2|);
      assert false;
    }
  }

  lemma CapturedDigitAt(path: string, d: string, k: nat)
    requires IdCapture(path, d) && k < |d|
    ensures path[k + 1] == d[k] && IsDigit(path[k + 1])
  {
  }

  /** The scanner agrees with the pattern: whenever the group captures `d`,
      the request goes to getByID with the value strconv.Atoi gives for `d`. */
  lemma ClassifyByCapture(path: string, d: string)
    requires IdCapture(path, d)
    ensures Classify(path) == ByIdentifier(Atoi(d))
  {
    var j := ScanDigits(path, 1);
    assert IdCapture(path, path[1..j]);
    CaptureUnique(path, d, path[1..j]);
  }

  /** Text after the digit run is ignored, because the pattern has no `$`:
      `/42`, `/42/`, `/42/extra` and `/42abc` all ask for event 42. */
  lemma TrailingTextIgnored(d: string, rest: string)
    requires |d| > 0 && AllDigits(d)
    requires rest == [] || !IsDigit(rest[0])
    ensures Classify("/" + d + rest) == ByIdentifier(Atoi(d))
  {
    var path := "/" + d + rest;
    assert path[1..|d| + 1] == d;
    assert |path| > |d| + 1 ==> path[|d| + 1] == rest[0];
    ClassifyByCapture(path, d);
  }

  lemma {:induction false} LeadingZeroValue(d: string)
    requires AllDigits(d)
    ensures AllDigits("0" + d) && DecimalValue("0" + d) == DecimalValue(d)
  {
    var z := "0" + d;
    assert AllDigits(z) by {
      forall i | 0 <= i < |z| ensures IsDigit(z[i]) {
        if i > 0 { assert z[i] == d[i - 1]; }
      }
    }
    if d != [] {
      assert z[..|z| - 1] == "0" + d[..|d| - 1];
      LeadingZeroValue(d[..|d| - 1]);
    }
  }

  /** Leading zeros are accepted and do not change the id: `/007` asks for
      event 7, exactly as `/7` does. */
  lemma LeadingZerosAccepted(d: string, rest: string)
    requires |d| > 0 && AllDigits(d)
    requires rest == [] || !IsDigit(rest[0])
    ensures Classify("/0" + d + rest) == Classify("/" + d + rest)
  {
    LeadingZeroValue(d);
    assert "/0" + d + rest == "/" + ("0" + d) + rest;
    TrailingTextIgnored("0" + d, rest);
    TrailingTextIgnored(d, rest);
  }

  lemma {:induction false} DecimalRoundTrip(n: nat)
    ensures DecimalValue(Decimal(n)) == n
  {
    var d := Decimal(n);
    var pre := if n < 10 then "" else Decimal(n / 10);
    assert d == pre + [DigitChar(n % 10)];
    assert d[..|d| - 1] == pre;
    assert DecimalValue(d) == 10 * DecimalValue(pre) + n % 10;
    if n >= 10 {
      DecimalRoundTrip(n / 10);
      assert DecimalValue(pre) == n / 10;
    }
  }

  /** Every id an `int` can hold is reachable: `/<n>` and `/<n>/` ask for
      event `n`. */
  lemma IdPathRoundTrip(n: nat)
    requires n <= MaxInt
    ensures Classify("/" + Decimal(n)) == ByIdentifier(n)
    ensures Classify("/" + Decimal(n) + "/") == ByIdentifier(n)
  {
    DecimalRoundTrip(n);
    TrailingTextIgnored(Decimal(n), "");
    assert "/" + Decimal(n) + "" == "/" + Decimal(n);
    TrailingTextIgnored(Decimal(n), "/");
  }

  /** The error of strconv.Atoi is discarded: a digit run too large for an
      `int` is still routed to getByID, with the saturated id MaxInt. */
  lemma OverflowSaturates(d: string, rest: string)
    requires |d| > 0 && AllDigits(d) && DecimalValue(d) > MaxInt
    requires rest == [] || !IsDigit(rest[0])
    ensures Classify("/" + d + rest) == ByIdentifier(MaxInt)
  {
    TrailingTextIgnored(d, rest);
  }

  /** Some sample paths and their intents. */
  lemma Examples()
    ensures Classify("") == Collection
    ensures Classify("/") == Collection
    ensures Classify("/abc") == Collection
    ensures Classify("abc/1") == Collection
    ensures Classify("/42") == ByIdentifier(42)
    ensures Classify("/42/") == ByIdentifier(42)
    ensures Classify("/42/extra") == ByIdentifier(42)
    ensures Classify("/42abc") == ByIdentifier(42)
  {
    assert "42"[..1] == "4";
    assert DecimalValue("42") == 42;
    TrailingTextIgnored("42", "");
    TrailingTextIgnored("42", "/");
    TrailingTextIgnored("42", "/extra");
    TrailingTextIgnored("42", "abc");
    assert "/42" + "" == "/42";
  }

  /** `/007` asks for event 7. */
  lemma LeadingZerosExample()
    ensures Classify("/007") == ByIdentifier(7)
  {
    assert DecimalValue("7") == 7;
    TrailingTextIgnored("7", "");
    LeadingZerosAccepted("7", "");
    LeadingZerosAccepted("07", "");
    assert "/7" + "" == "/7";
    assert "/0" + "7" + "" == "/07";
    assert "/0" + "07" + "" == "/007";
  }
}
