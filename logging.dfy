/**
 * The pieces of the HTTP logging middleware that decide what is logged:
 * the response writer that captures status, size and (the start of) the
 * body, and the rendering of a body for the log.
 */
module Logging {

  newtype byte = x: int | 0 <= x < 256

  /** Bodies longer than this are cut for the log. */
  const MaxBodyLogSize: nat := 192

  /** The writer keeps capturing while its buffer is shorter than this. */
  const CaptureLimit: nat := 4096

  /** ASCII bytes of a marker string. The pointwise ensures lets the
      verifier see the markers' bytes without unfolding the comprehension. */
  function AsciiBytes(s: string): (r: seq<byte>)
    requires forall i :: 0 <= i < |s| ==> s[i] < 128 as char
    ensures |r| == |s| && forall i :: 0 <= i < |s| ==> r[i] as int == s[i] as int
  {
    seq(|s|, i requires 0 <= i < |s| => s[i] as int as byte)
  }

  function BinaryMarker(): seq<byte> { AsciiBytes("[binary content]") }
  function TruncatedMarker(): seq<byte> { AsciiBytes("... [truncated]") }

  // ---------------------------------------------------------------------
  // isPrintable
  // ---------------------------------------------------------------------

  /** Printable ASCII, newline, carriage return or tab. */
  predicate IsPrintableByte(b: byte)
  {
    (32 <= b <= 126) || b == 10 || b == 13 || b == 9
  }

  /** Number of printable bytes in d. */
  function PrintableCount(d: seq<byte>): nat
  {
    if d == [] then 0
    else PrintableCount(d[..|d| - 1]) + (if IsPrintableByte(d[|d| - 1]) then 1 else 0)
  }

  /** Number of bytes of d that are not printable, counted from the front. */
  function BinaryCount(d: seq<byte>): nat
  {
    if d == [] then 0 else (if IsPrintableByte(d[0]) then 0 else 1) + BinaryCount(d[1..])
  }

  /** At least 80% of the bytes are printable (the empty body counts as
      printable). The source compares float64(count)/float64(len) with 0.8;
      over exact rationals that is 5 * count >= 4 * len. */
  predicate MostlyPrintable(d: seq<byte>)
  {
    |d| == 0 || 5 * PrintableCount(d) >= 4 * |d|
  }

  /** `isPrintable`: counts the printable bytes in one pass. */
  method IsPrintable(data: seq<byte>) returns (ok: bool)
    ensures ok == MostlyPrintable(data)
  {
    if |data| == 0 {
      return true;
    }
    var printable := 0;
    var i := 0;
    while i < |data|
      invariant 0 <= i <= |data|
      invariant printable == PrintableCount(data[..i])
    {
      assert data[..i + 1][..i] == data[..i];
      if IsPrintableByte(data[i]) {
        printable := printable + 1;
      }
      i := i + 1;
    }
    assert data[..|data|] == data;
    ok := 5 * printable >= 4 * |data|;
  }

  lemma {:induction false} CountsSplit(d: seq<byte>)
    ensures PrintableCount(d) + BinaryCount(d) == |d|
    decreases |d|
  {
    if d != [] {
      CountsSplit(d[1..]);
      PrintableCountCons(d);
    }
  }

  lemma {:induction false} PrintableCountCons(d: seq<byte>)
    requires d != []
    ensures PrintableCount(d) == (if IsPrintableByte(d[0]) then 1 else 0) + PrintableCount(d[1..])
    decreases |d|
  {
    if |d| > 1 {
      PrintableCountCons(d[..|d| - 1]);
      assert d[..|d| - 1][1..] == d[1..][..|d[1..]| - 1];
    } else {
      assert d[..|d| - 1] == [] && d[1..] == [];
    }
  }

  /** Mostly printable exactly when at most one byte in five is binary. */
  lemma {:induction false} MostlyPrintableIffFewBinary(d: seq<byte>)
    ensures MostlyPrintable(d) <==> 5 * BinaryCount(d) <= |d|
  {
    CountsSplit(d);
  }

  /** Plain text is always printable. */
  lemma {:induction false} TextIsPrintable(d: seq<byte>)
    requires forall i :: 0 <= i < |d| ==> IsPrintableByte(d[i])
    ensures PrintableCount(d) == |d| && MostlyPrintable(d)
    decreases |d|
  {
    if d != [] {
      TextIsPrintable(d[..|d| - 1]);
    }
  }

  // ---------------------------------------------------------------------
  // getSafeBodyString
  // ---------------------------------------------------------------------

  /** `getSafeBodyString`: the empty body gives the empty string, a binary
      body a marker, a long body its first 192 bytes and a truncation
      marker, any other body itself. */
  method GetSafeBodyString(body: seq<byte>) returns (r: seq<byte>)
    ensures |body| == 0 ==> r == []
    ensures |body| > 0 && !MostlyPrintable(body) ==> r == BinaryMarker()
    ensures |body| > 0 && MostlyPrintable(body) && |body| > MaxBodyLogSize ==>
      r == body[..MaxBodyLogSize] + TruncatedMarker()
    ensures MostlyPrintable(body) && |body| <= MaxBodyLogSize ==> r == body
    ensures |r| <= MaxBodyLogSize + |TruncatedMarker()|
  {
    if |body| == 0 {
      return [];
    }
    var printable := IsPrintable(body);
    if !printable {
      return BinaryMarker();
    }
    if |body| > MaxBodyLogSize {
      return body[..MaxBodyLogSize] + TruncatedMarker();
    }
    return body;
  }

  // ---------------------------------------------------------------------
  // responseWriter
  // ---------------------------------------------------------------------

  /** The capturing response writer. The wrapped writer is not modelled: each
      `Write` is told how many bytes it accepted and what error it returned. */
  class ResponseWriter {
    var statusCode: int
    var body: seq<byte>
    var size: int
    /** Every byte the wrapped writer accepted, in order. */
    ghost var accepted: seq<byte>

    /** The byte count is the number of accepted bytes; the captured body is
        a prefix of them, and all of them while it is under the limit. */
    ghost predicate Valid()
      reads this
    {
      size == |accepted| &&
      |body| <= |accepted| && body == accepted[..|body|] &&
      (|body| < CaptureLimit ==> body == accepted)
    }

    /** `newResponseWriter`: status 200, nothing written yet. */
    constructor ()
      ensures Valid()
      ensures statusCode == 200 && body == [] && size == 0 && accepted == []
    {
      statusCode := 200;
      body := [];
      size := 0;
      accepted := [];
    }

    /** `Write`: passes b on, then captures the n bytes accepted if the
        buffer is still under the limit, and counts them. */
    method Write(b: seq<byte>, written: nat, innerErr: bool) returns (n: nat, err: bool)
      requires Valid()
      requires written <= |b|
      modifies this
      ensures Valid()
      ensures n == written && err == innerErr
      ensures accepted == old(accepted) + b[..n]
      ensures size == old(size) + n
      ensures body == if |old(body)| < CaptureLimit then old(body) + b[..n] else old(body)
      ensures statusCode == old(statusCode)
    {
      n, err := written, innerErr;
      if |body| < CaptureLimit {
        body := body + b[..n];
      }
      size := size + n;
      accepted := accepted + b[..n];
    }

    /** `WriteHeader`: records the status code. */
    method WriteHeader(code: int)
      requires Valid()
      modifies this
      ensures Valid()
      ensures statusCode == code
      ensures body == old(body) && size == old(size) && accepted == old(accepted)
    {
      statusCode := code;
    }
  }
}
