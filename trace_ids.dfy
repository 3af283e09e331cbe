/**
 * The trace-id and span-id format checks of the OpenTelemetry API
 * (`isValidTraceId`, `isValidSpanId`, `isSpanContextValid`) and the
 * dash removal the propagator applies to incoming trace ids.
 *
 * A trace id is 32 hexadecimal digits, a span id 16, in either case
 * (the library's check is case-insensitive, unlike the lower-case form of
 * sections 3.2.2.3 and 3.2.2.4 of W3C Trace Context), and neither may be
 * all zeros.
 */
module TraceIds {

  /** The reserved invalid trace id, 32 zero digits. */
  const ZeroTraceId: string := "00000000000000000000000000000000"
  /** The reserved invalid span id, 16 zero digits. */
  const ZeroSpanId: string := "0000000000000000"

  predicate IsHexDigit(c: char) {
    '0' <= c <= '9' || 'a' <= c <= 'f' || 'A' <= c <= 'F'
  }

  predicate IsHex(s: string) {
    forall i :: 0 <= i < |s| ==> IsHexDigit(s[i])
  }

  predicate AllZeros(s: string) {
    forall i :: 0 <= i < |s| ==> s[i] == '0'
  }

  /** `isValidTraceId`: matches /^[0-9a-f]{32}$/i and is not the zero id,
      that is, 32 hex digits not all of which are zero. */
  predicate IsValidTraceId(s: string)
    ensures IsValidTraceId(s) <==> |s| == 32 && IsHex(s) && !AllZeros(s)
  {
    ZeroIdsAreAllZeros(s);
    |s| == 32 && IsHex(s) && s != ZeroTraceId
  }

  /** `isValidSpanId`: matches /^[0-9a-f]{16}$/i and is not the zero id,
      that is, 16 hex digits not all of which are zero. */
  predicate IsValidSpanId(s: string)
    ensures IsValidSpanId(s) <==> |s| == 16 && IsHex(s) && !AllZeros(s)
  {
    ZeroIdsAreAllZeros(s);
    |s| == 16 && IsHex(s) && s != ZeroSpanId
  }

  /** The reserved ids are exactly the all-zero strings of their length. */
  lemma ZeroIdsAreAllZeros(s: string)
    ensures |s| == 32 ==> (s == ZeroTraceId <==> AllZeros(s))
    ensures |s| == 16 ==> (s == ZeroSpanId <==> AllZeros(s))
  {
    assert |ZeroTraceId| == 32 && AllZeros(ZeroTraceId);
    assert |ZeroSpanId| == 16 && AllZeros(ZeroSpanId);
    if |s| == 32 && AllZeros(s) {
      assert forall i :: 0 <= i < 32 ==> s[i] == ZeroTraceId[i];
    }
    if |s| == 16 && AllZeros(s) {
      assert forall i :: 0 <= i < 16 ==> s[i] == ZeroSpanId[i];
    }
  }

  /** `s.replaceAll('-', '')`: drops every dash and keeps every other character in order. */
  function RemoveDashes(s: string): (r: string)
    ensures |r| <= |s|
    ensures '-' !in r
    ensures forall c :: c in r <==> c in s && c != '-'
  {
    if s == [] then []
    else if s[0] == '-' then RemoveDashes(s[1..])
    else [s[0]] + RemoveDashes(s[1..])
  }

  /** Dash removal distributes over concatenation. */
  lemma {:induction false} RemoveDashesConcat(a: string, b: string)
    ensures RemoveDashes(a + b) == RemoveDashes(a) + RemoveDashes(b)
  {
    if a == [] {
      assert a + b == b;
    } else {
      assert (a + b)[1..] == a[1..] + b;
      RemoveDashesConcat(a[1..], b);
    }
  }

  /** Every character other than a dash is kept as often as it occurs, and
      every dash is dropped. */
  lemma {:induction false} RemoveDashesCounts(s: string)
    ensures multiset(RemoveDashes(s)) == multiset(s)['-' := 0]
  {
    if s != [] {
      assert s == [s[0]] + s[1..];
      RemoveDashesCounts(s[1..]);
      assert multiset(s) == multiset{s[0]} + multiset(s[1..]);
    }
  }

  /** A string without dashes is left as it is. */
  lemma {:induction false} RemoveDashesKeepsDashFree(s: string)
    requires '-' !in s
    ensures RemoveDashes(s) == s
  {
    if s != [] {
      assert s == [s[0]] + s[1..];
      RemoveDashesKeepsDashFree(s[1..]);
    }
  }

  /** Inserting a dash anywhere does not change the cleaned string. */
  lemma RemoveDashesIgnoresInsertedDash(a: string, b: string)
    ensures RemoveDashes(a + "-" + b) == RemoveDashes(a + b)
  {
    RemoveDashesConcat(a + "-", b);
    RemoveDashesConcat(a, "-");
    RemoveDashesConcat(a, b);
    assert RemoveDashes("-") == [];
  }

  /** Removing the dashes of a dash-joined string of dash-free groups (the
      8-4-4-4-12 layout of a UUID call id) concatenates the groups. */
  lemma RemoveDashesJoinsGroups(a: string, b: string, c: string, d: string, e: string)
    requires '-' !in a && '-' !in b && '-' !in c && '-' !in d && '-' !in e
    ensures RemoveDashes(a + "-" + b + "-" + c + "-" + d + "-" + e) == a + b + c + d + e
  {
    var ab := a + "-" + b;
    var abc := ab + "-" + c;
    var abcd := abc + "-" + d;
    RemoveDashesSplitsAtDash(abcd, e);
    RemoveDashesSplitsAtDash(abc, d);
    RemoveDashesSplitsAtDash(ab, c);
    RemoveDashesSplitsAtDash(a, b);
    RemoveDashesKeepsDashFree(a);
    RemoveDashesKeepsDashFree(b);
    RemoveDashesKeepsDashFree(c);
    RemoveDashesKeepsDashFree(d);
    RemoveDashesKeepsDashFree(e);
  }

  lemma RemoveDashesSplitsAtDash(a: string, b: string)
    ensures RemoveDashes(a + "-" + b) == RemoveDashes(a) + RemoveDashes(b)
  {
    RemoveDashesIgnoresInsertedDash(a, b);
    RemoveDashesConcat(a, b);
  }

  /** Hexadecimal strings contain no dash, so a valid id survives dash removal. */
  lemma ValidIdsAreDashFree(s: string)
    requires IsHex(s)
    ensures '-' !in s
    ensures RemoveDashes(s) == s
  {
    RemoveDashesKeepsDashFree(s);
  }

  // ---------------------------------------------------------------------
  // The ids as numbers: a valid trace id is a non-zero 128-bit value and a
  // valid span id a non-zero 64-bit value.

  function HexDigitValue(c: char): (v: nat)
    requires IsHexDigit(c)
    ensures v < 16
    ensures v == 0 <==> c == '0'
  {
    if '0' <= c <= '9' then c as int - '0' as int
    else if 'a' <= c <= 'f' then c as int - 'a' as int + 10
    else c as int - 'A' as int + 10
  }

  function Pow16(n: nat): (p: nat)
    ensures p >= 1
  {
    if n == 0 then 1 else 16 * Pow16(n - 1)
  }

  /** The number a hexadecimal string denotes, most significant digit first. */
  function HexValue(s: string): nat
    requires IsHex(s)
  {
    if s == [] then 0 else 16 * HexValue(s[..|s| - 1]) + HexDigitValue(s[|s| - 1])
  }

  lemma {:induction false} HexValueBound(s: string)
    requires IsHex(s)
    ensures HexValue(s) < Pow16(|s|)
  {
    if s != [] {
      HexValueBound(s[..|s| - 1]);
    }
  }

  lemma {:induction false} HexValueZeroIff(s: string)
    requires IsHex(s)
    ensures HexValue(s) == 0 <==> AllZeros(s)
  {
    if s != [] {
      var p := s[..|s| - 1];
      HexValueZeroIff(p);
      assert AllZeros(s) <==> AllZeros(p) && s[|s| - 1] == '0' by {
        if AllZeros(p) && s[|s| - 1] == '0' {
          forall i | 0 <= i < |s| ensures s[i] == '0' {
            if i < |s| - 1 { assert s[i] == p[i]; }
          }
        }
      }
    }
  }

  /** A valid trace id denotes a non-zero 128-bit number. */
  lemma ValidTraceIdIsNonZero128(s: string)
    requires |s| == 32 && IsHex(s)
    ensures IsValidTraceId(s) <==> HexValue(s) != 0
    ensures HexValue(s) < Pow16(32)
  {
    ZeroIdsAreAllZeros(s);
    HexValueZeroIff(s);
    HexValueBound(s);
  }

  /** A valid span id denotes a non-zero 64-bit number. */
  lemma ValidSpanIdIsNonZero64(s: string)
    requires |s| == 16 && IsHex(s)
    ensures IsValidSpanId(s) <==> HexValue(s) != 0
    ensures HexValue(s) < Pow16(16)
  {
    ZeroIdsAreAllZeros(s);
    HexValueZeroIff(s);
    HexValueBound(s);
  }
}
