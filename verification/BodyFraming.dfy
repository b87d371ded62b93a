/**
 Framing of a gateway request body (apps/gateway/src/request-body.ts, inspectRequestBodyFraming and
 parseCanonicalContentLength): which raw headers declare a body length, and which length.
 */
module BodyFraming {
  import opened Prelude

  datatype BodyError = InvalidContentLength | RequestBodyTooLarge | IncompleteRequestBody

  datatype Framing = Undeclared | Declared(bytes: nat)

  const CONTENT_LENGTH := "content-length"
  const TRANSFER_ENCODING := "transfer-encoding"

  function LowerChar(c: char): char {
    if 'A' <= c <= 'Z' then (c as int + 32) as char else c
  }

  function Lower(s: string): string {
    seq(|s|, i requires 0 <= i < |s| => LowerChar(s[i]))
  }

  /** The values of the header `name` in a flat list of names and values; an unpaired last name is ignored. */
  function Values(raw: seq<string>, name: string): seq<string> {
    if |raw| < 2 then []
    else (if Lower(raw[0]) == name then [raw[1]] else []) + Values(raw[2..], name)
  }

  // ----- decimal numerals -----

  predicate IsDigit(c: char) {
    '0' <= c <= '9'
  }

  /** A numeral without sign, spaces or leading zeros. */
  predicate Canonical(s: string) {
    && s != []
    && (forall i :: 0 <= i < |s| ==> IsDigit(s[i]))
    && (s[0] == '0' ==> |s| == 1)
  }

  function NumeralValue(s: string): nat
    requires forall i :: 0 <= i < |s| ==> IsDigit(s[i])
    decreases |s|
  {
    if s == [] then 0
    else
      var d := s[|s| - 1];
      assert IsDigit(d);
      10 * NumeralValue(s[..|s| - 1]) + (d as int - '0' as int)
  }

  function Decimal(n: nat): string {
    if n < 10 then [('0' as int + n) as char]
    else Decimal(n / 10) + [('0' as int + n % 10) as char]
  }

  predicate IsSpace(c: char) {
    c == ' ' || c == '\t' || c == '\n' || c == '\r' || c as int == 0x0B || c as int == 0x0C || c as int == 0xA0
      || c as int == 0xFEFF
  }

  function Trim(s: string): string
    decreases |s|
  {
    if s == [] then []
    else if IsSpace(s[0]) then Trim(s[1..])
    else if IsSpace(s[|s| - 1]) then Trim(s[..|s| - 1])
    else s
  }

  function ParseContentLength(value: string): Result<Framing, BodyError> {
    var normalized := Trim(value);
    if !Canonical(normalized) then Err(InvalidContentLength)
    else
      var n := NumeralValue(normalized);
      if n <= MAX_SAFE_INTEGER then Ok(Declared(n)) else Err(InvalidContentLength)
  }

  function Inspect(raw: seq<string>): Result<Framing, BodyError> {
    var lengths := Values(raw, CONTENT_LENGTH);
    if lengths == [] then Ok(Undeclared)
    else if |lengths| != 1 || Values(raw, TRANSFER_ENCODING) != [] then Err(InvalidContentLength)
    else ParseContentLength(lengths[0])
  }

  /** The loop has taken in the headers before `index`. */
  ghost predicate Scanned(raw: seq<string>, index: nat, contentLengths: seq<string>, transferEncodingPresent: bool) {
    && index <= |raw|
    && contentLengths + Values(raw[index..], CONTENT_LENGTH) == Values(raw, CONTENT_LENGTH)
    && (transferEncodingPresent || |Values(raw[index..], TRANSFER_ENCODING)| > 0 <==>
        |Values(raw, TRANSFER_ENCODING)| > 0)
  }

  lemma ValuesFrom(raw: seq<string>, index: nat, name: string)
    requires index + 1 < |raw|
    ensures Values(raw[index..], name)
         == (if Lower(raw[index]) == name then [raw[index + 1]] else []) + Values(raw[index + 2..], name)
  {
    assert raw[index..][2..] == raw[index + 2..];
  }

  lemma ScanStep(raw: seq<string>, index: nat, lengths: seq<string>, encoded: bool)
    requires Scanned(raw, index, lengths, encoded) && index + 1 < |raw|
    ensures var name := Lower(raw[index]);
      Scanned(raw, index + 2, if name == CONTENT_LENGTH then lengths + [raw[index + 1]] else lengths,
              encoded || name == TRANSFER_ENCODING)
  {
    ValuesFrom(raw, index, CONTENT_LENGTH);
    ValuesFrom(raw, index, TRANSFER_ENCODING);
    assert lengths + ([raw[index + 1]] + Values(raw[index + 2..], CONTENT_LENGTH))
        == (lengths + [raw[index + 1]]) + Values(raw[index + 2..], CONTENT_LENGTH);
  }

  lemma ScanEnd(raw: seq<string>, index: nat, lengths: seq<string>, encoded: bool)
    requires Scanned(raw, index, lengths, encoded) && index + 1 >= |raw|
    ensures lengths == Values(raw, CONTENT_LENGTH) && (encoded <==> Values(raw, TRANSFER_ENCODING) != [])
  {
  }

  method InspectRequestBodyFraming(rawHeaders: seq<string>) returns (r: Result<Framing, BodyError>)
    ensures r == Inspect(rawHeaders)
  {
    var contentLengths: seq<string> := [];
    var transferEncodingPresent := false;
    var index := 0;
    assert rawHeaders[0..] == rawHeaders;
    while index + 1 < |rawHeaders|
      invariant 0 <= index && Scanned(rawHeaders, index, contentLengths, transferEncodingPresent)
    {
      var name := Lower(rawHeaders[index]);
      ScanStep(rawHeaders, index, contentLengths, transferEncodingPresent);
      if name == CONTENT_LENGTH {
        contentLengths := contentLengths + [rawHeaders[index + 1]];
      }
      if name == TRANSFER_ENCODING {
        transferEncodingPresent := true;
      }
      index := index + 2;
    }
    ScanEnd(rawHeaders, index, contentLengths, transferEncodingPresent);
    if |contentLengths| == 0 {
      return Ok(Undeclared);
    }
    if |contentLengths| != 1 || transferEncodingPresent {
      return Err(InvalidContentLength);
    }
    r := ParseContentLength(contentLengths[0]);
  }

  // ----- what is accepted -----

  lemma {:induction false} DecimalIsCanonical(n: nat)
    ensures Canonical(Decimal(n)) && (n > 0 ==> Decimal(n)[0] != '0')
    ensures NumeralValue(Decimal(n)) == n
  {
    if n < 10 {
      assert Decimal(n)[..0] == [];
    } else {
      DecimalIsCanonical(n / 10);
      assert Decimal(n)[..|Decimal(n)| - 1] == Decimal(n / 10);
    }
  }

  /** A canonical numeral is the decimal numeral of its own value. */
  lemma {:induction false} CanonicalIsDecimal(s: string)
    requires Canonical(s)
    ensures Decimal(NumeralValue(s)) == s
    decreases |s|
  {
    var s0, d := s[..|s| - 1], s[|s| - 1];
    if |s| == 1 {
      assert s0 == [] && s == [d];
    } else {
      CanonicalIsDecimal(s0);
      assert s == s0 + [d];
      PositiveNumeral(s0);
    }
  }

  lemma {:induction false} PositiveNumeral(s: string)
    requires Canonical(s) && s[0] != '0'
    ensures NumeralValue(s) > 0
    decreases |s|
  {
    if |s| > 1 {
      PositiveNumeral(s[..|s| - 1]);
    }
  }

  lemma {:induction false} TrimKeepsDecimal(n: nat)
    ensures Trim(Decimal(n)) == Decimal(n)
  {
    DecimalIsCanonical(n);
  }

  /** Written out and read back, a length is declared as it is, unless it is no safe integer. */
  lemma DecimalIsRead(n: nat)
    ensures ParseContentLength(Decimal(n)) ==
      if n <= MAX_SAFE_INTEGER then Ok(Declared(n)) else Err(InvalidContentLength)
  {
    DecimalIsCanonical(n);
    TrimKeepsDecimal(n);
  }

  /** Some pair of a name and a value carries this header. */
  ghost predicate Mentions(raw: seq<string>, name: string) {
    exists i :: 0 <= i && 2 * i + 1 < |raw| && Lower(raw[2 * i]) == name
  }

  lemma {:induction false} ValuesMention(raw: seq<string>, name: string)
    ensures Values(raw, name) == [] <==> !Mentions(raw, name)
    decreases |raw|
  {
    if |raw| >= 2 {
      var rest := raw[2..];
      ValuesMention(rest, name);
      if i :| 0 <= i && 2 * i + 1 < |raw| && Lower(raw[2 * i]) == name {
        if i > 0 { assert rest[2 * (i - 1)] == raw[2 * i] && Mentions(rest, name); }
      }
      if i :| 0 <= i && 2 * i + 1 < |rest| && Lower(rest[2 * i]) == name {
        assert rest[2 * i] == raw[2 * (i + 1)] && Mentions(raw, name);
      }
      if Lower(raw[0]) == name { assert raw[2 * 0] == raw[0] && Mentions(raw, name); }
    }
  }

  /**
   A request that nowhere mentions Content-Length has no declared length, whatever its encoding. One that does is
   declared or refused, and refused at least when it also mentions Transfer-Encoding.
   */
  lemma UndeclaredExactlyWhen(raw: seq<string>)
    ensures Inspect(raw) == Ok(Undeclared) <==> !Mentions(raw, CONTENT_LENGTH)
    ensures Mentions(raw, CONTENT_LENGTH) && Mentions(raw, TRANSFER_ENCODING) ==>
      Inspect(raw) == Err(InvalidContentLength)
    ensures Inspect(raw).Err? ==> Inspect(raw) == Err(InvalidContentLength)
  {
    ValuesMention(raw, CONTENT_LENGTH);
    ValuesMention(raw, TRANSFER_ENCODING);
  }

  /**
   A body length is declared exactly by one Content-Length field, no Transfer-Encoding field, and a
   value that is, up to surrounding spaces, the decimal numeral of a safe integer. Anything else that
   mentions Content-Length is refused (section 6.3 of RFC 9112).
   */
  lemma DeclaredExactlyWhen(raw: seq<string>, n: nat)
    ensures Inspect(raw) == Ok(Declared(n)) <==>
      && |Values(raw, CONTENT_LENGTH)| == 1
      && Values(raw, TRANSFER_ENCODING) == []
      && Trim(Values(raw, CONTENT_LENGTH)[0]) == Decimal(n)
      && n <= MAX_SAFE_INTEGER
  {
    DecimalIsCanonical(n);
    if |Values(raw, CONTENT_LENGTH)| == 1 && Canonical(Trim(Values(raw, CONTENT_LENGTH)[0])) {
      CanonicalIsDecimal(Trim(Values(raw, CONTENT_LENGTH)[0]));
    }
  }
}
