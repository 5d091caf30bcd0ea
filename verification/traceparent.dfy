/** The traceparent header of section 3.2.2 of W3C Trace Context, as backend/app/core/otel.py prints and parses it. */
module Traceparent {
  import opened Numerals
  import opened Options
  import opened PyText

  datatype Context = Context(traceId: nat, spanId: nat, flags: nat)

  /** A carrier value: a string, or anything else, of which only its truth value shows. */
  datatype Entry = Text(s: string) | Other(truthy: bool)

  predicate IsTruthy(e: Entry) {
    match e
    case Text(s) => s != ""
    case Other(truthy) => truthy
  }

  /** What the tracing library calls a valid span context. */
  predicate IsValid(c: Context) {
    0 < c.traceId < Power(16, 32) && 0 < c.spanId < Power(16, 16)
  }

  function Layout(traceId: string, spanId: string, flags: string): string {
    "00-" + traceId + "-" + spanId + "-" + flags
  }

  function Header(c: Context): string {
    Layout(Padded(c.traceId, 16, 32), Padded(c.spanId, 16, 16), Padded(c.flags, 16, 2))
  }

  /** The whole pattern: version 00, then 32, 16 and 2 lower-case hexadecimal digits. */
  predicate Matches(t: string) {
    && |t| == 55 && t[..3] == "00-" && t[35] == '-' && t[52] == '-'
    && IsNumeral(t[3..35], 16) && IsNumeral(t[36..52], 16) && IsNumeral(t[53..], 16)
  }

  function Parse(header: string): Option<Context> {
    Read(Lower(Strip(header)))
  }

  function Read(t: string): Option<Context> {
    if Matches(t) then Some(Context(Value(t[3..35], 16), Value(t[36..52], 16), Value(t[53..], 16))) else None
  }

  predicate HasParts(t: string, traceId: string, spanId: string, flags: string) {
    && |t| == 53 + |flags| && t[..3] == "00-" && t[35] == '-' && t[52] == '-'
    && t[3..35] == traceId && t[36..52] == spanId && t[53..] == flags
  }

  lemma LayoutParts(traceId: string, spanId: string, flags: string)
    requires |traceId| == 32 && |spanId| == 16
    ensures HasParts(Layout(traceId, spanId, flags), traceId, spanId, flags)
  {
  }

  predicate IsPlain(c: char) { IsDigit(c, 16) || c == '-' }

  lemma PlainChar(c: char)
    requires IsPlain(c)
    ensures !IsSpace(c) && LowerChar(c) == c
  {
  }

  predicate AllPlain(s: string) { forall i :: 0 <= i < |s| ==> IsPlain(s[i]) }

  lemma PlainAppend(s: string, t: string)
    requires AllPlain(s) && AllPlain(t)
    ensures AllPlain(s + t)
  {
  }

  lemma PlainIsTrimAndLower(s: string)
    requires AllPlain(s)
    ensures Lower(Strip(s)) == s
  {
    forall i | 0 <= i < |s| ensures !IsSpace(s[i]) && LowerChar(s[i]) == s[i] {
      PlainChar(s[i]);
    }
    assert Strip(s) == s;
    assert Lower(s) == s;
  }

  lemma {:induction false} LayoutIsPlain(traceId: string, spanId: string, flags: string)
    requires IsNumeral(traceId, 16) && IsNumeral(spanId, 16) && IsNumeral(flags, 16)
    ensures Lower(Strip(Layout(traceId, spanId, flags))) == Layout(traceId, spanId, flags)
  {
    assert AllPlain(traceId) && AllPlain(spanId) && AllPlain(flags);
    PlainAppend("00-", traceId);
    PlainAppend("00-" + traceId, "-");
    PlainAppend("00-" + traceId + "-", spanId);
    PlainAppend("00-" + traceId + "-" + spanId, "-");
    PlainAppend("00-" + traceId + "-" + spanId + "-", flags);
    PlainIsTrimAndLower(Layout(traceId, spanId, flags));
  }

  lemma TwoDigits(n: nat)
    ensures |Padded(n, 16, 2)| == 2 <==> n <= 255
  {
    ValueOfPadded(n, 16, 2);
    ValueIsBounded(Padded(n, 16, 2), 16);
    assert Power(16, 2) == 256 by { assert Power(16, 1) == 16; }
    if n <= 255 { PaddedLength(n, 16, 2); }
  }

  lemma ReadOfParts(t: string, traceId: string, spanId: string, flags: string)
    requires HasParts(t, traceId, spanId, flags)
    requires IsNumeral(traceId, 16) && IsNumeral(spanId, 16) && IsNumeral(flags, 16)
    ensures Read(t)
         == if |flags| == 2 then Some(Context(Value(traceId, 16), Value(spanId, 16), Value(flags, 16))) else None
  {
  }

  lemma {:induction false} ParseOfLayout(traceId: string, spanId: string, flags: string)
    requires IsNumeral(traceId, 16) && IsNumeral(spanId, 16) && IsNumeral(flags, 16) && |traceId| == 32
              && |spanId| == 16
    ensures Parse(Layout(traceId, spanId, flags))
         == if |flags| == 2 then Some(Context(Value(traceId, 16), Value(spanId, 16), Value(flags, 16))) else None
  {
    LayoutParts(traceId, spanId, flags);
    LayoutIsPlain(traceId, spanId, flags);
    ReadOfParts(Layout(traceId, spanId, flags), traceId, spanId, flags);
  }

  /** A printed context reads back as itself, and that exactly when its flags fit in a byte; else nothing reads back. */
  lemma {:induction false} RoundTripIffFlagsFit(c: Context)
    requires IsValid(c)
    ensures Parse(Header(c)) == if c.flags <= 255 then Some(c) else None
  {
    PaddedLength(c.traceId, 16, 32);
    PaddedLength(c.spanId, 16, 16);
    ParseOfLayout(Padded(c.traceId, 16, 32), Padded(c.spanId, 16, 16), Padded(c.flags, 16, 2));
    TwoDigits(c.flags);
    ValueOfPadded(c.traceId, 16, 32);
    ValueOfPadded(c.spanId, 16, 16);
    ValueOfPadded(c.flags, 16, 2);
  }

  lemma HeaderOfRead(t: string)
    requires Matches(t)
    ensures Header(Read(t).value) == t && Read(t).value.flags <= 255
    ensures IsValid(Read(t).value) <==> Read(t).value.traceId != 0 && Read(t).value.spanId != 0
  {
    var traceId, spanId, flags := t[3..35], t[36..52], t[53..];
    PaddedOfValue(traceId, 16);
    PaddedOfValue(spanId, 16);
    PaddedOfValue(flags, 16);
    ValueIsBounded(traceId, 16);
    ValueIsBounded(spanId, 16);
    TwoDigits(Value(flags, 16));
    PatternIsLayout(t);
  }

  /** Printing what was read gives the trimmed, lower-cased header back: the context holds all the header says. */
  lemma {:induction false} PrintOfParsed(header: string)
    requires Parse(header).Some?
    ensures Header(Parse(header).value) == Lower(Strip(header))
    ensures IsValid(Parse(header).value) <==> Parse(header).value.traceId != 0 && Parse(header).value.spanId != 0
    ensures Parse(header).value.flags <= 255
  {
    HeaderOfRead(Lower(Strip(header)));
  }

  lemma PatternIsLayout(t: string)
    requires Matches(t)
    ensures t == Layout(t[3..35], t[36..52], t[53..])
  {
  }

  /** Two contexts that print alike are the same context. */
  lemma HeadersAreUnambiguous(c: Context, d: Context)
    requires IsValid(c) && IsValid(d) && Header(c) == Header(d)
    ensures c == d
  {
    UniqueParts(c);
    UniqueParts(d);
  }

  lemma UniqueParts(c: Context)
    requires IsValid(c)
    ensures |Header(c)| > 53 && IsNumeral(Header(c)[3..35], 16) && IsNumeral(Header(c)[36..52], 16)
              && IsNumeral(Header(c)[53..], 16)
    ensures c == Context(Value(Header(c)[3..35], 16), Value(Header(c)[36..52], 16), Value(Header(c)[53..], 16))
  {
    PaddedLength(c.traceId, 16, 32);
    PaddedLength(c.spanId, 16, 16);
    LayoutParts(Padded(c.traceId, 16, 32), Padded(c.spanId, 16, 16), Padded(c.flags, 16, 2));
    ValueOfPadded(c.traceId, 16, 32);
    ValueOfPadded(c.spanId, 16, 16);
    ValueOfPadded(c.flags, 16, 2);
  }

  class Carrier {
    var entries: map<string, Entry>

    constructor (entries: map<string, Entry>)
      ensures this.entries == entries
    {
      this.entries := entries;
    }

    /** The lower-case key first; the capitalised one only when that is missing or empty. */
    function Lookup(): Option<Entry>
      reads this
    {
      if "traceparent" in entries && IsTruthy(entries["traceparent"]) then Some(entries["traceparent"])
      else if "Traceparent" in entries && IsTruthy(entries["Traceparent"]) then Some(entries["Traceparent"])
      else None
    }

    function ExtractTraceparent(): Option<Context>
      reads this
    {
      match Lookup()
      case Some(Text(s)) => Parse(s)
      case _ => None
    }

    /** A valid active context travels to the extracting side whatever the carrier held; without one the carrier
        stays. */
    method InjectTraceparent(active: Option<Context>)
      modifies this
      ensures active.Some? && IsValid(active.value) ==>
                entries == old(entries)["traceparent" := Text(Header(active.value))]
      ensures active.Some? && IsValid(active.value) ==>
                ExtractTraceparent() == if active.value.flags <= 255 then active else None
      ensures active.None? || !IsValid(active.value) ==>
                entries == old(entries) && ExtractTraceparent() == old(ExtractTraceparent())
    {
      if active.Some? && IsValid(active.value) {
        var ctx := active.value;
        entries := entries["traceparent" := Text(Header(ctx))];
        RoundTripIffFlagsFit(ctx);
        assert Lookup() == Some(Text(Header(ctx)));
      }
    }
  }
}
