/**
 A signature header is read back as it was built, and is accepted as long as its time is near.
 */
module SignatureTheorems {
  import opened Wrappers
  import opened Text
  import opened Int64
  import opened Signature

  // --- Parts -----------------------------------------------------------------------------

  function KeyOf(part: string): string {
    var trimmed := TrimSpace(part);
    trimmed[..IndexOf(trimmed, '=', 0)]
  }

  predicate IsPair(part: string) {
    var trimmed := TrimSpace(part);
    IndexOf(trimmed, '=', 0) < |trimmed|
  }

  function PairValue(part: string): string
    requires IsPair(part)
  {
    var trimmed := TrimSpace(part);
    trimmed[IndexOf(trimmed, '=', 0) + 1..]
  }

  predicate AllPairs(parts: seq<string>) {
    forall i :: 0 <= i < |parts| ==> IsPair(parts[i])
  }

  /** The value of the last part with the key, or nothing. */
  function LastOf(parts: seq<string>, key: string): string
    requires AllPairs(parts)
  {
    if parts == [] then ""
    else if KeyOf(parts[|parts| - 1]) == key then PairValue(parts[|parts| - 1])
    else LastOf(parts[..|parts| - 1], key)
  }

  /** What was read of the parts: the last t and the last v1, unless some part is no pair. */
  lemma {:induction false} FieldsAreTheLast(parts: seq<string>)
    ensures WithParts(NO_FIELDS, parts).Broken? <==> !AllPairs(parts)
    ensures AllPairs(parts) ==> WithParts(NO_FIELDS, parts) == Fields(LastOf(parts, "t"), LastOf(parts, "v1"))
  {
    if parts != [] {
      FieldsAreTheLast(parts[..|parts| - 1]);
      assert "t" != "v1";
    }
  }

  predicate NoCommas(parts: seq<string>) {
    forall i :: 0 <= i < |parts| ==> ',' !in parts[i]
  }

  lemma {:induction false} BlankHasNoEquals(s: string)
    requires '=' in s
    ensures '=' in TrimLeft(s) && '=' in TrimRight(s)
  {
    if s != "" && IsSpace(s[0]) {
      assert s == [s[0]] + s[1..];
      BlankHasNoEquals(s[1..]);
    }
    if s != "" && IsSpace(s[|s| - 1]) {
      assert s == s[..|s| - 1] + [s[|s| - 1]];
      BlankHasNoEquals(s[..|s| - 1]);
    }
  }

  lemma {:induction false} TrimmedIsPart(s: string, c: char)
    requires c in TrimLeft(s) || c in TrimRight(s)
    ensures c in s
  {
    if s != "" && IsSpace(s[0]) && c in TrimLeft(s) {
      TrimmedIsPart(s[1..], c);
    } else if s != "" && IsSpace(s[|s| - 1]) && c in TrimRight(s) {
      TrimmedIsPart(s[..|s| - 1], c);
    }
  }

  lemma PairsAreNotBlank(parts: seq<string>)
    requires parts != [] && AllPairs(parts)
    ensures TrimSpace(Join(parts, ',')) != ""
  {
    var part := parts[0];
    var trimmed := TrimSpace(part);
    assert '=' in trimmed;
    TrimmedIsPart(TrimLeft(part), '=');
    TrimmedIsPart(part, '=');
    var value := Join(parts, ',');
    assert '=' in value;
    BlankHasNoEquals(value);
    BlankHasNoEquals(TrimLeft(value));
  }

  /** The header that the parts make is what their last t and last v1 say. */
  lemma {:induction false} HeaderOfParts(parts: seq<string>)
    requires parts != [] && NoCommas(parts) && AllPairs(parts)
    ensures Parsed(Join(parts, ',')) == HeaderOf(Fields(LastOf(parts, "t"), LastOf(parts, "v1")))
  {
    PairsAreNotBlank(parts);
    SplitUndoesJoin(parts, ',');
    FieldsAreTheLast(parts);
  }

  /** Neither the order of parts, nor repeated parts before the last, nor unknown parts matter. */
  lemma {:induction false} OnlyTheLastOfEachCounts(a: seq<string>, b: seq<string>)
    requires a != [] && b != [] && NoCommas(a) && NoCommas(b) && AllPairs(a) && AllPairs(b)
    requires LastOf(a, "t") == LastOf(b, "t") && LastOf(a, "v1") == LastOf(b, "v1")
    ensures Parsed(Join(a, ',')) == Parsed(Join(b, ','))
  {
    HeaderOfParts(a);
    HeaderOfParts(b);
  }

  /** A part that is no pair spoils the header, wherever it stands. */
  lemma {:induction false} EveryPartMustBeAPair(parts: seq<string>)
    requires parts != [] && NoCommas(parts) && !AllPairs(parts)
    ensures Parsed(Join(parts, ',')) in {Malformed(InvalidFormat), Malformed(MissingHeader)}
  {
    SplitUndoesJoin(parts, ',');
    FieldsAreTheLast(parts);
  }

  // --- What BuildHeader makes ------------------------------------------------------------

  lemma PairOf(key: string, value: string)
    requires key != "" && value != "" && '=' !in key && !IsSpace(key[0]) && !IsSpace(value[|value| - 1])
    ensures var part := key + "=" + value;
            IsPair(part) && KeyOf(part) == key && PairValue(part) == value
  {
    var part := key + "=" + value;
    TrimSpaceFixes(part);
    assert "=" == ['='];
    IndexOfFirst(key, '=', value);
  }

  lemma TwoParts(one: string, two: string)
    requires ',' !in one && ',' !in two && IsPair(one) && IsPair(two)
    requires KeyOf(one) == "t" && KeyOf(two) == "v1"
    ensures Parsed(Join([one, two], ',')) == HeaderOf(Fields(PairValue(one), PairValue(two)))
  {
    var parts := [one, two];
    assert parts[..1] == [one];
    assert KeyOf(two) != "t";
    HeaderOfParts(parts);
  }

  lemma BuiltParts(t: string, v1: string)
    requires t != "" && v1 != "" && ',' !in t && ',' !in v1
    requires !IsSpace(t[|t| - 1]) && !IsSpace(v1[|v1| - 1])
    ensures Parsed("t" + "=" + t + [','] + ("v1" + "=" + v1)) == HeaderOf(Fields(t, v1))
  {
    PairOf("t", t);
    PairOf("v1", v1);
    TwoParts("t" + "=" + t, "v1" + "=" + v1);
  }

  lemma BuiltText(t: string, v1: string)
    ensures "t=" + t + ",v1=" + v1 == "t" + "=" + t + [','] + ("v1" + "=" + v1)
  {
  }

  lemma TimesAreKept(time: Time)
    requires time.Valid()
    ensures FromUnix(time.Unix()) == Time(time.seconds, 0)
    ensures FromUnix(time.Unix()).Unix() == time.Unix()
  {
  }

  /** A header that was built gives back the time in whole seconds, and the signature. */
  lemma ParsingUndoesBuilding(mac: Mac, secret: Bytes, time: Time, body: Bytes)
    requires Gives32Bytes(mac) && time.Valid()
    ensures Parsed(BuildHeader(mac, secret, time, body)) == Header(Time(time.seconds, 0), Sign(mac, secret, time, body))
  {
    var t, v1 := FormatInt(time.Unix()), Sign(mac, secret, time, body);
    FormatIsAscii(time.Unix());
    BuiltParts(t, v1);
    BuiltText(t, v1);
    ParseUndoesFormat(time.Unix());
    TimesAreKept(time);
  }

  function Abs(n: int): int {
    if n < 0 then -n else n
  }

  /** What the comparison with the tolerance comes to. */
  lemma ToleranceCheck(now: Time, time: Time, tolerance: int)
    requires IsInt64(tolerance)
    ensures AbsDuration(Saturated(Distance(now, time))) <= tolerance <==>
              || (Abs(Distance(now, time)) <= tolerance)
              || Distance(now, time) <= -TWO_63
              || (Distance(now, time) >= TWO_63 && tolerance == TWO_63 - 1)
  {
  }

  /**
   A built header is accepted exactly if the exact distance of now from its whole seconds is within
   the tolerance, or so far that it does not fit into a duration: 292 years ahead of now always
   passes, as far behind passes with the longest tolerance only.  Else it is expired.
   */
  lemma BuiltHeadersAreAcceptedInTime(mac: Mac, secret: Bytes, time: Time, body: Bytes, now: Time, tolerance: int)
    requires Gives32Bytes(mac) && time.Valid() && now.Valid() && IsInt64(tolerance)
    ensures var distance := Distance(now, Time(time.seconds, 0));
            Validate(mac, secret, BuildHeader(mac, secret, time, body), body, now, tolerance)
            == if Abs(distance) <= tolerance || distance <= -TWO_63 || (distance >= TWO_63 && tolerance == TWO_63 - 1)
               then None else Some(Expired)
  {
    ParsingUndoesBuilding(mac, secret, time, body);
    TimesAreKept(time);
    ToleranceCheck(now, Time(time.seconds, 0), tolerance);
  }

  /** A header whose time is 292 years ahead passes with a tolerance of five minutes. */
  lemma AFarFutureHeaderPasses(mac: Mac, secret: Bytes, body: Bytes)
    requires Gives32Bytes(mac)
    ensures var time, now := Time(9223372037, 0), Time(0, 0);
            && time.Valid() && now.Valid() && Abs(Distance(now, time)) > 300_000_000_000
            && Validate(mac, secret, BuildHeader(mac, secret, time, body), body, now, 300_000_000_000) == None
  {
    BuiltHeadersAreAcceptedInTime(mac, secret, Time(9223372037, 0), body, Time(0, 0), 300_000_000_000);
  }

  /** Within 292 years the check is the exact one. */
  lemma TheCheckIsExactWhenItFits(mac: Mac, secret: Bytes, time: Time, body: Bytes, now: Time, tolerance: int)
    requires Gives32Bytes(mac) && time.Valid() && now.Valid() && IsInt64(tolerance)
    requires -TWO_63 < Distance(now, Time(time.seconds, 0)) < TWO_63
    ensures Validate(mac, secret, BuildHeader(mac, secret, time, body), body, now, tolerance) == None
            <==> Abs(Distance(now, Time(time.seconds, 0))) <= tolerance
  {
    BuiltHeadersAreAcceptedInTime(mac, secret, time, body, now, tolerance);
  }
}
