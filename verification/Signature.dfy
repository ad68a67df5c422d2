/**
 * Webhook signature headers (packages/auth/eventmesh_auth/signature.py). HMAC-SHA256 (section 2 of RFC 2104) is a
 * parameter of which only the shape of its hexadecimal digest is used.
 */
module Signature {
  import opened Common

  type Byte = b: int | 0 <= b < 256

  /** hexdigest of the keyed hash of the message. */
  type Hmac = (string, seq<Byte>) -> string

  predicate IsHex(c: char) { '0' <= c <= '9' || 'a' <= c <= 'f' }

  ghost predicate GivesHex(hmac: Hmac) {
    forall key, message :: IsDigest(hmac(key, message))
  }

  predicate IsDigest(s: string) {
    |s| == 64 && forall i | 0 <= i < |s| :: IsHex(s[i])
  }

  // ---- Decimal text of integers. ----

  predicate IsDigit(c: char) { '0' <= c <= '9' }

  function DigitChar(d: nat): (c: char)
    requires d < 10
    ensures IsDigit(c)
  {
    (d + '0' as int) as char
  }

  function DigitValue(c: char): nat
    requires IsDigit(c)
  {
    c as int - '0' as int
  }

  function NatText(n: nat): (s: string)
    ensures |s| > 0 && forall i | 0 <= i < |s| :: IsDigit(s[i])
    ensures s[0] == '0' ==> n == 0 && |s| == 1
  {
    if n < 10 then [DigitChar(n)] else NatText(n / 10) + [DigitChar(n % 10)]
  }

  function IntText(n: int): string {
    if n < 0 then ['-'] + NatText(-n) else NatText(n)
  }

  function DigitsValue(s: string): nat
    requires forall i | 0 <= i < |s| :: IsDigit(s[i])
  {
    if s == [] then 0 else 10 * DigitsValue(s[..|s| - 1]) + DigitValue(s[|s| - 1])
  }

  predicate AllDigits(s: string) {
    |s| > 0 && forall i | 0 <= i < |s| :: IsDigit(s[i])
  }

  /** Python's int() on an optional sign followed by ASCII digits; `None` is its ValueError. */
  function ParseInt(s: string): Option<int> {
    if AllDigits(s) then Some(DigitsValue(s))
    else if |s| > 0 && s[0] == '-' && AllDigits(s[1..]) then (var v: int := DigitsValue(s[1..]); Some(-v))
    else if |s| > 0 && s[0] == '+' && AllDigits(s[1..]) then Some(DigitsValue(s[1..]))
    else None
  }

  lemma {:induction false} NatRoundTrip(n: nat)
    ensures DigitsValue(NatText(n)) == n
  {
    if n < 10 {
      assert NatText(n)[..0] == [];
    } else {
      NatRoundTrip(n / 10);
      assert NatText(n)[..|NatText(n)| - 1] == NatText(n / 10);
    }
  }

  lemma IntRoundTrip(n: int)
    ensures ParseInt(IntText(n)) == Some(n)
  {
    hide ParseInt, DigitsValue, NatText;
    if n < 0 {
      NatRoundTrip(-n);
      assert IntText(n)[1..] == NatText(-n);
    } else {
      NatRoundTrip(n);
    }
    ParseIntExact(IntText(n));
  }

  function Zeros(k: nat): string { seq(k, _ => '0') }

  /** Decimal digits read as the number they write, leading zeros aside. */
  lemma {:induction false} DigitsWritten(s: string)
    requires AllDigits(s)
    ensures |NatText(DigitsValue(s))| <= |s| && s == Zeros(|s| - |NatText(DigitsValue(s))|) + NatText(DigitsValue(s))
  {
    var n := |s| - 1;
    var earlier, d := s[..n], DigitValue(s[n]);
    assert s == earlier + [s[n]] && DigitChar(d) == s[n];
    if n == 0 {
      assert DigitsValue(earlier) == 0;
    } else {
      DigitsWritten(earlier);
      var v := DigitsValue(earlier);
      if v == 0 {
        assert NatText(0) == "0" && NatText(d) == [s[n]];
        assert Zeros(n - 1) + "0" == Zeros(n);
      } else {
        assert (10 * v + d) / 10 == v && (10 * v + d) % 10 == d;
        assert NatText(10 * v + d) == NatText(v) + [DigitChar(d)];
      }
    }
  }

  /** A text is read as an integer if and only if it is one or more digits, after at most one sign. */
  lemma ParseIntExact(s: string)
    ensures ParseInt(s).Some? <==> AllDigits(s) || (|s| > 0 && (s[0] == '+' || s[0] == '-') && AllDigits(s[1..]))
    ensures AllDigits(s) ==> ParseInt(s) == Some(DigitsValue(s))
    ensures |s| > 0 && s[0] == '+' && AllDigits(s[1..]) ==> ParseInt(s) == Some(DigitsValue(s[1..]))
    ensures |s| > 0 && s[0] == '-' && AllDigits(s[1..]) ==> ParseInt(s) == Some(0 - DigitsValue(s[1..]))
  {
    hide DigitsValue, AllDigits;
    if |s| > 0 && (s[0] == '+' || s[0] == '-') {
      SignIsNoDigit(s);
    }
  }

  lemma SignIsNoDigit(s: string)
    requires |s| > 0 && (s[0] == '+' || s[0] == '-')
    ensures !AllDigits(s)
  {
  }

  // ---- Splitting. ----

  /** Python's s.split(sep) for a one-character separator. */
  function Split(s: string, sep: char): (parts: seq<string>)
    ensures |parts| > 0
  {
    if s == [] then [""]
    else
      var rest := Split(s[1..], sep);
      if s[0] == sep then [""] + rest else [[s[0]] + rest[0]] + rest[1..]
  }

  /** Python's s.split(sep, 1) of a string that holds the separator, as a pair. */
  function SplitOnce(s: string, sep: char): (string, string)
    requires sep in s
  {
    if s[0] == sep then ("", s[1..])
    else
      var (left, right) := SplitOnce(s[1..], sep);
      ([s[0]] + left, right)
  }

  lemma {:induction false} SplitNone(s: string, sep: char)
    requires sep !in s
    ensures Split(s, sep) == [s]
  {
    if s != [] {
      SplitNone(s[1..], sep);
      assert s == [s[0]] + s[1..];
    }
  }

  lemma {:induction false} SplitAt(left: string, right: string, sep: char)
    requires sep !in left
    ensures Split(left + [sep] + right, sep) == [left] + Split(right, sep)
  {
    var s := left + [sep] + right;
    if left == [] {
      assert s[1..] == right;
    } else {
      assert s[1..] == left[1..] + [sep] + right;
      SplitAt(left[1..], right, sep);
      assert left == [left[0]] + left[1..];
    }
  }

  lemma {:induction false} SplitOnceAt(left: string, right: string, sep: char)
    requires sep !in left
    ensures sep in left + [sep] + right
    ensures SplitOnce(left + [sep] + right, sep) == (left, right)
  {
    var s := left + [sep] + right;
    assert s[|left|] == sep;
    if left == [] {
      assert s[1..] == right;
    } else {
      assert s[1..] == left[1..] + [sep] + right;
      SplitOnceAt(left[1..], right, sep);
      assert left == [left[0]] + left[1..];
    }
  }

  function Join(parts: seq<string>, sep: char): string {
    if parts == [] then "" else if |parts| == 1 then parts[0] else parts[0] + [sep] + Join(parts[1..], sep)
  }

  /** Splitting is undone by joining, and leaves no separator in any part. */
  lemma {:induction false} SplitExact(s: string, sep: char)
    ensures Join(Split(s, sep), sep) == s
    ensures forall i | 0 <= i < |Split(s, sep)| :: sep !in Split(s, sep)[i]
  {
    if s != [] {
      var rest := Split(s[1..], sep);
      SplitExact(s[1..], sep);
      assert s == [s[0]] + s[1..];
      if s[0] == sep {
        assert ([""] + rest)[1..] == rest;
      } else {
        assert ([[s[0]] + rest[0]] + rest[1..])[1..] == rest[1..];
      }
    }
  }

  /** The dictionary of the `name=value` parts; a later part wins over an earlier one of the same name. */
  function Fields(parts: seq<string>): map<string, string> {
    if parts == [] then map[]
    else
      var earlier, last := Fields(parts[..|parts| - 1]), parts[|parts| - 1];
      if '=' in last then var (name, value) := SplitOnce(last, '='); earlier[name := value] else earlier
  }

  /** The part begins with the name and an equals sign. */
  ghost predicate Bears(part: string, name: string) { name + "=" <= part }

  /** The last part that bears the name gives it this value. */
  ghost predicate LastValue(parts: seq<string>, name: string, value: string) {
    exists i :: 0 <= i < |parts| && parts[i] == name + "=" + value && forall j | i < j < |parts| :: !Bears(parts[j], name)
  }

  lemma {:induction false} SplitOnceIs(s: string, sep: char)
    requires sep in s
    ensures var (left, right) := SplitOnce(s, sep); sep !in left && s == left + [sep] + right
  {
    assert s == [s[0]] + s[1..];
    if s[0] != sep {
      SplitOnceIs(s[1..], sep);
    }
  }

  /** A part bears exactly the name before its first equals sign. */
  lemma BearsFirst(part: string, name: string)
    requires '=' !in name
    ensures Bears(part, name) <==> '=' in part && SplitOnce(part, '=').0 == name
    ensures Bears(part, name) ==> part == name + "=" + SplitOnce(part, '=').1
  {
    if Bears(part, name) {
      var value := part[|name| + 1..];
      assert part == name + ['='] + value;
      SplitOnceAt(name, value, '=');
    }
    if '=' in part {
      SplitOnceIs(part, '=');
    }
  }

  /** The dictionary has a name exactly if some part bears it, and its value from the last one that does. */
  lemma {:induction false} FieldsExact(parts: seq<string>, name: string)
    requires '=' !in name
    ensures name in Fields(parts) <==> exists i :: 0 <= i < |parts| && Bears(parts[i], name)
    ensures name in Fields(parts) ==> LastValue(parts, name, Fields(parts)[name])
    ensures forall value | LastValue(parts, name, value) :: name in Fields(parts) && Fields(parts)[name] == value
  {
    if parts != [] {
      var n := |parts| - 1;
      FieldsExact(parts[..n], name);
      BearsFirst(parts[n], name);
      LastOne(parts, name);
      hide SplitOnce, Bears, LastValue;
      if Bears(parts[n], name) {
        forall value | LastValue(parts, name, value) ensures Fields(parts)[name] == value {
          SameRest(name + "=", SplitOnce(parts[n], '=').1, value);
        }
      } else {
        assert forall i | 0 <= i < n :: parts[..n][i] == parts[i];
      }
    }
  }

  lemma SameRest(a: string, b: string, c: string)
    requires a + b == a + c
    ensures b == c
  {
    assert b == (a + b)[|a|..] && c == (a + c)[|a|..];
  }

  lemma LastOne(parts: seq<string>, name: string)
    requires parts != []
    ensures var n := |parts| - 1;
            && (Bears(parts[n], name) ==>
                  forall value :: LastValue(parts, name, value) <==> parts[n] == name + "=" + value)
            && (!Bears(parts[n], name) ==>
                  forall value :: LastValue(parts, name, value) <==> LastValue(parts[..n], name, value))
  {
    var n := |parts| - 1;
    forall value ensures parts[n] == name + "=" + value ==> Bears(parts[n], name) {
    }
    forall value | LastValue(parts, name, value) && !Bears(parts[n], name) ensures LastValue(parts[..n], name, value) {
      var i :| 0 <= i < |parts| && parts[i] == name + "=" + value && forall j | i < j < |parts| :: !Bears(parts[j], name);
      assert i != n;
      assert parts[..n][i] == parts[i];
    }
    forall value | LastValue(parts[..n], name, value) && !Bears(parts[n], name) ensures LastValue(parts, name, value) {
      var i :| && 0 <= i < n && parts[..n][i] == name + "=" + value
               && forall j | i < j < n :: !Bears(parts[..n][j], name);
      assert parts[i] == name + "=" + value;
      forall j | i < j < |parts| ensures !Bears(parts[j], name) {
        assert j < n ==> parts[..n][j] == parts[j];
      }
    }
  }

  // ---- Signing and verifying. ----

  function AsciiBytes(s: string): (b: seq<Byte>)
    requires forall i | 0 <= i < |s| :: s[i] as int < 128
    ensures |b| == |s| && forall i | 0 <= i < |s| :: b[i] == s[i] as int
  {
    seq(|s|, i requires 0 <= i < |s| => s[i] as int)
  }

  lemma IntTextIsAscii(n: int)
    ensures forall i | 0 <= i < |IntText(n)| :: IsDigit(IntText(n)[i]) || IntText(n)[i] == '-'
  {
  }

  /** The bytes that are signed: the timestamp, a full stop, the raw body. */
  function SignedBytes(timestamp: int, body: seq<Byte>): (b: seq<Byte>)
    ensures |b| == |IntText(timestamp)| + 1 + |body|
    ensures forall i | 0 <= i < |IntText(timestamp)| :: b[i] == IntText(timestamp)[i] as int
    ensures b[|IntText(timestamp)|] == 46 && b[|IntText(timestamp)| + 1..] == body
  {
    IntTextIsAscii(timestamp);
    AsciiBytes(IntText(timestamp) + ".") + body
  }

  function SignPayload(hmac: Hmac, secret: string, timestamp: int, body: seq<Byte>): string {
    hmac(secret, SignedBytes(timestamp, body))
  }

  function BuildHeader(hmac: Hmac, secret: string, body: seq<Byte>, timestamp: int): string {
    "t=" + IntText(timestamp) + ",v1=" + SignPayload(hmac, secret, timestamp, body)
  }

  /** `Raised` is the TypeError that compare_digest throws on a string with a non-ASCII character. */
  datatype Verdict = Accepted | Refused | Raised

  function VerifyHeader(hmac: Hmac, secret: string, body: seq<Byte>, header: string, now: Time, tolerance: Time): Verdict {
    var parts := Fields(Split(header, ','));
    if "t" !in parts || "v1" !in parts then Refused
    else
      match ParseInt(parts["t"])
      case None => Refused
      case Some(ts) =>
        if now - ts as real > tolerance || ts as real - now > tolerance then Refused
        else if exists i | 0 <= i < |parts["v1"]| :: parts["v1"][i] as int >= 128 then Raised
        else if SignPayload(hmac, secret, ts, body) == parts["v1"] then Accepted
        else Refused
  }

  /** The timestamp the header carries, as its text reads, lies within the tolerance. */
  ghost predicate Timely(text: string, now: Time, tolerance: Time) {
    ParseInt(text).Some? && -tolerance <= now - ParseInt(text).value as real <= tolerance
  }

  ghost predicate HasAscii(s: string) { forall i | 0 <= i < |s| :: s[i] as int < 128 }

  /**
   * What the check decides about any header whatever, whoever built it: accepted if and only if the last `t` part reads
   * as a timestamp within the tolerance and the last `v1` part is the keyed hash of that timestamp and the body. It
   * raises exactly for a fresh timestamp with a `v1` that is not ASCII, and refuses everything else: a missing part, an
   * unreadable or stale timestamp, another hash.
   */
  lemma VerifyExactly(hmac: Hmac, secret: string, body: seq<Byte>, header: string, now: Time, tolerance: Time)
    requires GivesHex(hmac)
    ensures var verdict, parts := VerifyHeader(hmac, secret, body, header, now, tolerance), Split(header, ',');
            && ((forall i | 0 <= i < |parts| :: !("t=" <= parts[i])) ==> verdict == Refused)
            && ((forall i | 0 <= i < |parts| :: !("v1=" <= parts[i])) ==> verdict == Refused)
            && (verdict == Accepted <==>
                  exists text :: && LastValue(parts, "t", text) && Timely(text, now, tolerance)
                                 && LastValue(parts, "v1", hmac(secret, SignedBytes(ParseInt(text).value, body))))
            && (verdict == Raised <==>
                  exists text, sig :: && LastValue(parts, "t", text) && Timely(text, now, tolerance)
                                      && LastValue(parts, "v1", sig) && !HasAscii(sig))
  {
    var parts := Split(header, ',');
    var fields := Fields(parts);
    hide Fields, LastValue, Split, VerifyHeader, ParseInt, SignedBytes, Timely, HasAscii, GivesHex;
    FieldsExact(parts, "t");
    FieldsExact(parts, "v1");
    PrefixBears(parts);
    VerdictByFields(hmac, secret, body, header, now, tolerance);
  }

  lemma PrefixBears(parts: seq<string>)
    ensures forall i | 0 <= i < |parts| :: Bears(parts[i], "t") <==> "t=" <= parts[i]
    ensures forall i | 0 <= i < |parts| :: Bears(parts[i], "v1") <==> "v1=" <= parts[i]
  {
    assert "t" + "=" == "t=" && "v1" + "=" == "v1=";
  }

  lemma VerdictByFields(hmac: Hmac, secret: string, body: seq<Byte>, header: string, now: Time, tolerance: Time)
    requires GivesHex(hmac)
    ensures var verdict, fields := VerifyHeader(hmac, secret, body, header, now, tolerance), Fields(Split(header, ','));
            var timely := "t" in fields && "v1" in fields && Timely(fields["t"], now, tolerance);
            && (verdict == Accepted <==>
                  timely && fields["v1"] == hmac(secret, SignedBytes(ParseInt(fields["t"]).value, body)))
            && (verdict == Raised <==> timely && !HasAscii(fields["v1"]))
  {
    hide Fields, Split, SignedBytes, ParseInt;
    var fields := Fields(Split(header, ','));
    if "t" in fields && ParseInt(fields["t"]).Some? {
      DigestIsAscii(hmac, secret, SignedBytes(ParseInt(fields["t"]).value, body));
    }
    hide GivesHex;
  }

  lemma DigestIsAscii(hmac: Hmac, key: string, message: seq<Byte>)
    requires GivesHex(hmac)
    ensures HasAscii(hmac(key, message))
  {
    assert IsDigest(hmac(key, message));
  }

  /** Parsing a built header gives back exactly the timestamp text and the digest. */
  lemma ParseBuilt(hmac: Hmac, secret: string, body: seq<Byte>, timestamp: int)
    requires GivesHex(hmac)
    ensures Fields(Split(BuildHeader(hmac, secret, body, timestamp), ','))
         == map["t" := IntText(timestamp), "v1" := SignPayload(hmac, secret, timestamp, body)]
  {
    var ts, sig := IntText(timestamp), SignPayload(hmac, secret, timestamp, body);
    assert IsDigest(sig);
    IntTextIsAscii(timestamp);
    var left, right := "t=" + ts, "v1=" + sig;
    assert BuildHeader(hmac, secret, body, timestamp) == left + [','] + right;
    assert ',' !in left && ',' !in right;
    SplitAt(left, right, ',');
    SplitNone(right, ',');
    assert left == "t" + ['='] + ts && right == "v1" + ['='] + sig;
    SplitOnceAt("t", ts, '=');
    SplitOnceAt("v1", sig, '=');
    var parts := [left, right];
    assert parts[..1] == [left] && [left][..0] == [];
    assert Fields([left]) == map["t" := ts];
  }

  /**
   * What a consumer's check decides about a header built by the sender, for any two secrets and bodies: it accepts
   * exactly when the timestamp is within the tolerance and the two keyed hashes agree.
   */
  lemma VerifyBuilt(hmac: Hmac, secret: string, body: seq<Byte>, timestamp: int,
                    secret': string, body': seq<Byte>, now: Time, tolerance: Time)
    requires GivesHex(hmac)
    ensures var verdict := VerifyHeader(hmac, secret', body', BuildHeader(hmac, secret, body, timestamp), now, tolerance);
            && verdict != Raised
            && (verdict == Accepted <==>
                && -tolerance <= now - timestamp as real <= tolerance
                && hmac(secret', SignedBytes(timestamp, body')) == hmac(secret, SignedBytes(timestamp, body)))
  {
    ParseBuilt(hmac, secret, body, timestamp);
    IntRoundTrip(timestamp);
    assert IsDigest(SignPayload(hmac, secret, timestamp, body));
  }

  /** Round trip: the header built for a body verifies for that body at any time within the tolerance. */
  lemma HeaderRoundTrip(hmac: Hmac, secret: string, body: seq<Byte>, timestamp: int, now: Time, tolerance: Time)
    requires GivesHex(hmac) && -tolerance <= now - timestamp as real <= tolerance
    ensures VerifyHeader(hmac, secret, body, BuildHeader(hmac, secret, body, timestamp), now, tolerance) == Accepted
  {
    VerifyBuilt(hmac, secret, body, timestamp, secret, body, now, tolerance);
  }

  /** The signed bytes determine both the timestamp and the body. */
  lemma SignedBytesInjective(t: int, body: seq<Byte>, t': int, body': seq<Byte>)
    requires SignedBytes(t, body) == SignedBytes(t', body')
    ensures t == t' && body == body'
  {
    var s, a, b := SignedBytes(t, body), IntText(t), IntText(t');
    IntTextIsAscii(t);
    IntTextIsAscii(t');
    assert s[|a|] == '.' as int && s[|b|] == '.' as int;
    assert forall i | 0 <= i < |a| :: s[i] == a[i] as int && s[i] != '.' as int;
    assert forall i | 0 <= i < |b| :: s[i] == b[i] as int && s[i] != '.' as int;
    assert |a| == |b|;
    assert a == b;
    IntRoundTrip(t);
    IntRoundTrip(t');
    assert s[|a| + 1..] == body && s[|b| + 1..] == body';
  }
}
