/** The header contract of the registration endpoint: which request headers
    must be present and what they may contain. Node delivers header values as
    strings, so a request's headers are a map from (lower-case) names to
    strings. The contract restricts no other header. */
module HeaderSchema {

  type Headers = map<string, string>

  predicate IsDigit(c: char) {
    '0' <= c <= '9'
  }

  /** The pattern `^([0-9])*$`: ASCII digits only (the empty string too). */
  predicate AllDigits(s: string) {
    forall i :: 0 <= i < |s| ==> IsDigit(s[i])
  }

  /** `transaction_id` and `channel_id`: a string of the digits pattern with
      `minLength: 1`. */
  predicate NumericId(s: string) {
    |s| >= 1 && AllDigits(s)
  }

  /** The shape of one `\d{4}-\d{2}-\d{2}T\d{2}:\d{2}:\d{2}` block; `D` stands
      for a digit, every other character for itself. */
  const BlockShape: string := "DDDD-DD-DDTDD:DD:DD"

  const BlockLength: nat := 19

  predicate IsBlock(b: string)
    requires |b| == BlockLength
  {
    forall i :: 0 <= i < BlockLength ==>
      if BlockShape[i] == 'D' then IsDigit(b[i]) else b[i] == BlockShape[i]
  }

  /** The pattern `^(block)*$`: zero or more blocks back to back. */
  predicate Blocks(s: string)
    decreases |s|
  {
    s == [] || (|s| >= BlockLength && IsBlock(s[..BlockLength]) && Blocks(s[BlockLength..]))
  }

  /** `timestamp`: the blocks pattern with `minLength: 1`. */
  predicate Timestamp(s: string) {
    |s| >= 1 && Blocks(s)
  }

  /** The whole header contract: the three required headers, each well formed. */
  predicate HeadersValid(h: Headers) {
    && "transaction_id" in h && NumericId(h["transaction_id"])
    && "timestamp" in h && Timestamp(h["timestamp"])
    && "channel_id" in h && NumericId(h["channel_id"])
  }

  /** A string of blocks is a whole number of blocks long. */
  lemma {:induction false} BlocksLength(s: string)
    requires Blocks(s)
    ensures |s| % BlockLength == 0
  {
    if s != [] {
      BlocksLength(s[BlockLength..]);
    }
  }

  /** Blocks concatenate: the pattern accepts any run of back-to-back blocks. */
  lemma {:induction false} BlocksAppend(a: string, b: string)
    requires Blocks(a) && Blocks(b)
    ensures Blocks(a + b)
  {
    if a != [] {
      assert (a + b)[..BlockLength] == a[..BlockLength];
      assert (a + b)[BlockLength..] == a[BlockLength..] + b;
      BlocksAppend(a[BlockLength..], b);
    } else {
      assert a + b == b;
    }
  }

  /** A valid timestamp is a positive multiple of 19 characters long and ends
      in a digit. (That a zone designator, an offset or fractional seconds
      after the last block is rejected is `SuffixAfterSecondsRejected`.) */
  lemma TimestampShape(s: string)
    requires Timestamp(s)
    ensures |s| >= BlockLength && |s| % BlockLength == 0
    ensures IsDigit(s[|s| - 1])
  {
    BlocksLength(s);
    LastIsDigit(s);
  }

  lemma {:induction false} LastIsDigit(s: string)
    requires Blocks(s) && s != []
    ensures IsDigit(s[|s| - 1])
  {
    if |s| == BlockLength {
      assert BlockShape[BlockLength - 1] == 'D';
      assert s[..BlockLength][BlockLength - 1] == s[|s| - 1];
    } else {
      LastIsDigit(s[BlockLength..]);
    }
  }

  /** Nothing but another block may follow a block: after a string of
      blocks, a tail that starts with anything other than a digit breaks the
      pattern. */
  lemma {:induction false} NonDigitTailRejected(s: string, tail: string)
    requires Blocks(s) && tail != [] && !IsDigit(tail[0])
    ensures !Blocks(s + tail)
    decreases |s|
  {
    if s == [] {
      assert s + tail == tail;
    } else {
      assert (s + tail)[BlockLength..] == s[BlockLength..] + tail;
      NonDigitTailRejected(s[BlockLength..], tail);
    }
  }

  /** A valid timestamp followed by a zone designator (`Z`), a numeric offset
      (`+01:00`, `-03:00`) or fractional seconds (`.123`) is rejected. */
  lemma SuffixAfterSecondsRejected(s: string, tail: string)
    requires Timestamp(s) && tail != []
    requires tail[0] == 'Z' || tail[0] == '+' || tail[0] == '-' || tail[0] == '.'
    ensures !Timestamp(s + tail)
  {
    NonDigitTailRejected(s, tail);
  }

  /** An RFC 3339 date-time without offset is accepted; the same instant
      written with the `Z` designator is not. */
  lemma ZoneDesignatorRejected()
    ensures Timestamp("2021-03-04T05:06:07")
    ensures !Timestamp("2021-03-04T05:06:07Z")
  {
    var s := "2021-03-04T05:06:07";
    assert s[..BlockLength] == s && s[BlockLength..] == [];
    if Timestamp(s + "Z") {
      TimestampShape(s + "Z");
    }
  }

  /** Each of the three headers is required and must be non-empty, and the
      two ids admit nothing but ASCII digits. */
  lemma RequiredHeaders(h: Headers, name: string, bad: string, i: nat)
    requires name == "transaction_id" || name == "timestamp" || name == "channel_id"
    requires i < |bad| && !IsDigit(bad[i])
    ensures !HeadersValid(h - {name})
    ensures !HeadersValid(h[name := ""])
    ensures !HeadersValid(h["transaction_id" := bad]) && !HeadersValid(h["channel_id" := bad])
  {
  }

  /** Only the three named headers matter: adding, replacing or removing any
      other header never changes validity. */
  lemma OtherHeadersIgnored(h: Headers, name: string, value: string)
    requires name != "transaction_id" && name != "timestamp" && name != "channel_id"
    ensures HeadersValid(h[name := value]) <==> HeadersValid(h)
    ensures HeadersValid(h - {name}) <==> HeadersValid(h)
  {
  }
}
