/**
 * Text forms of what the durable store holds: the playback index as a
 * decimal string (what `toString` writes and `parseInt` reads back for a
 * non-negative integer), and the queue as a self-delimiting text in which
 * every string field is written as its decimal length, a colon and its
 * characters. The queue format stands in for JSON: all the model relies on
 * is that decoding undoes encoding, which the lemmas below prove.
 */
module Codec {
  import opened Types

  predicate IsDigit(c: char) {
    '0' <= c <= '9'
  }

  predicate AllDigits(s: string) {
    forall i :: 0 <= i < |s| ==> IsDigit(s[i])
  }

  function DigitChar(d: nat): (c: char)
    requires d < 10
    ensures IsDigit(c) && c as int - '0' as int == d
  {
    "0123456789"[d]
  }

  /** The decimal numeral of `n`, without leading zeros. */
  function EncodeNat(n: nat): (r: string)
    ensures |r| > 0 && AllDigits(r)
    decreases n
  {
    if n < 10 then [DigitChar(n)] else EncodeNat(n / 10) + [DigitChar(n % 10)]
  }

  /** The value of a string of digits read as a decimal numeral. */
  function DigitsValue(s: string): nat
    requires AllDigits(s)
  {
    if s == [] then 0
    else DigitsValue(s[..|s| - 1]) * 10 + (s[|s| - 1] as int - '0' as int)
  }

  /** Reads a decimal numeral; anything else (`null` included, as `None`) is not a number. */
  function DecodeNat(s: string): (r: Option<nat>)
    ensures r.Some? <==> s != [] && AllDigits(s)
  {
    if s != [] && AllDigits(s) then Some(DigitsValue(s)) else None
  }

  lemma {:induction false} DigitsValueOfEncodeNat(n: nat)
    ensures DigitsValue(EncodeNat(n)) == n
    decreases n
  {
    if n >= 10 {
      var e := EncodeNat(n);
      assert e[..|e| - 1] == EncodeNat(n / 10);
      DigitsValueOfEncodeNat(n / 10);
    }
  }

  /** Writing an index and reading it back gives the same index. */
  lemma DecodeEncodeNat(n: nat)
    ensures DecodeNat(EncodeNat(n)) == Some(n)
  {
    DigitsValueOfEncodeNat(n);
  }

  /** Splits `s` into its longest prefix of digits and the rest. */
  function SplitDigits(s: string): (r: (string, string))
    ensures AllDigits(r.0) && r.0 + r.1 == s
    ensures r.1 != [] ==> !IsDigit(r.1[0])
  {
    if s != [] && IsDigit(s[0]) then
      var (d, rest) := SplitDigits(s[1..]);
      assert [s[0]] + d + rest == s;
      ([s[0]] + d, rest)
    else ([], s)
  }

  lemma {:induction false} SplitDigitsPrefix(d: string, rest: string)
    requires AllDigits(d)
    requires rest != [] && !IsDigit(rest[0])
    ensures SplitDigits(d + rest) == (d, rest)
  {
    if d != [] {
      assert (d + rest)[0] == d[0] && (d + rest)[1..] == d[1..] + rest;
      SplitDigitsPrefix(d[1..], rest);
      assert [d[0]] + d[1..] == d;
    } else {
      assert d + rest == rest;
    }
  }

  /** A string field: its length in decimal, a colon, then its characters. */
  function EncodeString(s: string): string {
    EncodeNat(|s|) + ":" + s
  }

  /** Reads one string field from the front of `s`, returning it and what follows. */
  function DecodeString(s: string): (r: Option<(string, string)>)
    ensures r.Some? ==> |r.value.1| < |s|
  {
    var (digits, rest) := SplitDigits(s);
    match DecodeNat(digits)
    case None => None
    case Some(n) =>
      if rest != [] && rest[0] == ':' && n <= |rest| - 1 then
        Some((rest[1..1 + n], rest[1 + n..]))
      else None
  }

  lemma DecodeEncodeString(s: string, rest: string)
    ensures DecodeString(EncodeString(s) + rest) == Some((s, rest))
  {
    var e := EncodeNat(|s|);
    assert EncodeString(s) + rest == e + (":" + s + rest);
    SplitDigitsPrefix(e, ":" + s + rest);
    DecodeEncodeNat(|s|);
    var tail := ":" + s + rest;
    assert tail[1..1 + |s|] == s;
    assert tail[1 + |s|..] == rest;
  }

  function EncodeTrack(t: Track): string {
    EncodeString(t.id) + EncodeString(t.url) + EncodeString(t.title) + EncodeString(t.artist)
  }

  /** Reads one track from the front of `s`, returning it and what follows. */
  function DecodeTrack(s: string): (r: Option<(Track, string)>)
    ensures r.Some? ==> |r.value.1| < |s|
  {
    match DecodeString(s)
    case None => None
    case Some((id, s1)) =>
      match DecodeString(s1)
      case None => None
      case Some((url, s2)) =>
        match DecodeString(s2)
        case None => None
        case Some((title, s3)) =>
          match DecodeString(s3)
          case None => None
          case Some((artist, s4)) => Some((Track(id, url, title, artist), s4))
  }

  lemma DecodeEncodeTrack(t: Track, rest: string)
    ensures DecodeTrack(EncodeTrack(t) + rest) == Some((t, rest))
  {
    var a, b, c, d := EncodeString(t.id), EncodeString(t.url), EncodeString(t.title), EncodeString(t.artist);
    assert EncodeTrack(t) + rest == a + (b + (c + (d + rest)));
    DecodeEncodeString(t.id, b + (c + (d + rest)));
    DecodeEncodeString(t.url, c + (d + rest));
    DecodeEncodeString(t.title, d + rest);
    DecodeEncodeString(t.artist, rest);
  }

  /** The text stored under `@tracks`: the queue's tracks one after another. */
  function EncodeTracks(queue: seq<Track>): string {
    if queue == [] then "" else EncodeTrack(queue[0]) + EncodeTracks(queue[1..])
  }

  /** Reads a whole stored queue; `None` when the text is not one. */
  function DecodeTracks(s: string): Option<seq<Track>>
    decreases |s|
  {
    if s == [] then Some([])
    else
      match DecodeTrack(s)
      case None => None
      case Some((t, rest)) =>
        match DecodeTracks(rest)
        case None => None
        case Some(ts) => Some([t] + ts)
  }

  /** Reading a stored queue that starts with an encoded track yields that track, then the rest. */
  lemma DecodeTracksAfterTrack(t: Track, rest: string)
    ensures DecodeTracks(EncodeTrack(t) + rest) ==
      match DecodeTracks(rest)
      case None => None
      case Some(ts) => Some([t] + ts)
  {
    DecodeEncodeTrack(t, rest);
  }

  /** Storing a queue and reading it back gives the same queue, track for track and in order. */
  lemma {:induction false} DecodeEncodeTracks(queue: seq<Track>)
    ensures DecodeTracks(EncodeTracks(queue)) == Some(queue)
  {
    if queue != [] {
      DecodeEncodeTracks(queue[1..]);
      DecodeTracksAfterTrack(queue[0], EncodeTracks(queue[1..]));
      assert [queue[0]] + queue[1..] == queue;
    }
  }

  /** Different queues are stored as different texts. */
  lemma EncodeTracksInjective(a: seq<Track>, b: seq<Track>)
    ensures EncodeTracks(a) == EncodeTracks(b) ==> a == b
  {
    DecodeEncodeTracks(a);
    DecodeEncodeTracks(b);
  }
}
