/**
 * Values shared by both watchers: bytes and digests, durations, the package's
 * error values, what a tick hands to the callback, and the library routines
 * (MD5, base64, HTTP-date parsing) the watchers consult without this model
 * interpreting them.
 */
module Common {
  import opened Wrappers

  type Byte = x: int | 0 <= x < 256
  type Bytes = seq<Byte>
  type Path = string

  /** `md5.Size`: the width of a digest in bytes. */
  const DigestSize: nat := 16

  /** A `[md5.Size]byte` array. */
  type Digest = s: Bytes | |s| == DigestSize witness seq(16, _ => 0)

  /** The zero value of `[md5.Size]byte`. */
  const ZeroDigest: Digest := seq(DigestSize, _ => 0)

  /** `time.Second` and `time.Minute`, in nanoseconds as Go's `time.Duration` counts them. */
  const Second: int := 1_000_000_000
  const Minute: int := 60 * Second

  /**
   * Every error the watchers return or hand to the callback. The sentinels of
   * the package are constants; errors built with `fmt.Errorf` or passed through
   * from the operating system carry the datum that distinguishes them.
   */
  datatype Error =
    | NoGMT                              // errNoGMT
    | NoRemoteOrLocal                    // errNoRemoteOrLocal
    | NoCallback                         // errNoCallback
    | NoPath                             // errNoPath
    | Running                            // errRunning
    | Stopped                            // errStopped
    | NotModified                        // errNotModified, never given to the callback
    | CreateRequestFailed(verb: string)  // "create HEAD/GET request fail"
    | SendRequestFailed(verb: string)    // "send HEAD/GET request fail"
    | BadStatus(code: int)               // "bad status: %d(%s)"
    | BadLastModified(header: string)    // "bad Last-Modified header value"
    | BadContentMD5(header: string)      // "bad Content-MD5 header value"
    | ReadBodyFailed                     // "read response body fail"
    | WriteFailed(path: Path)            // the error of ioutil.WriteFile on the main file
    | SaveETagFailed(path: Path)         // "save etag file %q fail"
    | StatFailed(path: Path)             // the error of os.Stat
    | ReadFailed(path: Path)             // the error of ioutil.ReadFile

  /** What one polling tick does with the callback: nothing, or one call with nil or an error. */
  datatype Callback = NoCall | Call(arg: Option<Error>)

  /** The callback arguments of one tick: none, or the one it was called with. */
  function CallsOf(cb: Callback): (r: seq<Option<Error>>)
    ensures cb.NoCall? <==> r == []
    ensures cb.Call? ==> r == [cb.arg]
  {
    if cb.Call? then [cb.arg] else []
  }

  /**
   * The library routines the watchers call, left uninterpreted: `md5.Sum`,
   * `base64.StdEncoding.DecodeString` (None when the text is not base64) and
   * `time.Parse` with the layout of RFC 7231 section 7.1.1.1 (None when the
   * text does not parse), giving a time in nanoseconds since Go's zero `time.Time`.
   */
  datatype Platform = Platform(
    md5: Bytes -> Digest,
    decodeBase64: string -> Option<Bytes>,
    parseHTTPDate: string -> Option<int>)

  /**
   * A Go string is a sequence of bytes; here each byte is a character below 256.
   * `IsByteString` says a string is of that kind.
   */
  predicate IsByteString(s: string) {
    forall i :: 0 <= i < |s| ==> s[i] as int < 256
  }

  /** One character of a Go string as its byte. */
  function ByteOf(c: char): Byte {
    c as int % 256
  }

  /** One byte as a character of a Go string. */
  function CharOf(b: Byte): (c: char)
    ensures c as int < 256
  {
    b as char
  }

  lemma ByteOfCharOf(b: Byte)
    ensures ByteOf(CharOf(b)) == b
  {
  }

  lemma CharOfByteOf(c: char)
    requires c as int < 256
    ensures CharOf(ByteOf(c)) == c
  {
  }

  /** Go's `[]byte(s)` conversion. */
  function ToBytes(s: string): (b: Bytes)
    ensures |b| == |s|
  {
    if s == "" then [] else [ByteOf(s[0])] + ToBytes(s[1..])
  }

  /** Go's `string(b)` conversion. */
  function FromBytes(b: Bytes): (s: string)
    ensures |s| == |b| && IsByteString(s)
  {
    if b == [] then "" else [CharOf(b[0])] + FromBytes(b[1..])
  }

  /** Converting bytes to a string and back gives the same bytes. */
  lemma {:induction false} BytesRoundTrip(b: Bytes)
    ensures ToBytes(FromBytes(b)) == b
  {
    if b != [] {
      var s := FromBytes(b);
      assert s[0] == CharOf(b[0]) && s[1..] == FromBytes(b[1..]);
      ByteOfCharOf(b[0]);
      BytesRoundTrip(b[1..]);
    }
  }

  /** Converting a byte string to bytes and back gives the same string. */
  lemma {:induction false} StringRoundTrip(s: string)
    requires IsByteString(s)
    ensures FromBytes(ToBytes(s)) == s
  {
    if s != "" {
      var b := ToBytes(s);
      assert b[0] == ByteOf(s[0]) && b[1..] == ToBytes(s[1..]);
      CharOfByteOf(s[0]);
      StringRoundTrip(s[1..]);
    }
  }

  /** Sequence concatenation regroups freely. */
  lemma ConcatAssoc<T>(a: seq<T>, b: seq<T>, c: seq<T>)
    ensures (a + b) + c == a + (b + c)
  {
  }
}
