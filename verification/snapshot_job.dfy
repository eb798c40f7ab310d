/**
 The pure pieces of the snapshot job the handler submits: the expiration
 timestamp, the bounded snapshot name, the label map shared with the
 expiration sweep, and the description.
 */
module SnapshotJob {
  import opened GoStrings
  import opened Strconv
  import opened Wrappers

  // ---------------------------------------------------------------------
  // Expiration

  const TwoTo64: int := 0x1_0000_0000_0000_0000

  /**
   `int(now.Unix()) + ttl` on Go's 64-bit `int`: the exact sum when it fits,
   otherwise the two's-complement wrap-around of it.
   */
  function ExpirationTs(now: int64, ttl: int64): (r: int64)
    ensures Int64Min <= now + ttl <= Int64Max ==> r == now + ttl
    ensures now + ttl > Int64Max ==> r == now + ttl - TwoTo64
    ensures now + ttl < Int64Min ==> r == now + ttl + TwoTo64
  {
    (now + ttl - Int64Min) % TwoTo64 + Int64Min
  }

  // ---------------------------------------------------------------------
  // Name

  /** The longest snapshot name the handler produces. */
  const MaxNameLength: nat := 63

  const Prefix: GoString := "snapshot"
  const Separator: GoString := "-"

  /** `"snapshot" + "-" + ts + "-"`: the part of the name that precedes the disk name. */
  function NameHead(ts: GoString): GoString {
    Prefix + Separator + ts + Separator
  }

  /** The name before truncation. */
  function FullName(ts: GoString, diskName: GoString): GoString {
    NameHead(ts) + diskName
  }

  /**
   `s[:l]` with `l` the smaller of `n` and `len(s)`: the longest prefix of
   `s` that is at most `n` bytes long.
   */
  function Truncate(s: GoString, n: nat): (r: GoString)
    ensures |r| <= n
    ensures r <= s
    ensures |s| <= n ==> r == s
    ensures |s| >= n ==> |r| == n
  {
    var l := if |s| < n then |s| else n;
    s[..l]
  }

  /** The snapshot name: the full name cut to at most 63 bytes, keeping the leading bytes. */
  function SnapshotName(ts: GoString, diskName: GoString): (r: GoString)
    ensures |r| <= MaxNameLength
    ensures r <= FullName(ts, diskName)
    ensures |FullName(ts, diskName)| <= MaxNameLength ==> r == FullName(ts, diskName)
    ensures |FullName(ts, diskName)| > MaxNameLength ==> |r| == MaxNameLength
    ensures |NameHead(ts)| <= MaxNameLength ==> NameHead(ts) <= r
  {
    var full := FullName(ts, diskName);
    var r := Truncate(full, MaxNameLength);
    assert |NameHead(ts)| <= MaxNameLength ==> NameHead(ts) == full[..|NameHead(ts)|] && r == full[..|r|];
    r
  }

  /** The head of a rendered 64-bit timestamp is at most 30 bytes. */
  lemma NameHeadLength(x: int64)
    ensures |NameHead(Itoa(x))| <= 30
  {
    ItoaLength(x);
  }

  /**
   For every rendered 64-bit timestamp the head survives intact, and only
   disk-name bytes are dropped: exactly the first `63 - |head|` of them are kept.
   */
  lemma NameKeepsHead(x: int64, diskName: GoString)
    ensures var head := NameHead(Itoa(x));
      && head <= SnapshotName(Itoa(x), diskName)
      && SnapshotName(Itoa(x), diskName)
         == head + Truncate(diskName, MaxNameLength - |head|)
  {
    var head := NameHead(Itoa(x));
    NameHeadLength(x);
    var keep := MaxNameLength - |head|;
    var r := SnapshotName(Itoa(x), diskName);
    var full := head + diskName;
    if |diskName| <= keep {
      assert r == full;
    } else {
      assert |r| == MaxNameLength;
      assert r == full[..MaxNameLength];
      assert full[..MaxNameLength] == head + diskName[..keep];
    }
  }

  // ---------------------------------------------------------------------
  // Labels

  /** The label key the expiration sweep reads. */
  const ExpirationLabel: GoString := "expiration_ts"

  /** `map[string]string{"expiration_ts": ts}`. */
  function Labels(ts: GoString): (m: map<GoString, GoString>)
    ensures m.Keys == {ExpirationLabel}
    ensures m[ExpirationLabel] == ts
  {
    map[ExpirationLabel := ts]
  }

  /** The label value parses with `ParseInt` back to exactly the timestamp. */
  lemma LabelParsesBack(x: int64)
    ensures ParseInt(Labels(Itoa(x))[ExpirationLabel]) == Ok(x)
  {
    ParseIntItoa(x);
  }

  // ---------------------------------------------------------------------
  // Description

  const DescriptionPrefix: GoString := "Expiration:  "

  /** `fmt.Sprintf("Expiration:  %s", tm)`, given the text `tm` renders as. */
  function Description(renderedTime: GoString): (d: GoString)
    ensures DescriptionPrefix <= d
    ensures d[|DescriptionPrefix|..] == renderedTime
  {
    DescriptionPrefix + renderedTime
  }
}
