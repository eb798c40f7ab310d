/**
 Worked invocations of the handler: concrete clock, `TTL` and payload values
 and what the model says the handler submits and returns for them.
 */
module Scenarios {
  import opened GoStrings
  import opened Wrappers
  import opened Strconv
  import opened SnapshotJob
  import opened Handler

  lemma FormatNatStep(n: nat, q: nat, d: nat)
    requires n >= 10 && q == n / 10 && d == n % 10
    ensures FormatNat(n) == FormatNat(q) + [Digit(d)]
  {
  }

  lemma ItoaTtl()
    ensures Itoa(3600) == "3600"
  {
    assert FormatNat(36) == "36";
    FormatNatStep(360, 36, 0);
    FormatNatStep(3600, 360, 0);
  }

  lemma ItoaExpiration()
    ensures Itoa(1700003600) == "1700003600"
  {
    assert FormatNat(17) == "17";
    FormatNatStep(170, 17, 0);
    FormatNatStep(1700, 170, 0);
    FormatNatStep(17000, 1700, 0);
    FormatNatStep(170000, 17000, 0);
    FormatNatStep(1700003, 170000, 3);
    FormatNatStep(17000036, 1700003, 6);
    FormatNatStep(170000360, 17000036, 0);
    FormatNatStep(1700003600, 170000360, 0);
  }

  /** `TTL=3600` at unix time 1700000000 expires at 1700003600, rendered "1700003600". */
  lemma WebDiskExpiration()
    ensures Atoi("3600") == Ok(3600)
    ensures Itoa(Expiration(1700000000, "3600")) == "1700003600"
  {
    ItoaTtl();
    ParseIntItoa(3600);
    assert Expiration(1700000000, "3600") == 1700003600;
    ItoaExpiration();
  }

  /** A 26-byte name is not truncated. */
  lemma WebDiskName()
    ensures SnapshotName("1700003600", "web-01") == "snapshot-1700003600-web-01"
  {
    assert FullName("1700003600", "web-01") == "snapshot-1700003600-web-01";
  }

  /**
   `TTL=3600` at unix time 1700000000 for disk "web-01": the job is submitted
   as "snapshot-1700003600-web-01", labelled `expiration_ts` = "1700003600".
   */
  lemma WebDiskScenario(platform: Platform, event: MessageQueueEvent)
    requires |event.messages| > 0
    requires platform.credentials.None?
    requires platform.decode(event.messages[0].body).Ok?
    requires platform.decode(event.messages[0].body).value.diskName == "web-01"
    ensures Run(platform, 1700000000, "3600", event).Submitted?
    ensures Run(platform, 1700000000, "3600", event).request.name == "snapshot-1700003600-web-01"
    ensures Run(platform, 1700000000, "3600", event).request.labels == map["expiration_ts" := "1700003600"]
  {
    WebDiskExpiration();
    var o := Run(platform, 1700000000, "3600", event);
    assert o.request.name == SnapshotName("1700003600", "web-01");
    WebDiskName();
    assert o.request.labels == map[ExpirationLabel := "1700003600"];
  }

  /** An unset `TTL` reads as the empty string, which `Atoi` rejects: a process failure before any decoding. */
  lemma UnsetTtlScenario(platform: Platform, now: int64, event: MessageQueueEvent)
    requires |event.messages| > 0
    requires platform.credentials.None?
    ensures Run(platform, now, "", event) == TtlParseFailure(NumError("Atoi", "", ErrSyntax))
    ensures SnapshotHandler(platform, now, "", event) == Failure(Parse(NumError("Atoi", "", ErrSyntax)))
  {
  }

  /** A `TTL` with a unit, such as "1h", is not a decimal integer: a process failure. */
  lemma TtlWithUnitScenario(platform: Platform, now: int64, event: MessageQueueEvent)
    requires platform.credentials.None?
    ensures Atoi("1h") == Err(NumError("Atoi", "1h", ErrSyntax))
    ensures SnapshotHandler(platform, now, "1h", event) == Failure(Parse(NumError("Atoi", "1h", ErrSyntax)))
  {
    assert !IsDigit("1h"[1]);
  }

  /** A failed SDK build is returned before the delivery is read, so an empty one does no harm. */
  lemma EmptyEventScenario(platform: Platform, now: int64, ttlVar: GoString)
    requires platform.credentials.Some?
    ensures SnapshotHandler(platform, now, ttlVar, MessageQueueEvent([]))
         == Failure(External(platform.credentials.value))
  {
  }

  /** A payload that does not decode is a process failure and no request is submitted. */
  lemma MalformedPayloadScenario(platform: Platform, now: int64, ttlVar: GoString, event: MessageQueueEvent)
    requires |event.messages| > 0
    requires platform.credentials.None? && Atoi(ttlVar).Ok?
    requires platform.decode(event.messages[0].body).Err?
    ensures !Run(platform, now, ttlVar, event).Submitted?
    ensures SnapshotHandler(platform, now, ttlVar, event)
         == Failure(External(platform.decode(event.messages[0].body).error))
  {
  }

  /** The compute API rejects the create call: status 200 and the fixed error text, no process failure. */
  lemma CreateCallRejectedScenario(o: Outcome)
    requires o.Submitted? && o.remote.CallFailed?
    ensures Classify(o) == Reply(Response(200, "Error create snapshot"))
  {
  }

  /** Snapshot "snap-abc" of disk "disk-xyz" is created: status 200, both ids in the body. */
  lemma CreatedScenario(o: Outcome)
    requires o.Submitted?
    requires o.remote == Created(SnapshotMetadata("snap-abc", "disk-xyz"))
    ensures Classify(o) == Reply(Response(200, "Created snapshot snap-abc from disk disk-xyz"))
  {
    var body := CreatedPrefix + "snap-abc" + FromDisk + "disk-xyz";
    assert Classify(o) == Reply(Response(StatusOK, body));
    assert body == "Created snapshot snap-abc from disk disk-xyz";
  }
}
