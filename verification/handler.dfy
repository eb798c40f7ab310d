/**
 `SnapshotHandler`: one message-queue delivery in, one snapshot-creation
 attempt, one caller-visible result out. The cloud SDK, the JSON decoder,
 the calendar rendering of a timestamp and the remote create call are
 collaborators supplied in a `Platform`; the clock reading and the `TTL`
 environment variable are parameters.
 */
module Handler {
  import opened GoStrings
  import opened Wrappers
  import opened Strconv
  import opened SnapshotJob

  // ---------------------------------------------------------------------
  // Data model

  /** One message of a delivery; only its body is read. */
  datatype QueueMessage = QueueMessage(body: GoString)

  datatype MessageQueueEvent = MessageQueueEvent(messages: seq<QueueMessage>)

  /** The job description a message body decodes to. */
  datatype CreateSnapshotParams = CreateSnapshotParams(folderId: GoString, diskId: GoString, diskName: GoString)

  /** The create-snapshot request submitted to the compute API. */
  datatype CreateSnapshotRequest = CreateSnapshotRequest(
    folderId: GoString,
    diskId: GoString,
    name: GoString,
    description: GoString,
    labels: map<GoString, GoString>)

  /** The metadata of a create-snapshot operation. */
  datatype SnapshotMetadata = SnapshotMetadata(snapshotId: GoString, diskId: GoString)

  /** What the compute API reports for a submitted request; errors carry their text. */
  datatype RemoteOutcome =
    | CallFailed(message: GoString)        // the create call returned an error
    | OperationFailed(message: GoString)   // the returned operation carries an error
    | MetadataFailed(message: GoString)    // the operation's metadata could not be read
    | Created(meta: SnapshotMetadata)

  /** The handler's collaborators. */
  datatype Platform = Platform(
    credentials: Option<GoString>,                              // the SDK build error, if any
    decode: GoString -> Result<CreateSnapshotParams, GoString>,  // JSON decoding of a body
    renderTime: int64 -> GoString,                              // `%s` of `time.Unix(i, 0)`
    createSnapshot: CreateSnapshotRequest -> RemoteOutcome)     // the create call and its operation

  /** How far one invocation got. */
  datatype Outcome =
    | CredentialFailure(message: GoString)
    | TtlParseFailure(numError: NumError)
    | DecodeFailure(message: GoString)
    | ExpirationParseFailure(numError: NumError)
    | Submitted(request: CreateSnapshotRequest, remote: RemoteOutcome)

  /** A Go `error` the handler returns. */
  datatype Error = External(message: GoString) | Parse(numError: NumError)

  datatype Response = Response(statusCode: int, body: GoString)

  /** `(*Response, error)`: either `(nil, err)` or `(response, nil)`. */
  datatype HandlerResult = Failure(err: Error) | Reply(response: Response)

  const StatusOK: int := 200

  const CreateCallFailedBody: GoString := "Error create snapshot"
  const OperationFailedPrefix: GoString := "Failed to create snapshot: "
  const CreatedPrefix: GoString := "Created snapshot "
  const FromDisk: GoString := " from disk "

  // ---------------------------------------------------------------------
  // The pipeline

  /**
   The expiration timestamp of an invocation whose `TTL` parses: `now + ttl`
   when that fits in 64 bits, and in every case congruent to it modulo `2^64`.
   */
  function Expiration(now: int64, ttlVar: GoString): (ts: int64)
    requires Atoi(ttlVar).Ok?
    ensures Int64Min <= now + Atoi(ttlVar).value <= Int64Max ==> ts == now + Atoi(ttlVar).value
    ensures (ts - now - Atoi(ttlVar).value) % TwoTo64 == 0
  {
    ExpirationTs(now, Atoi(ttlVar).value)
  }

  /**
   Runs the handler's steps in order: SDK build, `TTL` parse, payload
   decode, name, the parse of the expiration string, the create call. The
   first message is read only once the SDK builds and `TTL` parses, so only
   then must the delivery hold one.
   */
  function Run(platform: Platform, now: int64, ttlVar: GoString, event: MessageQueueEvent): (o: Outcome)
    requires platform.credentials.None? && Atoi(ttlVar).Ok? ==> |event.messages| > 0
    ensures !o.ExpirationParseFailure?
    ensures o.Submitted?
        <==> platform.credentials.None? && Atoi(ttlVar).Ok? && platform.decode(event.messages[0].body).Ok?
    ensures o.CredentialFailure? <==> platform.credentials.Some?
    ensures o.CredentialFailure? ==> o.message == platform.credentials.value
    ensures o.TtlParseFailure? <==> platform.credentials.None? && Atoi(ttlVar).Err?
    ensures o.TtlParseFailure? ==> o.numError == Atoi(ttlVar).error
    ensures o.DecodeFailure?
        <==> platform.credentials.None? && Atoi(ttlVar).Ok? && platform.decode(event.messages[0].body).Err?
    ensures o.DecodeFailure? ==> o.message == platform.decode(event.messages[0].body).error
    ensures o.Submitted? ==>
      var params := platform.decode(event.messages[0].body).value;
      var ts := Itoa(Expiration(now, ttlVar));
      && o.request.folderId == params.folderId
      && o.request.diskId == params.diskId
      && o.request.name == SnapshotName(ts, params.diskName)
      && o.request.labels.Keys == {ExpirationLabel}
      && o.request.labels[ExpirationLabel] == ts
      && ParseInt(o.request.labels[ExpirationLabel]) == Ok(Expiration(now, ttlVar))
      && o.request.description == Description(platform.renderTime(Expiration(now, ttlVar)))
      && o.remote == platform.createSnapshot(o.request)
  {
    if platform.credentials.Some? then CredentialFailure(platform.credentials.value)
    else match Atoi(ttlVar)
      case Err(e) => TtlParseFailure(e)
      case Ok(ttl) =>
        var expirationTs := Itoa(ExpirationTs(now, ttl));
        match platform.decode(event.messages[0].body)
        case Err(e) => DecodeFailure(e)
        case Ok(params) =>
          var name := SnapshotName(expirationTs, params.diskName);
          ParseIntItoa(ExpirationTs(now, ttl));
          match ParseInt(expirationTs)
          case Err(e) => ExpirationParseFailure(e)
          case Ok(i) =>
            var request := CreateSnapshotRequest(
              params.folderId, params.diskId, name,
              Description(platform.renderTime(i)), Labels(expirationTs));
            Submitted(request, platform.createSnapshot(request))
  }

  // ---------------------------------------------------------------------
  // Classification

  /**
   The outcomes the handler signals as a process failure, which makes the
   queue redeliver the message: every failure before the create call and an
   unreadable metadata, but neither the create-call error nor the operation
   error.
   */
  function Redelivered(o: Outcome): (b: bool)
    ensures b <==>
      || o.CredentialFailure? || o.TtlParseFailure? || o.DecodeFailure? || o.ExpirationParseFailure?
      || (o.Submitted? && o.remote.MetadataFailed?)
    ensures o.Submitted? && (o.remote.CallFailed? || o.remote.OperationFailed?) ==> !b
  {
    !o.Submitted? || o.remote.MetadataFailed?
  }

  /** Maps an outcome to what the handler returns. */
  function Classify(o: Outcome): (r: HandlerResult)
    ensures r.Failure? <==> Redelivered(o)
    ensures r.Reply? ==> r.response.statusCode == StatusOK
    ensures o.CredentialFailure? || o.DecodeFailure? ==> r == Failure(External(o.message))
    ensures o.TtlParseFailure? || o.ExpirationParseFailure? ==> r == Failure(Parse(o.numError))
    ensures o.Submitted? && o.remote.MetadataFailed? ==> r == Failure(External(o.remote.message))
    ensures o.Submitted? && o.remote.CallFailed? ==> r.response.body == CreateCallFailedBody
    ensures o.Submitted? && o.remote.OperationFailed? ==>
      r.response.body == OperationFailedPrefix + o.remote.message
    ensures o.Submitted? && o.remote.Created? ==>
      r.response.body == CreatedPrefix + o.remote.meta.snapshotId + FromDisk + o.remote.meta.diskId
  {
    match o
    case CredentialFailure(m) => Failure(External(m))
    case TtlParseFailure(e) => Failure(Parse(e))
    case DecodeFailure(m) => Failure(External(m))
    case ExpirationParseFailure(e) => Failure(Parse(e))
    case Submitted(_, remote) =>
      match remote
      case CallFailed(_) => Reply(Response(StatusOK, CreateCallFailedBody))
      case OperationFailed(m) => Reply(Response(StatusOK, OperationFailedPrefix + m))
      case MetadataFailed(m) => Failure(External(m))
      case Created(meta) =>
        Reply(Response(StatusOK, CreatedPrefix + meta.snapshotId + FromDisk + meta.diskId))
  }

  /** The handler: the outcome of the run, classified. */
  function SnapshotHandler(platform: Platform, now: int64, ttlVar: GoString, event: MessageQueueEvent): (r: HandlerResult)
    requires platform.credentials.None? && Atoi(ttlVar).Ok? ==> |event.messages| > 0
    ensures r.Failure? <==>
      || platform.credentials.Some?
      || Atoi(ttlVar).Err?
      || platform.decode(event.messages[0].body).Err?
      || Run(platform, now, ttlVar, event).remote.MetadataFailed?
    ensures r.Reply? ==> r.response.statusCode == StatusOK
  {
    Classify(Run(platform, now, ttlVar, event))
  }

  // ---------------------------------------------------------------------
  // Properties

  /**
   The head `"snapshot-" + ts + "-"` of every submitted name is intact and at
   most 30 bytes; only disk-name bytes are cut.
   */
  lemma SubmittedNameKeepsHead(platform: Platform, now: int64, ttlVar: GoString, event: MessageQueueEvent)
    requires platform.credentials.None? && Atoi(ttlVar).Ok?
    requires |event.messages| > 0 && platform.decode(event.messages[0].body).Ok?
    ensures
      var diskName := platform.decode(event.messages[0].body).value.diskName;
      var head := NameHead(Itoa(Expiration(now, ttlVar)));
      && |head| <= 30
      && Run(platform, now, ttlVar, event).request.name
         == head + Truncate(diskName, MaxNameLength - |head|)
  {
    var x := Expiration(now, ttlVar);
    NameHeadLength(x);
    NameKeepsHead(x, platform.decode(event.messages[0].body).value.diskName);
  }

  /**
   The label map depends only on the clock reading and `TTL`: two submitted
   jobs with the same clock and `TTL` carry the same labels, whatever their
   payloads and collaborators.
   */
  lemma LabelsIndependentOfPayload(
    p1: Platform, p2: Platform, now: int64, ttlVar: GoString, e1: MessageQueueEvent, e2: MessageQueueEvent)
    requires p1.credentials.None? && Atoi(ttlVar).Ok? ==> |e1.messages| > 0
    requires p2.credentials.None? && Atoi(ttlVar).Ok? ==> |e2.messages| > 0
    requires Run(p1, now, ttlVar, e1).Submitted? && Run(p2, now, ttlVar, e2).Submitted?
    ensures Run(p1, now, ttlVar, e1).request.labels == Run(p2, now, ttlVar, e2).request.labels
  {
  }

  /**
   A reply's body starts with "Created snapshot " exactly when the snapshot
   was created: the text alone tells success from the two reported failures.
   */
  lemma ReplyTellsSuccess(o: Outcome)
    requires Classify(o).Reply?
    ensures CreatedPrefix <= Classify(o).response.body <==> o.remote.Created?
  {
    var body := Classify(o).response.body;
    if o.remote.CallFailed? {
      assert body[0] != CreatedPrefix[0];
    } else if o.remote.OperationFailed? {
      assert body[0] == OperationFailedPrefix[0] != CreatedPrefix[0];
    }
  }
}
