# Snapshot handler model

A Dafny model of `SnapshotHandler` (`snapshot-disks.go`). This is a serverless
function that runs on one message-queue delivery. It snapshots one cloud disk
and tags the snapshot with an expiration timestamp. A separate sweep job reads
that tag later and deletes expired snapshots.

The handler runs as a linear pipeline:

1. Build the cloud SDK client.
2. Read `TTL` with `strconv.Atoi`.
3. Compute `expirationTs = strconv.Itoa(now + ttl)`.
4. Decode the first message's JSON body into `(folderId, diskId, diskName)`.
5. Build the name `"snapshot-" + expirationTs + "-" + diskName`, cut to 63 bytes.
6. Parse `expirationTs` back with `ParseInt(…, 10, 64)` to get the description's time.
7. Submit a create request whose labels are `{"expiration_ts": expirationTs}`.
8. Classify what happened, either as a process failure (`nil`, `err`, so the
   queue redelivers the message) or as status 200 with a text body.

Modules:

- `GoStrings` (`go_strings.dfy`): Go strings as byte sequences. `Wrappers`
  holds `Option` and `Result`.
- `Strconv` (`strconv.dfy`): `Itoa` and the base-10, 64-bit parser behind both
  `Atoi` and `ParseInt`. It proves the round trip in both directions and the
  20-byte length bound.
- `SnapshotJob` (`snapshot_job.dfy`): the 64-bit expiration sum, name
  truncation, the label map and the description.
- `Handler` (`handler.dfy`): the entities, the pipeline `Run`, the outcome
  classification `Classify` and the handler itself.
- `Scenarios` (`scenarios.dfy`): concrete invocations.

Points where the code's behaviour is easy to misread, as the model reproduces it:

- `TTL` may be negative: it goes through `strconv.Atoi`, which accepts a sign,
  so `-60` and `+3600` are accepted. Nothing requires it to be non-negative.
- `int(now.Unix()) + ttl` is a 64-bit `int` sum, so it wraps on overflow.
  `ExpirationTs` models the wrap. The rendered value is always a 64-bit
  integer, so the `ParseInt` error branch (l.61-66) still cannot be reached.
- The handler calls no wait on the create operation (l.73-104). The "operation
  error" and the metadata are whatever the returned operation reports. The model
  takes them from the `createSnapshot` collaborator as one `RemoteOutcome`.
- The comment at l.92-93 says a failed creation goes back to the queue. The
  code returns status 200 with a `nil` error for both the create-call error and
  the operation error, so neither is redelivered. The model reproduces the code
  (`Redelivered`, `Classify`) and does not pick which side was intended.

## Model

| member | source | states |
|---|---|---|
| `Strconv.FormatNat` | snapshot-disks.go:39 | The decimal digits `Itoa` writes for a magnitude: at least one byte, all digits, and a leading `0` only for zero. |
| `Strconv.Itoa` | snapshot-disks.go:39 | Every rendering is canonical (no `+`, no leading zero, no `-0`) and starts with `-` exactly when the value is negative. |
| `Strconv.ParseDecimal64` | snapshot-disks.go:32-36 | The base-10 64-bit parser of `Atoi` / `ParseInt`. An input that is not an optional sign followed by one or more digits (empty, `"1h"`, `" 5"`) is a syntax error. A well-formed input succeeds exactly when its magnitude fits the 64-bit range for its sign, and is a range error otherwise. Any error names the failing function and the input. A negative result needs a leading `-`. |
| `Strconv.ParseInt` | snapshot-disks.go:61 | `ParseInt(s, 10, 64)`: errors name `ParseInt` and the input. A success means `s` is well formed and its value is the one whose `Itoa` is the normal form of `s`. |
| `Strconv.Atoi` | snapshot-disks.go:32 | `Atoi`: errors name `Atoi` and the input. It agrees with `ParseInt` on success, value and error kind. A success means `s` is well formed and its value is the one whose `Itoa` is the normal form of `s`. |
| `Strconv.ParseNormalForm` | snapshot-disks.go:32 | For every accepted input, `Itoa` of the parsed value is the input with `+` and leading zeros dropped and `-0` read as `0`. Together with `ParseIntItoa`, this fixes the value of every accepted spelling. |
| `Strconv.ParseIgnoresPlus` | snapshot-disks.go:32 | `"+" + d` parses exactly as `d` does (same success, value and error kind) when `d` has no sign. |
| `Strconv.ParseIgnoresLeadingZero` | snapshot-disks.go:32 | A zero right after the optional sign changes nothing: `"03600"` reads as `"3600"` and `"-07"` as `"-7"`. |
| `Strconv.DigitsValueLeadingZero` | snapshot-disks.go:32 | A leading zero does not change the value of a run of digits (induction). |
| `Strconv.TrimZerosValue` | snapshot-disks.go:32 | Dropping leading zeros leaves canonical digits of the same value (induction). |
| `Strconv.DigitsValueFormatNat` | snapshot-disks.go:39 | Reading the digits that `FormatNat` writes gives back the number (induction). |
| `Strconv.ParseIntItoa` | snapshot-disks.go:61-66 | For every 64-bit `x`, `ParseInt(Itoa(x))` and `Atoi(Itoa(x))` both return `x`. So the error branch after `ParseInt` cannot be taken. |
| `Strconv.ItoaInjective` | snapshot-disks.go:79 | Distinct expiration timestamps give distinct `expiration_ts` label values. |
| `Strconv.FormatNatDigitsValue` | snapshot-disks.go:39 | Rendering the value of a canonical digit string (no leading zero) gives back the same string (induction). |
| `Strconv.ItoaParseInt` | snapshot-disks.go:61 | The converse round trip: a canonical string that parses is exactly the `Itoa` of its value. |
| `Strconv.FormatNatLength` | snapshot-disks.go:39 | A number below `10^k` renders in at most `k` digits (induction). |
| `Strconv.ItoaLength` | snapshot-disks.go:39 | A 64-bit integer renders in at most 20 bytes. |
| `SnapshotJob.ExpirationTs` | snapshot-disks.go:39 | `now + ttl` when it fits in 64 bits, otherwise that sum shifted by `2^64` in the direction of the overflow. |
| `SnapshotJob.Truncate` | snapshot-disks.go:54-58 | The result is a prefix of the input and at most `n` bytes long. It is the whole input when that fits, and exactly `n` bytes otherwise. |
| `SnapshotJob.SnapshotName` | snapshot-disks.go:53-58 | The name is at most 63 bytes and is a prefix of `"snapshot-" + ts + "-" + diskName`. It equals that string when the string is at most 63 bytes. Otherwise it is exactly 63 bytes. Any head `"snapshot-" + ts + "-"` of 63 bytes or fewer survives intact. |
| `SnapshotJob.NameHeadLength` | snapshot-disks.go:53 | The head `"snapshot-" + Itoa(x) + "-"` of any 64-bit timestamp is at most 30 bytes. |
| `SnapshotJob.NameKeepsHead` | snapshot-disks.go:53-58 | For every 64-bit timestamp and disk name, the name is the intact head followed by as many leading disk-name bytes as fit in 63. Only disk-name bytes are cut. |
| `SnapshotJob.Labels` | snapshot-disks.go:78-80 | The label map has exactly one key, `expiration_ts`, and it maps to the expiration string. |
| `SnapshotJob.LabelParsesBack` | snapshot-disks.go:79 | `ParseInt` of the `expiration_ts` label value returns exactly the expiration timestamp. |
| `SnapshotJob.Description` | snapshot-disks.go:68-69 | The description is `"Expiration:  "` followed by the rendered time. |
| `Handler.Expiration` | snapshot-disks.go:32-39 | For a `TTL` that parses, the expiration is `now + ttl` whenever that fits in 64 bits, and is congruent to it modulo `2^64` in every case. |
| `Handler.Run` | snapshot-disks.go:19-81 | Only the first failing step counts: credentials, then `TTL`, then decode. A request is submitted exactly when the SDK builds, `TTL` parses and the body decodes, so the `ParseInt` failure never occurs. A submitted request carries the payload's folder and disk ids. Its name is built from `Itoa(now + ttl)` and the disk name. Its only label is `expiration_ts` = `Itoa(now + ttl)`, which parses back to the expiration. Its description renders that same instant. The remote outcome is the one reported for that request. |
| `Handler.Redelivered` | snapshot-disks.go:25-104 | A process failure (and so a redelivery) happens exactly for the credential, `TTL`, decode and expiration-parse failures (l.33-35, 46-48, 63-65) and an unreadable metadata (l.100-103). The create-call error and the operation error (l.83-99) are not redelivered. |
| `Handler.Classify` | snapshot-disks.go:83-112 | A process failure happens exactly for credential, `TTL`, decode, expiration-parse and metadata failures, and it returns the causing error. Every reply has status 200. The create-call error gives "Error create snapshot". The operation error gives "Failed to create snapshot: " plus its text. Success gives "Created snapshot <id> from disk <disk>". |
| `Handler.SnapshotHandler` | snapshot-disks.go:17-113 | The handler fails (nil response, non-nil error) exactly when credentials fail, `TTL` does not parse, the body does not decode, or the submitted operation's metadata cannot be read. Otherwise it replies with status 200. |
| `Handler.SubmittedNameKeepsHead` | snapshot-disks.go:53-58 | Every submitted name is the intact head `"snapshot-" + Itoa(now + ttl) + "-"` (at most 30 bytes) followed by a prefix of the disk name. |
| `Handler.LabelsIndependentOfPayload` | snapshot-disks.go:78-80 | Two submitted jobs with the same clock and `TTL` carry identical labels, whatever their payloads. |
| `Handler.ReplyTellsSuccess` | snapshot-disks.go:86-112 | A reply's body starts with "Created snapshot " exactly when the snapshot was created. |
| `Scenarios.WebDiskExpiration` | snapshot-disks.go:32-39 | `TTL` "3600" at unix time 1700000000 gives the expiration string "1700003600". |
| `Scenarios.WebDiskName` | snapshot-disks.go:53-58 | "snapshot-1700003600-web-01" (26 bytes) is not truncated. |
| `Scenarios.WebDiskScenario` | snapshot-disks.go:53-80 | For disk "web-01" under those inputs, the request is submitted with name "snapshot-1700003600-web-01" and labels `{"expiration_ts": "1700003600"}`. |
| `Scenarios.UnsetTtlScenario` | snapshot-disks.go:32-36 | An unset (empty) `TTL` is an `Atoi` syntax error, returned as a process failure. |
| `Scenarios.TtlWithUnitScenario` | snapshot-disks.go:32-36 | A `TTL` of "1h" is an `Atoi` syntax error, returned as a process failure. |
| `Scenarios.EmptyEventScenario` | snapshot-disks.go:19-28 | A failed SDK build is returned as a process failure even for a delivery with no messages. |
| `Scenarios.MalformedPayloadScenario` | snapshot-disks.go:44-48 | A body that does not decode is a process failure carrying the decode error, and no request is submitted. |
| `Scenarios.CreateCallRejectedScenario` | snapshot-disks.go:83-90 | A failed create call replies with status 200 and "Error create snapshot". |
| `Scenarios.CreatedScenario` | snapshot-disks.go:107-112 | Snapshot "snap-abc" of disk "disk-xyz" replies with status 200 and "Created snapshot snap-abc from disk disk-xyz". |

## Left out

- SDK construction and credential acquisition (`ycsdk.Build`, l.19-23): these are network and auth calls. They are an input `Platform.credentials` (the build error, or none).
- `time.Now()` and `os.Getenv("TTL")` (l.30-32): the clock reading `now` and the variable's text `ttlVar` are parameters. An unset variable is the empty string, as in Go.
- JSON decoding (`json.Unmarshal`, l.43-44) is the library's: it is `Platform.decode`, mapping a body to the three fields or an error. `CreateSnapshotParams` and `MessageQueueEvent` are declared in a file that is not part of this model. Any decoded record is accepted, empty fields included.
- The calendar rendering of the description's time (`time.Unix`, `%s`, l.68-69) depends on the library's time zone and format: it is `Platform.renderTime`.
- The create call, operation error and metadata read (`WrapOperation`, `Create`, `Error()`, `Metadata()`, l.73-104) are remote I/O: they are `Platform.createSnapshot`, returning a `RemoteOutcome`.
- The type assertion `meta.(*compute.CreateSnapshotMetadata)` (l.106-111) would panic on another type: metadata is a typed `SnapshotMetadata` record.
- An event with no messages panics at `event.Messages[0]` (l.42), but only once the SDK builds and `TTL` parses. Earlier failures return `(nil, err)` without reading the event. `Run` and `SnapshotHandler` require a message only in that case.
- Logging through `fmt.Println` (l.26, 34, 47, 64, 84, 102) has no effect on the result.
- Strconv.ParseDecimal64: a string that is both malformed and too large gets the error kind Go meets first while scanning left to right. The model always reports a syntax error for it. The handler returns the error without inspecting its kind.
- SnapshotJob.SnapshotName: cutting at byte 63 can split a multi-byte UTF-8 character of the disk name. The model works on bytes and does not check that the name is valid UTF-8.
- Redelivery, at-least-once delivery and concurrent invocations belong to the queue service, not to the handler.
