# dockdiver core in Dafny

dockdiver dumps a Docker registry. It lists the repositories through the
catalog endpoint. For each repository it takes the first tag, stores that
tag's manifest, then downloads the config blob and the layer blobs, keeping
each blob only when its SHA-256 matches the digest it was requested by. The
client can tunnel through a SOCKS5 proxy, using its own SOCKS5 handshake and
a single cached tunnel.

This project models the decision and protocol layer of that program:

- `common.dfy`: bytes, `Option`, `Result`.
- `hex.dfy` (module `Hex`): lowercase hexadecimal encoding, as
  `hex.EncodeToString` and `%x` write it, with a decoder proved to invert it.
  SHA-256 is an uninterpreted function to 32 bytes.
- `utils.dfy` (module `Utils`): the hash-derived cache filename
  `URLToFilename`.
- `socks5.dfy` (module `Socks5`): the SOCKS5 client of `main.go`.
  - The byte-exact messages of RFC 1928 (sections 3, 4 and 6) and RFC 1929
    (section 2).
  - One handshake attempt, as a function of the proxy's behaviour.
  - The bounded retry loop of `connectSOCKS5`, as a method proved equal to
    a recursive specification.
  - The cached tunnel of the transport's dial function, as a class with one
    optional connection.
- `version.dfy` (module `RegistryVersion`): the decision of
  `detectRegistryVersion`.
- `client.dfy` (module `Client`): the request policy of `MakeRequest`.
  - Header assembly by successive `Header.Set` calls, including the name
    canonicalisation `Set` applies.
  - Status classification.
  - The three-attempt retry loop, with exponential backoff and one
    rate-limiter wait per call.
  - `isConnectionClosedError`.
  - The byte counter of `ProgressReader`.
- `registry.dfy` (module `Registry`): the dump itself.
  - `ListRepositories`, `DumpRepository` and `DumpAllRepositories`.
  - `getAndStoreResponse` and `getAndStoreBlob` with their integrity gate.
  - Blob file names.
  - The order in which blobs are fetched.

Oracles:

- Network. Each request's outcome is a function parameter: `send(k)` for
  attempt k in `Client`, `Remote.fetch` per request in `Registry`, and
  `script(k)` for what the proxy does in attempt k in `Socks5`.
- JSON decoding and SHA-256 are fields of `Registry.Remote`.
- Filesystem. The outcomes of `utils.CreateDir` and `utils.StoreResponse`
  are the `createOk` and `storeOk` functions of `Registry.Disk`, whose
  `files` map the dump updates in place.
- Clock. `ProgressReader.Read` takes two clock readings as parameters: the one `time.Since` compares and the later one `time.Now` stores.

## Model

| member | source | states |
|---|---|---|
| Socks5.OfferedMethods | main.go:66-69 | "no authentication" is always offered; "username/password" is offered exactly when both proxy credentials are non-empty |
| Socks5.MethodSelection | main.go:66-70 | the greeting is exactly `05 01 00` without both credentials and `05 02 00 02` with them: version, method count, then the offered methods |
| Socks5.AuthRequest | main.go:90-95 | the sub-negotiation request starts with version 1 and is 3 + len(user) + len(pass) bytes long |
| Socks5.AuthRequestRoundTrip | main.go:90-95 | for fields of at most 255 bytes, a proxy parsing the request reads back exactly the username and password sent |
| Socks5.AuthRequestLongUserWraps | main.go:92-94 | the truncating `byte(len(user))` announces a 256-byte username as empty, so the proxy cannot read back what was meant |
| Socks5.ConnectRequest | main.go:130-133 | the CONNECT request is `05 01 00 03`, the host length, the host, then the port big-endian; its length is 7 + len(host) |
| Socks5.ConnectRequestRoundTrip | main.go:130-133 | for a host of at most 255 bytes and a port in 0..65535, a proxy reads back the same host and port |
| Socks5.Atoi | main.go:132 | the port value `strconv.Atoi` leaves once its error is dropped is always within int64 |
| Socks5.ScanDigits | main.go:132 | digits whose value fits in 64 bits scan to that value |
| Socks5.ScanOverflows | main.go:132 | once the digits read so far pass 2^64 - 1 the scan reports a range error, whatever follows |
| Socks5.ScanStopsAtNonDigit | main.go:132 | a non-digit reached before any overflow is a syntax error |
| Socks5.AtoiOfDigits | main.go:132 | a sign and digits whose value fits in 64 bits give the signed value, clamped to int64 |
| Socks5.AtoiSyntaxError | main.go:132 | no digits, or a non-digit reached before the digits ahead of it pass 2^64 - 1, give 0 |
| Socks5.AtoiRangeError | main.go:132 | leading digits past 2^64 - 1 give the int64 bound of the sign, whatever follows them, a non-digit included |
| Socks5.AtoiOfDecimal | main.go:132 | a port written in decimal is read back unchanged |
| Socks5.UnparsablePortSentAsZero | main.go:132-133 | a port string with a syntax error is sent as the two bytes `00 00` |
| Socks5.OverflowingPortSaturates | main.go:132-133 | a port whose leading digits pass 2^64 - 1 is sent as `ff ff`, or as `00 00` after a minus sign, even when a non-digit follows |
| Socks5.ReadFull | main.go:79-80 | `io.ReadFull` yields exactly n bytes, succeeds exactly when the proxy sent at least n, and consumes them in order |
| Socks5.RunAttempt | main.go:53-156 | one attempt: nothing is written when the dial fails; the greeting comes first; at most three messages are written; only an unsplittable target aborts; success ends with the CONNECT request for the target |
| Socks5.NoAuthHandshake | main.go:79-152 | when the proxy selects "no authentication", the client sends the greeting and then CONNECT; a failed CONNECT write fails the attempt, and so does a CONNECT reply shorter than 10 bytes; otherwise it succeeds exactly when REP, byte 1 of the reply, is 0x00 |
| Socks5.UserPassHandshake | main.go:89-152 | when the proxy selects username/password, the credentials are sent even if they were not offered; a failed write of the credentials or of CONNECT fails the attempt with that error; only byte 1 of the status reply is checked; a CONNECT reply shorter than 10 bytes fails the attempt, and otherwise REP decides |
| Socks5.DialOrGreetingFails | main.go:53-78 | a failed dial writes nothing and fails the attempt; a failed greeting write fails it before anything is read |
| Socks5.AbortIffInvalidTarget | main.go:79-129 | an attempt aborts exactly when the method negotiation gets through and the target cannot be split into host and port; it has then written the greeting and, with username/password, the credentials, but no CONNECT request |
| Socks5.OtherMethodRejected | main.go:115-122 | any other selected method fails the attempt after the greeting |
| Socks5.BadMethodReply | main.go:79-88 | a short method reply, or one whose first byte is not 0x05, fails the attempt after the greeting |
| Socks5.LoopBounds | main.go:49-59 | the loop makes at most `maxRetries` attempts and sleeps k seconds after failed attempt k |
| Socks5.ConnectBounds | main.go:49-158 | between 1 and `maxRetries` attempts, with sleeps 1, 2, … seconds between them; with no attempt allowed, nothing is sent and the result is the "no attempts" error |
| Socks5.LoopOkAt | main.go:49-157 | a successful loop ends at an attempt that got the tunnel up, after retryable failures only |
| Socks5.LoopReachesUp | main.go:49-157 | an attempt that gets the tunnel up after retryable failures ends the loop successfully |
| Socks5.ConnectSucceedsIff | main.go:49-157 | the handshake succeeds exactly when some allowed attempt gets the tunnel up and every earlier attempt failed in a retryable way |
| Socks5.LoopAllRetry | main.go:49-152 | when every remaining attempt fails in a retryable way, the loop runs to `maxRetries` and returns the last failure |
| Socks5.ConnectExhausted | main.go:49-152 | when every attempt fails, all `maxRetries` attempts run and the last attempt's error is returned |
| Socks5.InvalidTargetStops | main.go:49-129 | with an unsplittable target, the first attempt whose negotiation gets through ends the loop with the invalid-target error, without a further attempt or sleep |
| Socks5.ConnectSocks5 | main.go:43-159 | the attempt loop writes the same messages, sleeps the same seconds and returns the same result as the specification `Connect` |
| Socks5.TunnelSlot.constructor | main.go:260-266 | the slot holds the startup connection and nothing has been closed |
| Socks5.TunnelSlot.Dial | main.go:270-292 | a held connection whose probe write succeeds is returned, the slot is unchanged and there is no handshake; otherwise the held connection, if any, is closed and cleared, exactly one single-attempt handshake runs, and the slot then holds the new connection or stays empty on error |
| Socks5.TunnelSlot.Release | main.go:479-485 | the exit cleanup closes the held connection, if any, and empties the slot |
| Socks5.RedialIsOneAttempt | main.go:286 | a redial makes exactly one attempt, never sleeps, and succeeds exactly when that attempt gets the tunnel up |
| RegistryVersion.DetectRegistryVersion | main.go:504-513 | a non-empty `Docker-Distribution-API-Version` header is returned verbatim; otherwise status 200 or 401 gives "v2" and any other status is an error; a failed query is an error |
| Client.CanonicalKey | client/client.go:128-143 | the name `Header.Set` stores keeps its length; a name with a non-token character is kept as given |
| Client.CaseFoldAt | client/client.go:128-143 | canonical case is upper case at the start and after each '-', lower case elsewhere |
| Client.CanonicalKeyIdempotent | client/client.go:142-144 | canonicalising a stored name again changes nothing |
| Client.FixedKeysCanonical | client/client.go:128-135 | User-Agent, Accept, Connection and Authorization are stored under the names as written |
| Client.AuthHeadersContent | client/client.go:128-136 | before the custom headers: the three fixed values; Authorization is the bearer token when one is set, else basic auth when both username and password are set, else absent |
| Client.OverlayKeys | client/client.go:142-144 | the custom pairs add exactly the names they set and leave every other header unchanged |
| Client.OverlayLastWins | client/client.go:142-144 | a header named by several custom pairs holds the value of the last one set |
| Client.OverlayOrderIrrelevant | client/client.go:142-144 | two iteration orders of the same custom pairs, no two of them naming the same header, give the same headers |
| Client.CollidingNamesFollowOrder | client/client.go:142-144 | two pairs naming one header with different values give different headers in the two iteration orders |
| Client.CustomAuthorizationWins | client/client.go:131-144 | a custom Authorization header overrides both basic auth and the bearer token |
| Client.AuthorizationPrecedence | client/client.go:131-145 | without a custom Authorization header, the bearer token wins over basic auth, and basic auth needs both credentials |
| Client.FixedHeadersSent | client/client.go:128-145 | User-Agent, Accept and Connection are always present, with the client's values unless a custom header of that name replaces them |
| Client.BuildHeaders | client/client.go:128-145 | the successive `Set` calls yield the specified headers, and fail exactly when the custom-headers JSON does not decode |
| Client.ContainsIffOccurs | client/client.go:185-187 | `strings.Contains` holds exactly when the substring occurs at some index |
| Client.IsConnectionClosedError | client/client.go:181-188 | false for no error; otherwise true exactly when the message contains one of the three closed-connection phrases |
| Client.Classify | client/client.go:159-175 | only 200 succeeds; 401 with a challenge is "unauthorized" with that challenge; every other status, including 401 without a challenge, is "unexpected status"; the progress wrapper is installed exactly when Content-Length > 0 |
| Client.MakeRequest | client/client.go:116-178 | the retry loop produces the same event trace (wait, sends, sleeps) and result as the specification `MakeRequestSpec` |
| Client.AttemptsRetry | client/client.go:146-153 | a transient error before the last attempt gives a request, the backoff sleep, and then the next attempts |
| Client.AttemptsShape | client/client.go:121-157 | from attempt k on, the requests are separated by backoff sleeps; a retry follows only a transient error; the last answer gives the result |
| Client.MakeRequestShape | client/client.go:116-178 | exactly one limiter wait, first; no request when the limiter, the URL or the custom-headers JSON fails; otherwise 1 to 3 requests, each with the headers its own attempt assembled, retried only after a transient error, and the result is the last answer's; "failed after retries" is never returned |
| Client.RetriesRepeatHeaders | client/client.go:121-144 | two attempts send the same headers when their iterations visit the same custom pairs and no two of them name the same header |
| Client.BackoffSeconds | client/client.go:151-153 | the backoff is 1 s after the first attempt and 2 s after the second |
| Client.ProgressReader.constructor | client/client.go:26-33 | the counter starts at 0 with the clock mark at creation time |
| Client.ProgressReader.Read | client/client.go:35-47 | n and err pass through unchanged; `read` grows by exactly n; the clock mark moves, to the later clock reading, only when at least one second has passed since it |
| Hex.EncodeDecode | registry/registry.go:180 | decoding the lowercase hex encoding gives back the bytes |
| Hex.DecodeEncode | registry/registry.go:180 | every even-length lowercase hex string is the encoding of what it decodes to |
| Hex.DecodeDefined | registry/registry.go:180 | the decoder accepts exactly the even-length lowercase hex strings |
| Hex.EncodeInjective | registry/registry.go:180 | equal hex text means equal bytes |
| Utils.URLToFilename | utils/utils.go:30-33 | the name has 69 characters: 64 lowercase hex digits followed by ".json" |
| Utils.URLToFilenameDecodes | utils/utils.go:31-32 | the 64-digit prefix decodes to the 32 bytes of the URL's hash |
| Utils.URLToFilenameSameIffSameHash | utils/utils.go:31-32 | two URLs share a filename exactly when they share a hash, so equal URLs give equal names |
| Registry.SafeDigest | registry/registry.go:117 | every ':' becomes '_', every other character is kept, the length is unchanged, and no ':' remains |
| Registry.FileNames | registry/registry.go:112-136 | the config extension is ".json" exactly for the image-config media type, else ".bin"; the layer extension is ".tar.gz" exactly for the gzip layer media type, else ".bin"; names are the prefix, then the safe digest; no blob file is called manifest.json; a config name never equals a layer name |
| Registry.DigestCheck | registry/registry.go:179-181 | a body passes the gate exactly when the expected digest is "sha256:" followed by 64 lowercase hex digits that decode to the body's hash |
| Registry.GetAndStoreResponseSpec | registry/registry.go:148-165 | the body is returned exactly when it was fetched, read and stored, and it is stored exactly as returned; on any error nothing is written |
| Registry.GetAndStoreResponse | registry/registry.go:148-165 | the method's result and files agree with `GetAndStoreResponseSpec` |
| Registry.GetAndStoreBlobSpec | registry/registry.go:167-190 | a blob is stored exactly when it was fetched, its computed digest equals the expected one, and the store succeeds; a mismatch is reported with both digests, and nothing is written on any error |
| Registry.GetAndStoreBlob | registry/registry.go:167-190 | the method's result and files agree with `GetAndStoreBlobSpec` |
| Registry.Disk.StoreResponse | utils/utils.go:17-28 | on success the file holds the data and nothing else changes; on failure no file changes |
| Registry.LayerJobsAppend | registry/registry.go:127-143 | layer order is kept: the jobs of consecutive layer runs are consecutive |
| Registry.LayerJobsFromLayers | registry/registry.go:127-143 | every layer job comes from a layer with a non-empty digest |
| Registry.LayerJobsComplete | registry/registry.go:127-143 | every layer with a non-empty digest gets a job |
| Registry.PlanJobs | registry/registry.go:109-143 | every planned blob has a non-empty digest, requests the blob of that digest, and has a config or layer file under `<dir>/<repo>` |
| Registry.PlanConfigFirst | registry/registry.go:109-143 | the config blob is first exactly when its digest is set, and the layer jobs follow it |
| Registry.BlobStep | registry/registry.go:179-187 | one blob fetch touches at most its own file, and only with bytes of the expected digest |
| Registry.RunJobsRequests | registry/registry.go:119-143 | failures are isolated: every planned blob is requested once, in plan order, whatever happened to the ones before |
| Registry.RunJobsWrites | registry/registry.go:119-143 | only planned files are written, and every written file holds bytes whose digest is the digest of a job for that file |
| Registry.DumpRepository | registry/registry.go:62-146 | the method's requests, files and error agree with `DumpSpec` |
| Registry.DumpBlobs | registry/registry.go:109-145 | the config blob and then each layer are fetched and stored as `RunJobs` over the plan does |
| Registry.DumpTagChoice | registry/registry.go:83-88 | an empty tag list gives `NoTags(repo)` and no manifest request; otherwise the second request is the manifest of the first tag; a failed directory creation sends nothing |
| Registry.DumpErrorIffManifestFails | registry/registry.go:62-146 | the dump succeeds exactly when the manifest of the first tag is fetched, stored and parsed; blob outcomes do not matter |
| Registry.ManifestStoredVerbatim | registry/registry.go:89-107 | once stored, the manifest file holds the fetched body, whether or not it parses and whatever happens to the blobs |
| Registry.DumpRequestsFollowPlan | registry/registry.go:87-143 | after a parsed manifest, the requests are the tags, the manifest, then every planned blob in plan order |
| Registry.DumpWritesOwnDirectory | registry/registry.go:89-136 | a dump adds or changes files only under `<dir>/<repo>` and removes none |
| Registry.ListRepositories | registry/registry.go:19-35 | one catalog request; the decoded list is returned unchanged, an empty one included; a request error is returned as is |
| Registry.DumpAllRepositories | registry/registry.go:37-60 | the method's requests, files and error agree with `DumpAllSpec` |
| Registry.DumpAllErrorIsListingError | registry/registry.go:37-60 | the catalog is requested first; the only error is the listing error, unchanged, and then nothing else is requested or written |
| Registry.DumpEachReachesEveryRepo | registry/registry.go:46-56 | every listed repository's tag list is requested, whatever happened to the repositories before it |

## Left out

- Sockets, TLS, `net.Dialer`, and the `http.Transport` and `http.Client` configuration and redirects are left out. What a request or an attempt yields is a parameter.
- Concurrency is left out: the goroutines, semaphore and `WaitGroup` of `DumpAllRepositories`, and the mutexes of `socks5ConnManager` and `utils.StoreResponse`. Repositories are dumped one after another in listing order. The real program interleaves up to five dumps.
- The read deadlines and the closing of a failed attempt's connection in `connectSOCKS5` are not modelled; only the bytes written and the outcome are.
- The SOCKS5 error texts are left out. Each failure is a constructor carrying the reply bytes the message would print.
- `net.SplitHostPort` is not modelled. Its verdict is `Config.target`: `None` when it rejects the address, otherwise the host and port strings.
- The internals of the rate limiter are left out. `MakeRequest` takes whether its single wait succeeds.
- `http.NewRequest` is left out; `MakeRequest` takes whether it accepts the URL.
- `SetBasicAuth`'s base64 value is kept symbolic as `BasicAuth(user, pass)`.
- The iteration order of Go's map over the custom headers is random and may differ from one attempt to the next. The model takes each attempt's order as a parameter: a sequence of pairs per attempt number. Every attempt decodes the same JSON into the same map, so these sequences are meant to be orderings of one set of pairs. The model does not enforce this; `Client.RetriesRepeatHeaders` takes it as a precondition.
- Client.CanonicalKey: states only length preservation and that a name with a non-token character is kept. The pointwise casing is stated separately by `Client.CaseFoldAt`, and for the four fixed names by `Client.FixedKeysCanonical`.
- JSON decoding of the custom headers, catalog, tags and manifest is an oracle. SHA-256 is an uninterpreted function to 32 bytes.
- A request's outcome in `Registry` depends only on the request: a `MakeRequest` call and then a read of its body. The manifest and blob bodies are read whole with `io.ReadAll`. The catalog and tag lists are decoded straight from the stream with `json.NewDecoder(...).Decode`; the JSON oracle stands for that streaming decoder, which stops after the first JSON value and ignores what follows. The retries inside that call are modelled in `Client`, not repeated per registry request.
- Directory creation and writing a file are each one success flag. A partial write that fails is not modelled.
- `filepath.Join` and `filepath.Clean` are not modelled: a file is a `Path(dir, repo, name)` record. Joining is therefore lexical. Records that name the same file are kept apart, such as `Path(d, "a/b", n)` and `Path(d + "/a", "b", n)`. A catalog name containing `..` escapes the output directory on disk but not in the model. So `Registry.DumpWritesOwnDirectory` is about `Path` records, not about locations on disk.
- `strconv.Atoi` is modelled as `strconv.ParseInt` behaves in base 10 on a 64-bit platform, checking digit by digit so that an overflow before a non-digit is a range error, where `int` has 64 bits. The Go standard library's source is not part of this model.
- Client.ProgressReader.Read: the `int64` counter is an unbounded `int`, so overflow past 2^63 - 1 bytes is not modelled. The floating-point percentage and the progress line are left out; only the clock mark that throttles the line is kept.
- The `time.Sleep` calls are recorded as durations in seconds, not executed.
- Coloured output, printing, flag parsing and exit handling in `main` are left out.
- `validateAndNormalizeURL`, `testURL` and the user-agent choice are left out. They are network probes and a random pick from a list.
- The request URL and headers of `detectRegistryVersion` are left out. Only its decision on the reply is modelled.
