# Xplat-AI: a Dafny model of the llama.cpp supervisor's decisions

Xplat-AI (`xplatai.go`) runs a local llama.cpp server for a Go program. It picks the
release archive for the host platform, starts `llama-server` with a model and a port,
waits for the server to answer its health endpoint, and sends chat and completion
requests to it. This project models the deterministic part of that code. Process,
network, filesystem and clock facts are passed in as parameters.

- `release.dfy` (module `Release`) models `getDownloadUrl` and the `osNames`/`archNames`/`hwNames` tables.
  - The runtime OS and architecture names are inputs.
  - The per-OS accelerator policy is `ResolveHardware`.
  - The URL is composed by `ReleaseName`.
  - `ParseReleaseName` reads the resolved host back out of a URL. The round trip proves that the URL names the resolved host exactly, and that distinct hosts get distinct URLs.
- `request.dfy` (module `Request`) models the request shaping:
  - the `maxTokens` default of 150;
  - the fixed `stop` list `["<|"]`;
  - the chat payload (`messages`, `max_tokens`, `stop`) and the completion payload (`prompt`, `n_predict`, `stop`).
- `server.dfy` (module `Server`) models the decisions `New` makes before it starts the process: the default model, the missing-binary error, and the argument vector.
- `response.dfy` (module `Response`) models the handling of a reply body:
  - a non-empty body that does not start with `{` is returned verbatim as the error;
  - otherwise the body goes to the JSON decoder;
  - then the fixed chain of shape checks runs, each with its own message: `choices[0].message.content` for chat, `content` for completion;
  - the result is the trimmed content.
- `text.dfy` (module `Text`) models `strings.TrimSpace` over Go's `unicode.IsSpace` set. It is characterised by lemmas: any whitespace padding around an unpadded text trims back to that text, and trimming is idempotent.
- `json.dfy` (module `Json`) is the decoded JSON tree: object, array, string, number, other.
- `client.dfy` (module `Client`) holds the class `XpltAI` with its `isConn` flag.
  - `AwaitServer` is the ten-probe readiness loop. `Connect` is the guard around it that `Chat` and `Complete` both open with.
  - `WaitUntilLoaded` is the deadline loop.
  - `Chat` and `Complete` are the request rounds. Their contracts say when the request is sent at all, what payload is sent, what is returned, and that `isConn` becomes true exactly on a successful extraction and never goes back.
- `wrappers.dfy` (module `Wrappers`) holds `Option` and `Result`. A Go `error` is its message.

The environment is made of parameters:
- `probe(url, i)`: the outcome of the i-th `HEAD` request to `url`, a transport error or a status code. It is always asked about `http://127.0.0.1:<port>/health`.
- `delay`: the nanoseconds spent outside the one-second sleeps of `WaitUntilLoaded`. These are the clock.
- `exchange(url, payload)`: the body the server answers, or the transport error.
- `decode`: `json.Unmarshal` into a `map[string]any`, which may fail.

## Model

| member | source | states |
|---|---|---|
| `Release.OsName` | xplatai.go:31-35 | osNames: Windows is "win", macOS is "macos", Ubuntu is "ubuntu", and each name belongs to that OS only |
| `Release.ArchName` | xplatai.go:44-47 | archNames: x64 is "x64", ARM is "arm64", and each name belongs to that architecture only |
| `Release.HwName` | xplatai.go:59-65 | hwNames: HW_CPU is "cpu", HW_CUDA "cuda-12.4", HW_VULKAN "vulkan", HW_RADEON "hip-radeon", and only HW_NONE has the empty name |
| `Release.HostOsOf` | xplatai.go:328-337 | only "windows", "darwin" and "linux" are recognised operating systems, and they map to Windows, macOS and Ubuntu respectively |
| `Release.HostArchOf` | xplatai.go:339-346 | only "amd64" and "arm64" are recognised architectures, and they map to x64 and ARM respectively |
| `Release.ResolveHardware` | xplatai.go:348-363 | Windows resolves HW_NONE to HW_CPU and keeps any other request; macOS always resolves to HW_NONE; Linux resolves to Vulkan exactly when Vulkan was requested, and to HW_NONE otherwise |
| `Release.ResolveHost` | xplatai.go:325-363 | an unsupported OS is reported before the architecture is looked at; success exactly for supported pairs, with the OS, arch and policy-resolved hardware |
| `Release.DownloadUrl` | xplatai.go:325-375 | unsupported OS gives "unsupported operating system"; supported OS with unsupported arch gives "unsupported cpu architecture"; a URL exactly for supported pairs; every URL starts with the release stem and parses back to the resolved host |
| `Release.ReleaseName` | xplatai.go:365-373 | the URL of a host starts with the release stem and parses back to exactly that host |
| `Release.ParseReleaseNameExact` | xplatai.go:365-373 | the parser accepts only release URLs: a string that parses to a host is that host's release URL, character for character |
| `Release.ParseReleaseNameInverts` | xplatai.go:365-373 | the URL `<base><ver>/llama-<ver>-bin-<os>-[<hw>-]<arch>.zip` determines the host it was built from, and the hardware segment is present exactly when the hardware is not HW_NONE |
| `Release.ReleaseNameInjective` | xplatai.go:365-373 | two hosts have the same release URL if and only if they are the same host |
| `Release.WindowsAlwaysNamesHardware` | xplatai.go:349-354 | a Windows URL always carries a hardware segment: HW_CPU for HW_NONE, the requested accelerator otherwise |
| `Release.MacIgnoresHardware` | xplatai.go:355-356 | on macOS the URL does not depend on the requested hardware |
| `Release.LinuxOnlyVulkanCounts` | xplatai.go:357-362 | on Linux a request yields the HW_NONE URL if and only if it is not Vulkan |
| `Release.DownloadUrlDeterminesHost` | xplatai.go:325-375 | two successful resolutions give equal URLs if and only if they resolve to the same host |
| `Request.EffectiveMaxTokens` | xplatai.go:141-143 | the token limit is always positive: a positive maxTokens is kept, and any other becomes 150 |
| `Request.DecodeMessagesInverts` | xplatai.go:160-161 | the JSON form of the message list reads back as the same messages in the same order |
| `Request.ChatPayload` | xplatai.go:160-166 | the chat body has exactly the keys messages, max_tokens and stop; max_tokens is the defaulted limit; stop is ["<\|"]; messages decodes back to the caller's messages |
| `Request.CompletionPayload` | xplatai.go:249-255 | the completion body has exactly the keys prompt, n_predict and stop; the prompt is unchanged; n_predict is the defaulted limit; stop is ["<\|"] |
| `Request.ChatPayloadDeterminedByLimit` | xplatai.go:140-166 | two chat calls send the same body if and only if their messages and defaulted limits agree |
| `Server.ModelName` | xplatai.go:81-83 | the model name is never empty: an empty name becomes the default model, and any other is kept |
| `Server.ServerArgs` | xplatai.go:101-106 | llama-server is started with exactly -hf, the model, --port, the port, --threads, 6 |
| `Server.Launch` | xplatai.go:90-106 | a working-directory error is returned as is; a missing binary gives the "run DownloadRequirements" error; otherwise the server arguments |
| `Response.DecodeBody` | xplatai.go:189-199 | a non-empty body not starting with `{` is the error verbatim; any other body, including the empty one, goes to the decoder |
| `Response.ChatContent` | xplatai.go:201-226 | every failure is one of the five parsing messages; a success has no whitespace at either end |
| `Response.ChatContentErrors` | xplatai.go:201-223 | each chat parsing message is returned if and only if its check is the first one the document fails: choices missing or not a list, choices empty, first choice not an object, message missing or not an object, content missing or not a string |
| `Response.ChatContentOfReply` | xplatai.go:201-226 | a reply whose first choice has a message with string content yields that content trimmed, whatever other fields or later choices it has |
| `Response.CompletionContent` | xplatai.go:290-296 | completion fails, with the missing-content message, if and only if content is missing or not a string; a success is trimmed |
| `Response.CompletionContentOfReply` | xplatai.go:290-296 | a reply with string content yields that content trimmed, whatever other fields it has |
| `Response.ChatOutcome` | xplatai.go:179-226 | transport errors, plain-text bodies (verbatim) and decoder errors are returned as errors; once the body decodes, the result is the chat extraction of it, its parsing errors included |
| `Response.CompletionOutcome` | xplatai.go:268-296 | transport errors, plain-text bodies (verbatim) and decoder errors are returned as errors; once the body decodes, the result is the completion extraction of it, its missing-content error included |
| `Response.PlainTextIsVerbatimError` | xplatai.go:189-192 | a plain-text body is the error message of both Chat and Complete, whatever the decoder would have done |
| `Response.HiThereExample` | xplatai.go:220-226 | the reply with content "  hi there  " yields "hi there" |
| `Text.TrimLeft` | xplatai.go:226 | drops a prefix made only of whitespace and leaves no leading whitespace |
| `Text.TrimRight` | xplatai.go:226 | drops a suffix made only of whitespace and leaves no trailing whitespace |
| `Text.TrimSpace` | xplatai.go:226 | the returned content has no whitespace at either end and is no longer than the input |
| `Text.TrimSpacePadded` | xplatai.go:226 | any whitespace around a text with no whitespace at its ends is removed, and nothing else |
| `Text.TrimSpaceIdempotent` | xplatai.go:296 | trimming the returned content again changes nothing |
| `Client.Ready` | xplatai.go:132 | a probe counts as ready if and only if it got a response (no transport error) whose status code is below 500 |
| `Client.Milliseconds` | xplatai.go:124 | Duration.Milliseconds truncates toward zero for positive and negative durations alike, so it is at most zero exactly for durations under one millisecond |
| `Client.EffectiveTimeout` | xplatai.go:124-126 | a timeout under one millisecond becomes 99 minutes; any other is kept |
| `Client.Now` | xplatai.go:128-136 | the k-th deadline check happens at least k seconds after the deadline was set, since every probe is followed by a one-second sleep |
| `Client.SleepBeforeClosedForm` | xplatai.go:147-148 | sleeping i seconds before probe i adds up to n(n-1)/2 seconds before probe n |
| `Client.SleepBeforeBound` | xplatai.go:147-148 | the readiness loop sleeps at most 45 seconds in all |
| `Client.XpltAI.constructor` | xplatai.go:85-88 | a new handle keeps its port and is not connected |
| `Client.XpltAI.AwaitServer` | xplatai.go:145-157 | probes one to ten times, stopping at the first probe with no error and status below 500; succeeds if and only if one of the first ten probes is ready; sleeps 0+1+…+(n-1) ≤ 45 seconds; giving up means exactly ten unready probes and 45 seconds of sleep |
| `Client.XpltAI.Connect` | xplatai.go:145-158 | makes no probe once connected; otherwise it runs the readiness loop and is ready exactly when one of the ten health probes is ready, the last probe made being that first ready one; sleeps SleepBefore(probes) ≤ 45 seconds; when not ready it made exactly ten probes and slept 45 seconds |
| `Client.XpltAI.WaitUntilLoaded` | xplatai.go:123-138 | succeeds at the first ready probe; fails with "time out" once a check finds the deadline passed; every probe is made before the deadline; at most timeout/1s + 1 probes, 5940 for the default; at least one probe when the first check is in time |
| `Client.XpltAI.Chat` | xplatai.go:140-227 | no probe when connected; otherwise probes that were all unready except the last, with i seconds of sleep before probe i; it gives up with "timed out while waiting for llama.cpp", sending nothing, exactly when none of the ten probes is ready, after exactly ten probes and 45 seconds of sleep, and otherwise sends only right after the first ready probe; the chat payload is posted to /v1/chat/completions; the result is ChatOutcome of the reply; isConn becomes true exactly on success and is never reset |
| `Client.XpltAI.Complete` | xplatai.go:229-297 | the same readiness rules as Chat: no probe when connected, sleep SleepBefore(probes), nothing sent and "timed out while waiting for llama.cpp" exactly when no probe is ready, after exactly ten probes and 45 seconds of sleep, otherwise sent only right after the first ready probe; the completion payload is posted to /completion; the result is CompletionOutcome of the reply; isConn becomes true exactly on success and is never reset |

## Left out

- Process handling is not modelled: `exec.Command`, `Start`, `SysProcAttr`, `Close`/`Process.Kill`, and `PreFetchModel`. These are subprocess I/O.
- `Server.Launch` takes the result of `os.Getwd` as an input, and as a boolean whether `os.Open` of `llamacpp/llama-server.exe` succeeds: that is `isPathExist`'s result, with its error ignored (xplatai.go:96, 299-307). So a permission error counts as missing, and a directory of that name counts as present. The `path.Join` that builds the path is not modelled.
- `DownloadRequirements`, `isPathExist`, `isLlamCppServerExist` and `IsRequDownloaded` are not modelled. They are network download, directory removal and creation, and zip extraction.
- HTTP is not modelled. `client.Head`, `http.NewRequest`, `client.Do` and `io.ReadAll` are the `probe` and `exchange` parameters. A `NewRequest` or `ReadAll` failure is one of the transport errors `exchange` may return.
- `json.Marshal` is not modelled. The payloads are JSON trees, and encoding maps of strings and integers cannot fail in Go. `json.Unmarshal` is the `decode` parameter.
- Wall-clock time and `time.Sleep` are not modelled. Time is the `delay` parameter in nanoseconds. The readiness loop reports the seconds it would sleep in `slept`.
- `Release.HostHardware`: Go's `HostHardware` is a plain `int`. A value outside the five constants would be kept on Windows. The `hwNames` miss would then give an empty segment, as in `win--x64.zip`. The model has only the five constants.
- Durations are unbounded integers. The `int64` range of `time.Duration` and a deadline beyond the clock's range are not modelled.
- Reply bodies are strings of characters, not bytes. The first-byte check is the same because `{` is ASCII. A body with invalid UTF-8 cannot be represented. In Go such a body becomes the verbatim error `string(body)` at xplatai.go:191, with its raw bytes; that error is not modelled. Inside JSON strings, `json.Unmarshal` replaces invalid UTF-8 with U+FFFD; that happens inside `decode`, so the extracted content is always representable.
- Request.ChatPayload: the messages are a non-nil slice of non-nil maps. Dafny sequences and maps have no nil. In Go, `json.Marshal` encodes a nil `messages` slice, or a nil message map inside it, as `null` rather than as an array or object.
- Every probe and every exchange is modelled as answering: `probe` and `exchange` always return, and `delay` gives each probe a finite duration. The source's `http.Client{}` (xplatai.go:87) has no timeout. A server that accepts the connection and never answers blocks `client.Head` (xplatai.go:131, 149, 238) or `client.Do` (xplatai.go:179, 268) forever. Then `WaitUntilLoaded`, `Chat` and `Complete` never return. The model's termination proofs do not cover that case.
- Concurrent `Chat`/`Complete` calls on one handle are not modelled. Each call is atomic here.
