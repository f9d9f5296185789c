# remco resource worker, include merge and secret helpers, in Dafny

remco is a configuration-rendering agent. Each declared resource pairs
template definitions with a group of backend configs (etcd, consul, vault, …).
For every resource, `run` starts a goroutine that connects to the backends,
retrying on failure. It then builds a monitorable template resource from the
connected clients and monitors it until the shared context is cancelled. The
client list must be closed exactly once however the goroutine returns.

This project models three pieces of sequential logic from that program:

- `Worker` (worker.dfy): the body of the per-resource goroutine in `run`, as
  a state machine driven by a script of attempts. At the top of each pass
  through the retry loop, an attempt is either "the context is seen
  cancelled" or "`Connect()` returned `Ok(client)`, `ErrNilConfig` or
  `Err(e)`". The outcome of `template.NewResource`, and for a built resource whether
  its `Monitor` returns, is one more input. The state
  counts `backendList.Close()` calls, so "closed exactly once on every exit
  path" is a postcondition. The functions `Resolutions`, `Failures` and
  `Clients` read a script without the state machine. The lemmas show that the
  machine agrees with that reading for every script.
- `Configuration` (configuration.dfy): the include-directory merge of
  `newConfiguration`. It is a pure function of the primary resource list, the
  include directory name and the directory listing. Each entry of the listing
  carries its name, the outcome of reading the file and the outcome of decoding
  it. `Kept` and `Fails` are the matching reference reading of a listing.
- `TemplateUtil` (template_util.dfy): `appendPrefix`, and the error plumbing
  of `decrypt`. `path.Join` and the three decrypt stages are function-typed
  parameters.

`Results` (results.dfy) holds the `Option` and `Result` types the others share.

Details of the code that the model keeps:

- The 2-second retry delay is a plain `time.Sleep` (config.go:143), and the
  context is looked at only at the top of each attempt (config.go:130-131).
  A cancellation during the sleep is seen at the next attempt. A cancellation
  that comes after the last backend config has been resolved is not seen by
  the connect loop: `NewResource` is still called, and the cancellation
  reaches the goroutine only through the context handed to `Monitor`
  (`Worker.RunCompletes`).
- `Monitor(ctx)` (config.go:161) blocks until the context is cancelled or it
  fails internally. The deferred `Close` fires only when it returns. The
  outcome of `NewResource` therefore says, for a built resource, whether
  `Monitor` returns within the observed run; while it is blocked the list
  stays open.
- `decrypt` has no separate base64 decode stage: the decoder is lazy
  (template/util.go:23), so a bad encoding is reported by whichever stage
  reads through it.
- `decrypt` reads `md.UnverifiedBody` and never checks `md.SignatureError`
  (template/util.go:28), so the model carries no notion of signature checking.
- On an include-directory error, `newConfiguration` still returns the
  configuration value, whose resource list already holds the resources
  appended before the failing file (config.go:81, 85). `Configuration.Aborted`
  keeps that list together with the error.

## Model

| member | source | states |
|---|---|---|
| `Worker.ConnectStep` | config.go:129-148 | A cancellation closes the list once and leaves the loop. `Ok` appends exactly that client at the end of the list and moves on to the next config. `ErrNilConfig` appends nothing and moves on. Any other error appends nothing, counts one retry and stays on the same config. The list only ever grows at its end. |
| `Worker.BuildStep` | config.go:153-161 | Registers the deferred close and calls `NewResource`. A build error ends the goroutine, with the list closed once by the defer. A successful build enters `Monitor` with the list still open. |
| `Worker.WatchStep` | config.go:161-162 | When `Monitor` returns, the goroutine ends and the deferred close closes the list; it was open until then, so this is its only close. |
| `Worker.Drive` | config.go:127-161 | Running from any reachable state keeps the state reachable. The run stops only inside the connect loop, inside a `Monitor` that does not return, or at a return. It stops inside the connect loop only when it started there and the whole script was free of cancellations; it is then where `Resolutions`, `Clients` and `Failures` of the script say it is. The client list is never shortened. |
| `Worker.Run` | config.go:121-162 | Every return has closed the list exactly once. While connecting, or while `Monitor` is blocked, nothing has been closed; in `Monitor` the defer is armed. The cancellation return registers no defer and calls neither `NewResource` nor `Monitor`. Every other return went through the defer and `NewResource`. `Monitor` runs only after a successful `NewResource`. A build error is the exit that is reported. |
| `Worker.ConsumePrefix` | config.go:127-137 | After any cancel-free run of attempts that has not resolved the last config, the goroutine is on config number `Resolutions(p)`. It holds exactly the `Ok` clients in attempt order, and has counted one retry per non-sentinel error. So configs are handled in declaration order, and each is tried only after the previous one is resolved. |
| `Worker.RetryThenConnect` | config.go:135-147 | A config that fails K times with non-sentinel errors and then connects gives exactly K retries and one appended client, then moves on to the next config. |
| `Worker.SkipNilConfig` | config.go:136-147 | The not-configured sentinel causes no retry and appends no client. The goroutine moves straight on to the next config. |
| `Worker.RunCancelled` | config.go:130-133 | A cancellation seen before an attempt, while configs remain, ends the goroutine. The clients connected so far are closed exactly once, no defer is registered, and neither `NewResource` nor `Monitor` is called. |
| `Worker.RunPending` | config.go:127-149 | If the script ends without a cancellation before the last config is resolved, the goroutine is still connecting. It holds the clients connected so far and has closed nothing. |
| `Worker.RunCompletes` | config.go:127-161 | Once every config is resolved, `NewResource` is called with exactly the connected clients. `Monitor` runs only if the build succeeded. The list is closed exactly once, by the defer, when the build fails or `Monitor` returns, and stays open while `Monitor` is blocked. Later script entries, cancellations included, are not consumed by the connect loop. |
| `Worker.DriveFromBuilding` | config.go:153-161 | After the connect loop, the outcome depends only on the `NewResource` result: a build error, a `Monitor` that returns, or a `Monitor` still blocked. The first two close the list once; the last leaves it open. |
| `Configuration.MergeEntries` | config.go:73-92 | The resources collected before the listing stay in front, unchanged. Every resource appended from the listing has at least one template. |
| `Configuration.MergeIncludes` | config.go:68-93 | With no include directory, the primary resources are the result. A listing error aborts loading with that error. In every case the primary resources stay in front, unchanged, and only resources with templates are added after them. |
| `Configuration.OnlyTomlEntriesMatter` | config.go:73-74 | Entries whose name does not end in ".toml" are never read or decoded. Removing them changes neither the result nor the error. |
| `Configuration.TomlOnlyDistributes` | config.go:73-74 | The `.toml` filter of a concatenated listing is the concatenation of the filtered parts, so the filter keeps order and multiplicity. |
| `Configuration.MergeSucceeds` | config.go:83-90 | With no failing entry, loading succeeds. The result is the primary resources followed by every readable, decodable `.toml` resource that has templates, in listing order. Resources with zero templates are dropped. |
| `Configuration.MergeAbortsAtFirstFailure` | config.go:79-86 | The first `.toml` entry that cannot be read or decoded aborts loading with its own error. A read error comes before a decode error. The resources kept from earlier entries stay appended. |
| `Configuration.MergeAbortsIffSomeFailure` | config.go:73-86 | Loading a listed directory aborts if and only if some `.toml` entry cannot be read or decoded. |
| `TemplateUtil.AppendPrefix` | template/util.go:13-19 | The result has one element per key. Element i is the join of the prefix with key i, so order and duplicates are kept. |
| `TemplateUtil.AppendPrefixConcat` | template/util.go:13-19 | Prefixing a concatenation of key lists gives the concatenation of the prefixed lists. |
| `TemplateUtil.AppendPrefixKeepsDuplicates` | template/util.go:15-17 | Equal keys at different positions give equal results. Nothing is de-duplicated. |
| `TemplateUtil.Decrypt` | template/util.go:21-38 | A failure in opening the message, opening the gzip reader or reading the body returns the input unchanged, with that stage's error. Later stages are not consulted. The error is absent exactly when all three stages succeed, and the text is then the decompressed body. |
| `TemplateUtil.DecryptInvertsSeal` | template/util.go:21-38 | Suppose the stages invert gzip compression and sealing to the keyring. Then decrypting a sealed plaintext returns exactly that plaintext, with no error. |
| `TemplateUtil.FailedStageEndsPipeline` | template/util.go:24-31 | A failing stage ends the pipeline: when the message cannot be opened, the gzip and read stages do not affect the result, and when the gzip reader cannot be opened, the read stage does not. |

## Left out

- The supervisor part of `run` (config.go:113-119, 165-180) is not modelled: the
  shared context, the `WaitGroup`, the done channel and the select between
  stop and done. It is goroutine joining and channel signalling, with no
  sequential logic of its own. One worker's run is a function of its own
  script alone, so workers cannot affect one another in the model.
- `time.Sleep(2 * time.Second)` (config.go:143) is not modelled: a retry is one step with no duration.
- The log lines on a connect error and on a build error (config.go:139-141, 157)
  and on loading an included file (config.go:76-78) are not modelled: they
  only write to the logger.
- The path of an included file, `filepath.Join(c.IncludeDir, file.Name())`
  (config.go:75), is not modelled: it only names the file to read, and the
  outcome of reading it is an input of each directory entry.
- `readFileAndExpandEnv`, `os.ExpandEnv`, `ioutil.ReadFile`, `ioutil.ReadDir`
  and `toml.Unmarshal` are not modelled (config.go:41-64, 69, 79, 84). They
  are I/O or a foreign parser, and their outcomes are inputs. `ioutil.ReadDir`
  sorts the listing by file name; the model takes the listing in whatever
  order it is given.
- `configureLogger` (config.go:100-110) is not modelled: it only sets global
  logger state.
- The internals of OpenPGP, gzip and base64, the meaning of `path.Join`, the
  backend `Connect` implementations, `template.NewResource` and
  `Monitor` are not modelled. They are library code outside this repository;
  their results are parameters or inputs. `gzReader.Close()`
  (template/util.go:32) releases a reader and has no effect on the result.
- Worker.Run: only a finite prefix of the goroutine's behaviour is modelled,
  because the retry loop and `Monitor` are unbounded. A script that ends
  inside the connect loop leaves the goroutine still connecting, and a
  `Monitor` that does not return leaves it watching. Why `Monitor` returns
  (cancellation or an internal failure) is not modelled; only whether it does.
