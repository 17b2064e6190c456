# tpvbc2http core, modelled in Dafny

tpvbc2http mirrors the JSON broadcast files that TrainingPeaks Virtual writes
into a directory and serves them over HTTP. This project models its core:

- the watcher step of `Instance::start_cache` (src/server.rs): for each
  filesystem event of the "access" kind, each path is read, and a successful
  read replaces the focus cache or the nearest cache, chosen by the file name
  (`focus.json`, `nearest.json`). Paths are sequences of components, so the
  name test compares the whole last component, as Rust's `Path::ends_with`
  does. The outcomes of the reads are inputs. The watcher is stated as pure
  functions in `watch.dfy` (module `Watch`): `StorePath` handles one path,
  `StorePaths` one event, `ReceiveAll` a run of channel messages. The class
  `Server.Instance` in `server.dfy` holds the two caches as fields, and its
  methods `ApplyEvent` and `Run` update them in place with the source's loops.
  Each method is proved equal to the matching function.
- the request handler installed in `Instance::start` (src/server.rs), as the
  pure function `Router.Route` in `router.dfy`. It takes the method, the URI
  path and the two caches, and returns the status override, the added headers
  and the body. `Server.Instance.Handle` applies it to the instance's caches
  and modifies nothing.
- the configuration record `config::Server` (src/config.rs), as the class
  `Config.Server` in `config.dfy`. It has three string fields, a constructor
  with the defaults, and a getter and a setter per field. Each setter's frame
  names only its own field. Its effect is stated through `Assign` on the
  `Settings` value.

src/server.rs keeps no version counter, has no long-poll route, notifies
nobody and does not strip a byte-order mark, so the model has none of these
either. A path such as `/bcast/focus/blocking/3` is an unknown name, answered
with 404 "File not found" (`Router.BlockingPathIsFileNotFound`). The body
served for the five datasets without a cache is the same `"   []"` both caches
start with.

## Model

| member | source | states |
|---|---|---|
| `Watch.Initial` | src/server.rs:14-19 | both caches start as the placeholder `"   []"` |
| `Server.Instance.constructor` | src/server.rs:14-19 | a new instance holds exactly `"   []"` in the focus and in the nearest cache |
| `Watch.SlotOf` | src/server.rs:44-52 | a path feeds a given cache exactly when its last component is that cache's file name |
| `Watch.WholeComponentMatch` | src/server.rs:44-48 | `focus.json` as last component matches; `myfocus.json`, `focus.json.bak` and the empty path match nothing |
| `Watch.EndsWith` | src/server.rs:44-48 | reference definition of `Path::ends_with` for a one-component name: it holds exactly when the path is some path followed by that component; used by `SlotOf` and `WholeComponentMatch` |
| `Watch.StorePath` | src/server.rs:42-55 | after one path, each cache holds the read content if that read succeeded and the path feeds it, and its old value otherwise |
| `Watch.StorePaths` | src/server.rs:41-56 | reference definition of the inner loop over an event's paths: each cache ends with its old value or the content of a successful read of a path feeding it; `LastReadWins`, `UnwrittenCacheKept` and `StorePathsAppend` say which |
| `Watch.HandleEvent` | src/server.rs:39-57 | reference definition of the access test: a cache changes only for an access event, and then only to content read from a path feeding it; `ApplyEvent` is proved equal to it |
| `Watch.Receive` | src/server.rs:37-60 | reference definition of one channel message: a watch error changes nothing, and an event changes a cache only through one of its successful reads; see `IgnoredMessagesKeepCaches` |
| `Watch.ReceiveAll` | src/server.rs:36-61 | reference definition of the channel loop: after any run, each cache holds its old value or content read in one of the access events; `Run` is proved equal to it and `ReceiveAllAppend` composes runs |
| `Watch.StorePathCases` | src/server.rs:43-54 | a read of `focus.json` sets focus to exactly the content and keeps nearest (and symmetrically); a failed read or an unrecognised name keeps both |
| `Watch.IgnoredMessagesKeepCaches` | src/server.rs:37-59 | a non-access event and a watch error leave both caches unchanged |
| `Watch.LastReadWins` | src/server.rs:41-56 | when several paths of one event feed the same cache, its final value is the content of the last one read successfully |
| `Watch.UnwrittenCacheKept` | src/server.rs:41-56 | a cache that no successfully read path of the event feeds keeps its value |
| `Watch.StorePathsAppend` | src/server.rs:41-56 | paths are handled in order: handling `p1 + p2` is handling `p1`, then `p2` |
| `Watch.ReceiveAllAppend` | src/server.rs:36-61 | messages are handled in order: a longer run continues from the state a shorter run ends in |
| `Server.Instance.ApplyEvent` | src/server.rs:38-57 | the in-place loop over an event's paths leaves the caches equal to `HandleEvent` of the old caches |
| `Server.Instance.Run` | src/server.rs:36-61 | the watcher loop over a sequence of messages leaves the caches equal to `ReceiveAll` of the old caches |
| `Server.Instance.Handle` | src/server.rs:71-96 | the handler answers with `Route` on the current caches and modifies nothing |
| `Router.Route` | src/server.rs:74-95 | a response that keeps the default status carries exactly the `content-type: text/json` header; any other is a 404 with no added header |
| `Router.LiveDatasetsServeCaches` | src/server.rs:77-84 | GET `/bcast/focus` (`/bcast/nearest`) returns the focus (nearest) cache as body, as `text/json`, status not overridden |
| `Router.StaticDatasetsServePlaceholder` | src/server.rs:85-87 | GET on `entries`, `event`, `groups`, `resultsIndv` or `resultsTeam` returns `"   []"` as `text/json`, whatever the caches hold |
| `Router.UnknownDatasetIsFileNotFound` | src/server.rs:88-91 | any other name after `/bcast/` gives 404 with body `<h1>404</h1><p>File not found!<p>` |
| `Router.OutsideBcastIsPageNotFound` | src/server.rs:74-95 | a non-GET method or a path not starting with `/bcast/` gives 404 with body `<h1>404</h1><p>Page not found!<p>` |
| `Router.BlockingPathIsFileNotFound` | src/server.rs:75-91 | `/bcast/focus/blocking/3` is an unknown name: 404 "File not found" |
| `Router.ServedIffDatasetRequest` | src/server.rs:74-95 | the status is left at the default exactly when the request is GET on `/bcast/` followed by one of the seven dataset names |
| `Router.CachesReachOnlyLiveDatasets` | src/server.rs:77-91 | only the focus and nearest paths depend on the caches; every other response is the same whatever they hold |
| `Router.InitialCachesServePlaceholder` | src/server.rs:77-87 | with both caches at their initial value, all seven dataset paths serve `"   []"` |
| `Config.Server.constructor` | src/config.rs:8-16 | defaults are `0.0.0.0:8080`, `/home/stefan/shared/` and `/home/stefan/devel/tpvbc2http/http` |
| `Config.Assign` | src/config.rs:22-40 | a setting reads back as the value just assigned, and every other setting keeps its value |
| `Config.AssignIdempotent` | src/config.rs:22-40 | setting the same value twice gives the same settings as setting it once |
| `Config.AssignLastWins` | src/config.rs:22-40 | of two assignments to the same setting, only the later one remains |
| `Config.Server.GetBindAddr` | src/config.rs:18-20 | returns the current bind address and changes nothing |
| `Config.Server.SetBindAddr` | src/config.rs:22-24 | the settings become the old ones with the bind address replaced; only that field may change |
| `Config.Server.GetTpvBcastFileLoc` | src/config.rs:26-28 | returns the current broadcast file location and changes nothing |
| `Config.Server.SetTpvBcastFileLoc` | src/config.rs:30-32 | the settings become the old ones with the broadcast file location replaced; only that field may change |
| `Config.Server.GetStaticContentLoc` | src/config.rs:34-36 | returns the current static content location and changes nothing |
| `Config.Server.SetStaticContentLoc` | src/config.rs:38-40 | the settings become the old ones with the static content location replaced; only that field may change |

## Left out

- Threads, `Arc`/`Mutex` locking and the `mpsc` channel (src/server.rs:26-36): the caches are plain fields, and updates and requests are calls made one after another. Atomicity between the watcher and the handler is not modelled.
- Creating and registering the `notify` watcher, and `fs::read_to_string` (src/server.rs:21-23, 32-34): these are filesystem I/O. Events and read outcomes are inputs, paired index by index with the event's paths.
- `Server.Instance.Run`: the source's loop over the channel never ends. The model covers any finite prefix of the delivered messages.
- Paths arrive already split into components and normalised: no component other than the root holds a separator, so a single component such as `shared/focus.json` is outside the model (Rust would split it and match `focus.json`).
- The panic of `p.to_str().unwrap()` on a path that is not valid UTF-8 (src/server.rs:42): paths are sequences of component strings, so the model has no such path.
- Event kinds other than the access test: an event is reduced to whether `event.kind.is_access()` holds.
- Construction of the `simple_server` server, `listen`, the library's default status code and errors from the response builder's `?` (src/server.rs:71, 80, 97): this is HTTP transport behind a library. A status of `None` means "not overridden".
- Response bodies are strings; their conversion to UTF-8 bytes (`as_bytes().to_vec()`) is not modelled.
- The URI as received: the handler sees only `request.uri().path()`, so a query string or percent-encoding is outside the model.
- All `log::` calls: logging only.
- src/main.rs (argument parsing, current directory, logger set-up and start-up) is not part of this model.
