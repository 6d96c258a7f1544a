# Upstream remote discovery from a git configuration

A Dafny model of the remote-selection policy in `pkg/gitclient/gitconfig/gitconfig.go`.
`DiscoverUpstreamGitURL` loads a git configuration file and returns the URL of the
repository's upstream. It tries the remotes "origin" and "upstream" in an order set by the
`preferUpstream` flag and returns the first non-empty first URL. It returns "" with no error
when nothing is found, and "" with an error when the file cannot be loaded.

Files:

- `wrappers.dfy`: module `Wrappers`, with `Option` (nil pointers and nil maps) and `Result`
  (Go's `(value, error)` pairs).
- `gitconfig.dfy`: module `GitConfig`, with the data model, the operations and the lemmas.

The data model:

- `RemoteConfig` is a `[remote "<name>"]` section: its name and its URL list.
- `Config` is the parsed configuration, reduced to its remotes map, which may be nil. Each
  entry of the map may be nil too.
- `ConfigError` records which failure happened: an empty path, a failed read, a failed parse,
  and the wrapping the resolver adds around each of them.

Reading the file and parsing it are done by collaborators the model cannot see. They are
parameters of `ParseGitConfig` and `DiscoverUpstreamGitURL`: `readFile` returns the file's
bytes or `None`, and `unmarshal` returns a `Config` or `None`.

`DiscoverUpstreamGitURL` is a method that keeps the source's own shape. It reassigns the
candidate list when upstream is preferred and loops over it with an early return. The loop
invariant says that every candidate tried so far yielded "". The method's contract ties its
result to `SelectUrl`, the reference definition of the policy. `SelectUrl` has no "zero
remotes" shortcut, and `NoRemotesSelectNothing` proves that the source's shortcut gives the
same answer. The lemmas then state the policy's outcomes about `SelectUrl`: the order for each
flag value, the fall-through, which URLs can be returned, and which remotes cannot change the
result.

The method's `ensures` fix both of its results as functions of its inputs. So two calls with
the same inputs (the same path, the same file contents, the same flag) return the same result.

## Model

| member | source | states |
|---|---|---|
| `GitConfig.FirstRemoteUrl` | pkg/gitclient/gitconfig/gitconfig.go:41-49 | The result is `urls[0]` when the remote is present and its list is non-empty. A non-empty result comes only from a present remote's first URL, so a nil remote or an empty list gives "". |
| `GitConfig.GetRemoteUrl` | pkg/gitclient/gitconfig/gitconfig.go:34-39 | The result is the first URL declared for `name` when there is one, else "". It is "" when the remotes map is nil and when the name is missing from the map. |
| `GitConfig.Candidates` | pkg/gitclient/gitconfig/gitconfig.go:20-23 | The candidate list holds exactly "origin" and "upstream", once each. "upstream" comes first exactly when `preferUpstream` is set. |
| `GitConfig.FirstNonEmptyUrl` | pkg/gitclient/gitconfig/gitconfig.go:24-30 | The result is "" exactly when every name in the list yields "". Otherwise it is the URL of some name in the list, and every name before that one yields "". |
| `GitConfig.SelectUrl` | pkg/gitclient/gitconfig/gitconfig.go:20-30 | On success the result is "", origin's first URL or upstream's first URL, and never another remote's URL. |
| `GitConfig.ParseGitConfig` | pkg/gitclient/gitconfig/gitconfig.go:51-66 | An empty path always fails with `NoGitConfDir`. Loading succeeds exactly when the path is non-empty, the read succeeds and the parse succeeds, and it then yields the parsed config. Every other error names the path, and it is a read error exactly when the read failed. |
| `GitConfig.DiscoverUpstreamGitURL` | pkg/gitclient/gitconfig/gitconfig.go:11-31 | An error is returned exactly when loading fails. It then comes with "" and wraps the load error with the path. An empty path always gives an error and "". Without an error, the URL equals `SelectUrl` of the parsed config and the flag. |
| `GitConfig.NoRemotesSelectNothing` | pkg/gitclient/gitconfig/gitconfig.go:16-18 | With zero remotes (a nil or empty map) the policy selects "" for both flag values. So the early `return "", nil` agrees with the search. |
| `GitConfig.PreferOriginOutcome` | pkg/gitclient/gitconfig/gitconfig.go:20-30 | With `preferUpstream = false`, a non-empty first URL of origin is the result. Otherwise the result is upstream's first URL, or "" when upstream has none. |
| `GitConfig.PreferUpstreamOutcome` | pkg/gitclient/gitconfig/gitconfig.go:21-30 | With `preferUpstream = true`, a non-empty first URL of upstream is the result. Otherwise the result is origin's first URL, or "" when origin has none. |
| `GitConfig.FlagMattersOnlyWhenBothSet` | pkg/gitclient/gitconfig/gitconfig.go:20-30 | The two flag values give different results exactly when both candidates have non-empty, distinct first URLs. Then `false` gives origin's URL and `true` gives upstream's. |
| `GitConfig.SelectedUrlIsDeclared` | pkg/gitclient/gitconfig/gitconfig.go:24-30 | A non-empty result is the first declared URL of "origin" or of "upstream". |
| `GitConfig.EmptyCandidateDropped` | pkg/gitclient/gitconfig/gitconfig.go:24-29 | In any candidate list, a name that yields "" can be removed without changing the result. The search skips it and continues with the next name. |
| `GitConfig.UnusableRemoteIsAbsent` | pkg/gitclient/gitconfig/gitconfig.go:41-48 | A remote that is nil, has no URLs, or has "" as its first URL can be removed from the map without changing the result, for either flag. |
| `GitConfig.OtherRemotesIgnored` | pkg/gitclient/gitconfig/gitconfig.go:24-30 | Adding, replacing or removing a remote not named "origin" or "upstream" never changes the result. |
| `GitConfig.SameCandidateUrlsSameSelection` | pkg/gitclient/gitconfig/gitconfig.go:24-30 | Two configs whose "origin" and "upstream" yield the same URLs select the same URL. |

## Left out

- Reading the file (`ioutil.ReadFile`, line 56) is file-system I/O. It is the parameter `readFile`, and its only visible effect is success with the bytes or failure.
- The go-git parser (`gitcfg.NewConfig` and `cfg.Unmarshal`, lines 55 and 61) is outside this model. It is the parameter `unmarshal`, a function from bytes to a config or to failure. The other fields of the go-git config are not modelled, because the resolver reads only `Remotes`.
- The error message texts (lines 14, 53, 58 and 63) are not modelled. The kind of each error and the path it names are kept, as is the wrapping added by line 14.
- The `Fetch` refspecs and other fields of a remote section are not modelled, because the resolver reads only the URL list.
