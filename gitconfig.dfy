/**
  Discovery of a repository's upstream URL from its git configuration file.

  The file is read and parsed by collaborators this model cannot see; they are
  passed in as functions. What is modelled is the code's own policy: the
  failure paths of loading, the "no remotes" shortcut, and the ordered search
  over the candidate remote names "origin" and "upstream".
*/
module GitConfig {
  import opened Wrappers

  newtype byte = x: int | 0 <= x < 256

  /** A `[remote "<name>"]` section: its name and its `url` values, in file order. */
  datatype RemoteConfig = RemoteConfig(name: string, urls: seq<string>)

  /**
    The parsed configuration, reduced to the part the resolver reads: the
    remotes map. The map itself may be nil (`None`), and so may each entry.
  */
  datatype Config = Config(remotes: Option<map<string, Option<RemoteConfig>>>)

  /** What went wrong while loading; the message texts are not modelled. */
  datatype ConfigError =
    | NoGitConfDir                                   // the path is empty
    | ReadFailed(path: string)                       // the file could not be read
    | UnmarshalFailed(path: string)                  // the contents did not parse
    | DiscoverFailed(path: string, cause: ConfigError) // the wrapping done by the resolver

  const Origin: string := "origin"
  const Upstream: string := "upstream"

  // ---------------------------------------------------------------------------
  // Reference views

  /**
    The URL list declared for `name`: empty when the map is nil, the name is
    not a key, or the entry is nil.
  */
  function DeclaredUrls(cfg: Config, name: string): seq<string> {
    match cfg.remotes
    case None => []
    case Some(m) => if name in m && m[name].Some? then m[name].value.urls else []
  }

  /** Go's `len` of the remotes map: a nil map has no entries. */
  function RemoteCount(remotes: Option<map<string, Option<RemoteConfig>>>): nat {
    match remotes
    case None => 0
    case Some(m) => |m|
  }

  /** Indexing a Go map: a missing key yields the zero value, a nil pointer. */
  function Lookup(m: map<string, Option<RemoteConfig>>, name: string): Option<RemoteConfig> {
    if name in m then m[name] else None
  }

  // ---------------------------------------------------------------------------
  // Looking up one remote

  /** The first URL of a remote that may be nil, or "" when there is none. */
  function FirstRemoteUrl(remote: Option<RemoteConfig>): (u: string)
    ensures remote.Some? && |remote.value.urls| > 0 ==> u == remote.value.urls[0]
    ensures u != "" ==> remote.Some? && |remote.value.urls| > 0 && u == remote.value.urls[0]
  {
    if remote.Some? then
      var urls := remote.value.urls;
      if |urls| > 0 then urls[0] else ""
    else
      ""
  }

  /** The first URL of the remote called `name`, or "" when it has none. */
  function GetRemoteUrl(config: Config, name: string): (u: string)
    ensures |DeclaredUrls(config, name)| > 0 ==> u == DeclaredUrls(config, name)[0]
    ensures |DeclaredUrls(config, name)| == 0 ==> u == ""
    ensures config.remotes.None? ==> u == ""
    ensures config.remotes.Some? && name !in config.remotes.value ==> u == ""
  {
    if config.remotes.Some? then FirstRemoteUrl(Lookup(config.remotes.value, name)) else ""
  }

  // ---------------------------------------------------------------------------
  // The selection policy

  /** The candidate names in the order they are tried. */
  function Candidates(preferUpstream: bool): (names: seq<string>)
    ensures |names| == 2 && names[0] != names[1]
    ensures {names[0], names[1]} == {Origin, Upstream}
    ensures names[0] == Upstream <==> preferUpstream
  {
    if preferUpstream then [Upstream, Origin] else [Origin, Upstream]
  }

  /**
    The URL of the first name in `names` whose remote has a non-empty first
    URL, or "" when there is no such name.
  */
  function FirstNonEmptyUrl(cfg: Config, names: seq<string>): (u: string)
    ensures u == "" <==> forall i :: 0 <= i < |names| ==> GetRemoteUrl(cfg, names[i]) == ""
    ensures u != "" ==>
      exists i :: 0 <= i < |names| && u == GetRemoteUrl(cfg, names[i]) &&
        forall j :: 0 <= j < i ==> GetRemoteUrl(cfg, names[j]) == ""
    decreases |names|
  {
    if |names| == 0 then
      ""
    else if GetRemoteUrl(cfg, names[0]) != "" then
      GetRemoteUrl(cfg, names[0])
    else
      FirstNonEmptyUrl(cfg, names[1..])
  }

  /**
    What a successful discovery returns: the first non-empty URL among the
    candidates in preference order. It is always "", origin's first URL or
    upstream's first URL, and never the URL of any other remote.
  */
  function SelectUrl(cfg: Config, preferUpstream: bool): (u: string)
    ensures u == "" || u == GetRemoteUrl(cfg, Origin) || u == GetRemoteUrl(cfg, Upstream)
  {
    FirstNonEmptyUrl(cfg, Candidates(preferUpstream))
  }

  // ---------------------------------------------------------------------------
  // Loading

  /**
    Loading the configuration at `gitConf`. The file read and the parser are
    the collaborators `readFile` and `unmarshal`; `None` is their failure.
    An empty path is always a failure and never reaches either collaborator.
  */
  function ParseGitConfig(gitConf: string, readFile: string -> Option<seq<byte>>,
                          unmarshal: seq<byte> -> Option<Config>): (r: Result<Config, ConfigError>)
    ensures gitConf == "" ==> r == Failure(NoGitConfDir)
    ensures r.Success? <==>
      gitConf != "" && readFile(gitConf).Some? && unmarshal(readFile(gitConf).value).Some?
    ensures r.Success? ==> unmarshal(readFile(gitConf).value) == Some(r.value)
    ensures r.Failure? ==> r.error.NoGitConfDir? || r.error.path == gitConf
    ensures r.Failure? ==> (r.error.ReadFailed? <==> gitConf != "" && readFile(gitConf).None?)
    ensures r.Failure? ==> !r.error.DiscoverFailed?
  {
    if gitConf == "" then
      Failure(NoGitConfDir)
    else
      match readFile(gitConf)
      case None => Failure(ReadFailed(gitConf))
      case Some(data) =>
        match unmarshal(data)
        case None => Failure(UnmarshalFailed(gitConf))
        case Some(cfg) => Success(cfg)
  }

  // ---------------------------------------------------------------------------
  // Discovery

  /**
    Discovers the upstream URL from the configuration at `gitConf`. A loading
    failure is wrapped and returned with ""; a configuration without remotes
    yields "" and no error; otherwise the candidates are tried in order and the
    first non-empty URL is returned.
  */
  method DiscoverUpstreamGitURL(gitConf: string, preferUpstream: bool,
                                readFile: string -> Option<seq<byte>>,
                                unmarshal: seq<byte> -> Option<Config>)
    returns (url: string, err: Option<ConfigError>)
    ensures err.Some? <==> ParseGitConfig(gitConf, readFile, unmarshal).Failure?
    ensures err.Some? ==>
      url == "" && err.value == DiscoverFailed(gitConf, ParseGitConfig(gitConf, readFile, unmarshal).error)
    ensures gitConf == "" ==> url == "" && err == Some(DiscoverFailed("", NoGitConfDir))
    ensures err.None? ==> url == SelectUrl(ParseGitConfig(gitConf, readFile, unmarshal).value, preferUpstream)
  {
    var parsed := ParseGitConfig(gitConf, readFile, unmarshal);
    if parsed.Failure? {
      return "", Some(DiscoverFailed(gitConf, parsed.error));
    }
    var cfg := parsed.value;
    var remotes := cfg.remotes;
    if RemoteCount(remotes) == 0 {
      NoRemotesSelectNothing(cfg, preferUpstream);
      return "", None;
    }
    var names := [Origin, Upstream];
    if preferUpstream {
      names := [Upstream, Origin];
    }
    assert names == Candidates(preferUpstream);
    for i := 0 to |names|
      invariant forall j :: 0 <= j < i ==> GetRemoteUrl(cfg, names[j]) == ""
    {
      var u := GetRemoteUrl(cfg, names[i]);
      if u != "" {
        return u, None;
      }
    }
    return "", None;
  }

  // ---------------------------------------------------------------------------
  // Properties of the policy

  /** The "no remotes" shortcut agrees with the search: nothing can be found. */
  lemma NoRemotesSelectNothing(cfg: Config, preferUpstream: bool)
    requires RemoteCount(cfg.remotes) == 0
    ensures SelectUrl(cfg, preferUpstream) == ""
  {
  }

  /** Preferring origin: origin's first URL if non-empty, else upstream's, else "". */
  lemma PreferOriginOutcome(cfg: Config)
    ensures var o := DeclaredUrls(cfg, Origin);
            |o| > 0 && o[0] != "" ==> SelectUrl(cfg, false) == o[0]
    ensures var o, up := DeclaredUrls(cfg, Origin), DeclaredUrls(cfg, Upstream);
            !(|o| > 0 && o[0] != "") ==> SelectUrl(cfg, false) == (if |up| > 0 then up[0] else "")
  {
  }

  /** Preferring upstream: the same rule with upstream tried before origin. */
  lemma PreferUpstreamOutcome(cfg: Config)
    ensures var up := DeclaredUrls(cfg, Upstream);
            |up| > 0 && up[0] != "" ==> SelectUrl(cfg, true) == up[0]
    ensures var o, up := DeclaredUrls(cfg, Origin), DeclaredUrls(cfg, Upstream);
            !(|up| > 0 && up[0] != "") ==> SelectUrl(cfg, true) == (if |o| > 0 then o[0] else "")
  {
  }

  /**
    The flag changes the outcome only when both candidates have a non-empty,
    distinct first URL; then each setting returns its own preferred remote's.
  */
  lemma FlagMattersOnlyWhenBothSet(cfg: Config)
    ensures SelectUrl(cfg, true) != SelectUrl(cfg, false) <==>
      GetRemoteUrl(cfg, Origin) != "" && GetRemoteUrl(cfg, Upstream) != "" &&
      GetRemoteUrl(cfg, Origin) != GetRemoteUrl(cfg, Upstream)
    ensures GetRemoteUrl(cfg, Origin) != "" && GetRemoteUrl(cfg, Upstream) != "" ==>
      SelectUrl(cfg, false) == GetRemoteUrl(cfg, Origin) && SelectUrl(cfg, true) == GetRemoteUrl(cfg, Upstream)
  {
  }

  /**
    A successful non-empty result is the first URL declared by one of the two
    candidate remotes.
  */
  lemma SelectedUrlIsDeclared(cfg: Config, preferUpstream: bool)
    ensures SelectUrl(cfg, preferUpstream) != "" ==>
      exists name :: (name == Origin || name == Upstream) && |DeclaredUrls(cfg, name)| > 0 &&
        SelectUrl(cfg, preferUpstream) == DeclaredUrls(cfg, name)[0]
  {
  }

  /**
    In any candidate list, a name whose remote yields "" can be dropped
    without changing the outcome: it is skipped exactly as if it were absent.
  */
  lemma {:induction false} EmptyCandidateDropped(cfg: Config, names: seq<string>, k: nat)
    requires k < |names| && GetRemoteUrl(cfg, names[k]) == ""
    ensures FirstNonEmptyUrl(cfg, names) == FirstNonEmptyUrl(cfg, names[..k] + names[k + 1..])
    decreases k
  {
    if k == 0 {
      assert names[..0] + names[1..] == names[1..];
    } else {
      var rest := names[..k] + names[k + 1..];
      assert rest[0] == names[0];
      if GetRemoteUrl(cfg, names[0]) == "" {
        EmptyCandidateDropped(cfg, names[1..], k - 1);
        assert names[1..][..k - 1] + names[1..][k..] == rest[1..];
      }
    }
  }

  /** The configuration with the entry for `name` removed from the remotes map. */
  function WithoutRemote(cfg: Config, name: string): (r: Config)
    ensures r.remotes.Some? ==> name !in r.remotes.value
    ensures forall other :: other != name ==> DeclaredUrls(r, other) == DeclaredUrls(cfg, other)
  {
    match cfg.remotes
    case None => cfg
    case Some(m) => Config(Some(m - {name}))
  }

  /** The configuration with the entry for `name` set to `entry`. */
  function WithRemote(cfg: Config, name: string, entry: Option<RemoteConfig>): (r: Config)
    ensures r.remotes.Some? && name in r.remotes.value && r.remotes.value[name] == entry
    ensures forall other :: other != name ==> DeclaredUrls(r, other) == DeclaredUrls(cfg, other)
  {
    match cfg.remotes
    case None => Config(Some(map[name := entry]))
    case Some(m) => Config(Some(m[name := entry]))
  }

  /**
    A remote that is nil, has no URLs, or whose first URL is "" does not affect
    the outcome: removing it from the map gives the same result for either flag.
  */
  lemma UnusableRemoteIsAbsent(cfg: Config, name: string, preferUpstream: bool)
    requires cfg.remotes.Some? && name in cfg.remotes.value
    requires var e := cfg.remotes.value[name];
             e.None? || |e.value.urls| == 0 || e.value.urls[0] == ""
    ensures SelectUrl(WithoutRemote(cfg, name), preferUpstream) == SelectUrl(cfg, preferUpstream)
  {
  }

  /** Remotes other than origin and upstream never affect the outcome. */
  lemma OtherRemotesIgnored(cfg: Config, name: string, entry: Option<RemoteConfig>, preferUpstream: bool)
    requires name != Origin && name != Upstream
    ensures SelectUrl(WithRemote(cfg, name, entry), preferUpstream) == SelectUrl(cfg, preferUpstream)
    ensures SelectUrl(WithoutRemote(cfg, name), preferUpstream) == SelectUrl(cfg, preferUpstream)
  {
  }

  /** The outcome depends only on what the two candidates yield. */
  lemma SameCandidateUrlsSameSelection(a: Config, b: Config, preferUpstream: bool)
    requires GetRemoteUrl(a, Origin) == GetRemoteUrl(b, Origin)
    requires GetRemoteUrl(a, Upstream) == GetRemoteUrl(b, Upstream)
    ensures SelectUrl(a, preferUpstream) == SelectUrl(b, preferUpstream)
  {
  }
}
