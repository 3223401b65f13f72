/**
 The identity gate every consumer of an RPC endpoint goes through: only endpoints that reported the
 chain they are filed under are handed out.

 What the endpoints answer to one pass is a parameter, and a pass commits at once.  A client stands
 for the URL it was built for.
 */
module RpcIdentity {
  import opened Options

  type ChainId = int

  type Url = string

  type Urls = map<ChainId, Url>

  type Reports = map<Url, ChainId>   // the endpoints that answered a pass, and what they reported

  // ----- the gate as a value -----

  /** The module's state and the mapping in the shared settings. */
  datatype Gate = Gate(verified: Urls, allowUnverified: bool, configured: Urls, settings: Urls)

  predicate Answers(urls: Urls, reports: Reports, c: ChainId) {
    c in urls && urls[c] in reports && reports[urls[c]] == c
  }

  /** The endpoints that reported their own chain. */
  function Verified(urls: Urls, reports: Reports): Urls {
    map c | c in urls && Answers(urls, reports, c) :: urls[c]
  }

  function Committed(g: Gate, verified: Urls): Gate {
    g.(verified := verified, allowUnverified := false, settings := verified)
  }

  function Initialized(g: Gate, reports: Reports): Gate {
    Committed(g.(configured := g.settings), Verified(g.settings, reports))
  }

  /** Re-verification probes what was configured, so that a dropped chain can come back. */
  function Reverified(g: Gate, reports: Reports): Gate {
    var urls := if g.configured != map[] then g.configured else g.settings;
    if urls == map[] then g else Committed(g, Verified(urls, reports))
  }

  /** The URL of the client for a chain, for a caller holding some mapping. */
  function VerifiedUrl(g: Gate, held: Urls, c: ChainId): Option<Url> {
    var urls := if g.verified != map[] then g.verified else if g.allowUnverified then held else map[];
    if c in urls && urls[c] != "" then Some(urls[c]) else None
  }

  predicate UrlVerified(g: Gate, c: ChainId, url: Url) {
    if g.verified != map[] then c in g.verified && g.verified[c] == url else g.allowUnverified
  }

  type Cache = map<ChainId, Url>

  /** A memoised client is kept only while its chain is served. */
  function Resolved(g: Gate, held: Urls, cache: Cache, c: ChainId): (Option<Url>, Cache) {
    match VerifiedUrl(g, held, c)
    case None => (None, cache - {c})
    case Some(url) => if c in cache then (Some(cache[c]), cache) else (Some(url), cache[c := url])
  }

  // ----- the module -----

  class Settings {
    var chainRpcUrls: Urls
    var sapphire: Option<(ChainId, Url)>

    constructor (urls: Urls, sapphire: Option<(ChainId, Url)>)
      ensures chainRpcUrls == urls && this.sapphire == sapphire
    {
      chainRpcUrls, this.sapphire := urls, sapphire;
    }
  }

  class ClientCache {
    var clients: Cache

    constructor ()
      ensures clients == map[]
    {
      clients := map[];
    }
  }

  datatype Outcome = Serving(verified: Urls) | NoVerifiedChains | SapphireUnverified

  class IdentityGate {
    var verifiedUrls: Urls
    var allowUnverified: bool
    var configuredUrls: Urls

    constructor ()
      ensures verifiedUrls == map[] && !allowUnverified && configuredUrls == map[]
    {
      verifiedUrls, allowUnverified, configuredUrls := map[], false, map[];
    }

    ghost function State(settings: Settings): Gate
      reads this, settings
    {
      Gate(verifiedUrls, allowUnverified, configuredUrls, settings.chainRpcUrls)
    }

    /** Keeps the endpoints that reported their own chain. */
    method VerifyChainRpcUrls(urls: Urls, chainIds: seq<ChainId>, reports: Reports) returns (verified: Urls)
      requires forall c :: c in chainIds <==> c in urls
      ensures verified == Verified(urls, reports)
    {
      verified := map[];
      for k := 0 to |chainIds|
        invariant forall c :: c in verified <==> c in chainIds[..k] && Answers(urls, reports, c)
        invariant forall c :: c in verified ==> verified[c] == urls[c]
      {
        var c := chainIds[k];
        assert chainIds[..k + 1] == chainIds[..k] + [c];
        if urls[c] !in reports {
          continue;
        }
        if reports[urls[c]] != c {
          continue;
        }
        verified := verified[c := urls[c]];
      }
      assert chainIds[..|chainIds|] == chainIds;
      assert forall c :: c in verified <==> c in Verified(urls, reports);
    }

    method CommitVerified(settings: Settings, verified: Urls)
      modifies this, settings`chainRpcUrls
      ensures State(settings) == Committed(old(State(settings)), verified)
    {
      verifiedUrls := verified;
      allowUnverified := false;
      settings.chainRpcUrls := verified;
    }

    /** The startup pass.  It commits before it may fail, so a failure swallowed by the caller serves
        nothing. */
    method Initialize(settings: Settings, chainIds: seq<ChainId>, reports: Reports) returns (outcome: Outcome)
      requires forall c :: c in chainIds <==> c in settings.chainRpcUrls
      modifies this, settings`chainRpcUrls
      ensures State(settings) == Initialized(old(State(settings)), reports)
      ensures outcome.NoVerifiedChains? <==> old(settings.chainRpcUrls) != map[] && verifiedUrls == map[]
      ensures outcome.SapphireUnverified? ==>
                && settings.sapphire.Some? && verifiedUrls != map[]
                && !UrlVerified(State(settings), settings.sapphire.value.0, settings.sapphire.value.1)
      ensures outcome.Serving? ==> outcome.verified == verifiedUrls
      ensures outcome.Serving? && verifiedUrls != map[] && settings.sapphire.Some? ==>
                var sapphire := settings.sapphire.value;
                sapphire.0 in verifiedUrls && verifiedUrls[sapphire.0] == sapphire.1
    {
      var configured := settings.chainRpcUrls;
      configuredUrls := configured;
      if configured == map[] {
        assert Verified(configured, reports) == map[];
        CommitVerified(settings, map[]);
        return Serving(map[]);
      }
      var verified := VerifyChainRpcUrls(configured, chainIds, reports);
      CommitVerified(settings, verified);
      if verified == map[] {
        return NoVerifiedChains;
      }
      if settings.sapphire.Some? {
        var served := IsUrlVerified(settings, settings.sapphire.value.0, settings.sapphire.value.1);
        if !served {
          return SapphireUnverified;
        }
      }
      return Serving(verified);
    }

    method Reverify(settings: Settings, chainIds: seq<ChainId>, reports: Reports) returns (verified: Urls)
      requires var urls := if configuredUrls != map[] then configuredUrls else settings.chainRpcUrls;
               forall c :: c in chainIds <==> c in urls
      modifies this, settings`chainRpcUrls
      ensures State(settings) == Reverified(old(State(settings)), reports)
      ensures verified == if old(configuredUrls) == map[] && old(settings.chainRpcUrls) == map[] then map[]
                          else verifiedUrls
    {
      var configured := if configuredUrls != map[] then configuredUrls else settings.chainRpcUrls;
      if configured == map[] {
        return map[];
      }
      verified := VerifyChainRpcUrls(configured, chainIds, reports);
      CommitVerified(settings, verified);
    }

    method VerifiedWeb3(chainId: ChainId, urls: Urls) returns (client: Option<Url>)
      ensures client == VerifiedUrl(Gate(verifiedUrls, allowUnverified, configuredUrls, map[]), urls, chainId)
    {
      var url := "";
      if verifiedUrls != map[] {
        url := if chainId in verifiedUrls then verifiedUrls[chainId] else "";
      } else if allowUnverified {
        url := if chainId in urls then urls[chainId] else "";
      }
      return if url == "" then None else Some(url);
    }

    method RequireVerifiedWeb3(chainId: ChainId, urls: Urls, cache: ClientCache) returns (client: Option<Url>)
      modifies cache
      ensures (client, cache.clients) ==
              Resolved(Gate(verifiedUrls, allowUnverified, configuredUrls, map[]), urls, old(cache.clients), chainId)
    {
      client := VerifiedWeb3(chainId, urls);
      if client.None? {
        cache.clients := cache.clients - {chainId};
        return;
      }
      if chainId in cache.clients {
        return Some(cache.clients[chainId]);
      }
      cache.clients := cache.clients[chainId := client.value];
    }

    method IsUrlVerified(settings: Settings, chainId: ChainId, url: Url) returns (served: bool)
      ensures served == UrlVerified(State(settings), chainId, url)
    {
      if verifiedUrls != map[] {
        return chainId in verifiedUrls && verifiedUrls[chainId] == url;
      }
      return allowUnverified;
    }
  }

  // ----- runs -----

  /** `last` is what the last committed pass heard.  A consumer holds either the shared settings or
      the mapping as it was first configured. */
  datatype World = World(gate: Gate, caches: map<int, Cache>, last: Option<Reports>, optedOut: bool)

  datatype Action =
    | Start(reports: Reports)
    | Again(reports: Reports)
    | Resolve(consumer: int, chain: ChainId, ownCopy: bool)
    | OptOut

  function CacheOf(w: World, consumer: int): Cache {
    if consumer in w.caches then w.caches[consumer] else map[]
  }

  function Answer(w: World, original: Urls, consumer: int, chain: ChainId, ownCopy: bool): (Option<Url>, Cache) {
    Resolved(w.gate, if ownCopy then original else w.gate.settings, CacheOf(w, consumer), chain)
  }

  /** Starting again re-reads the settings, which nothing but a commit changes. */
  function Next(w: World, original: Urls, a: Action): World {
    match a
    case Start(reports) => World(Initialized(w.gate, reports), w.caches, Some(reports), false)
    case Again(reports) =>
      var gate := Reverified(w.gate, reports);
      if w.gate.configured == map[] && w.gate.settings == map[] then w
      else World(gate, w.caches, Some(reports), false)
    case Resolve(consumer, chain, ownCopy) =>
      w.(caches := w.caches[consumer := Answer(w, original, consumer, chain, ownCopy).1])
    case OptOut => w.(gate := w.gate.(allowUnverified := true), optedOut := true)
  }

  function Fresh(original: Urls): World {
    World(Gate(map[], false, map[], original), map[], None, false)
  }

  function After(original: Urls, actions: seq<Action>): World {
    if actions == [] then Fresh(original)
    else Next(After(original, actions[..|actions| - 1]), original, actions[|actions| - 1])
  }

  predicate Within(urls: Urls, original: Urls) {
    forall c :: c in urls ==> c in original && urls[c] == original[c]
  }

  ghost predicate Gated(w: World, original: Urls) {
    && Within(w.gate.configured, original) && Within(w.gate.settings, original) && Within(w.gate.verified, original)
    && (forall k :: k in w.caches ==> Within(w.caches[k], original))
    && (w.gate.allowUnverified ==> w.optedOut)
    && (w.last.None? ==> w.gate.verified == map[])
    && (w.last.Some? ==> forall c :: c in w.gate.verified ==> Answers(original, w.last.value, c))
  }

  /** A pass over URLs that are the original ones leaves the gate holding what it heard. */
  lemma CommitIsGated(w: World, original: Urls, configured: Urls, probed: Urls, reports: Reports)
    requires Gated(w, original) && Within(configured, original) && Within(probed, original)
    ensures var gate := Committed(w.gate.(configured := configured), Verified(probed, reports));
            Gated(World(gate, w.caches, Some(reports), false), original)
  {
    var verified := Verified(probed, reports);
    forall c | c in verified ensures c in original && verified[c] == original[c] && Answers(original, reports, c) {
      assert Answers(probed, reports, c);
    }
  }

  lemma ResolveIsGated(w: World, original: Urls, consumer: int, chain: ChainId, ownCopy: bool)
    requires Gated(w, original)
    ensures Gated(Next(w, original, Resolve(consumer, chain, ownCopy)), original)
  {
    assert Within(CacheOf(w, consumer), original);
  }

  lemma NextIsGated(w: World, original: Urls, a: Action)
    requires Gated(w, original)
    ensures Gated(Next(w, original, a), original)
  {
    match a
    case Start(reports) => CommitIsGated(w, original, w.gate.settings, w.gate.settings, reports);
    case Again(reports) =>
      var probed := if w.gate.configured != map[] then w.gate.configured else w.gate.settings;
      CommitIsGated(w, original, w.gate.configured, probed, reports);
    case Resolve(consumer, chain, ownCopy) => ResolveIsGated(w, original, consumer, chain, ownCopy);
    case OptOut =>
  }

  lemma {:induction false} RunsAreGated(original: Urls, actions: seq<Action>)
    ensures Gated(After(original, actions), original)
  {
    if actions != [] {
      RunsAreGated(original, actions[..|actions| - 1]);
      NextIsGated(After(original, actions[..|actions| - 1]), original, actions[|actions| - 1]);
    }
  }

  /** After any run, a client is the originally configured one of its chain, and unless somebody opted
      out since the last pass, that pass saw its endpoint report the chain.  Memoised clients are no
      exception. */
  lemma ClientsAreVerified(original: Urls, actions: seq<Action>, consumer: int, chain: ChainId, ownCopy: bool)
    ensures var w := After(original, actions);
            var client := Answer(w, original, consumer, chain, ownCopy).0;
            client.Some? ==>
              && chain in original && client == Some(original[chain])
              && (w.optedOut || (w.last.Some? && original[chain] in w.last.value
                                 && w.last.value[original[chain]] == chain))
  {
    RunsAreGated(original, actions);
  }

  /** A chain whose endpoint failed the last pass is refused to every consumer at once, and its
      memoised client is evicted. */
  lemma DroppedChainIsRefused(original: Urls, actions: seq<Action>, consumer: int, chain: ChainId, ownCopy: bool)
    requires var w := After(original, actions); w.last.Some? && !w.optedOut && !Answers(original, w.last.value, chain)
    ensures var answer := Answer(After(original, actions), original, consumer, chain, ownCopy);
            answer.0.None? && chain !in answer.1
  {
    RunsAreGated(original, actions);
  }

  /** The set the first pass configured survives every later pass. */
  lemma {:induction false} ConfigurationIsKept(original: Urls, reports: Reports, later: seq<Action>)
    requires forall a :: a in later ==> !a.Start?
    ensures After(original, [Start(reports)] + later).gate.configured == original
  {
    var actions := [Start(reports)] + later;
    if later == [] {
      assert actions[..|actions| - 1] == [];
      assert After(original, []) == Fresh(original);
    } else {
      assert actions[..|actions| - 1] == [Start(reports)] + later[..|later| - 1];
      assert actions[|actions| - 1] == later[|later| - 1];
      ConfigurationIsKept(original, reports, later[..|later| - 1]);
    }
  }

  /** A chain of the first configuration comes back as soon as one pass hears its endpoint report it,
      however long it was gone. */
  lemma AnsweringChainIsReadmitted(original: Urls, first: Reports, later: seq<Action>, reports: Reports,
                                   consumer: int, chain: ChainId, ownCopy: bool)
    requires forall a :: a in later ==> !a.Start?
    requires Answers(original, reports, chain) && original[chain] != ""
    ensures var w := After(original, [Start(first)] + later + [Again(reports)]);
            Answer(w, original, consumer, chain, ownCopy).0 == Some(original[chain])
  {
    var before := [Start(first)] + later;
    ConfigurationIsKept(original, first, later);
    var actions := before + [Again(reports)];
    assert actions[..|actions| - 1] == before;
    RunsAreGated(original, actions);
    assert chain in After(original, actions).gate.verified;
  }

  /** After any run the check on a URL admits exactly the one whose client is handed out for its chain:
      the originally configured one, if the last pass heard it, unless someone opted out since. */
  lemma UrlCheckIsGated(original: Urls, actions: seq<Action>, consumer: int, c: ChainId, url: Url, ownCopy: bool)
    requires url != "" && !After(original, actions).optedOut
    ensures var w := After(original, actions);
            && (UrlVerified(w.gate, c, url) <==> Answer(w, original, consumer, c, ownCopy).0 == Some(url))
            && (UrlVerified(w.gate, c, url) ==>
                  c in original && url == original[c] && w.last.Some? && Answers(original, w.last.value, c))
  {
    RunsAreGated(original, actions);
    var w := After(original, actions);
    assert Within(CacheOf(w, consumer), original);
  }

  /** Once a pass has committed, the shared settings hold exactly what it verified. */
  lemma {:induction false} SettingsAreNarrowed(original: Urls, actions: seq<Action>)
    ensures var w := After(original, actions); w.last.Some? ==> w.gate.settings == w.gate.verified
  {
    if actions != [] {
      SettingsAreNarrowed(original, actions[..|actions| - 1]);
    }
  }

  /** Only before any pass does an opt-out serve what was never heard: the configured URL of every
      chain, and any URL. */
  lemma OptOutServesUnheard(original: Urls, consumer: int, c: ChainId, ownCopy: bool, url: Url)
    ensures var w := After(original, [OptOut]);
            && Answer(w, original, consumer, c, ownCopy).0
               == (if c in original && original[c] != "" then Some(original[c]) else None)
            && UrlVerified(w.gate, c, url)
    ensures !UrlVerified(After(original, []).gate, c, url)
  {
    assert [OptOut][..0] == [];
    assert After(original, [OptOut]) == Next(Fresh(original), original, OptOut);
  }
}
