/**
 * The reconciliation server: the endpoint table kept per credential secret,
 * the scope entries kept per "namespace/name" key, the informer caches it
 * reads, and the endpoint router it rebuilds. Trigger events update the
 * configs of one scope and recompute it; secret events update the endpoint
 * table and rebuild the endpoint router, creating and backfilling the entry
 * of a scope the first time it is served.
 */
module Server {
  import opened Kube
  import opened Configs
  import opened Mux
  import opened Mapper
  import opened Endpoints

  class RefuncMCPServer {
    /** How trigger arguments decode into a tools payload. */
    const decode: Decoder
    /** The router every request goes through; its routes lead to scope entries. */
    const router: MutableRouter<EntryHandler>
    /** The secret lister's cache, keyed "namespace/name" (a lookup fails exactly when the key is absent). */
    var secrets: map<string, Secret>
    /** The trigger lister's cache per namespace (listing a namespace fails exactly when it is absent). */
    var triggers: map<string, seq<Trigger>>
    /** The endpoint table, keyed "namespace/name". */
    var endpoints: map<string, HttpHandler>
    /** The scope entries, keyed "namespace/name". */
    var mcps: map<string, EntryHandler>

    /**
     * Every endpoint is stored under its own key, and every scope has its own
     * well-formed entry (which owns its function groups) and its own router.
     */
    ghost predicate Valid()
      reads this, mcps.Values
    {
      && KeysConsistent(endpoints)
      && (forall k :: k in mcps ==> mcps[k].Valid())
      && (forall k1, k2 :: k1 in mcps && k2 in mcps && k1 != k2 ==>
            mcps[k1] != mcps[k2] && mcps[k1].router != mcps[k2].router)
    }

    /** Two scopes share no object: a recompute of one leaves the other alone. */
    lemma ScopesSeparate(k1: string, k2: string)
      requires Valid() && k1 in mcps && k2 in mcps && k1 != k2
      ensures EntryFootprint(mcps[k1]) !! EntryFootprint(mcps[k2])
    {
      forall g | g in mcps[k1].mcps.Values ensures g !in mcps[k2].mcps.Values {
        var fn :| fn in mcps[k1].mcps && mcps[k1].mcps[fn] == g;
      }
    }

    constructor (decode: Decoder, secrets: map<string, Secret>, triggers: map<string, seq<Trigger>>)
      ensures this.decode == decode && this.secrets == secrets && this.triggers == triggers
      ensures endpoints == map[] && mcps == map[]
      ensures fresh(router) && router.routes == map[] && router.installs == 0
      ensures Valid()
    {
      this.decode, this.secrets, this.triggers := decode, secrets, triggers;
      endpoints, mcps := map[], map[];
      router := new MutableRouter();
    }

    /** Whether a trigger event reaches a scope: it is an "mcp" trigger that decodes and its scope has an entry. */
    ghost predicate Targets(o: Object)
      reads this
    {
      TriggerTarget(o, decode).Some? && TriggerTarget(o, decode).value.0 in mcps
    }

    /** What a recompute of entry `e` may change: the entry, its router and its function groups. */
    ghost function EntryFootprint(e: EntryHandler): set<object>
      reads e
    {
      {e, e.router} + e.mcps.Values
    }

    /** What a trigger event may change: the footprint of the entry it reaches, nothing otherwise. */
    ghost function TargetFootprint(o: Object): set<object>
      reads this, mcps.Values
    {
      if Targets(o) then EntryFootprint(mcps[TriggerTarget(o, decode).value.0]) else {}
    }

    /**
     * A trigger event that reaches nothing may change nothing: the object is
     * not a trigger, its type is not "mcp", its arguments do not decode, or
     * its scope has no entry.
     */
    lemma TriggerMissChangesNothing(o: Object)
      ensures TargetFootprint(o) == {} <==>
        || !o.TriggerObj?
        || o.trigger.spec.triggerType != MCPTriggerType
        || decode(o.trigger.spec.args).None?
        || ScopeKey(o.trigger.namespace, decode(o.trigger.spec.args).value.token) !in mcps
    {
      TriggerTargetNone(o, decode);
      if TriggerTarget(o, decode).Some? {
        TriggerTargetSome(o, decode);
      }
    }

    /**
     * Stores `configs` as the configs of scope `key` and recomputes the
     * scope; no other scope changes.
     */
    method UpdateScope(key: string, configs: map<string, McpConfig>) returns (ghost order: seq<string>)
      requires Valid() && key in mcps
      modifies EntryFootprint(mcps[key])
      ensures Valid() && mcps == old(mcps)
      ensures
        var e := mcps[key];
        && e.configs == configs
        && e.Synced()
        && Enumerates(order, e.configs.Keys) && Covers(e.configs, order)
        && (forall fn :: fn in e.mcps ==> fn in Collect(e.configs, order) && e.mcps[fn].tools == Collect(e.configs, order)[fn])
        && (forall fn :: fn in e.mcps && fn in old(e.mcps) ==> e.mcps[fn] == old(e.mcps)[fn])
        && (forall fn :: fn in e.mcps && fn !in old(e.mcps) ==> fresh(e.mcps[fn]))
        && e.cancelled == old(e.cancelled) + SessionsOf(old(e.mcps), old(e.mcps).Keys - FunctionsOf(e.configs))
        && e.router.installs == old(e.router.installs) + 1
        && (forall f :: f in old(e.mcps) ==> old(e.mcps)[f].conns == old(e.mcps[f].conns))
        && (forall f :: f in old(e.mcps) && f !in e.mcps ==> old(e.mcps)[f].tools == old(e.mcps[f].tools))
      ensures forall k :: k in mcps && k != key ==>
        unchanged(mcps[k], mcps[k].router) && unchanged(mcps[k].mcps.Values)
    {
      var e := mcps[key];
      e.configs := configs;
      order := e.PopulateConfigs();
    }

    /**
     * A trigger was added or updated: when it reaches a scope, its config is
     * stored under its entry key and the scope is recomputed.
     */
    method HandleTriggerChange(o: Object) returns (ghost order: seq<string>)
      requires Valid()
      modifies TargetFootprint(o)
      ensures Valid()
      ensures Targets(o) ==>
        var cfg := TriggerTarget(o, decode).value.1;
        var e := mcps[TriggerTarget(o, decode).value.0];
        && e.configs == old(e.configs)[cfg.key := cfg]
        && e.Synced()
        && Enumerates(order, e.configs.Keys) && Covers(e.configs, order)
        && (forall fn :: fn in e.mcps ==> fn in Collect(e.configs, order) && e.mcps[fn].tools == Collect(e.configs, order)[fn])
        && (forall fn :: fn in e.mcps && fn in old(e.mcps) ==> e.mcps[fn] == old(e.mcps)[fn])
        && (forall fn :: fn in e.mcps && fn !in old(e.mcps) ==> fresh(e.mcps[fn]))
        && e.cancelled == old(e.cancelled) + SessionsOf(old(e.mcps), old(e.mcps).Keys - FunctionsOf(e.configs))
        && e.router.installs == old(e.router.installs) + 1
        && (forall f :: f in old(e.mcps) ==> old(e.mcps)[f].conns == old(e.mcps[f].conns))
        && (forall f :: f in old(e.mcps) && f !in e.mcps ==> old(e.mcps)[f].tools == old(e.mcps[f].tools))
      ensures mcps == old(mcps)
      ensures forall k :: k in mcps && !(Targets(o) && k == TriggerTarget(o, decode).value.0) ==>
        unchanged(mcps[k], mcps[k].router) && unchanged(mcps[k].mcps.Values)
    {
      order := [];
      match TriggerTarget(o, decode)
      case None =>
      case Some((mcpKey, config)) =>
        if mcpKey in mcps {
          order := UpdateScope(mcpKey, mcps[mcpKey].configs[config.key := config]);
        }
    }

    /**
     * A trigger was deleted: when it reaches a scope, its entry key is
     * removed from the scope's configs and the scope is recomputed.
     */
    method HandleTriggerDelete(o: Object) returns (ghost order: seq<string>)
      requires Valid()
      modifies TargetFootprint(o)
      ensures Valid()
      ensures Targets(o) ==>
        var cfg := TriggerTarget(o, decode).value.1;
        var e := mcps[TriggerTarget(o, decode).value.0];
        && e.configs == old(e.configs) - {cfg.key}
        && e.Synced()
        && Enumerates(order, e.configs.Keys) && Covers(e.configs, order)
        && (forall fn :: fn in e.mcps ==> fn in Collect(e.configs, order) && e.mcps[fn].tools == Collect(e.configs, order)[fn])
        && (forall fn :: fn in e.mcps && fn in old(e.mcps) ==> e.mcps[fn] == old(e.mcps)[fn])
        && (forall fn :: fn in e.mcps && fn !in old(e.mcps) ==> fresh(e.mcps[fn]))
        && e.cancelled == old(e.cancelled) + SessionsOf(old(e.mcps), old(e.mcps).Keys - FunctionsOf(e.configs))
        && e.router.installs == old(e.router.installs) + 1
        && (forall f :: f in old(e.mcps) ==> old(e.mcps)[f].conns == old(e.mcps[f].conns))
        && (forall f :: f in old(e.mcps) && f !in e.mcps ==> old(e.mcps)[f].tools == old(e.mcps[f].tools))
      ensures mcps == old(mcps)
      ensures forall k :: k in mcps && !(Targets(o) && k == TriggerTarget(o, decode).value.0) ==>
        unchanged(mcps[k], mcps[k].router) && unchanged(mcps[k].mcps.Values)
    {
      order := [];
      match TriggerTarget(o, decode)
      case None =>
      case Some((mcpKey, config)) =>
        if mcpKey in mcps {
          order := UpdateScope(mcpKey, mcps[mcpKey].configs - {config.key});
        }
    }

    /** The state of a backfill of scope `key` into entry `e` after replaying the triggers `done`. */
    ghost predicate Backfilled(key: string, e: EntryHandler, done: seq<Trigger>)
      reads this, mcps.Values, e, e.router, e.mcps.Values
    {
      && Valid()
      && key in mcps && mcps[key] == e
      && e.Synced() && e.Grouped()
      && e.configs == Replay(map[], done, key, decode)
    }

    /** Replays one listed trigger into a newly served scope, when it is an "mcp" trigger that decodes and targets it. */
    method ReplayTrigger(key: string, e: EntryHandler, ghost done: seq<Trigger>, trigger: Trigger)
      requires Backfilled(key, e, done)
      modifies EntryFootprint(e)
      ensures Backfilled(key, e, done + [trigger])
      ensures forall fn :: fn in e.mcps ==> e.mcps[fn] in old(e.mcps.Values) || fresh(e.mcps[fn])
    {
      ReplaySnoc(map[], done, trigger, key, decode);
      if trigger.spec.triggerType == MCPTriggerType {
        match TriggerForToolConfig(trigger, decode)
        case None =>
        case Some((mcpKey, _)) =>
          if mcpKey == key {
            var order := HandleTriggerChange(TriggerObj(trigger));
            assert e.GroupedBy(order);
          }
      }
    }

    /**
     * Replays the listed triggers of a newly served scope, in list order:
     * every "mcp" trigger that decodes and targets the scope goes through
     * the trigger-change path.
     */
    method Backfill(key: string, e: EntryHandler, ts: seq<Trigger>)
      requires Backfilled(key, e, [])
      modifies EntryFootprint(e)
      ensures Backfilled(key, e, ts)
    {
      for i := 0 to |ts|
        invariant Backfilled(key, e, ts[..i])
        invariant forall fn :: fn in e.mcps ==> e.mcps[fn] in old(e.mcps.Values) || fresh(e.mcps[fn])
      {
        assert ts[..i + 1] == ts[..i] + [ts[i]];
        ReplayTrigger(key, e, ts[..i], ts[i]);
      }
      assert ts[..|ts|] == ts;
    }

    /**
     * The first time a scope is served: its entry is stored and backfilled
     * from the listed triggers of its namespace; when that listing fails,
     * the entry is dropped again.
     */
    method StoreScope(h: HttpHandler) returns (stored: bool)
      requires Valid() && Key(h) !in mcps
      modifies this`mcps
      ensures Valid()
      ensures stored <==> h.ns in triggers
      ensures !stored ==> mcps == old(mcps)
      ensures stored ==>
        && Key(h) in mcps && mcps == old(mcps)[Key(h) := mcps[Key(h)]]
        && fresh(mcps[Key(h)]) && NewScope(Key(h), mcps[Key(h)], triggers[h.ns])
    {
      var key := Key(h);
      var e := new EntryHandler(h.ns, "");
      mcps := mcps[key := e];
      if h.ns !in triggers {
        mcps := mcps - {key};
        assert mcps == old(mcps);
        return false;
      }
      Backfill(key, e, triggers[h.ns]);
      return true;
    }

    /**
     * Registers one endpoint on the router being built, under its path, to
     * its scope's entry. A secret that cannot be looked up registers nothing;
     * nor does a first-time scope whose namespace cannot be listed.
     */
    method SetupHTTPEndpoints(h: HttpHandler, routes: Routes<EntryHandler>) returns (routes': Routes<EntryHandler>)
      requires Valid()
      modifies this`mcps
      ensures Valid()
      ensures mcps == old(mcps) || (Key(h) !in old(mcps) && Key(h) in mcps && mcps == old(mcps)[Key(h) := mcps[Key(h)]])
      ensures Key(h) in mcps <==> Key(h) in old(mcps) || (Key(h) in secrets && h.ns in triggers)
      ensures Key(h) in mcps && Key(h) !in old(mcps) ==>
        fresh(mcps[Key(h)]) && NewScope(Key(h), mcps[Key(h)], triggers[h.ns])
      ensures routes' == if Key(h) in secrets && Key(h) in mcps then AddRoute(routes, EndpointPath(h), mcps[Key(h)]) else routes
    {
      var key := Key(h);
      if key !in secrets {
        return routes;
      }
      var endpoint := EndpointPath(h);
      if key !in mcps {
        var stored := StoreScope(h);
        if !stored {
          return routes;
        }
      }
      routes' := AddRoute(routes, endpoint, mcps[key]);
    }

    /** A newly served scope entry: with the configs of the replayed triggers, in step with them. */
    ghost predicate NewScope(key: string, e: EntryHandler, ts: seq<Trigger>)
      reads e, e.router, e.mcps.Values
    {
      && e.configs == Replay(map[], ts, key, decode)
      && e.Valid() && e.Synced() && e.Grouped()
    }

    /**
     * The endpoint router and the scope entries after a rebuild that visited
     * the endpoint table in `order`, starting from the entries `m0`: entries
     * are only added, each for an endpoint whose secret is cached and whose
     * namespace can be listed, and every such endpoint has one; the routes
     * are those of the endpoints in visiting order.
     */
    ghost predicate Rebuilt(m0: map<string, EntryHandler>, order: seq<string>)
      reads this, router
    {
      PopulatingState(endpoints, secrets, triggers, m0, mcps, order, {}, router.routes)
    }

    /** The state of a rebuild that has visited the endpoints `order` and has the keys `rest` left. */
    ghost predicate Populating(m0: map<string, EntryHandler>, order: seq<string>, rest: set<string>,
                               routes: Routes<EntryHandler>)
      reads this
    {
      PopulatingState(endpoints, secrets, triggers, m0, mcps, order, rest, routes)
    }

    /** One iteration of a rebuild: sets up the endpoint of some key not yet visited. */
    method SetupNext(ghost m0: map<string, EntryHandler>, ghost order: seq<string>, rest: set<string>,
                     routes: Routes<EntryHandler>) returns (key: string, routes': Routes<EntryHandler>)
      requires Valid() && Populating(m0, order, rest, routes) && rest != {}
      modifies this`mcps
      ensures Valid() && key in rest && Populating(m0, order + [key], rest - {key}, routes')
      ensures mcps == old(mcps) || (key !in old(mcps) && key in mcps && mcps == old(mcps)[key := mcps[key]]
        && fresh(mcps[key]) && NewScope(key, mcps[key], triggers[endpoints[key].ns]))
    {
      key :| key in rest;
      ghost var m1 := mcps;
      routes' := SetupHTTPEndpoints(endpoints[key], routes);
      PopulatingStep(endpoints, secrets, triggers, m0, m1, mcps, order, rest, routes, routes', key);
    }

    /**
     * Sets up every endpoint, in the table's iteration order, on a new set of
     * routes.
     */
    method SetupAll() returns (routes: Routes<EntryHandler>, ghost order: seq<string>)
      requires Valid()
      modifies this`mcps
      ensures Valid() && Populating(old(mcps), order, {}, routes)
      ensures forall k :: k in mcps && k !in old(mcps) ==>
        fresh(mcps[k]) && NewScope(k, mcps[k], triggers[endpoints[k].ns])
    {
      routes := map[];
      order := [];
      var rest := endpoints.Keys;
      while rest != {}
        invariant Valid() && Populating(old(mcps), order, rest, routes)
        invariant forall k :: k in mcps && k !in old(mcps) ==>
          fresh(mcps[k]) && NewScope(k, mcps[k], triggers[endpoints[k].ns])
        decreases rest
      {
        var key;
        key, routes := SetupNext(old(mcps), order, rest, routes);
        order := order + [key];
        rest := rest - {key};
      }
    }

    /**
     * Builds a new endpoint router from every endpoint, in the table's
     * iteration order, and installs it with a single swap.
     */
    method PopulateEndpoints() returns (ghost order: seq<string>)
      requires Valid()
      modifies this`mcps, router
      ensures Valid()
      ensures Rebuilt(old(mcps), order)
      ensures forall k :: k in mcps && k !in old(mcps) ==>
        fresh(mcps[k]) && NewScope(k, mcps[k], triggers[endpoints[k].ns])
      ensures router.installs == old(router.installs) + 1
    {
      var routes;
      routes, order := SetupAll();
      router.UpdateRouter(routes);
    }

    /**
     * A labelled secret was added or updated. A secret being deleted removes
     * its known endpoint and scope entry and rebuilds the endpoint router;
     * otherwise an unseen key stores a new endpoint and rebuilds, a known key
     * whose token changed replaces its endpoint and rebuilds, and a known key
     * with the same token changes nothing.
     */
    method HandleSecretChange(o: Object) returns (ghost order: seq<string>)
      requires Valid()
      modifies this`endpoints, this`mcps, router
      ensures Valid()
      ensures !o.SecretObj? ==>
        && endpoints == old(endpoints) && mcps == old(mcps)
        && router.routes == old(router.routes) && router.installs == old(router.installs)
      ensures o.SecretObj? ==>
        var step := PlanSecretChange(old(endpoints), o.secret);
        && endpoints == ApplyStep(old(endpoints), step)
        && router.installs == old(router.installs) + (if Rebuilds(step) then 1 else 0)
        && (!Rebuilds(step) ==> mcps == old(mcps) && router.routes == old(router.routes))
        && (Rebuilds(step) ==> Rebuilt(if step.Remove? then old(mcps) - {step.key} else old(mcps), order))
        && (step.Remove? ==> step.key !in mcps)
      ensures forall k :: k in mcps && k !in old(mcps) ==>
        fresh(mcps[k]) && NewScope(k, mcps[k], triggers[endpoints[k].ns])
    {
      order := [];
      match o
      case SecretObj(secret) =>
        var token := "";
        if "token" in secret.data {
          token := BytesToString(secret.data["token"]);
        }
        var key := K8sKey(secret);
        ghost var step := PlanSecretChange(endpoints, secret);
        if secret.deleting {
          if key in endpoints {
            assert step == Remove(key);
            endpoints := endpoints - {key};
            mcps := mcps - {key};
            order := PopulateEndpoints();
          }
          return;
        }
        var h := HttpHandler(secret.namespace, secret.name, token);
        if key !in endpoints {
          assert step == Insert(key, h);
          endpoints := endpoints[key := h];
          order := PopulateEndpoints();
        } else if endpoints[key].token != token {
          assert step == Replace(key, h);
          endpoints := endpoints[key := h];
          order := PopulateEndpoints();
        }
      case _ =>
    }
  }

  /**
   * The state of an endpoint rebuild, over the server's tables: `order`
   * enumerates the visited keys, entries were only added, each for a visited
   * endpoint whose secret is cached and whose namespace can be listed, every
   * such visited endpoint has one, and `routes` are those of the visited
   * endpoints in order.
   */
  ghost predicate PopulatingState(eps: map<string, HttpHandler>, secrets: map<string, Secret>,
                                  triggers: map<string, seq<Trigger>>, m0: map<string, EntryHandler>,
                                  m: map<string, EntryHandler>, order: seq<string>, rest: set<string>,
                                  routes: Routes<EntryHandler>)
  {
    && rest <= eps.Keys
    && Enumerates(order, eps.Keys - rest)
    && (forall i :: 0 <= i < |order| ==> order[i] in eps)
    && (forall k :: k in m0 ==> k in m && m[k] == m0[k])
    && (forall k :: k in m && k !in m0 ==> k in eps && k !in rest && k in secrets && eps[k].ns in triggers)
    && (forall k :: k in eps && k !in rest && k in secrets && eps[k].ns in triggers ==> k in m)
    && routes == EndpointRoutes(eps, order, secrets, m)
  }

  /** Setting up one more endpoint extends the rebuild state by its key. */
  lemma PopulatingStep(eps: map<string, HttpHandler>, secrets: map<string, Secret>,
                       triggers: map<string, seq<Trigger>>, m0: map<string, EntryHandler>,
                       m1: map<string, EntryHandler>, m2: map<string, EntryHandler>, order: seq<string>,
                       rest: set<string>, routes: Routes<EntryHandler>, routes': Routes<EntryHandler>, key: string)
    requires KeysConsistent(eps)
    requires PopulatingState(eps, secrets, triggers, m0, m1, order, rest, routes) && key in rest
    requires m2 == m1 || (key !in m1 && key in m2 && m2 == m1[key := m2[key]])
    requires key in m2 <==> key in m1 || (key in secrets && eps[key].ns in triggers)
    requires routes' == if key in secrets && key in m2 then AddRoute(routes, EndpointPath(eps[key]), m2[key]) else routes
    ensures PopulatingState(eps, secrets, triggers, m0, m2, order + [key], rest - {key}, routes')
  {
    EndpointRoutesSnoc(eps, order, secrets, m1, m2, key);
    EnumeratesSnoc(order, eps.Keys - rest, key);
    assert eps.Keys - (rest - {key}) == (eps.Keys - rest) + {key};
  }
}
