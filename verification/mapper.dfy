/**
 * The stateful half of the function-group side. One EntryHandler per scope
 * holds the configs stored for that scope, one FunctionServer per backend
 * function those configs name, and the router that serves them. Every change
 * of the configs is followed by a full recompute (PopulateConfigs).
 */
module Mapper {
  import opened Kube
  import opened Configs
  import opened Mux

  /** Identity of one open client session's cancel function. */
  type CancelId = nat

  /**
   * A live function group: its protocol server's tool list, and the cancel
   * functions of the client sessions it is serving.
   */
  class FunctionServer {
    const name: string
    const version: string
    /** Base path of the group's session server. */
    const path: string
    /** The scope entry that created the group (a proof device: no two scopes share a group). */
    ghost const owner: EntryHandler
    var tools: seq<ServerTool>
    /** Cancel functions stored by open sessions (the serving side adds and removes them). */
    var conns: set<CancelId>

    constructor (name: string, version: string, path: string, ghost owner: EntryHandler)
      ensures this.name == name && this.version == version && this.path == path && this.owner == owner
      ensures tools == [] && conns == {}
    {
      this.name, this.version, this.path, this.owner := name, version, path, owner;
      tools, conns := [], {};
    }

    /** Replaces the tool list in place; the open sessions are kept. */
    method SetTools(items: seq<ServerTool>)
      modifies `tools
      ensures tools == items
    {
      tools := items;
    }
  }

  /** The cancel functions stored in the groups of `fns`. */
  ghost function SessionsOf(m: map<string, FunctionServer>, fns: set<string>): set<CancelId>
    reads m.Values`conns
  {
    set fn, id | fn in fns && fn in m && id in m[fn].conns :: id
  }

  /** Dropping one more function adds exactly its group's sessions. */
  lemma SessionsOfAdd(m: map<string, FunctionServer>, fns: set<string>, fn: string)
    ensures SessionsOf(m, fns + {fn}) == SessionsOf(m, fns) + (if fn in m then m[fn].conns else {})
  {
  }

  /** Overriding the groups of `keys` does not change the sessions of the other groups. */
  lemma SessionsOfMerge(m0: map<string, FunctionServer>, inst: map<string, FunctionServer>, keys: set<string>)
    requires inst.Keys == keys
    ensures SessionsOf(m0 + inst, (m0 + inst).Keys - keys) == SessionsOf(m0, m0.Keys - keys)
  {
    var ks := m0.Keys - keys;
    assert (m0 + inst).Keys - keys == ks;
    forall id | id in SessionsOf(m0 + inst, ks) ensures id in SessionsOf(m0, ks) {
      var fn :| fn in ks && fn in m0 + inst && id in (m0 + inst)[fn].conns;
      assert (m0 + inst)[fn] == m0[fn];
    }
    forall id | id in SessionsOf(m0, ks) ensures id in SessionsOf(m0 + inst, ks) {
      var fn :| fn in ks && fn in m0 && id in m0[fn].conns;
      assert (m0 + inst)[fn] == m0[fn];
    }
  }

  /** The path a function group is served under. */
  function FnPath(basePath: string, fn: string): string
  {
    basePath + "/" + fn
  }

  /** Distinct functions are served under distinct paths. */
  lemma FnPathInjective(basePath: string, a: string, b: string)
    ensures FnPath(basePath, a) == FnPath(basePath, b) <==> a == b
  {
    if FnPath(basePath, a) == FnPath(basePath, b) {
      var n := |basePath| + 1;
      assert a == FnPath(basePath, a)[n..];
      assert b == FnPath(basePath, b)[n..];
    }
  }

  /** The function a group path names: what follows the base path and the separator. */
  function FnName(basePath: string, p: string): string
  {
    if |p| > |basePath| then p[|basePath| + 1..] else p
  }

  /** A group's path gives its function back. */
  lemma FnNameOfPath(basePath: string, fn: string)
    ensures FnName(basePath, FnPath(basePath, fn)) == fn
  {
    assert FnPath(basePath, fn)[|basePath| + 1..] == fn;
  }

  /**
   * `rs` routes each group under its function's path and nothing else: the
   * routes a freshly built router holds for `groups`.
   */
  ghost predicate RoutesFor<H>(basePath: string, groups: map<string, H>, rs: Routes<H>)
  {
    && (forall fn :: fn in groups ==> FnPath(basePath, fn) in rs && rs[FnPath(basePath, fn)] == groups[fn])
    && (forall p :: p in rs ==> FnName(basePath, p) in groups && p == FnPath(basePath, FnName(basePath, p)))
  }

  /** Routing one more function, whose path is new, extends the table by exactly that route. */
  lemma RoutesForAdd<H>(basePath: string, groups: map<string, H>, rs: Routes<H>, fn: string, h: H)
    requires RoutesFor(basePath, groups, rs) && fn !in groups
    ensures FnPath(basePath, fn) !in rs
    ensures RoutesFor(basePath, groups[fn := h], AddRoute(rs, FnPath(basePath, fn), h))
  {
    FnNameOfPath(basePath, fn);
    var rs' := AddRoute(rs, FnPath(basePath, fn), h);
    forall p | p in rs'
      ensures FnName(basePath, p) in groups[fn := h] && p == FnPath(basePath, FnName(basePath, p))
    {
      if p != FnPath(basePath, fn) {
        assert p in rs;
      }
    }
  }

  lemma FnPathsInjective(basePath: string)
    ensures forall a, b :: FnPath(basePath, a) == FnPath(basePath, b) ==> a == b
  {
    forall a, b | FnPath(basePath, a) == FnPath(basePath, b) ensures a == b {
      FnPathInjective(basePath, a, b);
    }
  }

  /** The routes of a set of groups are determined by the groups: any two such tables agree. */
  lemma {:induction false} RoutesForUnique<H>(basePath: string, groups: map<string, H>, rs: Routes<H>, rs': Routes<H>)
    requires RoutesFor(basePath, groups, rs) && RoutesFor(basePath, groups, rs')
    ensures rs == rs'
  {
    forall p | p in rs ensures p in rs' && rs[p] == rs'[p] {
      var fn := FnName(basePath, p);
      assert FnPath(basePath, fn) == p;
    }
    forall p | p in rs' ensures p in rs {
      var fn := FnName(basePath, p);
      assert FnPath(basePath, fn) == p;
    }
  }

  /** Adds the named tools of one config, in order, to the list of its function. */
  method AddConfigTools(tools: map<string, seq<ServerTool>>, cfg: McpConfig) returns (r: map<string, seq<ServerTool>>)
    ensures r == Append(tools, cfg.fn, Registered(cfg, cfg.tools))
  {
    r := tools;
    for idx := 0 to |cfg.tools|
      invariant r == Append(tools, cfg.fn, Registered(cfg, cfg.tools[..idx]))
    {
      var item := cfg.tools[idx];
      AddToolStep(r, tools, cfg, idx);
      if item.name != "" {
        // the first tool of a function starts its list
        if cfg.fn !in r {
          r := r[cfg.fn := []];
        }
        r := r[cfg.fn := r[cfg.fn] + [ToolEntry(cfg, item)]];
      }
    }
    assert cfg.tools[..|cfg.tools|] == cfg.tools;
  }

  /** The entries of `m` whose key is in `keys`. */
  function Restrict<V>(m: map<string, V>, keys: set<string>): (r: map<string, V>)
    ensures r.Keys == m.Keys * keys
    ensures forall k :: k in r ==> r[k] == m[k]
  {
    map k | k in m && k in keys :: m[k]
  }

  /** Overriding one more key of the overriding map is overriding the merged map. */
  lemma MergeUpdate<V>(m0: map<string, V>, inst: map<string, V>, k: string, v: V)
    ensures (m0 + inst)[k := v] == m0 + inst[k := v]
  {
  }

  /** Installing one more group keeps every installed group that existed before the one it was. */
  lemma ReuseStep<V>(m0: map<string, V>, inst: map<string, V>, m1: map<string, V>, k: string, v: V)
    requires m1 == m0 + inst && k !in inst
    requires k in m1 ==> v == m1[k]
    requires forall f :: f in inst && f in m0 ==> inst[f] == m0[f]
    ensures forall f :: f in inst[k := v] && f in m0 ==> inst[k := v][f] == m0[f]
  {
  }

  /** Dropping the keys of `gone` and then `k` is dropping both at once. */
  lemma DropStep<V>(m: map<string, V>, gone: set<string>, k: string)
    ensures (m - gone) - {k} == m - (gone + {k})
    ensures k in m - gone <==> k in m && k !in gone
  {
  }

  /** Keeping, out of `m0` overridden by `inst`, exactly the keys of `inst` gives `inst` back. */
  lemma RestrictMerge<V>(m0: map<string, V>, inst: map<string, V>, keys: set<string>)
    requires inst.Keys == keys
    ensures Restrict(m0 + inst, keys) == inst
  {
  }

  /** The tool tables of one scope. */
  class EntryHandler {
    const ns: string
    const basePath: string
    const router: MutableRouter<FunctionServer>
    /** Stored configs, keyed by McpEntryKey of their trigger. */
    var configs: map<string, McpConfig>
    /** Live function groups, keyed by function name. */
    var mcps: map<string, FunctionServer>
    /** The session cancel functions this scope has invoked. */
    var cancelled: set<CancelId>

    /**
     * Each group is the one this entry created for its function (its server
     * carries the function's name), so no two functions share a group.
     */
    ghost predicate Valid()
      reads this
    {
      forall fn :: fn in mcps ==> mcps[fn].name == fn && mcps[fn].owner == this
    }

    /**
     * The groups and the routes agree with the configs: one group per
     * function with a named tool, and one route per group, to that group.
     */
    ghost predicate Synced()
      reads this, router
    {
      && mcps.Keys == FunctionsOf(configs)
      && RoutesFor(basePath, mcps, router.routes)
    }

    /** Each group carries the tools grouped for its function by one full pass over the configs in `order`. */
    ghost predicate GroupedBy(order: seq<string>)
      reads this, mcps.Values
    {
      && Enumerates(order, configs.Keys) && Covers(configs, order)
      && forall fn :: fn in mcps ==> fn in Collect(configs, order) && mcps[fn].tools == Collect(configs, order)[fn]
    }

    /** The groups' tool lists are those of the last recompute. */
    ghost predicate Grouped()
      reads this, mcps.Values
    {
      exists order :: GroupedBy(order)
    }

    /** In a grouped scope every live group has at least one tool. */
    lemma GroupedToolsNonEmpty()
      requires Grouped()
      ensures forall fn :: fn in mcps ==> mcps[fn].tools != []
    {
      var order :| GroupedBy(order);
      CollectIsToolsFor(configs, order);
    }

    constructor (ns: string, basePath: string)
      ensures this.ns == ns && this.basePath == basePath
      ensures configs == map[] && mcps == map[] && cancelled == {}
      ensures fresh(router) && router.routes == map[] && router.installs == 0
      ensures Valid() && Synced() && Grouped()
    {
      this.ns, this.basePath := ns, basePath;
      configs, mcps, cancelled := map[], map[], {};
      router := new MutableRouter();
      new;
      assert GroupedBy([]);
    }

    /**
     * First phase of a recompute: one pass over the configs, in the map's
     * iteration order, grouping the named tools by function.
     */
    method CollectTools() returns (tools: map<string, seq<ServerTool>>, ghost order: seq<string>)
      ensures Enumerates(order, configs.Keys) && Covers(configs, order)
      ensures tools == Collect(configs, order)
      ensures tools.Keys == FunctionsOf(configs)
    {
      tools := map[];
      order := [];
      var rest := configs.Keys;
      while rest != {}
        invariant rest <= configs.Keys
        invariant Enumerates(order, configs.Keys - rest)
        invariant Covers(configs, order)
        invariant tools == Collect(configs, order)
        decreases rest
      {
        var key :| key in rest;
        var cfg := configs[key];
        tools := AddConfigTools(tools, cfg);
        EnumeratesSnoc(order, configs.Keys - rest, key);
        assert configs.Keys - (rest - {key}) == (configs.Keys - rest) + {key};
        assert (order + [key])[..|order|] == order;
        order := order + [key];
        rest := rest - {key};
      }
      assert configs.Keys - rest == configs.Keys;
      CollectKeys(configs, order);
    }

    /** Looks up the group of `fn`, creating it when absent, and gives it `items`. */
    method LoadOrCreateGroup(fn: string, items: seq<ServerTool>, ghost others: map<string, FunctionServer>)
      returns (c: FunctionServer)
      requires Valid()
      requires fn !in others && forall f :: f in others ==> f in mcps && mcps[f] == others[f]
      modifies this`mcps, (if fn in mcps then {mcps[fn]} else {})`tools
      ensures Valid()
      ensures mcps == old(mcps)[fn := c] && c.name == fn
      ensures fn in old(mcps) ==> c == old(mcps[fn])
      ensures fn !in old(mcps) ==> fresh(c)
      ensures c.tools == items
      ensures forall f :: f in others ==> others[f].tools == old(others[f].tools)
    {
      if fn in mcps {
        c := mcps[fn];
      } else {
        c := new FunctionServer(fn, ns, FnPath(basePath, fn), this);
        mcps := mcps[fn := c];
      }
      c.SetTools(items);
    }

    /**
     * Halfway through the second phase: the groups installed so far are in
     * `mcps` with their tools, every other group is as it was.
     */
    ghost predicate Installing(m0: map<string, FunctionServer>, tools: map<string, seq<ServerTool>>,
                               installed: map<string, FunctionServer>)
      reads this, installed.Values
    {
      && Valid()
      && installed.Keys <= tools.Keys
      && mcps == m0 + installed
      && (forall f :: f in installed ==> installed[f].tools == tools[f])
      && (forall f :: f in installed && f in m0 ==> installed[f] == m0[f])
    }

    /** One round of the second phase: installs the group of `fn`. */
    method InstallGroup(ghost m0: map<string, FunctionServer>, tools: map<string, seq<ServerTool>>,
                        ghost installed: map<string, FunctionServer>, fn: string)
      returns (c: FunctionServer)
      requires Installing(m0, tools, installed)
      requires fn in tools && fn !in installed
      modifies this`mcps, (if fn in mcps then {mcps[fn]} else {})`tools
      ensures Installing(m0, tools, installed[fn := c])
      ensures fn !in m0 ==> fresh(c)
      ensures forall f :: f in old(mcps) && f != fn ==> old(mcps)[f].tools == old(mcps[f].tools)
    {
      ghost var m1 := mcps;
      c := LoadOrCreateGroup(fn, tools[fn], installed);
      MergeUpdate(m0, installed, fn, c);
      ReuseStep(m0, installed, m1, fn, c);
    }

    /**
     * Second phase: every function in `tools` gets its group (the existing
     * one if there is one, a new one otherwise) with exactly those tools,
     * and one route in a fresh router.
     */
    method InstallGroups(tools: map<string, seq<ServerTool>>) returns (routes: Routes<FunctionServer>, ghost installed: map<string, FunctionServer>)
      requires Valid()
      modifies this`mcps, mcps.Values`tools
      ensures Valid()
      ensures installed.Keys == tools.Keys
      ensures mcps == old(mcps) + installed
      ensures forall f :: f in installed ==> installed[f].tools == tools[f]
      ensures forall f :: f in installed && f in old(mcps) ==> installed[f] == old(mcps)[f]
      ensures forall f :: f in installed && f !in old(mcps) ==> fresh(installed[f])
      ensures RoutesFor(basePath, installed, routes)
      ensures forall f :: f in old(mcps) && f !in tools ==> old(mcps)[f].tools == old(mcps[f].tools)
    {
      routes := map[];
      installed := map[];
      var rest := tools.Keys;
      while rest != {}
        invariant rest <= tools.Keys
        invariant forall f :: f in installed <==> f in tools && f !in rest
        invariant Installing(old(mcps), tools, installed)
        invariant RoutesFor(basePath, installed, routes)
        invariant forall f :: f in installed && f !in old(mcps) ==> fresh(installed[f])
        invariant forall f :: f in old(mcps) && f !in installed ==> old(mcps)[f].tools == old(mcps[f].tools)
        decreases rest
      {
        var fn :| fn in rest;
        var c := InstallGroup(old(mcps), tools, installed, fn);
        RoutesForAdd(basePath, installed, routes, fn, c);
        routes := AddRoute(routes, FnPath(basePath, fn), c);
        installed := installed[fn := c];
        rest := rest - {fn};
      }
    }

    /** Invokes every cancel function stored in `g`, one at a time. */
    method CancelSessions(g: FunctionServer)
      modifies this`cancelled
      ensures cancelled == old(cancelled) + g.conns
    {
      var rest := g.conns;
      while rest != {}
        invariant rest <= g.conns
        invariant cancelled == old(cancelled) + (g.conns - rest)
        decreases rest
      {
        var id :| id in rest;
        cancelled := cancelled + {id};
        rest := rest - {id};
      }
    }

    /**
     * Halfway through the last phase: the groups of `gone` are dropped from
     * `m0` and their sessions added to the `c0` cancel functions invoked before.
     */
    ghost predicate Dropped(m0: map<string, FunctionServer>, c0: set<CancelId>, gone: set<string>)
      reads this, m0.Values
    {
      && Valid()
      && mcps == m0 - gone
      && cancelled == c0 + SessionsOf(m0, gone)
    }

    /** One round of the last phase: cancels the sessions of the group of `fn`, if it is still there, and drops it. */
    method DropGroup(ghost m0: map<string, FunctionServer>, ghost c0: set<CancelId>, ghost gone: set<string>, fn: string)
      requires Dropped(m0, c0, gone)
      modifies this`mcps, this`cancelled
      ensures Dropped(m0, c0, gone + {fn})
    {
      SessionsOfAdd(m0, gone, fn);
      DropStep(m0, gone, fn);
      if fn in mcps {
        // close the sessions still open on the dropped group first
        CancelSessions(mcps[fn]);
      } else {
        assert fn in m0 ==> gone + {fn} == gone;
      }
      mcps := mcps - {fn};
    }

    /**
     * The loop of the last phase: the group of each function in `gcfns` that
     * is still there has its sessions cancelled and is dropped.
     */
    method DropGroups(gcfns: seq<string>) returns (ghost gone: set<string>)
      requires Valid()
      modifies this`mcps, this`cancelled
      ensures gone == set f | f in gcfns
      ensures Valid()
      ensures mcps == old(mcps) - gone
      ensures cancelled == old(cancelled) + SessionsOf(old(mcps), gone)
    {
      gone := {};
      for i := 0 to |gcfns|
        invariant gone == set f | f in gcfns[..i]
        invariant Dropped(old(mcps), old(cancelled), gone)
      {
        DropGroup(old(mcps), old(cancelled), gone, gcfns[i]);
        assert gcfns[..i + 1] == gcfns[..i] + [gcfns[i]];
        gone := gone + {gcfns[i]};
      }
      assert gcfns[..|gcfns|] == gcfns;
    }

    /**
     * Last phase: every group whose function is not in `tools` has all its
     * sessions cancelled and is dropped; the surviving groups are untouched.
     */
    method CollectGarbage(tools: map<string, seq<ServerTool>>)
      requires Valid()
      modifies this`mcps, this`cancelled
      ensures Valid()
      ensures mcps == Restrict(old(mcps), tools.Keys)
      ensures cancelled == old(cancelled) + SessionsOf(old(mcps), old(mcps).Keys - tools.Keys)
    {
      // collect the functions no config refers to any more
      var gcfns: seq<string> := [];
      var rest := mcps.Keys;
      while rest != {}
        invariant rest <= mcps.Keys
        invariant forall f :: f in gcfns <==> f in mcps && f !in rest && f !in tools
        decreases rest
      {
        var fnKey :| fnKey in rest;
        if fnKey !in tools {
          gcfns := gcfns + [fnKey];
        }
        rest := rest - {fnKey};
      }
      var gone := DropGroups(gcfns);
      assert gone == old(mcps).Keys - tools.Keys;
      assert mcps == Restrict(old(mcps), tools.Keys);
    }

    /**
     * Phases two to four of a recompute, given the grouped tools: installs
     * the groups, swaps in their router, then drops the unreferenced groups.
     */
    method Rebuild(tools: map<string, seq<ServerTool>>)
      requires Valid()
      modifies this`mcps, this`cancelled, router, mcps.Values`tools
      ensures Valid()
      ensures mcps.Keys == tools.Keys
      ensures RoutesFor(basePath, mcps, router.routes)
      ensures forall fn :: fn in mcps ==> mcps[fn].tools == tools[fn]
      ensures forall fn :: fn in mcps && fn in old(mcps) ==> mcps[fn] == old(mcps)[fn]
      ensures forall fn :: fn in mcps && fn !in old(mcps) ==> fresh(mcps[fn])
      ensures cancelled == old(cancelled) + SessionsOf(old(mcps), old(mcps).Keys - tools.Keys)
      ensures router.installs == old(router.installs) + 1
      ensures forall f :: f in old(mcps) && f !in mcps ==> old(mcps)[f].tools == old(mcps[f].tools)
    {
      var routes, installed := InstallGroups(tools);
      router.UpdateRouter(routes);
      CollectGarbage(tools);
      // the dropped groups are the old groups that were not installed again
      SessionsOfMerge(old(mcps), installed, tools.Keys);
      // the survivors are exactly the installed groups
      RestrictMerge(old(mcps), installed, tools.Keys);
    }

    /**
     * Recomputes the scope from its configs: regroups the tools, keeps each
     * still-referenced group and replaces only its tools, installs one fresh
     * router, then cancels and drops the groups nothing refers to.
     */
    method PopulateConfigs() returns (ghost order: seq<string>)
      requires Valid()
      modifies this`mcps, this`cancelled, router, mcps.Values`tools
      ensures Valid() && Synced()
      ensures Enumerates(order, configs.Keys) && Covers(configs, order)
      ensures forall fn :: fn in mcps ==> fn in Collect(configs, order) && mcps[fn].tools == Collect(configs, order)[fn]
      ensures forall fn :: fn in mcps && fn in old(mcps) ==> mcps[fn] == old(mcps)[fn]
      ensures forall fn :: fn in mcps && fn !in old(mcps) ==> fresh(mcps[fn])
      ensures cancelled == old(cancelled) + SessionsOf(old(mcps), old(mcps).Keys - FunctionsOf(configs))
      ensures router.installs == old(router.installs) + 1
      ensures forall f :: f in old(mcps) && f !in mcps ==> old(mcps)[f].tools == old(mcps[f].tools)
    {
      var tools;
      tools, order := CollectTools();
      Rebuild(tools);
    }
  }
}
