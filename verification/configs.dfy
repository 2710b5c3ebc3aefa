/**
 * The pure half of the function-group side: the tool-configuration records
 * carried by "mcp" triggers, the keys derived from a trigger, and the
 * grouping of configured tools by backend function that every recompute of
 * a scope performs.
 */
module Configs {
  import opened Kube

  /** One entry of a trigger's `tools` list: name, description, raw JSON schema. */
  datatype ToolConfig = ToolConfig(name: string, desc: string, schema: seq<byte>)

  /** The decoded trigger arguments: the `{token, tools}` shape. */
  datatype ToolsPayload = ToolsPayload(token: string, tools: seq<ToolConfig>)

  /** JSON decoding of trigger arguments; it is a library call, so the model takes it as given. */
  type Decoder = seq<byte> -> Option<ToolsPayload>

  /**
   * A stored tool configuration: `key` identifies the trigger it came from,
   * `ns` and `fn` say which backend function its tools call, and `token`
   * names the secret whose scope owns it.
   */
  datatype McpConfig = McpConfig(key: string, ns: string, fn: string, token: string, tools: seq<ToolConfig>)

  /** What a tool's call handler is built from: call type, method name and target function. */
  datatype ToolCall = ToolCall(callType: string, callMethod: string, ns: string, fn: string)

  /** A tool as registered with a function group's protocol server. */
  datatype ServerTool = ServerTool(name: string, desc: string, schema: seq<byte>, handler: ToolCall)

  /** "namespace/name/funcName": the key under which a trigger's config is stored. */
  function McpEntryKey(t: Trigger): string
  {
    t.namespace + "/" + t.name + "/" + t.spec.funcName
  }

  /**
   * Within one namespace and one function, two triggers store their configs
   * under the same entry key exactly when they have the same name.
   */
  lemma McpEntryKeySeparates(t1: Trigger, t2: Trigger)
    requires t1.namespace == t2.namespace && t1.spec.funcName == t2.spec.funcName
    ensures McpEntryKey(t1) == McpEntryKey(t2) <==> t1.name == t2.name
  {
    if McpEntryKey(t1) == McpEntryKey(t2) {
      var n := |t1.namespace| + 1;
      var m := |t1.spec.funcName| + 1;
      assert t1.name == McpEntryKey(t1)[n..|McpEntryKey(t1)| - m];
      assert t2.name == McpEntryKey(t2)[n..|McpEntryKey(t2)| - m];
    }
  }

  /**
   * Decodes a trigger's arguments into its config and the key of the scope
   * that owns it ("namespace/token"). Decoding is the only way to fail.
   */
  function TriggerForToolConfig(t: Trigger, decode: Decoder): (r: Option<(string, McpConfig)>)
    ensures r.Some? <==> decode(t.spec.args).Some?
    ensures r.Some? ==> r.value.1.key == McpEntryKey(t) && r.value.1.fn == t.spec.funcName
  {
    match decode(t.spec.args)
    case None => None
    case Some(p) =>
      Some((ScopeKey(t.namespace, p.token),
            McpConfig(McpEntryKey(t), t.namespace, t.spec.funcName, p.token, p.tools)))
  }

  /**
   * The filter a trigger event passes before it touches any scope: the
   * object must be a trigger of the "mcp" type whose arguments decode. The
   * result is the owning scope's key and the config to store or drop.
   */
  function TriggerTarget(o: Object, decode: Decoder): Option<(string, McpConfig)>
  {
    match o
    case TriggerObj(t) =>
      if t.spec.triggerType != MCPTriggerType then None else TriggerForToolConfig(t, decode)
    case _ => None
  }

  /** An event is dropped by the filter exactly when it is not a trigger, not of the "mcp" type, or does not decode. */
  lemma TriggerTargetNone(o: Object, decode: Decoder)
    ensures TriggerTarget(o, decode).None? <==>
      || !o.TriggerObj?
      || o.trigger.spec.triggerType != MCPTriggerType
      || decode(o.trigger.spec.args).None?
  {
  }

  /** A trigger that passes the filter targets the scope named by its token, with its config stored under its entry key. */
  lemma TriggerTargetSome(o: Object, decode: Decoder)
    requires TriggerTarget(o, decode).Some?
    ensures o.TriggerObj? && decode(o.trigger.spec.args).Some?
    ensures var t := o.trigger; var p := decode(t.spec.args).value;
      TriggerTarget(o, decode).value
        == (ScopeKey(t.namespace, p.token), McpConfig(McpEntryKey(t), t.namespace, t.spec.funcName, p.token, p.tools))
  {
  }

  /**
   * A trigger belongs to the scope of a secret in its own namespace exactly
   * when its `token` field names that secret.
   */
  lemma TriggerScopeNamesSecret(t: Trigger, decode: Decoder, s: Secret)
    requires decode(t.spec.args).Some?
    requires t.namespace == s.namespace
    ensures TriggerForToolConfig(t, decode).value.0 == K8sKey(s)
        <==> decode(t.spec.args).value.token == s.name
  {
    ScopeKeyInjective(t.namespace, decode(t.spec.args).value.token, s.name);
  }

  /** The registered form of one configured tool; its handler calls `fn` with method `name`. */
  function ToolEntry(cfg: McpConfig, t: ToolConfig): ServerTool
  {
    ServerTool(t.name, t.desc, t.schema, ToolCall("tool", t.name, cfg.ns, cfg.fn))
  }

  /** The tools of `ts` that get registered, in order: every entry with a non-empty name. */
  function Registered(cfg: McpConfig, ts: seq<ToolConfig>): seq<ServerTool>
    decreases |ts|
  {
    if ts == [] then []
    else
      var last := ts[|ts| - 1];
      Registered(cfg, ts[..|ts| - 1]) + (if last.name == "" then [] else [ToolEntry(cfg, last)])
  }

  /** Extends the list stored for `fn` by `xs`; `fn` is only added when `xs` is non-empty. */
  function Append(m: map<string, seq<ServerTool>>, fn: string, xs: seq<ServerTool>): map<string, seq<ServerTool>>
  {
    if xs == [] then m else m[fn := (if fn in m then m[fn] else []) + xs]
  }

  /** Every key of `order` is a config key. */
  ghost predicate Covers(cs: map<string, McpConfig>, order: seq<string>)
  {
    forall i :: 0 <= i < |order| ==> order[i] in cs
  }

  /** `order` lists every key of `keys` exactly once: one pass of a map iteration. */
  ghost predicate Enumerates(order: seq<string>, keys: set<string>)
  {
    && (forall i, j :: 0 <= i < j < |order| ==> order[i] != order[j])
    && (forall k :: k in keys <==> k in order)
  }

  /** Visiting one more, new, key extends an enumeration by that key. */
  lemma EnumeratesSnoc(order: seq<string>, keys: set<string>, k: string)
    requires Enumerates(order, keys) && k !in keys
    ensures Enumerates(order + [k], keys + {k})
  {
  }

  /** The function -> tools map built by visiting the configs in `order`. */
  function Collect(cs: map<string, McpConfig>, order: seq<string>): map<string, seq<ServerTool>>
    requires Covers(cs, order)
    decreases |order|
  {
    if order == [] then map[]
    else
      var cfg := cs[order[|order| - 1]];
      Append(Collect(cs, order[..|order| - 1]), cfg.fn, Registered(cfg, cfg.tools))
  }

  /** Reference definition: the registered tools of the configs calling `fn`, concatenated in `order`. */
  function ToolsFor(cs: map<string, McpConfig>, order: seq<string>, fn: string): seq<ServerTool>
    requires Covers(cs, order)
    decreases |order|
  {
    if order == [] then []
    else
      var cfg := cs[order[|order| - 1]];
      ToolsFor(cs, order[..|order| - 1], fn) + (if cfg.fn == fn then Registered(cfg, cfg.tools) else [])
  }

  /** The functions that have at least one named tool in some config; no order involved. */
  function FunctionsOf(cs: map<string, McpConfig>): set<string>
  {
    set k | k in cs && Registered(cs[k], cs[k].tools) != [] :: cs[k].fn
  }

  /** An unnamed tool is skipped; every named sibling is registered, and nothing else is. */
  lemma {:induction false} RegisteredSkipsUnnamed(cfg: McpConfig, ts: seq<ToolConfig>)
    ensures forall st :: st in Registered(cfg, ts) <==>
      exists i :: 0 <= i < |ts| && ts[i].name != "" && st == ToolEntry(cfg, ts[i])
    decreases |ts|
  {
    if ts != [] {
      var init := ts[..|ts| - 1];
      RegisteredSkipsUnnamed(cfg, init);
      forall st ensures st in Registered(cfg, ts) <==>
        exists i :: 0 <= i < |ts| && ts[i].name != "" && st == ToolEntry(cfg, ts[i])
      {
        if st in Registered(cfg, ts) {
          if st in Registered(cfg, init) {
            var i :| 0 <= i < |init| && init[i].name != "" && st == ToolEntry(cfg, init[i]);
            assert ts[i] == init[i];
          } else {
            assert ts[|ts| - 1].name != "" && st == ToolEntry(cfg, ts[|ts| - 1]);
          }
        }
        if exists i :: 0 <= i < |ts| && ts[i].name != "" && st == ToolEntry(cfg, ts[i]) {
          var i :| 0 <= i < |ts| && ts[i].name != "" && st == ToolEntry(cfg, ts[i]);
          if i < |ts| - 1 {
            assert init[i] == ts[i];
          }
        }
      }
    }
  }

  /** Registering a list one entry longer appends at most that entry. */
  lemma RegisteredSnoc(cfg: McpConfig, ts: seq<ToolConfig>, i: nat)
    requires i < |ts|
    ensures Registered(cfg, ts[..i + 1]) ==
      Registered(cfg, ts[..i]) + (if ts[i].name == "" then [] else [ToolEntry(cfg, ts[i])])
  {
    assert ts[..i + 1][..i] == ts[..i];
  }

  /** Appending in two steps is appending the concatenation. */
  lemma AppendTwice(m: map<string, seq<ServerTool>>, fn: string, xs: seq<ServerTool>, ys: seq<ServerTool>)
    ensures Append(Append(m, fn, xs), fn, ys) == Append(m, fn, xs + ys)
  {
    if xs == [] {
      assert xs + ys == ys;
    } else if ys == [] {
      assert xs + ys == xs;
    } else {
      var m1 := Append(m, fn, xs);
      assert m1[fn] == (if fn in m then m[fn] else []) + xs;
      assert (if fn in m then m[fn] else []) + xs + ys == (if fn in m then m[fn] else []) + (xs + ys);
    }
  }

  /**
   * One round of the grouping loop: a named tool starts its function's list
   * if needed and is appended to it; an unnamed one changes nothing. Either
   * way the table stays "the lists so far, plus the registered prefix".
   */
  lemma AddToolStep(tools: map<string, seq<ServerTool>>, m: map<string, seq<ServerTool>>, cfg: McpConfig, idx: nat)
    requires idx < |cfg.tools|
    requires tools == Append(m, cfg.fn, Registered(cfg, cfg.tools[..idx]))
    ensures cfg.tools[idx].name == "" ==> tools == Append(m, cfg.fn, Registered(cfg, cfg.tools[..idx + 1]))
    ensures cfg.tools[idx].name != "" ==>
      var started := if cfg.fn in tools then tools else tools[cfg.fn := []];
      started[cfg.fn := started[cfg.fn] + [ToolEntry(cfg, cfg.tools[idx])]]
        == Append(m, cfg.fn, Registered(cfg, cfg.tools[..idx + 1]))
  {
    var done := Registered(cfg, cfg.tools[..idx]);
    RegisteredSnoc(cfg, cfg.tools, idx);
    if cfg.tools[idx].name == "" {
      assert done + [] == done;
    } else {
      var x := ToolEntry(cfg, cfg.tools[idx]);
      AppendTwice(m, cfg.fn, done, [x]);
      var started := if cfg.fn in tools then tools else tools[cfg.fn := []];
      assert started[cfg.fn := started[cfg.fn] + [x]] == Append(tools, cfg.fn, [x]);
    }
  }

  /**
   * After visiting the configs in `order`, the list for `fn` is exactly the
   * registered tools of the configs calling `fn`, in visiting order, and
   * `fn` is present only when that list is non-empty.
   */
  lemma {:induction false} CollectIsToolsFor(cs: map<string, McpConfig>, order: seq<string>)
    requires Covers(cs, order)
    ensures forall fn :: fn in Collect(cs, order) <==> ToolsFor(cs, order, fn) != []
    ensures forall fn :: fn in Collect(cs, order) ==> Collect(cs, order)[fn] == ToolsFor(cs, order, fn)
    decreases |order|
  {
    if order != [] {
      var init := order[..|order| - 1];
      CollectIsToolsFor(cs, init);
    }
  }

  /** `fn` has registered tools under `order` exactly when one visited config calling `fn` has a named tool. */
  lemma {:induction false} ToolsForNonEmpty(cs: map<string, McpConfig>, order: seq<string>, fn: string)
    requires Covers(cs, order)
    ensures ToolsFor(cs, order, fn) != [] <==>
      exists i :: 0 <= i < |order| && cs[order[i]].fn == fn && Registered(cs[order[i]], cs[order[i]].tools) != []
    decreases |order|
  {
    if order != [] {
      var init := order[..|order| - 1];
      ToolsForNonEmpty(cs, init, fn);
      if exists i :: 0 <= i < |init| && cs[init[i]].fn == fn && Registered(cs[init[i]], cs[init[i]].tools) != [] {
        var i :| 0 <= i < |init| && cs[init[i]].fn == fn && Registered(cs[init[i]], cs[init[i]].tools) != [];
        assert order[i] == init[i];
      }
      if exists i :: 0 <= i < |order| && cs[order[i]].fn == fn && Registered(cs[order[i]], cs[order[i]].tools) != [] {
        var i :| 0 <= i < |order| && cs[order[i]].fn == fn && Registered(cs[order[i]], cs[order[i]].tools) != [];
        if i < |order| - 1 {
          assert init[i] == order[i];
        }
      }
    }
  }

  /**
   * Which functions get a group does not depend on the iteration order:
   * one full pass over the configs yields exactly FunctionsOf.
   */
  lemma CollectKeys(cs: map<string, McpConfig>, order: seq<string>)
    requires Enumerates(order, cs.Keys)
    ensures Covers(cs, order)
    ensures Collect(cs, order).Keys == FunctionsOf(cs)
  {
    CollectIsToolsFor(cs, order);
    forall fn ensures fn in Collect(cs, order) <==> fn in FunctionsOf(cs) {
      ToolsForNonEmpty(cs, order, fn);
      if fn in FunctionsOf(cs) {
        var k :| k in cs && Registered(cs[k], cs[k].tools) != [] && cs[k].fn == fn;
        var i :| 0 <= i < |order| && order[i] == k;
      }
    }
  }

  /**
   * A tool is registered for `fn` exactly when some visited config calling
   * `fn` lists it under a non-empty name; an unnamed entry never hides its
   * siblings, in the same config or in other configs.
   */
  lemma ToolsForMembers(cs: map<string, McpConfig>, order: seq<string>, fn: string, st: ServerTool)
    requires Covers(cs, order)
    ensures st in ToolsFor(cs, order, fn) <==>
      exists i, j :: 0 <= i < |order| && cs[order[i]].fn == fn && 0 <= j < |cs[order[i]].tools|
        && cs[order[i]].tools[j].name != "" && st == ToolEntry(cs[order[i]], cs[order[i]].tools[j])
  {
    if st in ToolsFor(cs, order, fn) {
      ToolsForSound(cs, order, fn, st);
    }
    if exists i, j :: 0 <= i < |order| && cs[order[i]].fn == fn && 0 <= j < |cs[order[i]].tools|
        && cs[order[i]].tools[j].name != "" && st == ToolEntry(cs[order[i]], cs[order[i]].tools[j])
    {
      var i, j :| 0 <= i < |order| && cs[order[i]].fn == fn && 0 <= j < |cs[order[i]].tools|
        && cs[order[i]].tools[j].name != "" && st == ToolEntry(cs[order[i]], cs[order[i]].tools[j]);
      ToolsForComplete(cs, order, fn, i, j);
    }
  }

  /** Every tool listed for `fn` comes from a named entry of a config of `fn`. */
  lemma {:induction false} ToolsForSound(cs: map<string, McpConfig>, order: seq<string>, fn: string, st: ServerTool)
    requires Covers(cs, order) && st in ToolsFor(cs, order, fn)
    ensures exists i, j :: (0 <= i < |order| && cs[order[i]].fn == fn && 0 <= j < |cs[order[i]].tools|
      && cs[order[i]].tools[j].name != "" && st == ToolEntry(cs[order[i]], cs[order[i]].tools[j]))
    decreases |order|
  {
    var init := order[..|order| - 1];
    var last := order[|order| - 1];
    if st in ToolsFor(cs, init, fn) {
      ToolsForSound(cs, init, fn, st);
      var i, j :| 0 <= i < |init| && cs[init[i]].fn == fn && 0 <= j < |cs[init[i]].tools|
        && cs[init[i]].tools[j].name != "" && st == ToolEntry(cs[init[i]], cs[init[i]].tools[j]);
      assert order[i] == init[i];
    } else {
      RegisteredSkipsUnnamed(cs[last], cs[last].tools);
      var j :| 0 <= j < |cs[last].tools| && cs[last].tools[j].name != "" && st == ToolEntry(cs[last], cs[last].tools[j]);
      assert order[|order| - 1] == last;
    }
  }

  /** Every named entry of every config of `fn` is listed for `fn`. */
  lemma {:induction false} ToolsForComplete(cs: map<string, McpConfig>, order: seq<string>, fn: string, i: int, j: int)
    requires Covers(cs, order)
    requires 0 <= i < |order| && cs[order[i]].fn == fn && 0 <= j < |cs[order[i]].tools| && cs[order[i]].tools[j].name != ""
    ensures ToolEntry(cs[order[i]], cs[order[i]].tools[j]) in ToolsFor(cs, order, fn)
    decreases |order|
  {
    var init := order[..|order| - 1];
    var last := order[|order| - 1];
    if i < |order| - 1 {
      assert init[i] == order[i];
      ToolsForComplete(cs, init, fn, i, j);
    } else {
      RegisteredSkipsUnnamed(cs[last], cs[last].tools);
    }
  }
}
