/**
 * The pure half of the scope side: the endpoint record kept per credential
 * secret, the path it is served under, the token read from the secret, and
 * the decision an upsert or deletion of a secret takes on the endpoint table.
 */
module Endpoints {
  import opened Kube
  import opened Configs
  import opened Mux

  /** The endpoint of one credential secret: its namespace, its name and its token. */
  datatype HttpHandler = HttpHandler(ns: string, name: string, token: string)

  /** "namespace/name": the key of the endpoint and of its scope. */
  function Key(h: HttpHandler): string
  {
    ScopeKey(h.ns, h.name)
  }

  /** "/namespace/name", followed by "/token" when the token is not empty. */
  function EndpointPath(h: HttpHandler): string
  {
    var base := "/" + h.ns + "/" + h.name;
    if h.token != "" then base + "/" + h.token else base
  }

  /** The path is the scope key behind a slash, and the token segment is there exactly when the token is. */
  lemma EndpointPathShape(h: HttpHandler)
    ensures EndpointPath(h)[..|Key(h)| + 1] == "/" + Key(h)
    ensures |EndpointPath(h)| == |Key(h)| + 1 <==> h.token == ""
    ensures h.token != "" ==> EndpointPath(h)[|Key(h)| + 1..] == "/" + h.token
  {
    var base := "/" + h.ns + "/" + h.name;
    assert base == "/" + Key(h);
    if h.token != "" {
      assert EndpointPath(h) == base + ("/" + h.token);
    }
  }

  /** Within one scope, distinct non-empty tokens give distinct paths. */
  lemma EndpointPathTokens(h: HttpHandler, t1: string, t2: string)
    requires t1 != "" && t2 != ""
    ensures EndpointPath(h.(token := t1)) == EndpointPath(h.(token := t2)) <==> t1 == t2
  {
    var n := |Key(h)| + 1;
    if EndpointPath(h.(token := t1)) == EndpointPath(h.(token := t2)) {
      EndpointPathShape(h.(token := t1));
      EndpointPathShape(h.(token := t2));
      assert ("/" + t1)[1..] == t1;
      assert ("/" + t2)[1..] == t2;
    }
  }

  /** The token of a secret: its "token" data as a string, the empty string when there is none. */
  function TokenOf(s: Secret): string
  {
    if "token" in s.data then BytesToString(s.data["token"]) else ""
  }

  /** A secret yields the empty token exactly when it has no token data or the data is empty. */
  lemma TokenOfEmpty(s: Secret)
    ensures TokenOf(s) == "" <==> "token" !in s.data || s.data["token"] == []
  {
  }

  /** The endpoint record an upsert of `s` stores. */
  function HandlerOf(s: Secret): (h: HttpHandler)
    ensures Key(h) == K8sKey(s)
  {
    HttpHandler(s.namespace, s.name, TokenOf(s))
  }

  /** What an event about a secret does to the endpoint table. */
  datatype SecretStep =
    | Ignore                              // nothing changes, no rebuild
    | Remove(key: string)                 // a known secret is being deleted
    | Insert(key: string, h: HttpHandler) // a secret not seen before
    | Replace(key: string, h: HttpHandler) // a known secret whose token changed

  /** The step for secret `s` against the current table. */
  function PlanSecretChange(endpoints: map<string, HttpHandler>, s: Secret): SecretStep
  {
    var key := K8sKey(s);
    if s.deleting then
      if key in endpoints then Remove(key) else Ignore
    else if key !in endpoints then Insert(key, HandlerOf(s))
    else if endpoints[key].token != TokenOf(s) then Replace(key, HandlerOf(s))
    else Ignore
  }

  /** Every step but Ignore rebuilds the router. */
  predicate Rebuilds(step: SecretStep)
  {
    !step.Ignore?
  }

  /** The endpoint table after a step. */
  function ApplyStep(endpoints: map<string, HttpHandler>, step: SecretStep): map<string, HttpHandler>
  {
    match step
    case Ignore => endpoints
    case Remove(key) => endpoints - {key}
    case Insert(key, h) => endpoints[key := h]
    case Replace(key, h) => endpoints[key := h]
  }

  /** Every record is stored under its own key. */
  ghost predicate KeysConsistent(endpoints: map<string, HttpHandler>)
  {
    forall k :: k in endpoints ==> Key(endpoints[k]) == k
  }

  /**
   * The outcome of a secret event, case by case: a deletion removes a known
   * key and rebuilds, or does nothing; an upsert of a new key stores its
   * record and rebuilds; an upsert of a known key rebuilds exactly when the
   * token changed, and then stores the new record.
   */
  lemma SecretChangeOutcome(endpoints: map<string, HttpHandler>, s: Secret)
    ensures var step := PlanSecretChange(endpoints, s);
      var after := ApplyStep(endpoints, step);
      && (s.deleting && K8sKey(s) in endpoints ==> Rebuilds(step) && after == endpoints - {K8sKey(s)})
      && (s.deleting && K8sKey(s) !in endpoints ==> !Rebuilds(step) && after == endpoints)
      && (!s.deleting && K8sKey(s) !in endpoints ==> Rebuilds(step) && after == endpoints[K8sKey(s) := HandlerOf(s)])
      && (!s.deleting && K8sKey(s) in endpoints ==>
            (Rebuilds(step) <==> endpoints[K8sKey(s)].token != TokenOf(s))
            && after == (if Rebuilds(step) then endpoints[K8sKey(s) := HandlerOf(s)] else endpoints))
  {
  }

  /** Delivering the same secret event twice: the second delivery changes nothing and does not rebuild. */
  lemma SecretChangeRedelivery(endpoints: map<string, HttpHandler>, s: Secret)
    ensures var after := ApplyStep(endpoints, PlanSecretChange(endpoints, s));
      PlanSecretChange(after, s) == Ignore
  {
  }

  /** Every step keeps each record under its own key. */
  lemma SecretChangeKeepsKeys(endpoints: map<string, HttpHandler>, s: Secret)
    requires KeysConsistent(endpoints)
    ensures KeysConsistent(ApplyStep(endpoints, PlanSecretChange(endpoints, s)))
  {
  }

  /** After an upsert the table holds, under the secret's key, a record with the secret's token. */
  lemma UpsertStoresToken(endpoints: map<string, HttpHandler>, s: Secret)
    requires !s.deleting
    ensures var after := ApplyStep(endpoints, PlanSecretChange(endpoints, s));
      K8sKey(s) in after && after[K8sKey(s)].token == TokenOf(s)
  {
  }

  /**
   * The configs a newly observed scope is rebuilt with: the listed triggers,
   * in list order, that pass the trigger filter and target `key`, each stored
   * under its entry key (a later trigger overwrites an earlier one).
   */
  function Replay(cs: map<string, McpConfig>, ts: seq<Trigger>, key: string, decode: Decoder): map<string, McpConfig>
    decreases |ts|
  {
    if ts == [] then cs
    else
      var before := Replay(cs, ts[..|ts| - 1], key, decode);
      match TriggerTarget(TriggerObj(ts[|ts| - 1]), decode)
      case Some((scope, cfg)) => if scope == key then before[cfg.key := cfg] else before
      case None => before
  }

  /** Replaying one more trigger stores its config when it targets the scope, and changes nothing otherwise. */
  lemma ReplaySnoc(cs: map<string, McpConfig>, ts: seq<Trigger>, t: Trigger, key: string, decode: Decoder)
    ensures Replay(cs, ts + [t], key, decode) ==
      var before := Replay(cs, ts, key, decode);
      match TriggerTarget(TriggerObj(t), decode)
      case Some((scope, cfg)) => if scope == key then before[cfg.key := cfg] else before
      case None => before
  {
    assert (ts + [t])[..|ts|] == ts;
  }

  /** Whether the `i`th listed trigger is replayed into scope `key` with a config stored under `k`. */
  ghost predicate ReplaysInto(ts: seq<Trigger>, i: int, key: string, decode: Decoder, k: string)
  {
    && 0 <= i < |ts|
    && TriggerTarget(TriggerObj(ts[i]), decode).Some?
    && TriggerTarget(TriggerObj(ts[i]), decode).value.0 == key
    && TriggerTarget(TriggerObj(ts[i]), decode).value.1.key == k
  }

  /** Replaying into an empty scope stores a config under `k` exactly when some listed trigger replays into it with that entry key. */
  lemma {:induction false} ReplayKeys(ts: seq<Trigger>, key: string, decode: Decoder, k: string)
    ensures k in Replay(map[], ts, key, decode) <==> exists i :: ReplaysInto(ts, i, key, decode, k)
    decreases |ts|
  {
    if ts != [] {
      var init := ts[..|ts| - 1];
      ReplayKeys(init, key, decode, k);
      forall i | 0 <= i < |init| ensures ReplaysInto(init, i, key, decode, k) <==> ReplaysInto(ts, i, key, decode, k) {
        assert init[i] == ts[i];
      }
      if ReplaysInto(ts, |ts| - 1, key, decode, k) {
        assert k in Replay(map[], ts, key, decode);
      }
    }
  }

  /** The config stored under `k` is the one of the last listed trigger that replays into the scope with that entry key, at index `i`. */
  lemma {:induction false} ReplayLastWins(ts: seq<Trigger>, key: string, decode: Decoder, k: string) returns (i: int)
    requires k in Replay(map[], ts, key, decode)
    ensures ReplaysInto(ts, i, key, decode, k)
    ensures Replay(map[], ts, key, decode)[k] == TriggerTarget(TriggerObj(ts[i]), decode).value.1
    ensures forall j :: i < j < |ts| ==> !ReplaysInto(ts, j, key, decode, k)
    decreases |ts|
  {
    var init := ts[..|ts| - 1];
    var last := |ts| - 1;
    if ReplaysInto(ts, last, key, decode, k) {
      i := last;
    } else {
      i := ReplayLastWins(init, key, decode, k);
      assert init[i] == ts[i];
      forall j | i < j < |ts| ensures !ReplaysInto(ts, j, key, decode, k) {
        if j < last {
          assert init[j] == ts[j];
          assert !ReplaysInto(init, j, key, decode, k);
        }
      }
    }
  }

  /**
   * The routes of one rebuild of the endpoint router, visiting the endpoint
   * table in `order`: an endpoint whose secret is in the cache and whose
   * scope has an entry registers that entry under its path; a path already
   * registered keeps its first entry.
   */
  function EndpointRoutes<H>(eps: map<string, HttpHandler>, order: seq<string>, secrets: map<string, Secret>,
                             entries: map<string, H>): Routes<H>
    requires forall i :: 0 <= i < |order| ==> order[i] in eps
    decreases |order|
  {
    if order == [] then map[]
    else
      var before := EndpointRoutes(eps, order[..|order| - 1], secrets, entries);
      var h := eps[order[|order| - 1]];
      if Key(h) in secrets && Key(h) in entries then AddRoute(before, EndpointPath(h), entries[Key(h)]) else before
  }

  /** Whether the endpoint listed at `i` registers a route: its secret is cached and its scope has an entry. */
  ghost predicate Registers<H>(eps: map<string, HttpHandler>, order: seq<string>, secrets: map<string, Secret>,
                               entries: map<string, H>, i: int)
  {
    0 <= i < |order| && order[i] in eps && Key(eps[order[i]]) in secrets && Key(eps[order[i]]) in entries
  }

  /** Every registering endpoint has its path routed, whatever the other endpoints are. */
  lemma {:induction false} EndpointRoutesServed<H>(eps: map<string, HttpHandler>, order: seq<string>,
                                                   secrets: map<string, Secret>, entries: map<string, H>, i: int)
    requires forall i :: 0 <= i < |order| ==> order[i] in eps
    requires Registers(eps, order, secrets, entries, i)
    ensures EndpointPath(eps[order[i]]) in EndpointRoutes(eps, order, secrets, entries)
    decreases |order|
  {
    var init := order[..|order| - 1];
    if i < |order| - 1 {
      assert init[i] == order[i];
      assert Registers(eps, init, secrets, entries, i);
      EndpointRoutesServed(eps, init, secrets, entries, i);
    }
  }

  /**
   * Every route is the path of a registering endpoint, and leads to the entry
   * of the first registering endpoint with that path, at index `i`.
   */
  lemma {:induction false} EndpointRoutesOrigin<H>(eps: map<string, HttpHandler>, order: seq<string>,
                                                   secrets: map<string, Secret>, entries: map<string, H>, p: string)
    returns (i: int)
    requires forall i :: 0 <= i < |order| ==> order[i] in eps
    requires p in EndpointRoutes(eps, order, secrets, entries)
    ensures Registers(eps, order, secrets, entries, i) && EndpointPath(eps[order[i]]) == p
    ensures EndpointRoutes(eps, order, secrets, entries)[p] == entries[Key(eps[order[i]])]
    ensures forall j :: 0 <= j < i && Registers(eps, order, secrets, entries, j) ==> EndpointPath(eps[order[j]]) != p
    decreases |order|
  {
    var init := order[..|order| - 1];
    var last := |order| - 1;
    if p in EndpointRoutes(eps, init, secrets, entries) {
      i := EndpointRoutesOrigin(eps, init, secrets, entries, p);
      assert init[i] == order[i];
      forall j | 0 <= j < i && Registers(eps, order, secrets, entries, j) ensures EndpointPath(eps[order[j]]) != p {
        assert init[j] == order[j];
        assert Registers(eps, init, secrets, entries, j);
      }
    } else {
      i := last;
      forall j | 0 <= j < last && Registers(eps, order, secrets, entries, j) ensures EndpointPath(eps[order[j]]) != p {
        assert init[j] == order[j];
        assert Registers(eps, init, secrets, entries, j);
        EndpointRoutesServed(eps, init, secrets, entries, j);
      }
    }
  }

  /** The routes depend on the entries only at the keys of the listed endpoints. */
  lemma {:induction false} EndpointRoutesFrame<H>(eps: map<string, HttpHandler>, order: seq<string>,
                                                  secrets: map<string, Secret>, entries: map<string, H>, entries': map<string, H>)
    requires forall i :: 0 <= i < |order| ==> order[i] in eps
    requires forall i :: 0 <= i < |order| ==>
      var k := Key(eps[order[i]]);
      (k in entries <==> k in entries') && (k in entries ==> entries[k] == entries'[k])
    ensures EndpointRoutes(eps, order, secrets, entries) == EndpointRoutes(eps, order, secrets, entries')
    decreases |order|
  {
    if order != [] {
      var init := order[..|order| - 1];
      EndpointRoutesFrame(eps, init, secrets, entries, entries');
    }
  }

  /** When no earlier registering endpoint shares its path, an endpoint's path leads to its own scope's entry. */
  lemma EndpointRoutesTarget<H>(eps: map<string, HttpHandler>, order: seq<string>,
                                secrets: map<string, Secret>, entries: map<string, H>, i: int)
    requires forall i :: 0 <= i < |order| ==> order[i] in eps
    requires Registers(eps, order, secrets, entries, i)
    requires forall j :: 0 <= j < i ==> EndpointPath(eps[order[j]]) != EndpointPath(eps[order[i]])
    ensures EndpointPath(eps[order[i]]) in EndpointRoutes(eps, order, secrets, entries)
    ensures EndpointRoutes(eps, order, secrets, entries)[EndpointPath(eps[order[i]])] == entries[Key(eps[order[i]])]
  {
    var p := EndpointPath(eps[order[i]]);
    EndpointRoutesServed(eps, order, secrets, entries, i);
    var first := EndpointRoutesOrigin(eps, order, secrets, entries, p);
  }

  /**
   * Visiting one more endpoint, whose scope key no visited endpoint has and
   * whose entry is either unchanged or newly added, registers at most its own
   * route on top of the routes so far.
   */
  lemma EndpointRoutesSnoc<H>(eps: map<string, HttpHandler>, order: seq<string>, secrets: map<string, Secret>,
                              entries: map<string, H>, entries': map<string, H>, key: string)
    requires forall i :: 0 <= i < |order| ==> order[i] in eps
    requires key in eps && Key(eps[key]) == key
    requires forall i :: 0 <= i < |order| ==> Key(eps[order[i]]) != key
    requires entries' == entries || (key !in entries && key in entries' && entries' == entries[key := entries'[key]])
    ensures EndpointRoutes(eps, order + [key], secrets, entries') ==
      var before := EndpointRoutes(eps, order, secrets, entries);
      if key in secrets && key in entries' then AddRoute(before, EndpointPath(eps[key]), entries'[key]) else before
  {
    EndpointRoutesFrame(eps, order, secrets, entries, entries');
    assert (order + [key])[..|order|] == order;
  }
}
