/**
 * The watched Kubernetes objects as the reconciliation engine sees them:
 * credential secrets, function triggers, and the label and type constants
 * that select them. Identities are "namespace/name" keys.
 */
module Kube {

  datatype Option<+T> = None | Some(value: T)

  /** One byte of a secret's data or of a raw payload. */
  newtype byte = b: int | 0 <= b < 256

  /** Label on the secrets the server watches, and the value it must carry. */
  const MCPSecretLabel: string := "mcp.refunc.io/secret-type"
  const MCPSecretLabelType: string := "token"
  /** The only trigger type the server acts on. */
  const MCPTriggerType: string := "mcp"

  /** A credential secret; `deleting` stands for a non-zero deletion timestamp. */
  datatype Secret = Secret(
    namespace: string,
    name: string,
    resourceVersion: string,
    labels: map<string, string>,
    data: map<string, seq<byte>>,
    deleting: bool)

  datatype TriggerSpec = TriggerSpec(triggerType: string, funcName: string, args: seq<byte>)

  datatype Trigger = Trigger(namespace: string, name: string, resourceVersion: string, spec: TriggerSpec)

  /** What an informer hands to an event handler: a secret, a trigger, or any other object. */
  datatype Object =
    | SecretObj(secret: Secret)
    | TriggerObj(trigger: Trigger)
    | OtherObj(version: string)

  function ResourceVersion(o: Object): string
  {
    match o
    case SecretObj(s) => s.resourceVersion
    case TriggerObj(t) => t.resourceVersion
    case OtherObj(v) => v
  }

  /** "namespace/name": the key of a secret, of an endpoint and of a scope. */
  function ScopeKey(ns: string, name: string): string
  {
    ns + "/" + name
  }

  function K8sKey(s: Secret): string
  {
    ScopeKey(s.namespace, s.name)
  }

  /** Go's string(bytes): one character per byte. */
  function BytesToString(bs: seq<byte>): (s: string)
    ensures |s| == |bs|
    ensures forall i :: 0 <= i < |bs| ==> s[i] as int == bs[i] as int
  {
    seq(|bs|, i requires 0 <= i < |bs| => bs[i] as int as char)
  }

  /** Two namespaces-qualified keys in the same namespace agree exactly when the names agree. */
  lemma ScopeKeyInjective(ns: string, a: string, b: string)
    ensures ScopeKey(ns, a) == ScopeKey(ns, b) <==> a == b
  {
    if ScopeKey(ns, a) == ScopeKey(ns, b) {
      var n := |ns| + 1;
      assert a == ScopeKey(ns, a)[n..];
      assert b == ScopeKey(ns, b)[n..];
    }
  }

  /** The string conversion loses nothing: distinct byte strings give distinct strings. */
  lemma BytesToStringInjective(a: seq<byte>, b: seq<byte>)
    ensures BytesToString(a) == BytesToString(b) <==> a == b
  {
    if BytesToString(a) == BytesToString(b) {
      assert |a| == |b|;
      forall i | 0 <= i < |a| ensures a[i] == b[i] {
        assert BytesToString(a)[i] == BytesToString(b)[i];
      }
    }
  }
}
