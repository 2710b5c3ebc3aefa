/**
 * How informer events reach the reconciliation server: which secrets are
 * watched at all, the filter that drops update events whose resource
 * version did not change, and which handler each informer's add, update
 * and delete events go to.
 */
module Events {
  import opened Kube

  datatype Event =
    | Added(obj: Object)
    | Updated(oldObj: Object, curObj: Object)
    | Deleted(obj: Object)

  datatype Informer = SecretInformer | TriggerInformer

  /** The server's event handlers. */
  datatype Handler = HandleSecretChange | HandleSecretDelete | HandleTriggerChange | HandleTriggerDelete

  /** The label selector the secret informer lists and watches with. */
  function SecretLabelSelector(): string
  {
    MCPSecretLabel + "=" + MCPSecretLabelType
  }

  /** The position of the first '=' in `s`, if there is one. */
  function FirstEq(s: string): (r: Option<nat>)
    ensures r.Some? ==> r.value < |s| && s[r.value] == '=' && forall j :: 0 <= j < r.value ==> s[j] != '='
    ensures r.None? ==> forall j :: 0 <= j < |s| ==> s[j] != '='
    decreases |s|
  {
    if s == [] then None
    else if s[0] == '=' then Some(0)
    else match FirstEq(s[1..])
      case None => None
      case Some(i) => Some(i + 1)
  }

  /**
   * Whether labels satisfy a one-requirement selector: "key=value" asks for
   * the label with that value, a bare "key" only for the label.
   */
  predicate SelectorMatches(selector: string, labels: map<string, string>)
  {
    match FirstEq(selector)
    case None => selector in labels
    case Some(i) => selector[..i] in labels && labels[selector[..i]] == selector[i + 1..]
  }

  /** A secret the server watches: it carries the secret-type label with the value "token". */
  predicate Watched(s: Secret)
  {
    MCPSecretLabel in s.labels && s.labels[MCPSecretLabel] == MCPSecretLabelType
  }

  /** The informer's selector lets through exactly the watched secrets. */
  lemma SecretSelectorSelectsWatched(s: Secret)
    ensures SelectorMatches(SecretLabelSelector(), s.labels) <==> Watched(s)
  {
    var sel := SecretLabelSelector();
    var n := |MCPSecretLabel|;
    assert '=' !in MCPSecretLabel;
    assert sel[..n] == MCPSecretLabel;
    assert sel[n + 1..] == MCPSecretLabelType;
    assert sel[n] == '=';
    assert forall j :: 0 <= j < n ==> sel[j] in MCPSecretLabel;
  }

  /** An update goes on only when the resource version changed, and then with the current object. */
  function UpdateFilter(oldObj: Object, curObj: Object): Option<Object>
  {
    if ResourceVersion(oldObj) == ResourceVersion(curObj) then None else Some(curObj)
  }

  /** The handler an informer's event goes to. */
  function Wiring(informer: Informer, event: Event): Handler
  {
    match informer
    case SecretInformer => if event.Deleted? then HandleSecretDelete else HandleSecretChange
    case TriggerInformer => if event.Deleted? then HandleTriggerDelete else HandleTriggerChange
  }

  /** What delivering an event does: the handler called and the object it is called with, or nothing. */
  function Dispatch(informer: Informer, event: Event): Option<(Handler, Object)>
  {
    match event
    case Added(o) => Some((Wiring(informer, event), o))
    case Deleted(o) => Some((Wiring(informer, event), o))
    case Updated(o, c) =>
      match UpdateFilter(o, c)
      case None => None
      case Some(x) => Some((Wiring(informer, event), x))
  }

  /**
   * An update whose resource version did not change calls nothing; any other
   * update calls the change handler with the current object, never the old one.
   */
  lemma DispatchUpdate(informer: Informer, oldObj: Object, curObj: Object)
    ensures Dispatch(informer, Updated(oldObj, curObj)).None? <==> ResourceVersion(oldObj) == ResourceVersion(curObj)
    ensures Dispatch(informer, Updated(oldObj, curObj)).Some? ==>
      Dispatch(informer, Updated(oldObj, curObj)).value.1 == curObj
      && Dispatch(informer, Updated(oldObj, curObj)).value.0 ==
           (if informer.SecretInformer? then HandleSecretChange else HandleTriggerChange)
  {
  }

  /**
   * Adds and deletes always reach a handler, with the object itself: secret
   * adds go to the secret-change handler and secret deletes to the
   * secret-delete handler; trigger adds go to the trigger-change handler and
   * trigger deletes to the trigger-delete handler.
   */
  lemma DispatchAddDelete(informer: Informer, o: Object)
    ensures Dispatch(informer, Added(o)) ==
      Some((if informer.SecretInformer? then HandleSecretChange else HandleTriggerChange, o))
    ensures Dispatch(informer, Deleted(o)) ==
      Some((if informer.SecretInformer? then HandleSecretDelete else HandleTriggerDelete, o))
  {
  }

  /** Each informer's events reach only that informer's own handlers. */
  lemma DispatchStaysWithInformer(informer: Informer, event: Event)
    ensures Dispatch(informer, event).Some? ==>
      var h := Dispatch(informer, event).value.0;
      (informer.SecretInformer? <==> h.HandleSecretChange? || h.HandleSecretDelete?)
  {
  }
}
