/**
 * The HTTP routers. A router under construction is a value: a map from path
 * prefix to the object whose handler serves that prefix. The mutable router
 * the server listens with holds one such snapshot and is only ever replaced
 * as a whole.
 */
module Mux {

  type Routes<H> = map<string, H>

  /** Registers `h` under `prefix`; a prefix already registered keeps its first handler. */
  function AddRoute<H>(rs: Routes<H>, prefix: string, h: H): Routes<H>
  {
    if prefix in rs then rs else rs[prefix := h]
  }

  class MutableRouter<H> {
    var routes: Routes<H>
    /** How many snapshots have been installed; no snapshot is ever edited in place. */
    ghost var installs: nat

    constructor ()
      ensures routes == map[] && installs == 0
    {
      routes := map[];
      installs := 0;
    }

    /** Installs a complete new snapshot in one step. */
    method UpdateRouter(rs: Routes<H>)
      modifies this
      ensures routes == rs
      ensures installs == old(installs) + 1
    {
      routes := rs;
      installs := installs + 1;
    }
  }
}
