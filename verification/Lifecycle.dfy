/** The handler's registry of connections: who is served, who is still being waited for, and the closing flag. */
module Lifecycle {
  type ConnId = nat

  /** active is the WaitGroup's counter. */
  datatype Registry = Registry(closing: bool, clients: set<ConnId>, active: int)

  const EMPTY := Registry(false, {}, 0)

  function Register(r: Registry, c: ConnId): Registry {
    if r.closing then r else r.(clients := r.clients + {c}, active := r.active + 1)
  }

  /** Unregistering happens in two steps: forget the client under the lock, then call Done outside it. */
  function Forget(r: Registry, c: ConnId): Registry { r.(clients := r.clients - {c}) }

  function Done(r: Registry): Registry { r.(active := r.active - 1) }

  function StartClosing(r: Registry): Registry { r.(closing := true) }

  class Handler {
    var closing: bool
    var clients: set<ConnId>
    var active: int

    function View(): Registry
      reads this
    {
      Registry(closing, clients, active)
    }

    constructor ()
      ensures View() == EMPTY
    {
      closing, clients, active := false, {}, 0;
    }

    method RegisterClient(c: ConnId) returns (ok: bool)
      modifies this
      ensures ok == !old(closing) && closing == old(closing)
      ensures ok ==> clients == old(clients) + {c} && active == old(active) + 1
      ensures !ok ==> clients == old(clients) && active == old(active)
      ensures View() == Register(old(View()), c)
    {
      if closing {
        return false;
      }
      clients := clients + {c};
      active := active + 1;
      return true;
    }

    method UnregisterClient(c: ConnId)
      modifies this
      ensures closing == old(closing) && clients == old(clients) - {c}
      ensures active == old(active) - if c in old(clients) then 1 else 0
      ensures View() == if c in old(clients) then Done(Forget(old(View()), c)) else old(View())
    {
      if c !in clients {
        return;
      }
      clients := clients - {c};
      active := active - 1;
    }

    /** The locked part of Shutdown; the snapshot lists each client that is registered at that moment once. */
    method BeginShutdown() returns (snapshot: seq<ConnId>)
      modifies this
      ensures closing && clients == old(clients) && active == old(active)
      ensures View() == StartClosing(old(View()))
      ensures multiset(snapshot) == multiset(clients)
    {
      closing := true;
      snapshot := [];
      var todo := clients;
      while todo != {}
        invariant todo <= clients
        invariant multiset(snapshot) == multiset(clients - todo)
        decreases todo
      {
        var c :| c in todo;
        snapshot := snapshot + [c];
        assert clients - (todo - {c}) == (clients - todo) + {c};
        todo := todo - {c};
      }
      assert clients - todo == clients;
    }
  }
}
