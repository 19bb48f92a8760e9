/**
 * The registry of broadcast receivers the service has registered (ReceiverManager), so that
 * all of them can be unregistered at once.
 */
module Receivers {
  import opened Wrappers

  /** A broadcast receiver, compared by identity. */
  datatype Receiver = Receiver(id: nat)

  /** The platform side of a context: which receivers it delivers to, and every unregister call. */
  class Context {
    var registered: set<Receiver>
    var unregisterCalls: seq<Receiver>

    constructor ()
      ensures registered == {} && unregisterCalls == []
    {
      registered := {};
      unregisterCalls := [];
    }

    method RegisterReceiver(receiver: Receiver)
      modifies this
      ensures registered == old(registered) + {receiver}
      ensures unregisterCalls == old(unregisterCalls)
    {
      registered := registered + {receiver};
    }

    /** `unregisterReceiver` throws IllegalArgumentException for a receiver it does not know. */
    method UnregisterReceiver(receiver: Receiver) returns (r: Result<(), ()>)
      modifies this
      ensures r.Err? <==> receiver !in old(registered)
      ensures registered == old(registered) - {receiver}
      ensures unregisterCalls == old(unregisterCalls) + [receiver]
    {
      unregisterCalls := unregisterCalls + [receiver];
      if receiver !in registered {
        return Err(());
      }
      registered := registered - {receiver};
      return Ok(());
    }
  }

  /** The receivers registered through it, in order of registration, repeats included. */
  class ReceiverManager {
    var receivers: seq<Receiver>

    constructor ()
      ensures receivers == []
    {
      receivers := [];
    }

    /** `registerReceiver`: the receiver is appended, even when already listed, and registered with the context. */
    method RegisterReceiver(context: Context, receiver: Receiver)
      modifies this, context
      ensures receivers == old(receivers) + [receiver]
      ensures IsReceiverRegistered(receiver)
      ensures context.registered == old(context.registered) + {receiver}
      ensures context.unregisterCalls == old(context.unregisterCalls)
    {
      receivers := receivers + [receiver];
      context.RegisterReceiver(receiver);
    }

    /** `isReceiverRegistered`: listed at least once. */
    function IsReceiverRegistered(receiver: Receiver): (registered: bool)
      reads this
      ensures registered <==> exists i :: 0 <= i < |receivers| && receivers[i] == receiver
    {
      receiver in receivers
    }

    /**
     * `unregisterAllReceivers`: without a context nothing happens. Otherwise every listed
     * entry, repeats included, gets one unregister call in list order and is removed whether
     * or not the call threw, so the registry ends empty.
     */
    method UnregisterAllReceivers(context: Context?)
      modifies this, context
      ensures context == null ==> receivers == old(receivers)
      ensures context != null ==>
                receivers == [] &&
                (forall r :: !IsReceiverRegistered(r)) &&
                context.unregisterCalls == old(context.unregisterCalls) + old(receivers) &&
                context.registered == old(context.registered) - set r | r in old(receivers)
    {
      if context == null {
        return;
      }
      ghost var done: seq<Receiver> := [];
      while receivers != []
        invariant old(receivers) == done + receivers
        invariant context.unregisterCalls == old(context.unregisterCalls) + done
        invariant context.registered == old(context.registered) - set r | r in done
        decreases |receivers|
      {
        var receiver := receivers[0];
        if IsReceiverRegistered(receiver) {
          // An IllegalArgumentException is caught and logged; the entry goes either way.
          var _ := context.UnregisterReceiver(receiver);
          receivers := receivers[1..];
          done := done + [receiver];
        }
      }
    }
  }
}
