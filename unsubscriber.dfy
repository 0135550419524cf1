/** The handle a gRPC subscription returns: disposing it runs the
    unsubscribe action once, with the descriptor and callback it was made
    for. */
module Unsubscribers {
  import opened Wrappers
  import opened Errors
  import opened Descriptors
  import opened Subscriptions

  /** An unsubscribe action, identified by the delegate it stands for. */
  type Action = nat

  /** A call of an unsubscribe action. */
  datatype Invocation = Invocation(action: Action, descriptor: Descriptor, callback: Callback)

  class ConfigurationChangeUnsubscriber {
    var descriptor: Option<Descriptor>
    var notifyCallback: Option<Callback>
    var unSubscriberAction: Option<Action>
    /** How often `DisposeAsync` has been called. */
    var isDisposed: nat

    /** The fields are set until the first dispose, and cleared after it. */
    ghost predicate Valid()
      reads this
    {
      && (isDisposed == 0 ==> descriptor.Some? && notifyCallback.Some? && unSubscriberAction.Some?)
      && (isDisposed > 0 ==> descriptor.None? && notifyCallback.None? && unSubscriberAction.None?)
    }

    constructor (descriptor: Descriptor, notifyCallback: Callback, unSubscriberAction: Action)
      ensures Valid() && isDisposed == 0
      ensures this.descriptor == Some(descriptor) && this.notifyCallback == Some(notifyCallback)
      ensures this.unSubscriberAction == Some(unSubscriberAction)
    {
      this.descriptor := Some(descriptor);
      this.notifyCallback := Some(notifyCallback);
      this.unSubscriberAction := Some(unSubscriberAction);
      isDisposed := 0;
    }

    /** The constructor's argument checks, in the constructor's order. */
    static method Create(descriptor: Option<Descriptor>, notifyCallback: Option<Callback>, unSubscriberAction: Option<Action>)
      returns (r: Outcome<ConfigurationChangeUnsubscriber>)
      ensures descriptor.None? ==> r == Failure(ArgumentNull("descriptor"))
      ensures descriptor.Some? && notifyCallback.None? ==> r == Failure(ArgumentNull("notifyCallback"))
      ensures descriptor.Some? && notifyCallback.Some? && unSubscriberAction.None? ==> r == Failure(ArgumentNull("unSubscriberAction"))
      ensures r.Success? <==> descriptor.Some? && notifyCallback.Some? && unSubscriberAction.Some?
      ensures r.Success? ==> fresh(r.value) && r.value.Valid() && r.value.isDisposed == 0
                             && r.value.descriptor == descriptor && r.value.notifyCallback == notifyCallback
                             && r.value.unSubscriberAction == unSubscriberAction
    {
      if descriptor.None? {
        return Failure(ArgumentNull("descriptor"));
      }
      if notifyCallback.None? {
        return Failure(ArgumentNull("notifyCallback"));
      }
      if unSubscriberAction.None? {
        return Failure(ArgumentNull("unSubscriberAction"));
      }
      var u := new ConfigurationChangeUnsubscriber(descriptor.value, notifyCallback.value, unSubscriberAction.value);
      return Success(u);
    }

    /** `DisposeAsync`: the first call clears the fields and invokes the
        action with the values they held; every later call does nothing. */
    method DisposeAsync() returns (invoked: Option<Invocation>)
      requires Valid()
      modifies this
      ensures Valid() && isDisposed == old(isDisposed) + 1
      ensures old(isDisposed) == 0 ==>
                invoked == Some(Invocation(old(unSubscriberAction).value, old(descriptor).value, old(notifyCallback).value))
      ensures old(isDisposed) > 0 ==> invoked.None?
    {
      isDisposed := isDisposed + 1;
      if isDisposed == 1 {
        var d, cb, action := descriptor.value, notifyCallback.value, unSubscriberAction.value;
        descriptor := None;
        notifyCallback := None;
        unSubscriberAction := None;
        return Some(Invocation(action, d, cb));
      }
      return None;
    }
  }

  /** Disposing a handle twice runs its action once, with the arguments it
      was created with. */
  method DisposeTwice(d: Descriptor, cb: Callback, action: Action) returns (first: Option<Invocation>, second: Option<Invocation>)
    ensures first == Some(Invocation(action, d, cb)) && second.None?
  {
    var u := new ConfigurationChangeUnsubscriber(d, cb, action);
    first := u.DisposeAsync();
    second := u.DisposeAsync();
  }
}
