// The observer registry every view model inherits (Scanner/Scanner/ViewModel.swift).
// Observers register and receive a token; tokens are compared by identity, kept in
// registration order, and each notification calls every registered observer once.

module ViewModels {
  import opened ArrayOps

  /** The handle `addObserver` gives back; it holds the registered observer. */
  class ObserverToken {
    const observer: object

    constructor (observer: object)
      ensures this.observer == observer
    {
      this.observer := observer;
    }
  }

  /** One call of `viewModelChanged` on `observer`, passing the notifying view model. */
  datatype Call = ViewModelChanged(observer: object, viewModel: ViewModel)

  class ViewModel {
    var observers: seq<ObserverToken>

    /** Every token is registered at most once. */
    ghost predicate Valid()
      reads this
    {
      Distinct(observers)
    }

    constructor ()
      ensures observers == []
      ensures Valid()
    {
      observers := [];
    }

    /** Registers `observer` under a new token, appended after all earlier ones. */
    method AddObserver(observer: object) returns (token: ObserverToken)
      requires Valid()
      modifies this
      ensures Valid()
      ensures fresh(token) && token.observer == observer
      ensures observers == old(observers) + [token]
      ensures forall t :: t in old(observers) ==> !IdentityEquals(t, token)
    {
      token := new ObserverToken(observer);
      AppendFreshIsDistinct(observers, token);
      observers := observers + [token];
    }

    /** Unregisters `token`. The source force-unwraps the result of `find`, so the
        token must be registered; it is taken out and the others keep their order. */
    method RemoveObserver(token: ObserverToken)
      requires Valid()
      requires token in observers
      modifies this
      ensures Valid()
      ensures observers == RemoveFirst(old(observers), token)
      ensures token !in observers
      ensures multiset(observers) == multiset(old(observers)) - multiset{token}
    {
      var found := Find(observers, token);
      RemoveFirstOfDistinct(observers, token);
      RemoveFirstMultiset(observers, token);
      observers := RemoveAt(observers, found.value);
    }

    /** Calls `viewModelChanged(self)` on every registered observer, once each, in
        registration order; the registry is left as it was. */
    method NotifyObservers() returns (calls: seq<Call>)
      ensures |calls| == |observers|
      ensures forall i :: 0 <= i < |calls| ==> calls[i] == ViewModelChanged(observers[i].observer, this)
    {
      var snapshot := observers;
      calls := [];
      for i := 0 to |snapshot|
        invariant |calls| == i
        invariant forall k :: 0 <= k < i ==> calls[k] == ViewModelChanged(snapshot[k].observer, this)
      {
        calls := calls + [ViewModelChanged(snapshot[i].observer, this)];
      }
    }
  }

  /** Registering an observer and then removing the token it was given leaves the
      registry exactly as before. */
  lemma AddThenRemoveRestores(before: seq<ObserverToken>, token: ObserverToken)
    requires token !in before
    ensures token in before + [token]
    ensures RemoveFirst(before + [token], token) == before
  {
  }
}
