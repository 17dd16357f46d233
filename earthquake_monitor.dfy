/** `EarthquakeMonitor`: the subject of the observer pattern. It keeps the list of subscribed
  * observers and the last JSON body it received, and it hands a new body to every observer,
  * in subscription order, only when that body differs from the stored one. The download is
  * a parameter of `LaunchingMonitor`, and each `update(data)` call on an observer is
  * recorded as a `Delivery` in a log. */
module EarthquakeMonitor {
  import opened Wrappers

  /** An observer, compared by identity: the observers of this system do not override
    * `equals`, so `List.remove` matches the very object that was attached. */
  datatype Observer = Observer(id: nat)

  /** One call `observer.update(data)`. */
  datatype Delivery = Delivery(observer: Observer, data: string)

  /** `List.remove(Object)`: drops the first element equal to `o`, if any. */
  function RemoveFirst(s: seq<Observer>, o: Observer): (r: seq<Observer>)
    ensures |r| == if o in s then |s| - 1 else |s|
  {
    if s == [] then []
    else if s[0] == o then s[1..]
    else [s[0]] + RemoveFirst(s[1..], o)
  }

  /** The calls `update(data)` on each observer of `obs`, in list order. */
  function Notifications(obs: seq<Observer>, data: string): seq<Delivery>
  {
    if obs == [] then []
    else Notifications(obs[..|obs| - 1], data) + [Delivery(obs[|obs| - 1], data)]
  }

  /** How many of the calls in `log` went to `o`. */
  function DeliveriesTo(log: seq<Delivery>, o: Observer): nat
  {
    if log == [] then 0
    else DeliveriesTo(log[..|log| - 1], o) + (if log[|log| - 1].observer == o then 1 else 0)
  }

  // ---------------------------------------------------------------- detach

  /** Detaching an observer that is not subscribed leaves the list as it is. */
  lemma {:induction false} RemoveFirstAbsent(s: seq<Observer>, o: Observer)
    requires o !in s
    ensures RemoveFirst(s, o) == s
  {
    if s != [] {
      RemoveFirstAbsent(s[1..], o);
      assert [s[0]] + s[1..] == s;
    }
  }

  /** Detaching a subscribed observer cuts out exactly its first occurrence; everything
    * before and after it keeps its order. */
  lemma {:induction false} RemoveFirstPresent(s: seq<Observer>, o: Observer)
    requires o in s
    ensures exists i :: 0 <= i < |s| && s[i] == o && o !in s[..i]
                        && RemoveFirst(s, o) == s[..i] + s[i + 1..]
  {
    if s[0] == o {
      assert s[..0] == [] && s[1..] == s[..0] + s[0 + 1..];
    } else {
      var t := s[1..];
      assert o in t;
      RemoveFirstPresent(t, o);
      var i :| 0 <= i < |t| && t[i] == o && o !in t[..i] && RemoveFirst(t, o) == t[..i] + t[i + 1..];
      PresentStep(s, o, i);
    }
  }

  /** The step of `RemoveFirstPresent`: an occurrence at `i` in the tail is one at `i + 1`. */
  lemma PresentStep(s: seq<Observer>, o: Observer, i: nat)
    requires s != [] && s[0] != o && i < |s| - 1
    requires s[1..][i] == o && o !in s[1..][..i]
    requires RemoveFirst(s[1..], o) == s[1..][..i] + s[1..][i + 1..]
    ensures s[i + 1] == o && o !in s[..i + 1] && RemoveFirst(s, o) == s[..i + 1] + s[i + 2..]
  {
    var t := s[1..];
    var before, after := t[..i], t[i + 1..];
    assert RemoveFirst(s, o) == [s[0]] + (before + after);
    assert s[..i + 1] == [s[0]] + before;
    assert s[i + 2..] == after;
    SeqAssoc([s[0]], before, after);
  }

  lemma SeqAssoc<T>(a: seq<T>, b: seq<T>, c: seq<T>)
    ensures a + (b + c) == (a + b) + c
  {
  }

  /** Detaching removes one copy of the observer from the multiset of subscriptions, and
    * nothing else. */
  lemma {:induction false} RemoveFirstMultiset(s: seq<Observer>, o: Observer)
    ensures multiset(RemoveFirst(s, o)) == multiset(s) - multiset{o}
  {
    if s != [] {
      var t := s[1..];
      assert s == [s[0]] + t;
      assert multiset(s) == multiset{s[0]} + multiset(t);
      if s[0] != o {
        RemoveFirstMultiset(t, o);
        assert multiset(RemoveFirst(s, o)) == multiset{s[0]} + (multiset(t) - multiset{o});
      }
    }
  }

  /** Attaching a new observer and detaching it again restores the list. */
  lemma {:induction false} AttachThenDetach(s: seq<Observer>, o: Observer)
    requires o !in s
    ensures RemoveFirst(s + [o], o) == s
  {
    if s == [] {
      assert [] + [o] == [o];
    } else {
      assert (s + [o])[1..] == s[1..] + [o];
      AttachThenDetach(s[1..], o);
      assert [s[0]] + s[1..] == s;
    }
  }

  // ---------------------------------------------------------------- notify

  /** Notifying the list makes one call per list entry, each carrying `data`, in list order. */
  lemma {:induction false} NotificationsInOrder(obs: seq<Observer>, data: string)
    ensures |Notifications(obs, data)| == |obs|
    ensures forall i :: 0 <= i < |obs| ==> Notifications(obs, data)[i] == Delivery(obs[i], data)
  {
    if obs != [] {
      NotificationsInOrder(obs[..|obs| - 1], data);
    }
  }

  lemma {:induction false} DeliveriesToAppend(a: seq<Delivery>, b: seq<Delivery>, o: Observer)
    ensures DeliveriesTo(a + b, o) == DeliveriesTo(a, o) + DeliveriesTo(b, o)
    decreases |b|
  {
    if b == [] {
      assert a + b == a;
    } else {
      assert (a + b)[..|a + b| - 1] == a + b[..|b| - 1];
      DeliveriesToAppend(a, b[..|b| - 1], o);
    }
  }

  /** Each observer receives as many calls as it has subscriptions: one for an observer
    * attached once, none for one not attached. */
  lemma {:induction false} NotifiedOncePerSubscription(obs: seq<Observer>, data: string, o: Observer)
    ensures DeliveriesTo(Notifications(obs, data), o) == multiset(obs)[o]
  {
    if obs != [] {
      var init := obs[..|obs| - 1];
      NotifiedOncePerSubscription(init, data, o);
      assert obs == init + [obs[|obs| - 1]];
      DeliveriesToAppend(Notifications(init, data), [Delivery(obs[|obs| - 1], data)], o);
      assert DeliveriesTo([Delivery(obs[|obs| - 1], data)], o)
             == (if obs[|obs| - 1] == o then 1 else 0);
    }
  }

  // ---------------------------------------------------------------- the subject

  class EarthquakeMonitor {
    /** The subscribed observers, in subscription order. */
    var observers: seq<Observer>
    /** The last body received; `None` for Java's initial `null`. */
    var latestJSONData: Option<string>
    /** Every `update` call made so far, in order. */
    var delivered: seq<Delivery>

    constructor()
      ensures observers == [] && latestJSONData == None && delivered == []
    {
      observers := [];
      latestJSONData := None;
      delivered := [];
    }

    /** `attach`: appends the observer, also when it is already subscribed. */
    method Attach(o: Observer)
      modifies this
      ensures observers == old(observers) + [o]
      ensures latestJSONData == old(latestJSONData) && delivered == old(delivered)
    {
      observers := observers + [o];
    }

    /** `detach`: removes the first subscription of the observer, if there is one. */
    method Detach(o: Observer)
      modifies this
      ensures observers == RemoveFirst(old(observers), o)
      ensures latestJSONData == old(latestJSONData) && delivered == old(delivered)
    {
      observers := RemoveFirst(observers, o);
    }

    /** `notifyObservers`: nothing while no body has been received; otherwise `update` on
      * every observer in list order. */
    method NotifyObservers()
      modifies this
      ensures observers == old(observers) && latestJSONData == old(latestJSONData)
      ensures delivered == old(delivered) + match latestJSONData
                                            case None => []
                                            case Some(d) => Notifications(observers, d)
    {
      if latestJSONData.Some? {
        var data := latestJSONData.value;
        for i := 0 to |observers|
          invariant observers == old(observers) && latestJSONData == old(latestJSONData)
          invariant delivered == old(delivered) + Notifications(observers[..i], data)
        {
          assert observers[..i + 1][..i] == observers[..i];
          delivered := delivered + [Delivery(observers[i], data)];
        }
        assert observers[..|observers|] == observers;
      } else {
        assert delivered == old(delivered) + [];
      }
    }

    /** `launchingMonitor` with the downloaded body `newJSONData`: an unchanged body changes
      * nothing; a new one is stored first and then handed to every observer. */
    method LaunchingMonitor(newJSONData: string)
      modifies this
      ensures observers == old(observers)
      ensures old(latestJSONData) == Some(newJSONData) ==>
                latestJSONData == old(latestJSONData) && delivered == old(delivered)
      ensures old(latestJSONData) != Some(newJSONData) ==>
                latestJSONData == Some(newJSONData)
                && delivered == old(delivered) + Notifications(observers, newJSONData)
    {
      if latestJSONData != Some(newJSONData) {
        latestJSONData := Some(newJSONData);
        NotifyObservers();
      }
    }
  }
}
