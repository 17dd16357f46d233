/** `SignalNormalization`: the subject that forwards converted blocks to a normaliser and
  * exposes its result. It holds a normaliser only when it was built with one. */
module SignalNormalization {
  import opened Wrappers
  import opened RealMath
  import opened StableSort
  import NS = NormalizatorSamples

  /** The `SignalsObserver` handed to the constructor: a `NormalizatorSamples`, or anything
    * else (including `null`). */
  datatype SignalsObserver = Normalizator(normalizator: NS.NormalizatorSamples) | OtherObserver

  class SignalNormalization {
    var obss: NS.NormalizatorSamples?

    ghost predicate Valid()
      reads this, obss
    {
      obss != null ==> obss.Valid()
    }

    /** The field is set only when the argument is a normaliser; otherwise it stays null. */
    constructor(o: SignalsObserver)
      requires o.Normalizator? ==> o.normalizator.Valid()
      ensures Valid()
      ensures o.Normalizator? ==> obss == o.normalizator
      ensures o.OtherObserver? ==> obss == null
    {
      if o.Normalizator? {
        obss := o.normalizator;
      } else {
        obss := null;
      }
    }

    /** `notifySubscriber`: the list goes to `accepting` when there is a normaliser; without
      * one nothing happens. */
    method NotifySubscriber(signalList: seq<NS.SampledSignal>)
      requires Valid()
      modifies obss
      ensures Valid() && obss == old(obss)
      ensures obss != null && signalList != [] ==>
                obss.readyListForNormalization == signalList && obss.isReady
      ensures obss != null && signalList == [] ==>
                obss.readyListForNormalization == old(obss.readyListForNormalization)
                && obss.isReady == old(obss.isReady)
    {
      if obss != null {
        obss.Accepting(signalList);
      }
    }

    /** `normalizeOpenly`: an empty signal without a normaliser, otherwise the normaliser's
      * result, including its not-ready error; a ready normaliser is left with its list sorted
      * in place by start time, a normaliser that is not ready is left as it was. */
    method NormalizeOpenly(trig: Trig) returns (normalized: Result<NS.Normalized, NS.NormalizeError>)
      requires Valid()
      requires obss != null ==> NS.PositiveRates(obss.readyListForNormalization)
      modifies obss
      ensures Valid() && obss == old(obss)
      ensures obss == null ==> normalized == Ok(NS.Samples([]))
      ensures obss != null && !old(obss.isReady) ==> normalized == Err(NS.NotReady)
      ensures obss != null && old(obss.isReady) ==>
                normalized == Ok(NS.NormalizeSpec(trig, old(obss.readyListForNormalization)))
      ensures obss != null ==> obss.isReady == old(obss.isReady)
      ensures obss != null && !old(obss.isReady) ==>
                obss.readyListForNormalization == old(obss.readyListForNormalization)
      ensures obss != null && old(obss.isReady) ==>
                obss.readyListForNormalization == SortBy(old(obss.readyListForNormalization), NS.StartKey)
    {
      normalized := Ok(NS.Samples([]));
      if obss != null {
        normalized := obss.Normalize(trig);
      }
    }
  }
}
