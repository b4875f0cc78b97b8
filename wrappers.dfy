/** The optional value used wherever the Kotlin source returns a nullable result. */
module Wrappers {

  datatype Option<+T> = None | Some(value: T) {

    /** Kotlin's `x ?: default`. */
    function GetOr(default: T): T {
      match this
      case Some(v) => v
      case None => default
    }
  }

  /** The result of a call that may throw: the exception escaped, or the call returned a value. */
  datatype Outcome<+T> = Threw | Done(value: T)

  /** Running the calls in order: the first exception escapes, otherwise every value is collected. */
  function Collect<T>(os: seq<Outcome<T>>): (r: Outcome<seq<T>>)
    ensures r.Threw? <==> exists i :: 0 <= i < |os| && os[i].Threw?
    ensures r.Done? ==> |r.value| == |os| && forall i :: 0 <= i < |os| ==> os[i] == Done(r.value[i])
    decreases |os|
  {
    if os == [] then Done([])
    else
      var init := os[..|os| - 1];
      assert forall i :: 0 <= i < |init| ==> init[i] == os[i];
      match Collect(init)
      case Threw => Threw
      case Done(vs) =>
        match os[|os| - 1]
        case Threw => Threw
        case Done(v) => Done(vs + [v])
  }

  /** Collecting one more call. */
  lemma CollectSnoc<T>(os: seq<Outcome<T>>, o: Outcome<T>)
    ensures Collect(os + [o]) == if Collect(os).Threw? || o.Threw? then Threw else Done(Collect(os).value + [o.value])
  {
    assert (os + [o])[..|os|] == os;
  }

  /** A loop that collects the outcomes one by one: the prefix grows by the next value. */
  lemma CollectNext<T>(os: seq<Outcome<T>>, i: nat, done: seq<T>)
    requires i < |os| && Collect(os[..i]) == Done(done) && os[i].Done?
    ensures Collect(os[..i + 1]) == Done(done + [os[i].value])
  {
    assert os[..i + 1] == os[..i] + [os[i]];
    CollectSnoc(os[..i], os[i]);
  }
}
