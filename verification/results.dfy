/** Option and Result types, and the error kinds the package reports. */
module Results {

  /** Go's nilable pointer or comma-ok lookup. */
  datatype Option<+T> = None | Some(value: T)

  /** The errors the decoder, the context parser and the binder return:
      one kind per error message of the modelled functions, whatever the
      number of places that report it. `FetchFailed` is a kind left to the
      fetch function, which is a parameter of the model. */
  datatype Error =
    | MalformedContext                // decoder.go:223, resource.go:27: an @context of the wrong kind
    | MalformedContextValue           // decoder.go:259, context.go:73: a term definition that is not a string, object or null
    | ExpectedId                      // decoder.go:101
    | ExpectedString                  // decoder.go:107
    | ExpectedInteger                 // decoder.go:114
    | ExpectedBoolean                 // decoder.go:120
    | ExpectedDouble                  // decoder.go:127
    | ExpectedUri                     // decoder.go:133
    | RemoteContextsDisabled          // decoder.go:273: a string @context with no fetch function
    | MismatchedType(tag: string)     // decoder.go:309, resource.go:107: a type field whose tag differs from the type
    | FetchFailed(url: string)        // what a fetch function reports when a URL cannot be loaded

  /** A value or the error that aborted its computation; usable with `:-`. */
  datatype Result<+T> = Ok(value: T) | Err(error: Error) {

    predicate IsFailure() {
      Err?
    }

    function PropagateFailure<U>(): Result<U>
      requires Err?
    {
      Err(error)
    }

    function Extract(): T
      requires Ok?
    {
      value
    }
  }

  /** The values of `rs` in order when every one succeeded, else the first
      error: a left-to-right loop that returns on its first failure. */
  function Gather<T>(rs: seq<Result<T>>): Result<seq<T>>
    decreases |rs|
  {
    if |rs| == 0 then Ok([])
    else
      var x :- rs[0];
      var rest :- Gather(rs[1..]);
      Ok([x] + rest)
  }

  /** One step of `Gather`: the first error, or the first value before the rest. */
  lemma GatherStep<T>(rs: seq<Result<T>>)
    requires |rs| > 0
    ensures Gather(rs) ==
      if rs[0].Err? then Err(rs[0].error)
      else if Gather(rs[1..]).Err? then Err(Gather(rs[1..]).error)
      else Ok([rs[0].value] + Gather(rs[1..]).value)
  {
  }

  /** Gathering succeeds exactly when every element does, and then yields
      their values in order; otherwise it yields the error of the first
      element that failed. */
  lemma {:induction false} GatherSpec<T>(rs: seq<Result<T>>)
    ensures Gather(rs).Ok? <==> forall k :: 0 <= k < |rs| ==> rs[k].Ok?
    ensures Gather(rs).Ok? ==>
      |Gather(rs).value| == |rs| && forall k :: 0 <= k < |rs| ==> Gather(rs).value[k] == rs[k].value
    ensures Gather(rs).Err? ==>
      exists k :: 0 <= k < |rs| && rs[k] == Err(Gather(rs).error) && forall k' :: 0 <= k' < k ==> rs[k'].Ok?
    decreases |rs|
  {
    if |rs| > 0 {
      var tail := rs[1..];
      GatherSpec(tail);
      assert forall k :: 1 <= k < |rs| ==> rs[k] == tail[k - 1];
      if rs[0].Ok? && Gather(tail).Err? {
        var k :| 0 <= k < |tail| && tail[k] == Err(Gather(tail).error) && forall k' :: 0 <= k' < k ==> tail[k'].Ok?;
        assert rs[k + 1] == tail[k];
        assert forall k' :: 0 <= k' < k + 1 ==> rs[k'].Ok? by {
          forall k' | 0 <= k' < k + 1 ensures rs[k'].Ok? {
            if k' > 0 {
              assert rs[k'] == tail[k' - 1];
            }
          }
        }
      }
    }
  }

  /** The lists of `ss` joined in order. */
  function Concat<T>(ss: seq<seq<T>>): seq<T>
    decreases |ss|
  {
    if |ss| == 0 then [] else ss[0] + Concat(ss[1..])
  }

  lemma {:induction false} ConcatAppend<T>(ss: seq<seq<T>>, ts: seq<seq<T>>)
    ensures Concat(ss + ts) == Concat(ss) + Concat(ts)
    decreases |ss|
  {
    if |ss| == 0 {
      assert ss + ts == ts;
    } else {
      assert (ss + ts)[1..] == ss[1..] + ts;
      ConcatAppend(ss[1..], ts);
    }
  }

  /** Joining one-element lists gives back their elements. */
  lemma {:induction false} ConcatSingletons<T>(ss: seq<seq<T>>, xs: seq<T>)
    requires |ss| == |xs|
    requires forall k :: 0 <= k < |ss| ==> ss[k] == [xs[k]]
    ensures Concat(ss) == xs
    decreases |ss|
  {
    if |ss| > 0 {
      ConcatSingletons(ss[1..], xs[1..]);
      assert xs == [xs[0]] + xs[1..];
    }
  }

  /** Gathering `p` empty lists followed by one-element lists succeeds and
      joins to those elements. */
  lemma {:induction false} GatherSingletons<T>(rs: seq<Result<seq<T>>>, p: nat, xs: seq<T>)
    requires |rs| == p + |xs|
    requires forall k :: 0 <= k < p ==> rs[k] == Ok([])
    requires forall k :: p <= k < |rs| ==> rs[k] == Ok([xs[k - p]])
    ensures Gather(rs).Ok? && Concat(Gather(rs).value) == xs
    decreases p
  {
    if p == 0 {
      GatherSpec(rs);
      ConcatSingletons(Gather(rs).value, xs);
    } else {
      var rest := rs[1..];
      assert forall k :: 0 <= k < |rest| ==> rest[k] == rs[k + 1];
      GatherSingletons(rest, p - 1, xs);
      assert rs[0] == Ok([]);
      assert Gather(rs).value == [[]] + Gather(rest).value;
    }
  }

  /** An element of a joined list comes from one of the lists. */
  lemma {:induction false} InConcat<T>(ss: seq<seq<T>>, x: T)
    ensures x in Concat(ss) <==> exists i :: 0 <= i < |ss| && x in ss[i]
    decreases |ss|
  {
    if |ss| > 0 {
      InConcat(ss[1..], x);
      assert forall i :: 1 <= i < |ss| ==> ss[i] == ss[1..][i - 1];
      if x in Concat(ss[1..]) {
        var i :| 0 <= i < |ss[1..]| && x in ss[1..][i];
        assert x in ss[i + 1];
      }
    }
  }
}
