/**
 * The metadata filter pipeline of the storage layer, as pure functions.
 *
 * A filter plugin's `filter_metadata` either returns a manifest or throws;
 * here it is a total function from manifests to `Result`. The pipeline hands
 * every filter the ORIGINAL manifest, so filters do not compose: the result
 * is the output of the last filter that succeeded, and the errors of the
 * failing filters are collected in filter order. The catch block logs the
 * thrown value's `message`, so a filter that throws `null` or `undefined`
 * makes the catch block itself throw and the whole pipeline rejects.
 */
module Filters {
  import opened Wrappers

  /** A package manifest; the fields other than these pass through filters untouched. */
  datatype Manifest = Manifest(name: string, versions: set<string>, distTags: map<string, string>)

  /** What a failing filter threw: `null`/`undefined`, or any other value (whose `message` may be absent). */
  datatype FilterError = Nullish | Thrown(message: Option<string>)

  type FilterResult = Result<Manifest, FilterError>

  /** A metadata filter plugin. */
  type Filter = Manifest -> FilterResult

  /** The outcome of each filter, in list order, each applied to `m` itself. */
  function Outcomes(fs: seq<Filter>, m: Manifest): seq<FilterResult>
  {
    if |fs| == 0 then [] else Outcomes(fs[..|fs| - 1], m) + [fs[|fs| - 1](m)]
  }

  /** The errors of the failing outcomes, in order. */
  function Errors(os: seq<FilterResult>): seq<FilterError>
  {
    if |os| == 0 then []
    else Errors(os[..|os| - 1]) + (if os[|os| - 1].Failure? then [os[|os| - 1].error] else [])
  }

  /** The manifests of the successful outcomes, in order. */
  function Successes(os: seq<FilterResult>): seq<Manifest>
  {
    if |os| == 0 then []
    else Successes(os[..|os| - 1]) + (if os[|os| - 1].Success? then [os[|os| - 1].value] else [])
  }

  /** The value of the last successful outcome, or `default` when none succeeded. */
  function LastSuccess(os: seq<FilterResult>, default: Manifest): Manifest
  {
    if |os| == 0 then default
    else if os[|os| - 1].Success? then os[|os| - 1].value
    else LastSuccess(os[..|os| - 1], default)
  }

  /** Whether some outcome is a throw of `null` or `undefined`. */
  predicate NullishThrown(os: seq<FilterResult>)
  {
    |os| > 0 && (NullishThrown(os[..|os| - 1]) || os[|os| - 1] == Failure(Nullish))
  }

  /** Some filter throws `null` or `undefined` on `m`. */
  predicate SomeFilterThrowsNullish(fs: seq<Filter>, m: Manifest)
  {
    exists i :: 0 <= i < |fs| && fs[i](m) == Failure(Nullish)
  }

  /**
   * What `applyFilters` returns for filters `fs` and input `m`: the filtered
   * manifest and the list of filter errors, or the rejection raised when the
   * catch block reads `message` of a `null`/`undefined` throw. With no filters
   * the input itself is returned; otherwise the starting value is a
   * (value-equal) copy of `m`.
   */
  function Apply(fs: seq<Filter>, m: Manifest): (r: Result<(Manifest, seq<FilterError>), TypeError>)
    ensures r.Failure? <==> SomeFilterThrowsNullish(fs, m)
    ensures r.Failure? ==> r.error == ReadPropertyOfNullish("message")
    ensures |fs| == 0 ==> r == Success((m, []))
  {
    OutcomesAt(fs, m);
    NullishThrownExists(Outcomes(fs, m));
    if |fs| == 0 then Success((m, []))
    else if NullishThrown(Outcomes(fs, m)) then Failure(ReadPropertyOfNullish("message"))
    else Success((LastSuccess(Outcomes(fs, m), m), Errors(Outcomes(fs, m))))
  }

  /** A `null`/`undefined` throw is recorded exactly when some outcome is one. */
  lemma {:induction false} NullishThrownExists(os: seq<FilterResult>)
    ensures NullishThrown(os) <==> exists i :: 0 <= i < |os| && os[i] == Failure(Nullish)
  {
    if |os| > 0 {
      var init := os[..|os| - 1];
      NullishThrownExists(init);
      assert forall i :: 0 <= i < |init| ==> init[i] == os[i];
    }
  }

  /** There is one outcome per filter, and outcome `i` is filter `i` applied to the original manifest. */
  lemma {:induction false} OutcomesAt(fs: seq<Filter>, m: Manifest)
    ensures |Outcomes(fs, m)| == |fs|
    ensures forall i :: 0 <= i < |fs| ==> Outcomes(fs, m)[i] == fs[i](m)
  {
    if |fs| > 0 {
      OutcomesAt(fs[..|fs| - 1], m);
    }
  }

  /** Running two lists of filters one after the other gives the two lists of outcomes concatenated. */
  lemma OutcomesAppend(fs: seq<Filter>, gs: seq<Filter>, m: Manifest)
    ensures Outcomes(fs + gs, m) == Outcomes(fs, m) + Outcomes(gs, m)
  {
    OutcomesAt(fs, m);
    OutcomesAt(gs, m);
    OutcomesAt(fs + gs, m);
  }

  /** Errors are collected in order: the errors of a concatenation are the concatenation of the errors. */
  lemma {:induction false} ErrorsAppend(a: seq<FilterResult>, b: seq<FilterResult>)
    ensures Errors(a + b) == Errors(a) + Errors(b)
  {
    if |b| > 0 {
      assert (a + b)[..|a + b| - 1] == a + b[..|b| - 1];
      ErrorsAppend(a, b[..|b| - 1]);
    } else {
      assert a + b == a;
    }
  }

  /** Every outcome is either a success or an error, so the two lists together account for every filter. */
  lemma {:induction false} ErrorsPlusSuccesses(os: seq<FilterResult>)
    ensures |Errors(os)| + |Successes(os)| == |os|
  {
    if |os| > 0 {
      ErrorsPlusSuccesses(os[..|os| - 1]);
    }
  }

  /** When every outcome failed, the error list holds each outcome's error at the same position. */
  lemma {:induction false} ErrorsOfAllFailed(os: seq<FilterResult>)
    requires forall i :: 0 <= i < |os| ==> os[i].Failure?
    ensures |Errors(os)| == |os|
    ensures forall i :: 0 <= i < |os| ==> Errors(os)[i] == os[i].error
  {
    if |os| > 0 {
      ErrorsOfAllFailed(os[..|os| - 1]);
    }
  }

  /** If outcome `j` succeeded and every later one failed, the last success is outcome `j`'s manifest. */
  lemma {:induction false} LastSuccessIsLatest(os: seq<FilterResult>, default: Manifest, j: nat)
    requires j < |os| && os[j].Success?
    requires forall i :: j < i < |os| ==> os[i].Failure?
    ensures LastSuccess(os, default) == os[j].value
  {
    if j < |os| - 1 {
      LastSuccessIsLatest(os[..|os| - 1], default, j);
    }
  }

  /** If no outcome succeeded, the default is kept. */
  lemma {:induction false} LastSuccessOfAllFailed(os: seq<FilterResult>, default: Manifest)
    requires forall i :: 0 <= i < |os| ==> os[i].Failure?
    ensures LastSuccess(os, default) == default
  {
    if |os| > 0 {
      LastSuccessOfAllFailed(os[..|os| - 1], default);
    }
  }

  /** With no filters configured, the input manifest comes back with no errors. */
  lemma ApplyNoFilters(m: Manifest)
    ensures Apply([], m) == Success((m, []))
  {
  }

  /**
   * The filtered manifest is the output of the last filter that succeeded on
   * the original manifest; earlier successes are discarded, not chained.
   */
  lemma ApplyIsLastSuccess(fs: seq<Filter>, m: Manifest, j: nat)
    requires !SomeFilterThrowsNullish(fs, m)
    requires j < |fs| && fs[j](m).Success?
    requires forall i :: j < i < |fs| ==> fs[i](m).Failure?
    ensures Apply(fs, m).Success? && Apply(fs, m).value.0 == fs[j](m).value
  {
    OutcomesAt(fs, m);
    LastSuccessIsLatest(Outcomes(fs, m), m, j);
  }

  /**
   * If every filter throws a value other than `null`/`undefined`, the result
   * is (a copy of) the input and there is one error per filter, in order.
   */
  lemma ApplyAllFailed(fs: seq<Filter>, m: Manifest)
    requires forall i :: 0 <= i < |fs| ==> fs[i](m).Failure? && fs[i](m).error.Thrown?
    ensures Apply(fs, m).Success?
    ensures Apply(fs, m).value.0 == m
    ensures |Apply(fs, m).value.1| == |fs|
    ensures forall i :: 0 <= i < |fs| ==> Apply(fs, m).value.1[i] == fs[i](m).error
  {
    OutcomesAt(fs, m);
    if |fs| > 0 {
      LastSuccessOfAllFailed(Outcomes(fs, m), m);
      ErrorsOfAllFailed(Outcomes(fs, m));
    }
  }

  /** The number of errors plus the number of successful filters is the number of filters. */
  lemma ApplyErrorCount(fs: seq<Filter>, m: Manifest)
    requires !SomeFilterThrowsNullish(fs, m)
    ensures Apply(fs, m).Success?
    ensures |Apply(fs, m).value.1| + |Successes(Outcomes(fs, m))| == |fs|
  {
    OutcomesAt(fs, m);
    ErrorsPlusSuccesses(Outcomes(fs, m));
  }

  /** The error list of `fs + gs` is the error list of `fs` followed by that of `gs`: errors keep filter order. */
  lemma ApplyErrorsInFilterOrder(fs: seq<Filter>, gs: seq<Filter>, m: Manifest)
    requires !SomeFilterThrowsNullish(fs + gs, m)
    ensures Apply(fs, m).Success? && Apply(gs, m).Success? && Apply(fs + gs, m).Success?
    ensures Apply(fs + gs, m).value.1 == Apply(fs, m).value.1 + Apply(gs, m).value.1
  {
    forall i | 0 <= i < |fs|
      ensures fs[i](m) != Failure(Nullish)
    {
      assert (fs + gs)[i] == fs[i];
    }
    forall i | 0 <= i < |gs|
      ensures gs[i](m) != Failure(Nullish)
    {
      assert (fs + gs)[|fs| + i] == gs[i];
    }
    OutcomesAppend(fs, gs, m);
    ErrorsAppend(Outcomes(fs, m), Outcomes(gs, m));
    if |fs| == 0 {
      assert fs + gs == gs;
    }
  }

  /**
   * Two successful filters do not compose: the second sees the original
   * manifest, so the result is `g(m)`, whatever `f(m)` was.
   */
  lemma FiltersDoNotChain(f: Filter, g: Filter, m: Manifest)
    requires f(m).Success? && g(m).Success?
    ensures Apply([f, g], m) == Success((g(m).value, []))
  {
    var os := Outcomes([f, g], m);
    OutcomesAt([f, g], m);
    assert os[..1][..0] == [];
    assert Errors(os[..1]) == [];
  }
}
