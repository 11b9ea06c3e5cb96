/**
 * The observable effects of a submission handler, in the order they
 * happen: `setLoading` calls, requests reaching the identity provider, and
 * navigations. A handler sets `loading` to true, awaits, may navigate, and
 * sets it back to false; while it is awaiting, the flag stays true.
 */
module HookEffects {
  import AuthContext

  datatype Effect =
    | SetLoading(on: bool)
    | Request(request: AuthContext.ProviderRequest)
    | Navigation(to: string, replace: bool)

  /** The provider requests of a call, as effects. */
  function Requested(requests: seq<AuthContext.ProviderRequest>): (es: seq<Effect>)
    ensures |es| == |requests|
    ensures forall i :: 0 <= i < |requests| ==> es[i] == Request(requests[i])
    decreases |requests|
  {
    if requests == [] then [] else [Request(requests[0])] + Requested(requests[1..])
  }

  /** One submission: loading on, the call's requests, an optional navigation, loading off. */
  function Submission(requests: seq<AuthContext.ProviderRequest>, navigation: seq<Effect>): seq<Effect>
  {
    [SetLoading(true)] + Requested(requests) + navigation + [SetLoading(false)]
  }

  /** A submission's effects, appended one step at a time, make up the submission. */
  lemma SubmissionAppended(start: seq<Effect>, requests: seq<AuthContext.ProviderRequest>, navigation: seq<Effect>)
    ensures start + [SetLoading(true)] + Requested(requests) + navigation + [SetLoading(false)]
            == start + Submission(requests, navigation)
  {
  }

  /** The value of the `loading` state after replaying a trace from `start`. */
  function LoadingAfter(start: bool, trace: seq<Effect>): bool
    decreases |trace|
  {
    if trace == [] then start
    else match trace[|trace| - 1]
      case SetLoading(on) => on
      case _ => LoadingAfter(start, trace[..|trace| - 1])
  }

  predicate KeepsLoading(es: seq<Effect>)
  {
    forall i :: 0 <= i < |es| ==> !es[i].SetLoading?
  }

  /** Effects that do not call `setLoading` leave the flag as it was. */
  lemma {:induction false} LoadingUnchangedBy(start: bool, before: seq<Effect>, es: seq<Effect>)
    requires KeepsLoading(es)
    ensures LoadingAfter(start, before + es) == LoadingAfter(start, before)
    decreases |es|
  {
    if es == [] {
      assert before + es == before;
    } else {
      var init := es[..|es| - 1];
      assert (before + es)[..|before + es| - 1] == before + init;
      assert (before + es)[|before + es| - 1] == es[|es| - 1];
      assert !es[|es| - 1].SetLoading?;
      assert KeepsLoading(init);
      assert LoadingAfter(start, before + es) == LoadingAfter(start, before + init);
      LoadingUnchangedBy(start, before, init);
    }
  }

  /**
   * Every request and navigation of a submission happens while `loading`
   * is true, and `loading` is false once the submission is over, whatever
   * it was before.
   */
  lemma SubmissionLoading(start: bool, before: seq<Effect>, requests: seq<AuthContext.ProviderRequest>,
                          navigation: seq<Effect>, k: nat)
    requires KeepsLoading(navigation)
    requires k < |Requested(requests) + navigation|
    ensures var t := before + Submission(requests, navigation);
            && !(t[|before| + 1 + k].SetLoading?)
            && LoadingAfter(start, t[..|before| + 1 + k])
            && !LoadingAfter(start, t)
  {
    var mids := Requested(requests) + navigation;
    assert KeepsLoading(mids);
    var t := before + Submission(requests, navigation);
    assert t == before + [SetLoading(true)] + mids + [SetLoading(false)];
    assert t[..|before| + 1 + k] == (before + [SetLoading(true)]) + mids[..k];
    assert KeepsLoading(mids[..k]);
    LoadingUnchangedBy(start, before + [SetLoading(true)], mids[..k]);
    assert (before + [SetLoading(true)])[..|before|] == before;
    assert t[|before| + 1 + k] == mids[k];
  }
}
