/** The Pulumi program context a run function writes into, reduced to what
    the provider observes: the log of declared resources, the exported
    outputs, the SAS listings invoked and the sharing callbacks that ran.

    A run function is a chain of steps over an `Outcome`. Once a step has
    failed, every later step leaves the outcome unchanged: this is Go's
    `if err != nil { return err }` after each call. */
module Deployment {
  import opened Wrappers
  import opened Arm

  datatype Ctx = Ctx(
    resources: seq<Resource>,
    exports: map<string, string>,
    sasRequests: seq<SasRequest>,
    callbacks: seq<ShareAttempt>)

  datatype Outcome = Outcome(ctx: Ctx, err: Option<Error>) {

    predicate Failed() {
      err.Some?
    }

    /** `ctx.Export(key, value)`: the outputs are a map, the last export of a key wins. */
    function Export(key: string, value: string): Outcome {
      if Failed() then this
      else Outcome(ctx.(exports := ctx.exports[key := value]), None)
    }

    /** Declaring a resource. The engine refuses the resources named in
        `rejects`, with the error it maps them to; a refused resource is not
        logged and the run stops there. */
    function Provision(resource: Resource, rejects: map<string, Error>): Outcome {
      if Failed() then this
      else if resource.urn in rejects then Outcome(ctx, Some(rejects[resource.urn]))
      else Outcome(ctx.(resources := ctx.resources + [resource]), None)
    }

    /** A call outside the resource graph returned an error. */
    function Abort(e: Error): Outcome {
      if Failed() then this else Outcome(ctx, Some(e))
    }

    /** The `listStorageAccountSAS` invoke; its failure surfaces only through
        the output it produces, never as an error of the run function. */
    function ListSas(request: SasRequest): Outcome {
      if Failed() then this
      else Outcome(ctx.(sasRequests := ctx.sasRequests + [request]), None)
    }

    /** An `ApplyT` callback that ran; whatever it returned is not the run's error. */
    function Callback(attempt: ShareAttempt): Outcome {
      if Failed() then this
      else Outcome(ctx.(callbacks := ctx.callbacks + [attempt]), None)
    }
  }

  const Start := Outcome(Ctx([], map[], [], []), None)

  /** Index of the first resource of `plan` the engine refuses, or `|plan|`. */
  function FirstRefused(plan: seq<Resource>, rejects: map<string, Error>): (n: nat)
    ensures n <= |plan|
    ensures forall j :: 0 <= j < n ==> plan[j].urn !in rejects
    ensures n < |plan| ==> plan[n].urn in rejects
  {
    if plan == [] || plan[0].urn in rejects then 0
    else 1 + FirstRefused(plan[1..], rejects)
  }

  /** Declaring the resources of `plan` one after the other, each call
      returning on error: exactly the resources before the first refused one
      are logged, and that one's error is the run's error. */
  function ProvisionAll(o: Outcome, plan: seq<Resource>, rejects: map<string, Error>): (r: Outcome)
    ensures r.ctx.exports == o.ctx.exports
    ensures r.ctx.sasRequests == o.ctx.sasRequests && r.ctx.callbacks == o.ctx.callbacks
    ensures o.Failed() ==> r == o
    ensures !o.Failed() ==>
              var n := FirstRefused(plan, rejects);
              && r.ctx.resources == o.ctx.resources + plan[..n]
              && r.err == (if n < |plan| then Some(rejects[plan[n].urn]) else None)
    decreases |plan|
  {
    if plan == [] then o
    else
      var next := o.Provision(plan[0], rejects);
      assert !o.Failed() && plan[0].urn !in rejects ==>
        plan[..FirstRefused(plan, rejects)] == [plan[0]] + plan[1..][..FirstRefused(plan[1..], rejects)];
      ProvisionAll(next, plan[1..], rejects)
  }

  /** Refusal in a concatenated plan: the first part's, if it has one,
      otherwise the second part's shifted past the first. */
  lemma {:induction false} FirstRefusedAppend(a: seq<Resource>, b: seq<Resource>, rejects: map<string, Error>)
    ensures FirstRefused(a + b, rejects) ==
              if FirstRefused(a, rejects) < |a| then FirstRefused(a, rejects)
              else |a| + FirstRefused(b, rejects)
  {
    if a == [] {
      assert a + b == b;
    } else {
      assert (a + b)[0] == a[0];
      assert (a + b)[1..] == a[1..] + b;
      FirstRefusedAppend(a[1..], b, rejects);
    }
  }

  /** Every explicit dependency of a logged resource names a resource
      declared before it. */
  ghost predicate DependenciesPrecede(resources: seq<Resource>) {
    forall i, k :: 0 <= i < |resources| && 0 <= k < |resources[i].options.dependsOn| ==>
      DeclaredBefore(resources, i, k)
  }

  /** The `k`-th dependency of resource `i` is the name of an earlier resource. */
  ghost predicate DeclaredBefore(resources: seq<Resource>, i: nat, k: nat)
    requires i < |resources| && k < |resources[i].options.dependsOn|
  {
    exists j :: 0 <= j < i && resources[j].urn == resources[i].options.dependsOn[k]
  }

  /** A run that stops early logs a prefix of its plan, and the property
      survives the cut. */
  lemma DependenciesPrecedePrefix(plan: seq<Resource>, n: nat)
    requires n <= |plan| && DependenciesPrecede(plan)
    ensures DependenciesPrecede(plan[..n])
  {
    var p := plan[..n];
    forall i, k | 0 <= i < |p| && 0 <= k < |p[i].options.dependsOn|
      ensures DeclaredBefore(p, i, k)
    {
      assert p[i] == plan[i];
      assert DeclaredBefore(plan, i, k);
      var j :| 0 <= j < i && plan[j].urn == plan[i].options.dependsOn[k];
      assert p[j] == plan[j];
    }
  }
}
