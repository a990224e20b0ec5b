/**
 The cluster the children are created in. Each create call either stores
 the manifest or is refused; which one is decided by an abstract API that
 may look at what is already stored (so "AlreadyExists" is expressible)
 and at the manifest. The cluster also records every create request it was
 sent, so that "this call was never attempted" can be stated.
 */
module Store {
  import opened Base

  /** The answer to one create call. */
  datatype Response = Accepted | Rejected(reason: string)

  /** The cluster's decision on a create call, given the objects stored so far. */
  type Api = (seq<Manifest>, Manifest) -> Response

  /** The objects stored, in creation order, and every create request sent. */
  datatype Cluster = Cluster(objects: seq<Manifest>, requests: seq<Manifest>)

  /** A cluster after a sequence of calls, and whether they all succeeded. */
  datatype Run = Run(cluster: Cluster, status: Result<()>)

  /** One create call; a refusal surfaces as an ApiError for the manifest's kind. */
  function Create(c: Cluster, m: Manifest, api: Api): (r: Run)
    ensures r.cluster.requests == c.requests + [m]
    ensures api(c.objects, m).Accepted? ==> r == Run(Cluster(c.objects + [m], c.requests + [m]), Ok(()))
    ensures api(c.objects, m).Rejected? ==>
              && r.cluster.objects == c.objects
              && r.status == Err(ApiError(m.kind, api(c.objects, m).reason))
  {
    match api(c.objects, m)
    case Accepted => Run(Cluster(c.objects + [m], c.requests + [m]), Ok(()))
    case Rejected(why) => Run(Cluster(c.objects, c.requests + [m]), Err(ApiError(m.kind, why)))
  }

  /** Creates `ms` in order and stops at the first refused call, leaving the
      earlier ones in place: nothing already stored or already sent is lost. */
  function RunCreates(c: Cluster, ms: seq<Manifest>, api: Api): (r: Run)
    ensures c.objects <= r.cluster.objects && c.requests <= r.cluster.requests
    ensures |r.cluster.objects| - |c.objects| <= |r.cluster.requests| - |c.requests| <= |ms|
    ensures r.status.Err? ==> r.status.error.ApiError?
    decreases |ms|
  {
    if ms == [] then Run(c, Ok(()))
    else
      var first := Create(c, ms[0], api);
      if first.status.Err? then first
      else RunCreates(first.cluster, ms[1..], api)
  }

  /** The number of manifests a pass stores. */
  function Stored(c: Cluster, r: Run): int {
    |r.cluster.objects| - |c.objects|
  }

  /** What a pass stores: with k manifests stored, exactly `ms[..k]` is
      added, and the pass succeeds iff k == |ms|. */
  lemma {:induction false} RunCreatesStored(c: Cluster, ms: seq<Manifest>, api: Api)
    ensures var r := RunCreates(c, ms, api);
      var k := Stored(c, r);
      && 0 <= k <= |ms|
      && r.cluster.objects == c.objects + ms[..k]
      && (r.status.Ok? <==> k == |ms|)
    decreases |ms|
  {
    if ms != [] {
      var first := Create(c, ms[0], api);
      if first.status.Err? {
        assert ms[..0] == [];
      } else {
        RunCreatesStored(first.cluster, ms[1..], api);
        var r := RunCreates(first.cluster, ms[1..], api);
        assert RunCreates(c, ms, api) == r;
        var k := Stored(first.cluster, r);
        assert Stored(c, r) == k + 1;
        calc {
          r.cluster.objects;
          first.cluster.objects + ms[1..][..k];
          (c.objects + [ms[0]]) + ms[1..][..k];
          { assert [ms[0]] + ms[1..][..k] == ms[..k + 1]; }
          c.objects + ms[..k + 1];
        }
      }
    }
  }

  /** A successful pass sent exactly the manifests, in order. */
  lemma {:induction false} RunCreatesSentOnSuccess(c: Cluster, ms: seq<Manifest>, api: Api)
    ensures var r := RunCreates(c, ms, api);
      r.status.Ok? ==> r.cluster.requests == c.requests + ms
    decreases |ms|
  {
    if ms != [] {
      var first := Create(c, ms[0], api);
      if first.status.Ok? {
        RunCreatesSentOnSuccess(first.cluster, ms[1..], api);
        var r := RunCreates(first.cluster, ms[1..], api);
        assert RunCreates(c, ms, api) == r;
        assert [ms[0]] + ms[1..] == ms;
        assert r.status.Ok? ==> r.cluster.requests == (c.requests + [ms[0]]) + ms[1..];
      }
    }
  }

  /** A failed pass sent the manifests it stored and then the refused one,
      and nothing after it. */
  lemma {:induction false} RunCreatesSentOnFailure(c: Cluster, ms: seq<Manifest>, api: Api)
    ensures var r := RunCreates(c, ms, api);
      var k := Stored(c, r);
      r.status.Err? ==> 0 <= k < |ms| && r.cluster.requests == c.requests + ms[..k + 1]
    decreases |ms|
  {
    if ms != [] {
      var first := Create(c, ms[0], api);
      if first.status.Err? {
        assert ms[..1] == [ms[0]];
      } else {
        RunCreatesSentOnFailure(first.cluster, ms[1..], api);
        var r := RunCreates(first.cluster, ms[1..], api);
        assert RunCreates(c, ms, api) == r;
        var k := Stored(first.cluster, r);
        assert Stored(c, r) == k + 1;
        if r.status.Err? {
          assert [ms[0]] + ms[1..][..k + 1] == ms[..k + 2];
          assert r.cluster.requests == (c.requests + [ms[0]]) + ms[1..][..k + 1];
        }
      }
    }
  }

  /** Every manifest a pass stores was accepted in the state it met. */
  lemma {:induction false} RunCreatesAccepted(c: Cluster, ms: seq<Manifest>, api: Api)
    ensures var r := RunCreates(c, ms, api);
      forall j | 0 <= j < Stored(c, r) && j < |ms| :: api(c.objects + ms[..j], ms[j]).Accepted?
    decreases |ms|
  {
    if ms != [] {
      var first := Create(c, ms[0], api);
      if first.status.Ok? {
        RunCreatesAccepted(first.cluster, ms[1..], api);
        var r := RunCreates(first.cluster, ms[1..], api);
        forall j | 0 <= j < Stored(c, r) && j < |ms|
          ensures api(c.objects + ms[..j], ms[j]).Accepted?
        {
          if j == 0 {
            assert c.objects + ms[..0] == c.objects;
          } else {
            assert ms[..j] == [ms[0]] + ms[1..][..j - 1];
            assert c.objects + ms[..j] == first.cluster.objects + ms[1..][..j - 1];
            assert ms[j] == ms[1..][j - 1];
          }
        }
      }
    }
  }

  /** A failed pass failed on the manifest right after the stored ones,
      refused in the state the pass left, with the cluster's reason. */
  lemma {:induction false} RunCreatesRefused(c: Cluster, ms: seq<Manifest>, api: Api)
    ensures var r := RunCreates(c, ms, api);
      var k := Stored(c, r);
      r.status.Err? ==>
        && 0 <= k < |ms|
        && api(r.cluster.objects, ms[k]).Rejected?
        && r.status.error == ApiError(ms[k].kind, api(r.cluster.objects, ms[k]).reason)
    decreases |ms|
  {
    if ms != [] {
      var first := Create(c, ms[0], api);
      if first.status.Ok? {
        RunCreatesRefused(first.cluster, ms[1..], api);
        var r := RunCreates(first.cluster, ms[1..], api);
        assert r.status.Err? ==> ms[Stored(c, r)] == ms[1..][Stored(first.cluster, r)];
      }
    }
  }

  /** The fail-stop behaviour of a create pass, in one statement: with k
      manifests stored, exactly `ms[..k]` was added and each was accepted;
      the pass succeeds iff k == |ms|; on failure `ms[k]` was refused, its
      request was the last one sent and nothing after it was attempted. */
  lemma RunCreatesFailStop(c: Cluster, ms: seq<Manifest>, api: Api)
    ensures var r := RunCreates(c, ms, api);
      var k := Stored(c, r);
      && 0 <= k <= |ms|
      && r.cluster.objects == c.objects + ms[..k]
      && (forall j | 0 <= j < k :: api(c.objects + ms[..j], ms[j]).Accepted?)
      && (r.status.Ok? <==> k == |ms|)
      && (r.status.Ok? ==> r.cluster.requests == c.requests + ms)
      && (r.status.Err? ==>
            && k < |ms|
            && r.cluster.requests == c.requests + ms[..k + 1]
            && api(r.cluster.objects, ms[k]).Rejected?
            && r.status.error == ApiError(ms[k].kind, api(r.cluster.objects, ms[k]).reason))
  {
    RunCreatesStored(c, ms, api);
    RunCreatesSentOnSuccess(c, ms, api);
    RunCreatesSentOnFailure(c, ms, api);
    RunCreatesAccepted(c, ms, api);
    RunCreatesRefused(c, ms, api);
  }

  /** The same pass written as a loop that records how far it got: it ends
      in the same cluster with the same outcome as the recursive pipeline. */
  method CreateInOrder(c: Cluster, ms: seq<Manifest>, api: Api) returns (r: Run)
    ensures r == RunCreates(c, ms, api)
  {
    var cluster := c;
    var i := 0;
    while i < |ms|
      invariant 0 <= i <= |ms|
      invariant RunCreates(cluster, ms[i..], api) == RunCreates(c, ms, api)
    {
      assert ms[i..][0] == ms[i] && ms[i..][1..] == ms[i + 1..];
      var step := Create(cluster, ms[i], api);
      if step.status.Err? {
        return step;
      }
      cluster := step.cluster;
      i := i + 1;
    }
    return Run(cluster, Ok(()));
  }
}
