// update_cf.js: the in-memory edit of a CloudFront distribution config that
// routes `/api/*` to the backend. The origin `TalosBackend` is upserted into
// the origin list, and the cache behaviours are rewritten so that a single
// `/api/*` behaviour targeting it comes first. Fetching the config, writing
// it to disk and the AWS CLI calls are not modelled.

module UpdateCf {
  import opened Common

  const BackendOriginId: string := "TalosBackend"
  const ApiPattern: string := "/api/*"

  /** An origin; only the fields the script reads or sets are kept. */
  datatype Origin = Origin(id: string, domainName: string, protocolPolicy: string)

  /** A cache behaviour: the path it matches and the origin it targets. */
  datatype Behavior = Behavior(pathPattern: string, targetOriginId: string, viewerProtocolPolicy: string)

  /** `CacheBehaviors`: its declared `Quantity` and its `Items`, which may be absent. */
  datatype CacheBehaviors = CacheBehaviors(quantity: int, items: Option<seq<Behavior>>)

  /** The origin the script installs. */
  const BackendOrigin: Origin :=
    Origin(BackendOriginId, "talos-hvac-backend-env.us-east-1.elasticbeanstalk.com", "http-only")

  /** The behaviour the script installs. */
  const ApiBehavior: Behavior := Behavior(ApiPattern, BackendOriginId, "redirect-to-https")

  /** `items.findIndex(o => o.Id === id)`: the first index holding `id`, or -1. */
  function FindOrigin(items: seq<Origin>, id: string): (k: int)
    ensures -1 <= k < |items|
    ensures k == -1 <==> forall i :: 0 <= i < |items| ==> items[i].id != id
    ensures k >= 0 ==> items[k].id == id && forall i :: 0 <= i < k ==> items[i].id != id
  {
    if items == [] then -1
    else if items[0].id == id then 0
    else
      var k := FindOrigin(items[1..], id);
      if k == -1 then -1 else k + 1
  }

  /** The origin list after the upsert: replace the first `TalosBackend`, or append. */
  function UpsertedOrigins(items: seq<Origin>): (r: seq<Origin>)
  {
    var k := FindOrigin(items, BackendOriginId);
    if k >= 0 then items[k := BackendOrigin] else items + [BackendOrigin]
  }

  /** The behaviours whose path pattern is not `ApiPattern`, in order. */
  function WithoutApi(items: seq<Behavior>): (r: seq<Behavior>)
    ensures |r| <= |items|
    ensures forall i :: 0 <= i < |r| ==> r[i].pathPattern != ApiPattern && r[i] in items
  {
    if items == [] then []
    else if items[0].pathPattern == ApiPattern then WithoutApi(items[1..])
    else [items[0]] + WithoutApi(items[1..])
  }

  /** The behaviour list after the rewrite: the API behaviour first, then the others. */
  function RewrittenBehaviors(items: Option<seq<Behavior>>): seq<Behavior>
  {
    [ApiBehavior] + WithoutApi(if items.Some? then items.value else [])
  }

  /** How many origins carry `id`. */
  function CountOrigin(items: seq<Origin>, id: string): (n: nat)
    ensures n <= |items|
  {
    if items == [] then 0 else (if items[0].id == id then 1 else 0) + CountOrigin(items[1..], id)
  }

  /** How many behaviours match `pattern`. */
  function CountPattern(items: seq<Behavior>, pattern: string): (n: nat)
  {
    if items == [] then 0 else (if items[0].pathPattern == pattern then 1 else 0) + CountPattern(items[1..], pattern)
  }

  /** `distConfig`, the part of the distribution config the script edits. */
  class DistConfig {
    var originItems: seq<Origin>
    var originQuantity: int
    var cacheBehaviors: Option<CacheBehaviors>

    constructor (originItems: seq<Origin>, originQuantity: int, cacheBehaviors: Option<CacheBehaviors>)
      ensures this.originItems == originItems && this.originQuantity == originQuantity
      ensures this.cacheBehaviors == cacheBehaviors
    {
      this.originItems := originItems;
      this.originQuantity := originQuantity;
      this.cacheBehaviors := cacheBehaviors;
    }

    /**
     * Step 1: an existing `TalosBackend` origin is overwritten in place and
     * the count stays; otherwise the origin is pushed and the count goes up
     * by one. The cache behaviours are untouched.
     */
    method UpsertBackendOrigin()
      modifies this
      ensures originItems == UpsertedOrigins(old(originItems))
      ensures FindOrigin(old(originItems), BackendOriginId) >= 0 ==> originQuantity == old(originQuantity)
      ensures FindOrigin(old(originItems), BackendOriginId) == -1 ==> originQuantity == old(originQuantity) + 1
      ensures old(originQuantity) == |old(originItems)| ==> originQuantity == |originItems|
      ensures cacheBehaviors == old(cacheBehaviors)
    {
      var existing := FindOrigin(originItems, BackendOriginId);
      if existing >= 0 {
        originItems := originItems[existing := BackendOrigin];
      } else {
        originItems := originItems + [BackendOrigin];
        originQuantity := originQuantity + 1;
      }
    }

    /**
     * Step 2: a missing `CacheBehaviors` starts empty; every API
     * behaviour is dropped, the new one is put in front, and `Quantity` is
     * set to the number of items. The origins are untouched.
     */
    method ReplaceApiBehavior()
      modifies this
      ensures cacheBehaviors.Some?
      ensures var before := if old(cacheBehaviors).Some? then old(cacheBehaviors).value.items else Some([]);
        cacheBehaviors.value.items == Some(RewrittenBehaviors(before))
      ensures cacheBehaviors.value.quantity == |cacheBehaviors.value.items.value|
      ensures originItems == old(originItems) && originQuantity == old(originQuantity)
    {
      if cacheBehaviors.None? {
        cacheBehaviors := Some(CacheBehaviors(0, Some([])));
      }
      var items := cacheBehaviors.value.items;
      var kept := WithoutApi(if items.Some? then items.value else []);
      var updated := [ApiBehavior] + kept;
      cacheBehaviors := Some(CacheBehaviors(|updated|, Some(updated)));
    }

    /** The whole in-memory edit: the origin upsert, then the behaviour rewrite. */
    method Update()
      modifies this
      ensures originItems == UpsertedOrigins(old(originItems))
      ensures originQuantity == old(originQuantity) + (if FindOrigin(old(originItems), BackendOriginId) >= 0 then 0 else 1)
      ensures cacheBehaviors.Some?
      ensures var before := if old(cacheBehaviors).Some? then old(cacheBehaviors).value.items else Some([]);
        cacheBehaviors.value.items == Some(RewrittenBehaviors(before))
      ensures cacheBehaviors.value.quantity == |cacheBehaviors.value.items.value|
    {
      UpsertBackendOrigin();
      ReplaceApiBehavior();
    }
  }

  // ---------------------------------------------------------------------
  // Properties of the edit
  // ---------------------------------------------------------------------

  lemma {:induction false} CountOriginUpdate(items: seq<Origin>, k: nat, o: Origin, id: string)
    requires k < |items|
    ensures CountOrigin(items[k := o], id)
            == CountOrigin(items, id) - (if items[k].id == id then 1 else 0) + (if o.id == id then 1 else 0)
  {
    if k > 0 {
      assert items[k := o][1..] == items[1..][k - 1 := o];
      CountOriginUpdate(items[1..], k - 1, o, id);
    }
  }

  lemma {:induction false} CountOriginAppend(items: seq<Origin>, o: Origin, id: string)
    ensures CountOrigin(items + [o], id) == CountOrigin(items, id) + (if o.id == id then 1 else 0)
  {
    if items == [] {
      assert items + [o] == [o];
    } else {
      assert (items + [o])[1..] == items[1..] + [o];
      CountOriginAppend(items[1..], o, id);
    }
  }

  lemma {:induction false} CountOriginZero(items: seq<Origin>, id: string)
    ensures CountOrigin(items, id) == 0 <==> forall i :: 0 <= i < |items| ==> items[i].id != id
  {
    if items != [] {
      CountOriginZero(items[1..], id);
      if items[0].id != id {
        assert forall i :: 1 <= i < |items| ==> items[i] == items[1..][i - 1];
      }
    }
  }

  /**
   * After the upsert there is a `TalosBackend` origin, and no more of them
   * than before unless there were none: with at most one before, exactly one
   * after.
   */
  lemma UpsertKeepsOneBackend(items: seq<Origin>)
    ensures CountOrigin(UpsertedOrigins(items), BackendOriginId)
            == if CountOrigin(items, BackendOriginId) == 0 then 1 else CountOrigin(items, BackendOriginId)
    ensures CountOrigin(items, BackendOriginId) <= 1 ==> CountOrigin(UpsertedOrigins(items), BackendOriginId) == 1
  {
    var k := FindOrigin(items, BackendOriginId);
    CountOriginZero(items, BackendOriginId);
    if k >= 0 {
      CountOriginUpdate(items, k, BackendOrigin, BackendOriginId);
    } else {
      CountOriginAppend(items, BackendOrigin, BackendOriginId);
    }
  }

  /** The upsert leaves every origin other than the replaced one where it was. */
  lemma UpsertKeepsOthers(items: seq<Origin>)
    ensures var r := UpsertedOrigins(items);
      && |r| >= |items|
      && forall i :: 0 <= i < |items| && items[i].id != BackendOriginId ==> r[i] == items[i]
  {
  }

  /** Filtering distributes over concatenation, so the kept behaviours stay in their order. */
  lemma {:induction false} WithoutApiAppend(a: seq<Behavior>, b: seq<Behavior>)
    ensures WithoutApi(a + b) == WithoutApi(a) + WithoutApi(b)
  {
    if a == [] {
      assert a + b == b;
    } else {
      assert (a + b)[1..] == a[1..] + b;
      WithoutApiAppend(a[1..], b);
    }
  }

  /** Every behaviour that does not match `ApiPattern` survives the filter. */
  lemma {:induction false} WithoutApiKeeps(items: seq<Behavior>, i: nat)
    requires i < |items| && items[i].pathPattern != ApiPattern
    ensures items[i] in WithoutApi(items)
  {
    if i > 0 {
      WithoutApiKeeps(items[1..], i - 1);
    }
  }

  lemma {:induction false} WithoutApiCount(items: seq<Behavior>)
    ensures CountPattern(WithoutApi(items), ApiPattern) == 0
  {
    if items != [] {
      WithoutApiCount(items[1..]);
    }
  }

  /**
   * After the rewrite the list starts with the API behaviour, it is the only
   * API behaviour, and the other behaviours follow in their old order.
   */
  lemma RewriteHasOneApiBehavior(items: Option<seq<Behavior>>)
    ensures var r := RewrittenBehaviors(items);
      && r[0] == ApiBehavior
      && CountPattern(r, ApiPattern) == 1
      && r[1..] == WithoutApi(if items.Some? then items.value else [])
  {
    var kept := WithoutApi(if items.Some? then items.value else []);
    WithoutApiCount(if items.Some? then items.value else []);
    assert RewrittenBehaviors(items)[1..] == kept;
  }

  /** Running the edit twice gives the same behaviours as running it once. */
  lemma RewriteIdempotent(items: Option<seq<Behavior>>)
    ensures RewrittenBehaviors(Some(RewrittenBehaviors(items))) == RewrittenBehaviors(items)
  {
    var kept := WithoutApi(if items.Some? then items.value else []);
    WithoutApiAppend([ApiBehavior], kept);
    WithoutApiIdempotent(if items.Some? then items.value else []);
    assert WithoutApi([ApiBehavior]) == [];
  }

  lemma {:induction false} WithoutApiIdempotent(items: seq<Behavior>)
    ensures WithoutApi(WithoutApi(items)) == WithoutApi(items)
  {
    if items != [] {
      WithoutApiIdempotent(items[1..]);
    }
  }
}
