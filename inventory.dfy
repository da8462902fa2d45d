/** What `update_inventory` records about the raw inventory and what
    `claim_all_drops` claims from it. */
module Inventory {
  import opened Entities

  /** The response of the inventory request; `dropCampaignsInProgress` is
      `None` when the key is missing or null. */
  datatype InventoryResponse = InventoryResponse(dropCampaignsInProgress: Option<seq<Campaign>>)

  /** The inventory is the list of in-progress campaigns when that list is
      present and non-empty, and empty otherwise. */
  function InventoryOf(r: InventoryResponse): (inv: seq<Campaign>)
    ensures r.dropCampaignsInProgress.None? ==> inv == []
    ensures r.dropCampaignsInProgress.Some? ==> inv == r.dropCampaignsInProgress.value
  {
    if r.dropCampaignsInProgress.Some? && |r.dropCampaignsInProgress.value| > 0
    then r.dropCampaignsInProgress.value
    else []
  }

  /** A drop the miner no longer needs to watch for: claimed, or watched long enough. */
  predicate Satisfied(d: Drop)
  {
    d.claimed || d.requiredTime <= d.watchedTime
  }

  /** A drop that is due for a claim: watched long enough and not claimed yet. */
  predicate Claimable(d: Drop)
  {
    d.requiredTime <= d.watchedTime && !d.claimed
  }

  /** Every drop of the inventory, campaign by campaign, in order. */
  function AllDrops(inv: seq<Campaign>): seq<Drop>
  {
    if inv == [] then [] else inv[0].drops + AllDrops(inv[1..])
  }

  /** The ids of the satisfied drops among `ds`, in order. */
  function SatisfiedIds(ds: seq<Drop>): seq<string>
  {
    if ds == [] then []
    else (if Satisfied(ds[0]) then [ds[0].id] else []) + SatisfiedIds(ds[1..])
  }

  /** `claimed_drops_ids` as `update_inventory` builds it. */
  function ClaimedIds(inv: seq<Campaign>): seq<string>
  {
    SatisfiedIds(AllDrops(inv))
  }

  /** The `claim_drop` calls for the due drops among `ds`, in order. */
  function ClaimCalls(ds: seq<Drop>): seq<Action>
  {
    if ds == [] then []
    else (if Claimable(ds[0]) then [ClaimDrop(ds[0].instanceId)] else []) + ClaimCalls(ds[1..])
  }

  /** The calls `claim_all_drops` makes, driven by the raw inventory. */
  function ClaimActions(inv: seq<Campaign>): seq<Action>
  {
    ClaimCalls(AllDrops(inv))
  }

  lemma {:induction false} AllDropsAppend(a: seq<Campaign>, b: seq<Campaign>)
    ensures AllDrops(a + b) == AllDrops(a) + AllDrops(b)
  {
    if a == [] {
      assert a + b == b;
    } else {
      assert (a + b)[1..] == a[1..] + b;
      AllDropsAppend(a[1..], b);
    }
  }

  /** A drop is among `AllDrops(inv)` exactly when some campaign of `inv` holds it. */
  lemma {:induction false} AllDropsMembership(inv: seq<Campaign>, d: Drop)
    ensures d in AllDrops(inv) <==> exists i :: 0 <= i < |inv| && d in inv[i].drops
  {
    if inv != [] {
      AllDropsMembership(inv[1..], d);
      if d in AllDrops(inv) && d !in inv[0].drops {
        var i :| 0 <= i < |inv[1..]| && d in inv[1..][i].drops;
        assert d in inv[i + 1].drops;
      }
      if d !in inv[0].drops && exists i :: 0 <= i < |inv| && d in inv[i].drops {
        var i :| 0 <= i < |inv| && d in inv[i].drops;
        assert i > 0 && d in inv[1..][i - 1].drops;
      }
    }
  }

  lemma {:induction false} SatisfiedIdsAppend(a: seq<Drop>, b: seq<Drop>)
    ensures SatisfiedIds(a + b) == SatisfiedIds(a) + SatisfiedIds(b)
  {
    if a == [] {
      assert a + b == b;
    } else {
      assert (a + b)[1..] == a[1..] + b;
      SatisfiedIdsAppend(a[1..], b);
    }
  }

  lemma {:induction false} SatisfiedIdsMembership(ds: seq<Drop>, x: string)
    ensures x in SatisfiedIds(ds) <==> exists d :: d in ds && Satisfied(d) && d.id == x
  {
    if ds != [] {
      SatisfiedIdsMembership(ds[1..], x);
      assert forall d :: d in ds <==> d == ds[0] || d in ds[1..];
    }
  }

  /** `claimed_drops_ids` lists the id of every satisfied inventory drop and
      no other id. */
  lemma ClaimedIdsSpec(inv: seq<Campaign>, x: string)
    ensures x in ClaimedIds(inv) <==>
      exists i, d :: 0 <= i < |inv| && d in inv[i].drops && Satisfied(d) && d.id == x
  {
    SatisfiedIdsMembership(AllDrops(inv), x);
    if x in ClaimedIds(inv) {
      var d :| d in AllDrops(inv) && Satisfied(d) && d.id == x;
      AllDropsMembership(inv, d);
    }
    if exists i, d :: 0 <= i < |inv| && d in inv[i].drops && Satisfied(d) && d.id == x {
      var i, d :| 0 <= i < |inv| && d in inv[i].drops && Satisfied(d) && d.id == x;
      AllDropsMembership(inv, d);
    }
  }

  /** Ids are listed in inventory order: those of the earlier campaigns first,
      and within a campaign in drop order. */
  lemma ClaimedIdsInOrder(a: seq<Campaign>, b: seq<Campaign>, c: Campaign)
    ensures ClaimedIds(a + b) == ClaimedIds(a) + ClaimedIds(b)
    ensures ClaimedIds([c]) == SatisfiedIds(c.drops)
  {
    AllDropsAppend(a, b);
    SatisfiedIdsAppend(AllDrops(a), AllDrops(b));
    assert AllDrops([c]) == c.drops + AllDrops([]);
    assert c.drops + [] == c.drops;
  }

  /** An empty or missing in-progress list yields no claimed ids. */
  lemma NoInventoryNoClaimedIds(r: InventoryResponse)
    requires r.dropCampaignsInProgress.None? || r.dropCampaignsInProgress == Some([])
    ensures ClaimedIds(InventoryOf(r)) == []
  {
  }

  lemma {:induction false} ClaimCallsAppend(a: seq<Drop>, b: seq<Drop>)
    ensures ClaimCalls(a + b) == ClaimCalls(a) + ClaimCalls(b)
  {
    if a == [] {
      assert a + b == b;
    } else {
      assert (a + b)[1..] == a[1..] + b;
      ClaimCallsAppend(a[1..], b);
    }
  }

  /** One step of the inner loop of `update_inventory`. */
  lemma SatisfiedIdsStep(ds: seq<Drop>, j: nat)
    requires j < |ds|
    ensures SatisfiedIds(ds[..j + 1]) == SatisfiedIds(ds[..j]) + (if Satisfied(ds[j]) then [ds[j].id] else [])
  {
    assert ds[..j + 1] == ds[..j] + [ds[j]];
    SatisfiedIdsAppend(ds[..j], [ds[j]]);
  }

  /** One step of the outer loop of `update_inventory`. */
  lemma ClaimedIdsStep(inv: seq<Campaign>, i: nat)
    requires i < |inv|
    ensures ClaimedIds(inv[..i + 1]) == ClaimedIds(inv[..i]) + SatisfiedIds(inv[i].drops)
  {
    assert inv[..i + 1] == inv[..i] + [inv[i]];
    ClaimedIdsInOrder(inv[..i], [inv[i]], inv[i]);
  }

  /** One step of the inner loop of `claim_all_drops`. */
  lemma ClaimCallsStep(ds: seq<Drop>, j: nat)
    requires j < |ds|
    ensures ClaimCalls(ds[..j + 1]) == ClaimCalls(ds[..j]) + (if Claimable(ds[j]) then [ClaimDrop(ds[j].instanceId)] else [])
  {
    assert ds[..j + 1] == ds[..j] + [ds[j]];
    ClaimCallsAppend(ds[..j], [ds[j]]);
  }

  /** One step of the outer loop of `claim_all_drops`. */
  lemma ClaimActionsStep(inv: seq<Campaign>, i: nat)
    requires i < |inv|
    ensures ClaimActions(inv[..i + 1]) == ClaimActions(inv[..i]) + ClaimCalls(inv[i].drops)
  {
    assert inv[..i + 1] == inv[..i] + [inv[i]];
    AllDropsAppend(inv[..i], [inv[i]]);
    ClaimCallsAppend(AllDrops(inv[..i]), inv[i].drops);
    assert AllDrops([inv[i]]) == inv[i].drops + AllDrops([]);
    assert inv[i].drops + [] == inv[i].drops;
  }

  lemma {:induction false} ClaimCallsMembership(ds: seq<Drop>, a: Action)
    ensures a in ClaimCalls(ds) <==> exists d :: d in ds && Claimable(d) && a == ClaimDrop(d.instanceId)
  {
    if ds != [] {
      ClaimCallsMembership(ds[1..], a);
      assert forall d :: d in ds <==> d == ds[0] || d in ds[1..];
    }
  }

  /** `claim_all_drops` calls `claim_drop` for the instance of every due drop
      of the raw inventory, and makes no other call. */
  lemma ClaimActionsSpec(inv: seq<Campaign>, a: Action)
    ensures a in ClaimActions(inv) <==>
      exists i, d :: 0 <= i < |inv| && d in inv[i].drops && Claimable(d) && a == ClaimDrop(d.instanceId)
  {
    ClaimCallsMembership(AllDrops(inv), a);
    if a in ClaimActions(inv) {
      var d :| d in AllDrops(inv) && Claimable(d) && a == ClaimDrop(d.instanceId);
      AllDropsMembership(inv, d);
    }
    if exists i, d :: 0 <= i < |inv| && d in inv[i].drops && Claimable(d) && a == ClaimDrop(d.instanceId) {
      var i, d :| 0 <= i < |inv| && d in inv[i].drops && Claimable(d) && a == ClaimDrop(d.instanceId);
      AllDropsMembership(inv, d);
    }
  }

  /** One call per due drop, in inventory order: the calls for a concatenation
      are the calls for its parts, and a single drop yields one call exactly
      when it is due. */
  lemma ClaimActionsInOrder(a: seq<Campaign>, b: seq<Campaign>, d: Drop)
    ensures ClaimActions(a + b) == ClaimActions(a) + ClaimActions(b)
    ensures ClaimCalls([d]) == if Claimable(d) then [ClaimDrop(d.instanceId)] else []
  {
    AllDropsAppend(a, b);
    ClaimCallsAppend(AllDrops(a), AllDrops(b));
  }

  /** Every drop that is claimed in a pass also had its id recorded in
      `claimed_drops_ids` by the same pass. */
  lemma ClaimedDropsAreRecorded(inv: seq<Campaign>, d: Drop)
    requires d in AllDrops(inv) && Claimable(d)
    ensures d.id in ClaimedIds(inv)
  {
    SatisfiedIdsMembership(AllDrops(inv), d.id);
  }
}
