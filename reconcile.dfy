/** What `update_campaigns` keeps of the freshly fetched campaigns.

    The deletion loops remove entries by index while `enumerate` walks the
    same list, so the entry right after a deleted one moves into the deleted
    slot and is never looked at. `SkipPrune` and `SkipPruneCampaigns` are
    that behaviour written structurally; `DropsSieved` and `CampaignsSieved`
    say what is sound about it. */
module Reconcile {
  import opened Entities

  /** An entry of the campaign-list response. */
  datatype CampaignSummary = CampaignSummary(id: string, status: string)

  /** The ids of the active campaigns, in response order. */
  function ActiveIds(resp: seq<CampaignSummary>): seq<string>
  {
    if resp == [] then []
    else (if resp[0].status == "ACTIVE" then [resp[0].id] else []) + ActiveIds(resp[1..])
  }

  lemma {:induction false} ActiveIdsAppend(a: seq<CampaignSummary>, b: seq<CampaignSummary>)
    ensures ActiveIds(a + b) == ActiveIds(a) + ActiveIds(b)
  {
    if a == [] {
      assert a + b == b;
    } else {
      assert (a + b)[1..] == a[1..] + b;
      ActiveIdsAppend(a[1..], b);
    }
  }

  /** Full data is requested for the id of every active campaign and no other. */
  lemma {:induction false} ActiveIdsMembership(resp: seq<CampaignSummary>, x: string)
    ensures x in ActiveIds(resp) <==> exists k :: 0 <= k < |resp| && resp[k].status == "ACTIVE" && resp[k].id == x
  {
    if resp != [] {
      ActiveIdsMembership(resp[1..], x);
      if exists k :: 0 <= k < |resp| && resp[k].status == "ACTIVE" && resp[k].id == x {
        var k :| 0 <= k < |resp| && resp[k].status == "ACTIVE" && resp[k].id == x;
        if k > 0 {
          assert resp[1..][k - 1] == resp[k];
        }
      }
      if x in ActiveIds(resp[1..]) {
        var k :| 0 <= k < |resp[1..]| && resp[1..][k].status == "ACTIVE" && resp[1..][k].id == x;
        assert resp[k + 1] == resp[1..][k];
      }
    }
  }

  /** The drop list the inner `del` loop leaves: a claimed drop is deleted and
      the drop after it is kept without being checked. */
  function SkipPrune(ds: seq<Drop>, claimed: seq<string>): seq<Drop>
    decreases |ds|
  {
    if ds == [] then []
    else if ds[0].id in claimed then
      (if |ds| == 1 then [] else [ds[1]] + SkipPrune(ds[2..], claimed))
    else [ds[0]] + SkipPrune(ds[1..], claimed)
  }

  /** `kept` is `orig` with some claimed drops taken out, the rest unchanged
      and in their original order. */
  predicate DropsSieved(orig: seq<Drop>, kept: seq<Drop>, claimed: seq<string>)
    decreases |orig|
  {
    if orig == [] then kept == []
    else
      (kept != [] && kept[0] == orig[0] && DropsSieved(orig[1..], kept[1..], claimed))
      || (orig[0].id in claimed && DropsSieved(orig[1..], kept, claimed))
  }

  /** Every drop of `ds` has a claimed id. */
  predicate AllClaimed(ds: seq<Drop>, claimed: seq<string>)
  {
    forall d :: d in ds ==> d.id in claimed
  }

  lemma {:induction false} DropsSievedRefl(ds: seq<Drop>, claimed: seq<string>)
    ensures DropsSieved(ds, ds, claimed)
  {
    if ds != [] {
      DropsSievedRefl(ds[1..], claimed);
    }
  }

  /** The inner deletion loop removes only drops whose id is claimed, keeps the
      order of the others and never changes a kept drop. */
  lemma {:induction false} SkipPruneSound(ds: seq<Drop>, claimed: seq<string>)
    ensures DropsSieved(ds, SkipPrune(ds, claimed), claimed)
    decreases |ds|
  {
    if ds == [] {
    } else if ds[0].id in claimed {
      if |ds| == 1 {
      } else {
        SkipPruneSound(ds[2..], claimed);
        assert ds[1..][1..] == ds[2..];
      }
    } else {
      SkipPruneSound(ds[1..], claimed);
    }
  }

  /** What a sieve keeps, counted with multiplicity: never more of any drop
      than there was, all of every drop with an unclaimed id, and no more
      entries in all. */
  lemma {:induction false} DropsSievedCounts(orig: seq<Drop>, kept: seq<Drop>, claimed: seq<string>)
    requires DropsSieved(orig, kept, claimed)
    ensures |kept| <= |orig|
    ensures forall d: Drop :: multiset(kept)[d] <= multiset(orig)[d]
    ensures forall d: Drop :: d.id !in claimed ==> multiset(kept)[d] == multiset(orig)[d]
    decreases |orig|
  {
    if orig != [] {
      assert orig == [orig[0]] + orig[1..];
      if kept != [] && kept[0] == orig[0] && DropsSieved(orig[1..], kept[1..], claimed) {
        DropsSievedCounts(orig[1..], kept[1..], claimed);
        assert kept == [kept[0]] + kept[1..];
      } else {
        DropsSievedCounts(orig[1..], kept, claimed);
      }
    }
  }

  /** A sieve that keeps nothing took only claimed drops. */
  lemma EmptySieveAllClaimed(orig: seq<Drop>, claimed: seq<string>)
    requires DropsSieved(orig, [], claimed)
    ensures AllClaimed(orig, claimed)
  {
    DropsSievedCounts(orig, [], claimed);
    forall d | d in orig
      ensures d.id in claimed
    {
      assert multiset(orig)[d] > 0;
    }
  }

  /** Completeness does not hold: of two adjacent drops with claimed ids the
      second one survives. */
  lemma SkipPruneKeepsNeighbour(ds: seq<Drop>, claimed: seq<string>)
    requires |ds| >= 2 && ds[0].id in claimed
    ensures SkipPrune(ds, claimed) != [] && SkipPrune(ds, claimed)[0] == ds[1]
  {
  }

  /** The campaign with its drops pruned by the inner loop. */
  function PruneCampaign(c: Campaign, claimed: seq<string>): Campaign
  {
    c.(drops := SkipPrune(c.drops, claimed))
  }

  /** The campaign list the outer `del` loop leaves: a campaign left without
      drops is deleted and the campaign after it is kept as fetched, its drops
      not pruned. */
  function SkipPruneCampaigns(cs: seq<Campaign>, claimed: seq<string>): seq<Campaign>
    decreases |cs|
  {
    if cs == [] then []
    else if |PruneCampaign(cs[0], claimed).drops| == 0 then
      (if |cs| == 1 then [] else [cs[1]] + SkipPruneCampaigns(cs[2..], claimed))
    else [PruneCampaign(cs[0], claimed)] + SkipPruneCampaigns(cs[1..], claimed)
  }

  /** `kept` is `orig` with some campaigns taken out, each of which had only
      claimed drops; every other campaign stays in order, identical but for
      its drop list, which is a sieve of its own. */
  predicate CampaignsSieved(orig: seq<Campaign>, kept: seq<Campaign>, claimed: seq<string>)
    decreases |orig|
  {
    if orig == [] then kept == []
    else
      (kept != [] && kept[0] == orig[0].(drops := kept[0].drops)
       && DropsSieved(orig[0].drops, kept[0].drops, claimed)
       && CampaignsSieved(orig[1..], kept[1..], claimed))
      || (AllClaimed(orig[0].drops, claimed) && CampaignsSieved(orig[1..], kept, claimed))
  }

  /** `update_campaigns` removes only claimed drops and only campaigns whose
      drops were all claimed, and keeps everything else in order. */
  lemma {:induction false} SkipPruneCampaignsSound(cs: seq<Campaign>, claimed: seq<string>)
    ensures CampaignsSieved(cs, SkipPruneCampaigns(cs, claimed), claimed)
    decreases |cs|
  {
    if cs != [] {
      var c := PruneCampaign(cs[0], claimed);
      SkipPruneSound(cs[0].drops, claimed);
      if |c.drops| == 0 {
        EmptySieveAllClaimed(cs[0].drops, claimed);
        if |cs| > 1 {
          SkipPruneCampaignsSound(cs[2..], claimed);
          DropsSievedRefl(cs[1].drops, claimed);
          assert cs[1..][1..] == cs[2..];
          assert cs[1..][0] == cs[1];
        }
      } else {
        SkipPruneCampaignsSound(cs[1..], claimed);
      }
    }
  }

  /** A campaign with at least one drop whose id is not claimed is still
      present afterwards (possibly with fewer drops), and the list never grows. */
  lemma {:induction false} CampaignsSievedKeepsLive(orig: seq<Campaign>, kept: seq<Campaign>, claimed: seq<string>, i: nat)
    requires CampaignsSieved(orig, kept, claimed)
    requires i < |orig| && !AllClaimed(orig[i].drops, claimed)
    ensures |kept| <= |orig|
    ensures exists j :: 0 <= j < |kept| && kept[j] == orig[i].(drops := kept[j].drops)
    decreases |orig|
  {
    if kept != [] && kept[0] == orig[0].(drops := kept[0].drops)
       && DropsSieved(orig[0].drops, kept[0].drops, claimed)
       && CampaignsSieved(orig[1..], kept[1..], claimed) {
      if i > 0 {
        CampaignsSievedKeepsLive(orig[1..], kept[1..], claimed, i - 1);
        var j :| 0 <= j < |kept[1..]| && kept[1..][j] == orig[1..][i - 1].(drops := kept[1..][j].drops);
        assert kept[j + 1] == orig[i].(drops := kept[j + 1].drops);
      } else {
        CampaignsSievedShrinks(orig[1..], kept[1..], claimed);
      }
    } else {
      assert i > 0;
      CampaignsSievedKeepsLive(orig[1..], kept, claimed, i - 1);
    }
  }

  lemma {:induction false} CampaignsSievedShrinks(orig: seq<Campaign>, kept: seq<Campaign>, claimed: seq<string>)
    requires CampaignsSieved(orig, kept, claimed)
    ensures |kept| <= |orig|
    decreases |orig|
  {
    if orig != [] {
      if kept != [] && kept[0] == orig[0].(drops := kept[0].drops)
         && DropsSieved(orig[0].drops, kept[0].drops, claimed)
         && CampaignsSieved(orig[1..], kept[1..], claimed) {
        CampaignsSievedShrinks(orig[1..], kept[1..], claimed);
      } else {
        CampaignsSievedShrinks(orig[1..], kept, claimed);
      }
    }
  }

  /** Completeness does not hold for campaigns either: a drop-less campaign
      right after a deleted campaign (here one with a single claimed drop)
      survives. */
  lemma SkipPruneCampaignsKeepsNeighbour(cs: seq<Campaign>, claimed: seq<string>)
    requires |cs| >= 2 && |cs[0].drops| == 1 && cs[0].drops[0].id in claimed && cs[1].drops == []
    ensures SkipPruneCampaigns(cs, claimed) != [] && SkipPruneCampaigns(cs, claimed)[0] == cs[1]
  {
  }

  /** The state of the inner deletion loop at index `j`: the drops before `j`
      are final, or the last drop was just deleted and `j` ran one past the
      end. */
  predicate DropLoopAt(goal: seq<Drop>, drops: seq<Drop>, j: nat, claimed: seq<string>)
  {
    || (j <= |drops| && goal == drops[..j] + SkipPrune(drops[j..], claimed))
    || (j == |drops| + 1 && goal == drops)
  }

  /** One turn of the inner loop: `del drops[j]` when its id is claimed, then
      on to index `j + 1`. */
  lemma DropLoopStep(goal: seq<Drop>, drops: seq<Drop>, j: nat, claimed: seq<string>)
    requires j < |drops| && DropLoopAt(goal, drops, j, claimed)
    ensures drops[j].id in claimed ==> DropLoopAt(goal, drops[..j] + drops[j + 1..], j + 1, claimed)
    ensures drops[j].id !in claimed ==> DropLoopAt(goal, drops, j + 1, claimed)
  {
    var rest := drops[j..];
    assert rest[0] == drops[j] && rest[1..] == drops[j + 1..];
    if drops[j].id in claimed {
      var after := drops[..j] + drops[j + 1..];
      if j + 1 < |drops| {
        assert rest[2..] == drops[j + 2..];
        assert after[..j + 1] == drops[..j] + [drops[j + 1]];
        assert after[j + 1..] == drops[j + 2..];
      } else {
        assert after == drops[..j];
      }
    } else {
      assert drops[..j + 1] == drops[..j] + [drops[j]];
    }
  }

  lemma DropLoopEnds(goal: seq<Drop>, drops: seq<Drop>, j: nat, claimed: seq<string>)
    requires DropLoopAt(goal, drops, j, claimed) && j >= |drops|
    ensures goal == drops
  {
    if j == |drops| {
      assert drops[..j] == drops;
    }
  }

  /** The state of the outer deletion loop at index `i`, in the same manner. */
  predicate CampaignLoopAt(goal: seq<Campaign>, cs: seq<Campaign>, i: nat, claimed: seq<string>)
  {
    || (i <= |cs| && goal == cs[..i] + SkipPruneCampaigns(cs[i..], claimed))
    || (i == |cs| + 1 && goal == cs)
  }

  /** One turn of the outer loop: prune the drops of `cs[i]`, then
      `del cs[i]` when none are left, then on to index `i + 1`. */
  lemma CampaignLoopStep(goal: seq<Campaign>, cs: seq<Campaign>, i: nat, claimed: seq<string>)
    requires i < |cs| && CampaignLoopAt(goal, cs, i, claimed)
    ensures var pruned := cs[i := PruneCampaign(cs[i], claimed)];
      && (|pruned[i].drops| == 0 ==> CampaignLoopAt(goal, pruned[..i] + pruned[i + 1..], i + 1, claimed))
      && (|pruned[i].drops| != 0 ==> CampaignLoopAt(goal, pruned, i + 1, claimed))
  {
    var pruned := cs[i := PruneCampaign(cs[i], claimed)];
    var rest := cs[i..];
    assert rest[0] == cs[i] && rest[1..] == cs[i + 1..];
    if |pruned[i].drops| == 0 {
      var after := pruned[..i] + pruned[i + 1..];
      assert pruned[..i] == cs[..i] && pruned[i + 1..] == cs[i + 1..];
      if i + 1 < |cs| {
        assert rest[2..] == cs[i + 2..];
        assert after[..i + 1] == cs[..i] + [cs[i + 1]];
        assert after[i + 1..] == cs[i + 2..];
      } else {
        assert after == cs[..i];
      }
    } else {
      assert pruned[..i + 1] == cs[..i] + [PruneCampaign(cs[i], claimed)];
      assert pruned[i + 1..] == cs[i + 1..];
    }
  }

  lemma CampaignLoopEnds(goal: seq<Campaign>, cs: seq<Campaign>, i: nat, claimed: seq<string>)
    requires CampaignLoopAt(goal, cs, i, claimed) && i >= |cs|
    ensures goal == cs
  {
    if i == |cs| {
      assert cs[..i] == cs;
    }
  }
}
