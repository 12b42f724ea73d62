/**
 From admission to revert: the pod that the API server ends up with.
 */
module EndToEnd {
  import opened Pods
  import opened Admission
  import opened AdmissionProofs
  import opened RevertModes

  /** The pod is one that the webhook boosts and that carried nothing of an earlier boost. */
  predicate CleanlyBoosted(h: Webhook, b: Boost, p: Pod, now: int)
  {
    && DistinctNames(p.containers)
    && WasBoosted(h, b, p, now)
    && BOOST_KEY !in p.labels && BOOST_KEY !in p.annotations
  }

  lemma BoostedIsUsable(h: Webhook, b: Boost, p: Pod, now: int)
    requires CleanlyBoosted(h, b, p, now)
    ensures Usable(Boosted(h, b, p, now)) && Reverted(Boosted(h, b, p, now)) == p
  {
    RoundTrip(h, b, p, now);
    UsableIff(Boosted(h, b, p, now));
  }

  /**
   Boost at admission, then any run of patch attempts and refreshes, then a fully
   successful attempt: the server has the pod as it was before admission exactly when
   the resources had been put back or the local copy was fresh.
   */
  lemma PatchesRestore(h: Webhook, b: Boost, p: Pod, now: int, es: seq<Event>)
    requires CleanlyBoosted(h, b, p, now)
    requires After(false, Start(Boosted(h, b, p, now)), es).tracked
    ensures var p0 := Boosted(h, b, p, now);
            var s := After(false, Start(p0), es);
            var s' := Next(false, s, Try(Calls(Succeeds, Succeeds)));
            !s'.tracked && (s'.server == p <==> s.server == Resized(p0) || s.server == p || s.local == p0)
  {
    BoostedIsUsable(h, b, p, now);
    SuccessRevertsIff(Boosted(h, b, p, now), es);
  }

  /** With single updates a pod that is no longer tracked is the pod before admission, after any run. */
  lemma UpdatesRestore(h: Webhook, b: Boost, p: Pod, now: int, es: seq<Event>)
    requires CleanlyBoosted(h, b, p, now)
    requires !After(true, Start(Boosted(h, b, p, now)), es).tracked
    ensures After(true, Start(Boosted(h, b, p, now)), es).server == p
  {
    BoostedIsUsable(h, b, p, now);
    LegacyNeverLosesARevert(Boosted(h, b, p, now), es, Calls(Refused, Refused));
  }
}
