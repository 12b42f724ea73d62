/**
 The two ways of reverting a pod on the API server: one update of the whole object,
 or two merge patches.

 The client works on a local copy of the pod. Building a patch changes that copy, and
 it stays changed when the call fails. When the call succeeds the copy is overwritten
 with the server's answer. The local and the server copy are therefore kept apart.
 */
module RevertModes {
  import opened Wrappers
  import opened Selectors
  import opened Pods
  import opened Revert
  import opened MergePatch
  import opened PodJson

  /** The body of the resize patch; a failure to build it yields the empty patch. */
  function ResizePatch(p: Pod): PJson
  {
    var r := RevertBoostResources(p);
    if r.ok then Diff(Encode(p), Encode(r.pod)) else Empty()
  }

  function LabelsPatch(p: Pod): PJson
  {
    Diff(Encode(p), Encode(RevertBoostLabels(p)))
  }

  /** The server's pod after it has accepted a patch. */
  function Patched(server: Pod, patch: PJson): Pod
  {
    Decode(Apply(Some(Encode(server)), patch))
  }

  lemma PatchReaches(p: Pod, q: Pod)
    ensures Apply(Some(Encode(p)), Diff(Encode(p), Encode(q))) == Encode(q)
    ensures Patched(p, Diff(Encode(p), Encode(q))) == q
  {
    EncodeIsNullFree(q);
    ApplyDiff(Encode(p), Encode(q));
    DecodeEncode(q);
  }

  lemma EmptyPatchKeeps(p: Pod)
    ensures Patched(p, Empty()) == p
  {
    var j := Encode(p);
    assert Apply(Some(j), Empty()).fields == j.fields;
    DecodeEncode(p);
  }

  lemma SamePodEmptyPatch(p: Pod)
    ensures Diff(Encode(p), Encode(p)) == Empty()
  {
    EmptyDiff(Encode(p), Encode(p));
  }

  /** The pod has a boost annotation that decodes, and every quantity kept for one of its containers is well formed. */
  predicate Usable(p: Pod)
  {
    match BoostAnnotationFromPod(p)
    case None => false
    case Some(a) => forall j :: 0 <= j < |p.containers| ==> Restorable(p.containers[j], a)
  }

  lemma UsableIff(p: Pod)
    ensures Usable(p) <==> RevertBoostResources(p).ok
  {
    if BoostAnnotationFromPod(p).Some? {
      RevertFromSucceedsIff(p.containers, BoostAnnotationFromPod(p).value, 0);
    }
  }

  // ---------------------------------------------------------------------------
  // One attempt to revert
  // ---------------------------------------------------------------------------

  /** The local copy, the server's copy, and whether the attempt succeeded. */
  datatype Attempt = Attempt(local: Pod, server: Pod, ok: bool)

  /** How a call ends: with success, with an effect but a failure reported, or without effect. */
  datatype Call = Succeeds | Lost | Refused

  /** The calls of one attempt; the single update is the first call. */
  datatype Calls = Calls(first: Call, second: Call)

  /** The second call, on the copy that the first one was answered with. */
  function LabelsAttempt(server: Pod, call: Call): Attempt
  {
    var server' := Patched(server, LabelsPatch(server));
    match call
    case Refused => Attempt(RevertBoostLabels(server), server, false)
    case Lost => Attempt(RevertBoostLabels(server), server', false)
    case Succeeds => Attempt(server', server', true)
  }

  function PatchAttempt(local: Pod, server: Pod, calls: Calls): Attempt
  {
    var server' := Patched(server, ResizePatch(local));
    match calls.first
    case Refused => Attempt(RevertBoostResources(local).pod, server, false)
    case Lost => Attempt(RevertBoostResources(local).pod, server', false)
    case Succeeds => LabelsAttempt(server', calls.second)
  }

  function LegacyAttempt(local: Pod, server: Pod, update: Call): Attempt
  {
    var r := RevertResourceBoost(local);
    if !r.ok || update.Refused? then Attempt(r.pod, server, false)
    else Attempt(r.pod, r.pod, update.Succeeds?)
  }

  function AttemptBy(legacy: bool, local: Pod, server: Pod, calls: Calls): Attempt
  {
    if legacy then LegacyAttempt(local, server, calls.first) else PatchAttempt(local, server, calls)
  }

  method UpdateBoostPod(local: PodObject, server: PodObject, calls: Calls) returns (ok: bool)
    requires local != server
    modifies local, server
    ensures Attempt(local.Value(), server.Value(), ok) ==
            PatchAttempt(old(local.Value()), old(server.Value()), calls)
  {
    var before := Encode(local.Value());
    var built := RevertResources(local);
    var patch := if built then Diff(before, Encode(local.Value())) else Empty();
    ok := SendPatch(local, server, patch, calls.first);
    if !ok {
      return;
    }
    before := Encode(local.Value());
    RevertLabels(local);
    patch := Diff(before, Encode(local.Value()));
    ok := SendPatch(local, server, patch, calls.second);
  }

  /** One patch call. Success overwrites the local copy with the server's answer. */
  method SendPatch(local: PodObject, server: PodObject, patch: PJson, call: Call) returns (ok: bool)
    requires local != server
    modifies local, server
    ensures ok <==> call.Succeeds?
    ensures server.Value() == if call.Refused? then old(server.Value()) else Patched(old(server.Value()), patch)
    ensures local.Value() == if ok then server.Value() else old(local.Value())
  {
    if call.Refused? {
      return false;
    }
    server.Load(Patched(server.Value(), patch));
    if call.Lost? {
      return false;
    }
    local.Load(server.Value());
    return true;
  }

  method UpdateBoostPodLegacy(local: PodObject, server: PodObject, update: Call) returns (ok: bool)
    requires local != server
    modifies local, server
    ensures Attempt(local.Value(), server.Value(), ok) ==
            LegacyAttempt(old(local.Value()), old(server.Value()), update)
  {
    ok := RevertBoost(local);
    if ok {
      if !update.Refused? {
        server.Load(local.Value());
      }
      ok := update.Succeeds?;
    }
  }

  /**
   On a fresh local copy, the two patches in turn leave the server with the same pod
   as the single update exactly when the annotation can be used. When it cannot, the
   update fails and the patches report success although only the labels were taken off.
   */
  lemma ModesAgreeIff(p: Pod)
    ensures PatchAttempt(p, p, Calls(Succeeds, Succeeds)) == LegacyAttempt(p, p, Succeeds) <==> Usable(p)
    ensures PatchAttempt(p, p, Calls(Succeeds, Succeeds)).server ==
            if Usable(p) then RevertResourceBoost(p).pod else RevertBoostLabels(p)
  {
    UsableIff(p);
    var q := RevertBoostResources(p).pod;
    PatchReaches(p, q);
    PatchReaches(q, RevertBoostLabels(q));
    EmptyPatchKeeps(p);
    PatchReaches(p, RevertBoostLabels(p));
  }

  // ---------------------------------------------------------------------------
  // Runs of attempts on one pod
  // ---------------------------------------------------------------------------

  datatype Event =
    | Try(calls: Calls)       // an attempt to revert, with the outcome of its calls
    | Refresh                 // a pod event delivers a fresh copy

  datatype Tracking = Tracking(local: Pod, server: Pod, tracked: bool)

  function Next(legacy: bool, s: Tracking, e: Event): Tracking
  {
    if !s.tracked then s
    else match e
      case Try(calls) =>
        var r := AttemptBy(legacy, s.local, s.server, calls);
        Tracking(r.local, r.server, !r.ok)
      case Refresh => s.(local := s.server)
  }

  function After(legacy: bool, s: Tracking, es: seq<Event>): Tracking
  {
    if es == [] then s else Next(legacy, After(legacy, s, es[..|es| - 1]), es[|es| - 1])
  }

  /** Where every run starts: the boosted pod is tracked with a fresh copy. */
  function Start(p0: Pod): Tracking
  {
    Tracking(p0, p0, true)
  }

  /** The pod with its resources put back, still carrying label and annotation. */
  function Resized(p0: Pod): Pod
  {
    RevertBoostResources(p0).pod
  }

  /** The pod as it was before the boost. */
  function Reverted(p0: Pod): Pod
  {
    RevertBoostLabels(Resized(p0))
  }

  /** The states a run of patch attempts can reach from a fresh copy of the boosted pod `p0`. */
  ghost predicate Reachable(p0: Pod, s: Tracking)
  {
    if s.tracked then
      || (s.server == p0 && (s.local == p0 || s.local == Resized(p0) || s.local == RevertBoostLabels(p0)))
      || (s.server == Resized(p0) && (s.local == Resized(p0) || s.local == Reverted(p0)))
      || (s.server == s.local && (s.server == Reverted(p0) || s.server == RevertBoostLabels(p0)))
    else
      s.server == Reverted(p0) || s.server == RevertBoostLabels(p0)
  }

  lemma StrippedPodHasNoAnnotation(p: Pod)
    ensures RevertBoostResources(RevertBoostLabels(p)) == Outcome(RevertBoostLabels(p), false)
    ensures RevertBoostLabels(RevertBoostLabels(p)) == RevertBoostLabels(p)
  {
    var q := RevertBoostLabels(p);
    assert q.labels - {BOOST_KEY} == q.labels && q.annotations - {BOOST_KEY} == q.annotations;
  }

  /** A local copy that an earlier attempt has worked on gives a resize patch without content. */
  lemma StaleCopyGivesEmptyPatch(p0: Pod, p: Pod)
    requires Usable(p0)
    requires p == Resized(p0) || p == RevertBoostLabels(p0) || p == Reverted(p0)
    ensures ResizePatch(p) == Empty() && RevertBoostResources(p).pod == p
  {
    UsableIff(p0);
    if p == Resized(p0) {
      RevertIsIdempotent(p0);
      SamePodEmptyPatch(p);
    } else if p == RevertBoostLabels(p0) {
      StrippedPodHasNoAnnotation(p0);
    } else {
      StrippedPodHasNoAnnotation(Resized(p0));
    }
  }

  /** What the resize call does to the server and to the local copy, in each reachable state. */
  lemma ResizeOutcome(p0: Pod, s: Tracking)
    requires Usable(p0) && s.tracked && Reachable(p0, s)
    ensures Patched(s.server, ResizePatch(s.local)) ==
            if s.local == p0 && s.server == p0 then Resized(p0) else s.server
    ensures RevertBoostResources(s.local).pod == if s.local == p0 then Resized(p0) else s.local
  {
    if s.local == p0 && s.server == p0 {
      UsableIff(p0);
      PatchReaches(p0, Resized(p0));
    } else {
      StaleCopyGivesEmptyPatch(p0, s.local);
      EmptyPatchKeeps(s.server);
    }
  }

  /** What the labels call does to the server and to the local copy. */
  lemma LabelsOutcome(server: Pod, call: Call)
    ensures var stripped := RevertBoostLabels(server);
            LabelsAttempt(server, call) ==
            Attempt(stripped, if call.Refused? then server else stripped, call.Succeeds?)
  {
    PatchReaches(server, RevertBoostLabels(server));
  }

  /** One patch attempt from a reachable state, without mention of patches. */
  lemma PatchAttemptOutcome(p0: Pod, s: Tracking, calls: Calls)
    requires Usable(p0) && s.tracked && Reachable(p0, s)
    ensures var server' := if s.local == p0 && s.server == p0 then Resized(p0) else s.server;
            var local' := if s.local == p0 then Resized(p0) else s.local;
            PatchAttempt(s.local, s.server, calls) ==
            match calls.first
            case Refused => Attempt(local', s.server, false)
            case Lost => Attempt(local', server', false)
            case Succeeds =>
              var stripped := RevertBoostLabels(server');
              Attempt(stripped, if calls.second.Refused? then server' else stripped, calls.second.Succeeds?)
  {
    ResizeOutcome(p0, s);
    LabelsOutcome(Patched(s.server, ResizePatch(s.local)), calls.second);
  }

  lemma ReachableStep(p0: Pod, s: Tracking, e: Event)
    requires Usable(p0) && Reachable(p0, s)
    ensures Reachable(p0, Next(false, s, e))
  {
    if s.tracked && e.Try? {
      PatchAttemptOutcome(p0, s, e.calls);
      StrippedPodHasNoAnnotation(p0);
      StrippedPodHasNoAnnotation(Resized(p0));
    }
  }

  lemma {:induction false} ReachableRun(p0: Pod, es: seq<Event>)
    requires Usable(p0)
    ensures Reachable(p0, After(false, Start(p0), es))
  {
    if es == [] {
    } else {
      ReachableRun(p0, es[..|es| - 1]);
      ReachableStep(p0, After(false, Start(p0), es[..|es| - 1]), es[|es| - 1]);
    }
  }

  /** The resources on the server are put back. */
  ghost predicate ResourcesBack(p0: Pod, s: Tracking)
  {
    s.server == Resized(p0) || s.server == Reverted(p0)
  }

  lemma LabelsAloneIff(p0: Pod)
    ensures RevertBoostLabels(p0) == Reverted(p0) <==> Resized(p0) == p0
  {
    if RevertBoostLabels(p0) == Reverted(p0) {
      assert p0.containers == Resized(p0).containers;
    }
  }

  lemma SuccessFrom(p0: Pod, s: Tracking)
    requires Usable(p0) && s.tracked && Reachable(p0, s)
    ensures var s' := Next(false, s, Try(Calls(Succeeds, Succeeds)));
            && !s'.tracked
            && s'.server == (if ResourcesBack(p0, s) || s.local == p0 then Reverted(p0) else RevertBoostLabels(p0))
            && (s'.server == Reverted(p0) <==> ResourcesBack(p0, s) || s.local == p0)
  {
    PatchAttemptOutcome(p0, s, Calls(Succeeds, Succeeds));
    StrippedServer(p0, s);
    LabelsAloneIff(p0);
  }

  /** What taking the labels off leaves of the server's copy after a resize from a reachable state. */
  lemma StrippedServer(p0: Pod, s: Tracking)
    requires Usable(p0) && s.tracked && Reachable(p0, s)
    ensures RevertBoostLabels(if s.local == p0 && s.server == p0 then Resized(p0) else s.server) ==
            if ResourcesBack(p0, s) || s.local == p0 then Reverted(p0) else RevertBoostLabels(p0)
  {
    if s.server == Reverted(p0) {
      StrippedPodHasNoAnnotation(Resized(p0));
    } else if s.server == RevertBoostLabels(p0) {
      StrippedPodHasNoAnnotation(p0);
    }
  }

  /**
   After any run of attempts, of which some may have taken effect although they were
   reported as failed, and refreshes, one more attempt whose calls both succeed stops
   tracking the pod. It leaves the original pod on the server exactly when the server
   already has the resources put back or the local copy is fresh.
   */
  lemma SuccessRevertsIff(p0: Pod, es: seq<Event>)
    requires Usable(p0) && After(false, Start(p0), es).tracked
    ensures var s := After(false, Start(p0), es);
            var s' := Next(false, s, Try(Calls(Succeeds, Succeeds)));
            && !s'.tracked
            && s'.server == (if ResourcesBack(p0, s) || s.local == p0 then Reverted(p0) else RevertBoostLabels(p0))
            && (s'.server == Reverted(p0) <==> ResourcesBack(p0, s) || s.local == p0)
  {
    ReachableRun(p0, es);
    SuccessFrom(p0, After(false, Start(p0), es));
  }

  lemma ResourcesStayBack(p0: Pod, s: Tracking, e: Event)
    requires Usable(p0) && Reachable(p0, s) && ResourcesBack(p0, s) && (!s.tracked ==> s.server == Reverted(p0))
    ensures var s' := Next(false, s, e);
            ResourcesBack(p0, s') && (!s'.tracked ==> s'.server == Reverted(p0))
  {
    if s.tracked && e.Try? {
      PatchAttemptOutcome(p0, s, e.calls);
      StrippedPodHasNoAnnotation(Resized(p0));
    }
  }

  /** Once the resize has taken effect, the resources stay put back, whatever fails afterwards. */
  lemma {:induction false} ResizeStays(p0: Pod, es: seq<Event>, more: seq<Event>)
    requires Usable(p0)
    requires After(false, Start(p0), es).tracked && ResourcesBack(p0, After(false, Start(p0), es))
    ensures var s := After(false, Start(p0), es + more);
            ResourcesBack(p0, s) && (!s.tracked ==> s.server == Reverted(p0))
  {
    if more == [] {
      assert es + more == es;
    } else {
      var most, last := more[..|more| - 1], more[|more| - 1];
      assert (es + more)[..|es + more| - 1] == es + most;
      ResizeStays(p0, es, most);
      ReachableRun(p0, es + most);
      var s := After(false, Start(p0), es + most);
      assert After(false, Start(p0), es + more) == Next(false, s, last);
      ResourcesStayBack(p0, s, last);
    }
  }

  /**
   Half-done revert: the resize took effect, whatever was reported about it, then any
   failures and refreshes, then one success. The server ends with the original pod and
   the pod is no longer tracked.
   */
  lemma RetryAfterHalfDoneRevert(p0: Pod, es: seq<Event>, more: seq<Event>)
    requires Usable(p0)
    requires After(false, Start(p0), es).tracked && ResourcesBack(p0, After(false, Start(p0), es))
    ensures var s := After(false, Start(p0), es + more + [Try(Calls(Succeeds, Succeeds))]);
            !s.tracked && s.server == Reverted(p0)
  {
    ResizeStays(p0, es, more);
    var run := es + more;
    assert (run + [Try(Calls(Succeeds, Succeeds))])[..|run|] == run;
    if After(false, Start(p0), run).tracked {
      SuccessRevertsIff(p0, run);
    }
  }

  lemma BoostedIsNotReverted(p0: Pod)
    requires Usable(p0)
    ensures p0 != Reverted(p0)
  {
    assert BOOST_KEY in p0.annotations && BOOST_KEY !in Reverted(p0).annotations;
  }

  lemma AfterFailedResize(p0: Pod, calls: Calls)
    requires Usable(p0) && !calls.first.Succeeds?
    ensures After(false, Start(p0), [Try(calls)]) ==
            Tracking(Resized(p0), if calls.first.Lost? then Resized(p0) else p0, true)
  {
    assert [Try(calls)][..0] == [];
    PatchAttemptOutcome(p0, Start(p0), calls);
  }

  /**
   Failed resize, then a retry on the same local copy: it sends the empty resize patch
   and takes off the labels, so the boosted resources stay for good exactly when the
   failed call had not taken effect and there was something to put back.
   */
  lemma RetryAfterFailedResize(p0: Pod, calls: Calls)
    requires Usable(p0) && !calls.first.Succeeds?
    ensures var s := Next(false, After(false, Start(p0), [Try(calls)]), Try(Calls(Succeeds, Succeeds)));
            && !s.tracked
            && s.server == (if calls.first.Lost? then Reverted(p0) else RevertBoostLabels(p0))
            && (s.server == Reverted(p0) <==> calls.first.Lost? || Resized(p0) == p0)
  {
    AfterFailedResize(p0, calls);
    BoostedIsNotReverted(p0);
    SuccessRevertsIff(p0, [Try(calls)]);
  }

  /** A fresh copy before the retry avoids that. */
  lemma RefreshAfterFailedResize(p0: Pod, calls: Calls)
    requires Usable(p0) && !calls.first.Succeeds?
    ensures var s := Next(false, After(false, Start(p0), [Try(calls), Refresh]), Try(Calls(Succeeds, Succeeds)));
            !s.tracked && s.server == Reverted(p0)
  {
    AfterFailedResize(p0, calls);
    assert [Try(calls), Refresh][..1] == [Try(calls)];
    SuccessRevertsIff(p0, [Try(calls), Refresh]);
  }

  // ---------------------------------------------------------------------------
  // Runs of single updates
  // ---------------------------------------------------------------------------

  /** The states a run of single updates can reach. */
  ghost predicate LegacyReachable(p0: Pod, s: Tracking)
  {
    || (s.tracked && s.server == p0 && (s.local == p0 || s.local == Reverted(p0)))
    || (s.server == Reverted(p0) && s.local == Reverted(p0))
  }

  lemma LegacyAttemptOutcome(p0: Pod, s: Tracking, calls: Calls)
    requires Usable(p0) && s.tracked && LegacyReachable(p0, s)
    ensures AttemptBy(true, s.local, s.server, calls) ==
            if s.local == p0 && !calls.first.Refused?
            then Attempt(Reverted(p0), Reverted(p0), calls.first.Succeeds?)
            else Attempt(Reverted(p0), s.server, false)
  {
    UsableIff(p0);
    StrippedPodHasNoAnnotation(Resized(p0));
  }

  lemma {:induction false} LegacyRun(p0: Pod, es: seq<Event>)
    requires Usable(p0)
    ensures LegacyReachable(p0, After(true, Start(p0), es))
  {
    if es == [] {
    } else {
      var s, e := After(true, Start(p0), es[..|es| - 1]), es[|es| - 1];
      LegacyRun(p0, es[..|es| - 1]);
      if s.tracked && e.Try? {
        LegacyAttemptOutcome(p0, s, e.calls);
      }
    }
  }

  /**
   The single update never loses a revert: after any run of attempts, of which some may
   have taken effect although they were reported as failed, and refreshes, a pod that
   is no longer tracked has been put back. An attempt succeeds exactly when its call
   does and the local copy is fresh and still boosted; after any other the pod stays
   tracked.
   */
  lemma LegacyNeverLosesARevert(p0: Pod, es: seq<Event>, calls: Calls)
    requires Usable(p0)
    ensures var s := After(true, Start(p0), es);
            && (s.server == p0 || s.server == Reverted(p0))
            && (!s.tracked ==> s.server == Reverted(p0))
            && (s.tracked ==>
                  (!Next(true, s, Try(calls)).tracked <==> s.local == p0 && calls.first.Succeeds?))
  {
    LegacyRun(p0, es);
    var s := After(true, Start(p0), es);
    if s.tracked {
      LegacyAttemptOutcome(p0, s, calls);
    }
  }

  // ---------------------------------------------------------------------------
  // Labels that the local copy does not know about
  // ---------------------------------------------------------------------------

  /** A label that somebody else added on the server after the local copy was read. */
  function WithLabel(p: Pod, key: string, value: string): Pod
  {
    p.(labels := p.labels[key := value])
  }

  /** Applying a computed patch to an object, one field at a time. */
  lemma PatchedField(target: PJson, a: PJson, b: PJson, k: string, absent: PJson)
    requires target.Obj? && a.Obj? && b.Obj? && k in target.fields && k in a.fields && k in b.fields
    requires target.fields[k].Obj? && a.fields[k].Obj? && b.fields[k].Obj?
    ensures Field(Apply(Some(target), Diff(a, b)), k, absent) ==
            Apply(Some(target.fields[k]), Diff(a.fields[k], b.fields[k]))
  {
    DiffEntry(a, b, k);
    ApplyEntry(target, Diff(a, b), k);
    if !Differs(a, b, k) {
      var inner := target.fields[k];
      assert Apply(Some(inner), Empty()).fields == inner.fields;
    }
  }

  /** A field that neither document has is left as it is; a field that only the first has is removed. */
  lemma OtherField(target: PJson, a: PJson, b: PJson, k: string)
    requires target.Obj? && a.Obj? && b.Obj? && k in target.fields && k !in b.fields
    ensures Field(Apply(Some(target), Diff(a, b)), k, Empty()) ==
            if k in a.fields then Empty() else target.fields[k]
  {
    DiffEntry(a, b, k);
    ApplyEntry(target, Diff(a, b), k);
  }

  lemma EncodedLabels(p: Pod)
    ensures "labels" in EncodeMetadata(p).fields <==> p.labels != map[]
    ensures p.labels != map[] ==> EncodeMetadata(p).fields["labels"] == EncodeLabels(p.labels)
  {
    LabelsRoundTrip(p.labels);
  }

  /** The label survives in the label map itself, whatever the patch does to the other labels. */
  lemma LabelSurvives(s: Pod, q: Pod, r: Pod, key: string)
    requires key in s.labels && key !in q.labels && key !in r.labels
    ensures key in DecodeLabels(Apply(Some(EncodeLabels(s.labels)),
                                      Diff(EncodeLabels(q.labels), EncodeLabels(r.labels))))
  {
    OtherField(EncodeLabels(s.labels), EncodeLabels(q.labels), EncodeLabels(r.labels), key);
  }

  /** The labels on the server after a patch that leads from `q` to `r`. */
  function LabelsAfter(s: Pod, q: Pod, r: Pod): Labels
  {
    DecodeLabels(Field(Apply(Some(EncodeMetadata(s)), Diff(EncodeMetadata(q), EncodeMetadata(r))), "labels", Empty()))
  }

  lemma LastLabelRemoved(s: Pod, q: Pod, r: Pod, key: string)
    requires key in s.labels && r.labels == map[]
    ensures key in LabelsAfter(s, q, r) <==> q.labels == map[]
  {
    EncodedLabels(q);
    EncodedLabels(r);
    EncodedLabels(s);
    OtherField(EncodeMetadata(s), EncodeMetadata(q), EncodeMetadata(r), "labels");
    LabelsRoundTrip(s.labels);
  }

  lemma SomeLabelRemoved(s: Pod, q: Pod, r: Pod, key: string)
    requires key in s.labels && key !in q.labels && key !in r.labels
    requires q.labels != map[] && r.labels != map[]
    ensures key in LabelsAfter(s, q, r)
  {
    EncodedLabels(q);
    EncodedLabels(r);
    EncodedLabels(s);
    PatchedField(EncodeMetadata(s), EncodeMetadata(q), EncodeMetadata(r), "labels", Empty());
    LabelSurvives(s, q, r, key);
  }

  lemma OnlyTheBoostLabel(labels: Labels)
    ensures labels.Keys == {BOOST_KEY} <==> labels != map[] && labels - {BOOST_KEY} == map[]
  {
    assert forall k :: k in labels && k != BOOST_KEY ==> k in labels - {BOOST_KEY};
    if labels != map[] && labels - {BOOST_KEY} == map[] {
      var k :| k in labels;
    }
  }

  lemma LabelsAfterPatch(q: Pod, s: Pod, key: string)
    requires key != BOOST_KEY && key in s.labels && key !in q.labels
    ensures key in LabelsAfter(s, q, RevertBoostLabels(q)) <==> q.labels.Keys != {BOOST_KEY}
  {
    var r := RevertBoostLabels(q);
    OnlyTheBoostLabel(q.labels);
    if r.labels == map[] {
      LastLabelRemoved(s, q, r, key);
    } else {
      SomeLabelRemoved(s, q, r, key);
    }
  }

  lemma EncodedMetadata(p: Pod)
    ensures "metadata" in Encode(p).fields && Encode(p).fields["metadata"] == EncodeMetadata(p)
  {
  }

  lemma PatchedMetadata(s: Pod, q: Pod, r: Pod)
    ensures Field(Apply(Some(Encode(s)), Diff(Encode(q), Encode(r))), "metadata", Empty()) ==
            Apply(Some(EncodeMetadata(s)), Diff(EncodeMetadata(q), EncodeMetadata(r)))
  {
    EncodedMetadata(s);
    EncodedMetadata(q);
    EncodedMetadata(r);
    PatchedField(Encode(s), Encode(q), Encode(r), "metadata", Empty());
  }

  lemma DecodedLabels(j: PJson)
    ensures Decode(j).labels == DecodeLabels(Field(Field(j, "metadata", Empty()), "labels", Empty()))
  {
  }

  /**
   A label added on the server between the two patches survives the second one
   exactly when the boost label is not the only label of the local copy: taking off
   the only label removes the whole label map.
   */
  lemma ConcurrentLabelKeptIff(q: Pod, key: string, value: string)
    requires key != BOOST_KEY && key !in q.labels
    ensures key in Patched(WithLabel(q, key, value), LabelsPatch(q)).labels <==> q.labels.Keys != {BOOST_KEY}
  {
    var s := WithLabel(q, key, value);
    DecodedLabels(Apply(Some(Encode(s)), LabelsPatch(q)));
    PatchedMetadata(s, q, RevertBoostLabels(q));
    LabelsAfterPatch(q, s, key);
  }

  // ---------------------------------------------------------------------------
  // Attempts keep the identity of a pod
  // ---------------------------------------------------------------------------

  predicate SamePod(p: Pod, q: Pod)
  {
    p.name == q.name && p.namespace == q.namespace
  }

  lemma IdentityFieldKept(s: Pod, q: Pod, r: Pod, field: string)
    requires SamePod(q, r) && (field == "name" || field == "namespace")
    ensures Field(Apply(Some(EncodeMetadata(s)), Diff(EncodeMetadata(q), EncodeMetadata(r))), field, Null) ==
            Text(if field == "name" then s.name else s.namespace)
  {
    MetadataFields(s);
    MetadataFields(q);
    MetadataFields(r);
    DiffEntry(EncodeMetadata(q), EncodeMetadata(r), field);
    ApplyEntry(EncodeMetadata(s), Diff(EncodeMetadata(q), EncodeMetadata(r)), field);
  }

  lemma DecodedIdentity(j: PJson, metadata: PJson, name: string, namespace: string)
    requires Field(j, "metadata", Empty()) == metadata
    requires Field(metadata, "name", Null) == Text(name) && Field(metadata, "namespace", Null) == Text(namespace)
    ensures Decode(j).name == name && Decode(j).namespace == namespace
  {
  }

  lemma PatchKeepsIdentity(s: Pod, q: Pod, r: Pod)
    requires SamePod(q, r)
    ensures SamePod(Patched(s, Diff(Encode(q), Encode(r))), s)
  {
    PatchedMetadata(s, q, r);
    IdentityFieldKept(s, q, r, "name");
    IdentityFieldKept(s, q, r, "namespace");
    DecodedIdentity(Apply(Some(Encode(s)), Diff(Encode(q), Encode(r))),
                    Apply(Some(EncodeMetadata(s)), Diff(EncodeMetadata(q), EncodeMetadata(r))), s.name, s.namespace);
  }

  lemma ResizeKeepsIdentity(server: Pod, local: Pod)
    ensures SamePod(Patched(server, ResizePatch(local)), server)
  {
    if RevertBoostResources(local).ok {
      PatchKeepsIdentity(server, local, RevertBoostResources(local).pod);
    } else {
      EmptyPatchKeeps(server);
    }
  }

  lemma AttemptKeepsIdentity(legacy: bool, local: Pod, server: Pod, calls: Calls)
    requires SamePod(server, local)
    ensures SamePod(AttemptBy(legacy, local, server, calls).local, local)
  {
    if !legacy && calls.first.Succeeds? {
      ResizeKeepsIdentity(server, local);
      LabelsOutcome(Patched(server, ResizePatch(local)), calls.second);
    }
  }

  /** Whether the attempt gets as far as taking the annotation off the local copy. */
  predicate TakesAnnotation(legacy: bool, local: Pod, calls: Calls)
  {
    if legacy then Usable(local) else calls.first.Succeeds?
  }

  /** When an attempt succeeds, and what it leaves of the annotation on the local copy. */
  lemma AttemptAnnotation(legacy: bool, local: Pod, server: Pod, calls: Calls)
    ensures AttemptBy(legacy, local, server, calls).ok <==>
              TakesAnnotation(legacy, local, calls) && (if legacy then calls.first else calls.second).Succeeds?
    ensures BoostAnnotationFromPod(AttemptBy(legacy, local, server, calls).local) ==
            if TakesAnnotation(legacy, local, calls) then None else BoostAnnotationFromPod(local)
  {
    UsableIff(local);
    if !legacy && calls.first.Succeeds? {
      LabelsOutcome(Patched(server, ResizePatch(local)), calls.second);
    }
  }
}
