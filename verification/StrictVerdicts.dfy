/** What the Agent's controller concludes from a proof and from every other event, field
    by field, and that it is armed only by the last word it had. */
module StrictVerdicts {
  import opened Wrappers
  import opened StrictContract
  import opened StrictControllerModule

  /** Nothing is missing from the proof for this intent. */
  predicate Arms(want: Intent, proof: BrokerProof) {
    && proof.filterGeneration > 0 && proof.guardsInstalled && proof.markerPresent
    && (forall x :: x in want.required ==> x in proof.capabilities)
    && (want.proxies > 0 ==> proof.coreHealthy && proof.relayHealthy && proof.dnsHealthy)
  }

  /** The first thing missing. */
  predicate Complains(want: Intent, proof: BrokerProof, reason: StrictReason) {
    var guarded := proof.filterGeneration > 0 && proof.guardsInstalled && proof.markerPresent;
    var able := forall x :: x in want.required ==> x in proof.capabilities;
    match reason
    case GuardNotInstalled => !guarded
    case MissingCapability => guarded && !able
    case CoreUnavailable => guarded && able && want.proxies > 0 && !proof.coreHealthy
    case RelayUnavailable => guarded && able && want.proxies > 0 && proof.coreHealthy && !proof.relayHealthy
    case DnsUnavailable => guarded && able && want.proxies > 0 && proof.coreHealthy && proof.relayHealthy && !proof.dnsHealthy
    case _ => false
  }

  /** A proof is heard exactly if it is about the desired revision and digest. It arms
      exactly if nothing is missing, and otherwise blocks with the first complaint. */
  lemma ProofDecidesExactly(c: Controller, proof: BrokerProof)
    ensures var (c', heard) := ApplyProof(c, proof);
            && (heard <==> c.desired.Some? && proof.revision == c.desired.value.revision
                           && SameDigest(proof.policyDigest, c.desired.value.digest))
            && (!heard ==> c' == c)
            && (heard ==>
                  && c'.desired == c.desired && c'.disabling == c.disabling
                  && c'.generation == (if proof.filterGeneration > 0 then Some(proof.filterGeneration) else None)
                  && (if Arms(c.desired.value, proof) then c'.state == Armed && c'.reason == NoReason
                      else c'.state == Blocking && Complains(c.desired.value, proof, c'.reason)))
  {
  }

  /** Which policies count as an intent, and what it then requires. */
  lemma IntentsExactly(revision: nat, digest: string, proxies: nat, blocked: nat)
    ensures var r := NewIntent(revision, digest, proxies, blocked);
            && (r.Ok? <==> revision > 0 && |digest| == 64 && (forall i :: 0 <= i < 64 ==> IsHexDigit(digest[i]))
                           && 0 < proxies + blocked <= 128)
            && (r.Ok? ==> r.value.revision == revision && SameDigest(r.value.digest, digest)
                          && r.value.proxies == proxies && r.value.blocked == blocked
                          && (r.value.required == if proxies > 0 then RequiredForProxy() else RequiredForBlockOnly()))
  {
    LowerTwice(digest);
  }

  /** Two spellings of one digest count as the same intent. */
  lemma SpellingsCountAlike(revision: nat, digest: string, other: string, proxies: nat, blocked: nat)
    requires SameDigest(digest, other)
    ensures NewIntent(revision, digest, proxies, blocked) == NewIntent(revision, other, proxies, blocked)
  {
    assert |LowerAscii(digest)| == |digest| && |LowerAscii(other)| == |other|;
    forall i | 0 <= i < |digest| ensures IsHexDigit(digest[i]) <==> IsHexDigit(other[i]) {
      assert LowerAscii(digest)[i] == LowerAscii(other)[i];
    }
  }

  /** An intent is taken up exactly if nothing is being disabled and it is the first one,
      the same one again, or one of a higher revision. It starts from nothing proved. */
  lemma IntentsBeginExactly(c: Controller, intent: Intent)
    ensures var (c', begun) := Begin(c, intent);
            && (begun <==> !c.disabling && (c.desired == None || c.desired == Some(intent) || intent.revision > c.desired.value.revision))
            && c' == if begun then Controller(Some(intent), Preparing, BeingPrepared, None, false) else c
  {
  }

  /** The other events: losing the backend blocks, a recovery starts and a disable is asked
      for only with a policy desired, and a disable is confirmed exactly once it was asked
      for and neither filters nor marker are left. */
  lemma OtherEventsExactly(c: Controller, why: StrictReason, filtersRemain: bool, markerPresent: bool)
    ensures c.desired.None? ==> BackendLost(c, why) == c && BeginRecovery(c) == c && RequestDisable(c) == c
    ensures c.desired.Some? ==>
              && BackendLost(c, why) == Controller(c.desired, Blocking, if why == NoReason then BackendUnavailable else why, c.generation, c.disabling)
              && BeginRecovery(c) == Controller(c.desired, Recovering, BackendUnavailable, c.generation, c.disabling)
              && RequestDisable(c) == Controller(c.desired, Blocking, CleanupPending, c.generation, true)
    ensures var (c', confirmed) := ConfirmDisabled(c, filtersRemain, markerPresent);
            && (confirmed <==> c.disabling && !filtersRemain && !markerPresent)
            && c' == if confirmed then Controller(None, Disabled, NoReason, None, false)
                     else if c.disabling then Controller(c.desired, Blocking, CleanupPending, c.generation, true) else c
  {
  }

  // ----- Runs ----------------------------------------------------------------

  datatype Event =
    | Intended(intent: Intent)
    | Proved(proof: BrokerProof)
    | Lost(why: StrictReason)
    | Recovered
    | Asked
    | Confirmed(filtersRemain: bool, markerPresent: bool)

  function Step(c: Controller, event: Event): Controller {
    match event
    case Intended(intent) => Begin(c, intent).0
    case Proved(proof) => ApplyProof(c, proof).0
    case Lost(why) => BackendLost(c, why)
    case Recovered => BeginRecovery(c)
    case Asked => RequestDisable(c)
    case Confirmed(filtersRemain, markerPresent) => ConfirmDisabled(c, filtersRemain, markerPresent).0
  }

  function Run(events: seq<Event>): Controller {
    if events == [] then NEW_CONTROLLER else Step(Run(events[..|events| - 1]), events[|events| - 1])
  }

  /** Event `k` is a proof that armed the intent desired at the end, and nothing after it
      changed the controller. */
  predicate ArmedBy(events: seq<Event>, k: nat)
    requires k < |events|
  {
    && events[k].Proved? && Run(events[..k]).desired.Some?
    && events[k].proof.revision == Run(events[..k]).desired.value.revision
    && SameDigest(events[k].proof.policyDigest, Run(events[..k]).desired.value.digest)
    && Arms(Run(events[..k]).desired.value, events[k].proof)
    && Run(events) == Run(events[..k + 1])
  }

  /** Over every run of events the controller is armed exactly if some proof armed it and
      nothing since has changed it. */
  lemma {:induction false} ArmedByTheLastWord(events: seq<Event>)
    ensures Run(events).state == Armed <==> exists k :: 0 <= k < |events| && ArmedBy(events, k)
  {
    if k :| 0 <= k < |events| && ArmedBy(events, k) {
      assert events[..k + 1][..k] == events[..k];
      ProofDecidesExactly(Run(events[..k]), events[k].proof);
    }
    if Run(events).state == Armed {
      var before, last := events[..|events| - 1], events[|events| - 1];
      ArmedByTheLastWord(before);
      if Run(before) == Run(events) {
        var k :| 0 <= k < |before| && ArmedBy(before, k);
        assert before[..k] == events[..k] && before[..k + 1] == events[..k + 1];
        assert ArmedBy(events, k);
      } else {
        StepArmsOnlyByProof(Run(before), last);
        assert events[..|before| + 1] == events;
        assert ArmedBy(events, |before|);
      }
    }
  }

  lemma StepArmsOnlyByProof(c: Controller, event: Event)
    requires Step(c, event).state == Armed && Step(c, event) != c
    ensures event.Proved? && c.desired.Some? && event.proof.revision == c.desired.value.revision
    ensures SameDigest(event.proof.policyDigest, c.desired.value.digest) && Arms(c.desired.value, event.proof)
  {
    if event.Proved? { ProofDecidesExactly(c, event.proof); }
  }
}
