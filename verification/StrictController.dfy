/** The Agent's view of the desired policy and of how far it is enforced. */
module StrictControllerModule {
  import opened Wrappers
  import opened StrictContract

  datatype StrictState = Disabled | Preparing | Blocking | Armed | Recovering

  datatype StrictReason =
    | NoReason | BeingPrepared | GuardNotInstalled | MissingCapability | CoreUnavailable
    | RelayUnavailable | DnsUnavailable | BackendUnavailable | CleanupPending

  datatype Intent = Intent(revision: nat, digest: string, proxies: nat, blocked: nat, required: set<Capability>)

  datatype StrictStatus = StrictStatus(state: StrictState, reason: StrictReason, revision: Option<nat>, generation: Option<nat>)

  datatype Controller = Controller(
    desired: Option<Intent>,
    state: StrictState,
    reason: StrictReason,
    generation: Option<nat>,
    disabling: bool)

  const NEW_CONTROLLER: Controller := Controller(None, Disabled, NoReason, None, false)

  function NewIntent(revision: nat, digest: string, proxies: nat, blocked: nat): Result<Intent> {
    if revision == 0 || !IsSha256(digest) || proxies + blocked == 0 || proxies + blocked > MAX_STRICT_APPLICATIONS then Err
    else Ok(Intent(revision, LowerAscii(digest), proxies, blocked,
                   if proxies == 0 then RequiredForBlockOnly() else RequiredForProxy()))
  }

  function StatusOf(c: Controller): StrictStatus {
    StrictStatus(c.state, c.reason, if c.desired.Some? then Some(c.desired.value.revision) else None, c.generation)
  }

  function Blocked(c: Controller, reason: StrictReason): Controller {
    c.(state := Blocking, reason := reason)
  }

  /** A new revision, or the same intent again; never an older or altered one. */
  predicate MayBegin(c: Controller, intent: Intent) {
    && !c.disabling
    && (c.desired.Some? ==> c.desired.value.revision < intent.revision || c.desired.value == intent)
  }

  function Begin(c: Controller, intent: Intent): (Controller, bool) {
    if !MayBegin(c, intent) then (c, false)
    else (c.(desired := Some(intent), state := Preparing, reason := BeingPrepared, generation := None), true)
  }

  predicate Concerns(desired: Intent, proof: BrokerProof) {
    proof.revision == desired.revision && SameDigest(proof.policyDigest, desired.digest)
  }

  /** What a matching proof leaves to complain about; `NoReason` means armed. */
  function Verdict(desired: Intent, proof: BrokerProof): StrictReason {
    if proof.filterGeneration == 0 || !proof.guardsInstalled || !proof.markerPresent then GuardNotInstalled
    else if !(desired.required <= proof.capabilities) then MissingCapability
    else if desired.proxies > 0 && !proof.coreHealthy then CoreUnavailable
    else if desired.proxies > 0 && !proof.relayHealthy then RelayUnavailable
    else if desired.proxies > 0 && !proof.dnsHealthy then DnsUnavailable
    else NoReason
  }

  function ApplyProof(c: Controller, proof: BrokerProof): (Controller, bool) {
    if c.desired.None? || !Concerns(c.desired.value, proof) then (c, false) else
    var reason := Verdict(c.desired.value, proof);
    var generation := if proof.filterGeneration > 0 then Some(proof.filterGeneration) else None;
    (c.(generation := generation, state := if reason.NoReason? then Armed else Blocking, reason := reason), true)
  }

  function BackendLost(c: Controller, reason: StrictReason): Controller {
    if c.desired.None? then c else Blocked(c, if reason.NoReason? then BackendUnavailable else reason)
  }

  function BeginRecovery(c: Controller): Controller {
    if c.desired.None? then c else c.(state := Recovering, reason := BackendUnavailable)
  }

  function RequestDisable(c: Controller): Controller {
    if c.desired.None? then c else Blocked(c.(disabling := true), CleanupPending)
  }

  function ConfirmDisabled(c: Controller, filtersRemain: bool, markerPresent: bool): (Controller, bool) {
    if !c.disabling then (c, false)
    else if filtersRemain || markerPresent then (Blocked(c, CleanupPending), false)
    else (NEW_CONTROLLER, true)
  }

  // ----- The controller object -----------------------------------------------

  class StrictController {
    var desired: Option<Intent>
    var state: StrictState
    var reason: StrictReason
    var generation: Option<nat>
    var disabling: bool

    function View(): Controller
      reads this
    {
      Controller(desired, state, reason, generation, disabling)
    }

    constructor ()
      ensures View() == NEW_CONTROLLER
    {
      desired, state, reason, generation, disabling := None, Disabled, NoReason, None, false;
    }

    method Block(why: StrictReason)
      modifies this
      ensures View() == Blocked(old(View()), why)
    {
      state := Blocking;
      reason := why;
    }

    method BeginIntent(intent: Intent) returns (ok: bool)
      modifies this
      ensures (View(), ok) == Begin(old(View()), intent)
    {
      if disabling { return false; }
      if desired.Some? {
        if intent.revision < desired.value.revision { return false; }
        if intent.revision == desired.value.revision {
          if intent != desired.value { return false; }
          state := Preparing;
          reason := BeingPrepared;
          generation := None;
          return true;
        }
      }
      desired := Some(intent);
      state := Preparing;
      reason := BeingPrepared;
      generation := None;
      return true;
    }

    method ApplyBrokerProof(proof: BrokerProof) returns (ok: bool)
      modifies this
      ensures (View(), ok) == ApplyProof(old(View()), proof)
    {
      if desired.None? { return false; }
      var want := desired.value;
      if proof.revision != want.revision || !SameDigest(proof.policyDigest, want.digest) { return false; }
      generation := if proof.filterGeneration > 0 then Some(proof.filterGeneration) else None;
      if proof.filterGeneration == 0 || !proof.guardsInstalled || !proof.markerPresent {
        Block(GuardNotInstalled);
      } else if !(want.required <= proof.capabilities) {
        Block(MissingCapability);
      } else if want.proxies > 0 && !proof.coreHealthy {
        Block(CoreUnavailable);
      } else if want.proxies > 0 && !proof.relayHealthy {
        Block(RelayUnavailable);
      } else if want.proxies > 0 && !proof.dnsHealthy {
        Block(DnsUnavailable);
      } else {
        state := Armed;
        reason := NoReason;
      }
      return true;
    }

    method LoseBackend(why: StrictReason)
      modifies this
      ensures View() == BackendLost(old(View()), why)
    {
      if desired.Some? { Block(if why.NoReason? then BackendUnavailable else why); }
    }

    method StartRecovery()
      modifies this
      ensures View() == BeginRecovery(old(View()))
    {
      if desired.Some? {
        state := Recovering;
        reason := BackendUnavailable;
      }
    }

    method AskDisable()
      modifies this
      ensures View() == RequestDisable(old(View()))
    {
      if desired.None? { return; }
      disabling := true;
      Block(CleanupPending);
    }

    method Confirm(filtersRemain: bool, markerPresent: bool) returns (ok: bool)
      modifies this
      ensures (View(), ok) == ConfirmDisabled(old(View()), filtersRemain, markerPresent)
    {
      if !disabling { return false; }
      if filtersRemain || markerPresent {
        Block(CleanupPending);
        return false;
      }
      desired, state, reason, generation, disabling := None, Disabled, NoReason, None, false;
      return true;
    }
  }
}
