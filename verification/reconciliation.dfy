/** What the outcome of one reconciliation probe says about the backend (src/supervisor.rs). */
module Reconciliation {
  datatype Classification = Clean | FullyReady | FoundPositive | FoundInconclusive

  datatype RconProbe = Authenticated | RconRefused | AcceptedFailure | RconInconclusive
  datatype BackendProbe = Connected | BackendRefused | BackendInconclusive

  datatype ReconciliationResult =
    | ConfiguredRcon(rcon: RconProbe, backend: BackendProbe)
    | BackendOnly(backend: BackendProbe)
  {
    function Classify(): Classification {
      match this
      case ConfiguredRcon(rcon, backend) =>
        (match (rcon, backend)
         case (Authenticated, Connected) => FullyReady
         case (Authenticated, _) => FoundPositive
         case (AcceptedFailure, _) => FoundPositive
         case (_, Connected) => FoundPositive
         case (RconRefused, BackendRefused) => Clean
         case (_, _) => FoundInconclusive)
      case BackendOnly(backend) =>
        match backend
        case Connected => FullyReady
        case BackendRefused => Clean
        case BackendInconclusive => FoundInconclusive
    }

    /** Some configured endpoint accepted a connection, so something is alive behind it. */
    predicate SomethingAlive() {
      backend == Connected || (ConfiguredRcon? && rcon in {Authenticated, AcceptedFailure})
    }

    predicate EverythingRefused() {
      backend == BackendRefused && (ConfiguredRcon? ==> rcon == RconRefused)
    }

    predicate EverythingReady() {
      backend == Connected && (ConfiguredRcon? ==> rcon == Authenticated)
    }
  }

  /** The classes in terms of the endpoints: only a refusal by every endpoint is clean, and any sign of
      life short of full readiness is positive evidence. */
  lemma ClassificationMeaning(r: ReconciliationResult)
    ensures r.Classify() == Clean <==> r.EverythingRefused()
    ensures r.Classify() == FullyReady <==> r.EverythingReady()
    ensures r.Classify() == FoundPositive <==> r.SomethingAlive() && !r.EverythingReady()
    ensures r.Classify() == FoundInconclusive <==> !r.SomethingAlive() && !r.EverythingRefused()
  {
  }
}
