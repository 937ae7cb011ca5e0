/** The life of a model (app/registry/states.py). */
module States {

  datatype State =
    | PendingApproval | Deploying | Starting | Ready | Sleeping | WaitingForGpu | Failed | Removed

  datatype Mode = Sync | Queue

  predicate Busy(st: State) { st.Deploying? || st.Starting? || st.WaitingForGpu? }

  predicate Settled(st: State) { st.Ready? || st.Sleeping? }

  predicate Startable(st: State) { !Busy(st) && !st.Removed? }
}
