/** Live control handles (crates/asmodeus-control-plane/src/run_control.rs). Each method is one
    section under the object's lock; CampaignProtocol interleaves the same sections. */
module RunControl {
  import opened Wrappers

  class ActiveRun {
    var cancelRequested: bool
    var status: string

    constructor ()
      ensures !cancelRequested && status == "QUEUED"
    {
      cancelRequested, status := false, "QUEUED";
    }

    /** The flag is raised for good; the displayed status follows it. */
    method Cancel()
      modifies this
      ensures cancelRequested && status == "CANCELLING"
    {
      cancelRequested := true;
      status := "CANCELLING";
    }
  }

  class CampaignControl {
    var cancelled: bool
    var current: Option<string>

    constructor ()
      ensures !cancelled && current.None?
    {
      cancelled, current := false, None;
    }

    method IsCancelled() returns (yes: bool)
      ensures yes == cancelled
    {
      yes := cancelled;
    }

    /** Requests cancellation and tells which admitted stage the requester has to cancel. */
    method Cancel() returns (active: Option<string>)
      modifies this`cancelled
      ensures cancelled && active == current
    {
      cancelled := true;
      active := current;
    }

    /** Publishes the admitted stage and tells whether the worker has to cancel it itself. */
    method SetCurrent(run: Option<string>) returns (cancelIt: bool)
      modifies this`current
      ensures current == run && (cancelIt <==> cancelled && run.Some?)
    {
      current := run;
      cancelIt := cancelled && current.Some?;
    }
  }

  /** In whichever order a cancel and the publication of a stage take the lock, exactly one of the two
      threads is told to cancel that stage. */
  method CancelMeetsAdmission(id: string, cancelFirst: bool) returns (requester: bool, worker: bool)
    ensures requester == !cancelFirst && worker == cancelFirst
  {
    var control := new CampaignControl();
    var active: Option<string>;
    if cancelFirst {
      active := control.Cancel();
      worker := control.SetCurrent(Some(id));
    } else {
      worker := control.SetCurrent(Some(id));
      active := control.Cancel();
    }
    requester := active == Some(id);
  }
}
