/**
 * The application detail screen: the same two status mappings as the list,
 * the buttons a recruiter is shown for each status, and `handleStatusChange`,
 * which rewrites the status of the application on screen.
 */
module ApplicationDetailScreen {
  import opened Common
  import AuthSlice
  import ApplicationsScreen
  import opened ApplicationsSlice

  /** `getStatusColor` of the detail screen: a separate copy that gives the list's colour for every string. */
  function StatusColor(status: string): (r: string)
    ensures r == ApplicationsScreen.StatusColor(status)
  {
    match status
    case "pending" => "#ffa000"
    case "interview" => "#2196f3"
    case "accepted" => "#4caf50"
    case "rejected" => "#f44336"
    case _ => "#757575"
  }

  /** `getStatusText` of the detail screen: a separate copy that gives the list's label for every string. */
  function StatusText(status: string): (r: string)
    ensures r == ApplicationsScreen.StatusText(status)
  {
    match status
    case "pending" => "待处理"
    case "interview" => "面试中"
    case "accepted" => "已录用"
    case "rejected" => "已拒绝"
    case _ => "未知"
  }

  /**
   * `user?.role === 'RECRUITER'`: strict equality, so no user, a user without
   * a role, and any other spelling of the role are not recruiters.
   */
  function IsRecruiter(user: Option<AuthSlice.User>): (r: bool)
    ensures r ==> user.Some? && "role" in user.value && user.value["role"] == "RECRUITER"
    ensures user.Some? && "role" in user.value && user.value["role"] == "RECRUITER" ==> r
    ensures user.Some? && "role" in user.value && user.value["role"] == "recruiter" ==> !r
  {
    user.Some? && "role" in user.value && user.value["role"] == "RECRUITER"
  }

  /**
   * The statuses the action buttons move to, in the order they appear: a
   * recruiter sees "invite to interview" and "decline" on a pending
   * application, "hire" and "decline" on one in interview, and nothing else
   * anywhere.
   */
  function OfferedTransitions(isRecruiter: bool, status: string): (r: seq<string>)
    ensures |r| == 0 || |r| == 2
    ensures |r| == 2 <==> isRecruiter && (status == "pending" || status == "interview")
    ensures |r| == 2 ==> r[1] == "rejected"
    ensures isRecruiter && status == "pending" ==> r == ["interview", "rejected"]
    ensures isRecruiter && status == "interview" ==> r == ["accepted", "rejected"]
  {
    if isRecruiter && status == "pending" then ["interview", "rejected"]
    else if isRecruiter && status == "interview" then ["accepted", "rejected"]
    else []
  }

  /** The position of a status in the workflow; unknown statuses sit beside the start. */
  function StatusRank(status: string): nat {
    match status
    case "pending" => 0
    case "interview" => 1
    case "accepted" => 2
    case "rejected" => 2
    case _ => 0
  }

  /** Accepted and rejected are final: no status is offered from them. */
  predicate IsFinal(status: string) {
    status == "accepted" || status == "rejected"
  }

  /**
   * Every offered transition moves forward in the workflow, into a known
   * status, and a final status or a non-recruiter is offered nothing.
   */
  lemma OfferedTransitionsMoveForward(isRecruiter: bool, status: string, next: string)
    ensures next in OfferedTransitions(isRecruiter, status) ==>
      isRecruiter && StatusRank(next) > StatusRank(status) && next in ApplicationsScreen.KnownStatuses && next != "pending"
    ensures IsFinal(status) || !isRecruiter ==> OfferedTransitions(isRecruiter, status) == []
  {
  }

  /** A run of button presses: each status is one offered from the one before. */
  predicate IsWorkflowRun(isRecruiter: bool, run: seq<string>) {
    forall i :: 0 < i < |run| ==> run[i] in OfferedTransitions(isRecruiter, run[i - 1])
  }

  /** Along a run the rank grows by at least one per press. */
  lemma {:induction false} RunRaisesRank(isRecruiter: bool, run: seq<string>)
    requires |run| > 0 && IsWorkflowRun(isRecruiter, run)
    ensures StatusRank(run[|run| - 1]) >= StatusRank(run[0]) + |run| - 1
  {
    if |run| > 1 {
      var prefix := run[..|run| - 1];
      assert IsWorkflowRun(isRecruiter, prefix) by {
        forall i | 0 < i < |prefix| ensures prefix[i] in OfferedTransitions(isRecruiter, prefix[i - 1]) {
          assert prefix[i] == run[i] && prefix[i - 1] == run[i - 1];
        }
      }
      RunRaisesRank(isRecruiter, prefix);
      OfferedTransitionsMoveForward(isRecruiter, run[|run| - 2], run[|run| - 1]);
    }
  }

  /**
   * The workflow has no cycles and no long chains: at most two presses
   * follow one another, and a status once left is never offered again.
   */
  lemma WorkflowTerminates(isRecruiter: bool, run: seq<string>)
    requires |run| > 0 && IsWorkflowRun(isRecruiter, run)
    ensures |run| <= 3
    ensures forall i, j :: 0 <= i < j < |run| ==> run[i] != run[j]
  {
    RunRaisesRank(isRecruiter, run);
    forall i, j | 0 <= i < j < |run| ensures run[i] != run[j] {
      var sub := run[i..j + 1];
      assert IsWorkflowRun(isRecruiter, sub) by {
        forall k | 0 < k < |sub| ensures sub[k] in OfferedTransitions(isRecruiter, sub[k - 1]) {
          assert sub[k] == run[i + k] && sub[k - 1] == run[i + k - 1];
        }
      }
      RunRaisesRank(isRecruiter, sub);
    }
  }

  /** The screen's state: the application shown, or none yet (`null`). */
  class ApplicationDetail {
    const isRecruiter: bool
    var application: Option<Application>

    /** Nothing is shown until the application is loaded. */
    constructor (user: Option<AuthSlice.User>)
      ensures isRecruiter == IsRecruiter(user)
      ensures application == None
    {
      isRecruiter := IsRecruiter(user);
      application := None;
    }

    /** `setApplication` from the loading effect. */
    method Load(a: Application)
      modifies this
      ensures application == Some(a)
    {
      application := Some(a);
    }

    /**
     * The buttons shown: none while nothing is loaded (the screen renders
     * `null`) and none for a non-recruiter; each one shown leads forward.
     */
    function Actions(): (r: seq<string>)
      reads this
      ensures application.None? || !isRecruiter ==> r == []
      ensures application.Some? ==> r == OfferedTransitions(isRecruiter, application.value.status)
      ensures forall next :: next in r ==> application.Some? && StatusRank(next) > StatusRank(application.value.status)
    {
      if application.None? then [] else OfferedTransitions(isRecruiter, application.value.status)
    }

    /**
     * `handleStatusChange`: only the status of the shown application
     * changes; its id and every other field are kept.
     */
    method HandleStatusChange(newStatus: string)
      requires application.Some?
      modifies this
      ensures application.Some?
      ensures application.value == old(application.value).(status := newStatus)
      ensures application.value.id == old(application.value.id)
      ensures application.value.details == old(application.value.details)
    {
      application := Some(application.value.(status := newStatus));
    }

    /**
     * Pressing one of the buttons shown: the status moves forward in the
     * workflow and the pressed status is no longer offered.
     */
    method PressAction(newStatus: string)
      requires newStatus in Actions()
      modifies this
      ensures application.Some? && application.value == old(application.value).(status := newStatus)
      ensures StatusRank(newStatus) > StatusRank(old(application.value.status))
      ensures newStatus !in Actions()
    {
      OfferedTransitionsMoveForward(isRecruiter, application.value.status, newStatus);
      OfferedTransitionsMoveForward(isRecruiter, newStatus, newStatus);
      HandleStatusChange(newStatus);
    }
  }
}
