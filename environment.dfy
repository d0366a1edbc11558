/**
 * The environment-readiness cascade of `checkRequirements`: four platform
 * checks consulted in a fixed order, the first failure choosing the message
 * of the "Environment not ready" alert, and the screen the launcher renders.
 */
module Environment {
  import opened Wrappers
  import opened Requirements
  import opened Effects

  /** What a platform check gives back: a yes/no answer, or an error it throws. */
  datatype Reply = Answer(ok: bool) | Raised(error: string)

  /**
   * The answers the `WeChatManager` checks would give. Their implementation is
   * not part of this model; the three synchronous ones can only fail by throwing
   * into the outer `catch`, the asynchronous service check has a `catch` of its own.
   */
  datatype Probes = Probes(installed: Reply, running: Reply, tweakInstalled: Reply, serviceRunning: Reply)

  function ReplyTo(p: Probes, c: Check): Reply {
    match c
    case WeChatInstalled => p.installed
    case WeChatRunning => p.running
    case TweakInstalled => p.tweakInstalled
    case ServiceRunning => p.serviceRunning
  }

  predicate Passes(p: Probes, c: Check) {
    ReplyTo(p, c) == Answer(true)
  }

  /** Every one of the four checks answers yes. */
  predicate AllChecksPass(p: Probes) {
    forall c :: c in CheckOrder ==> Passes(p, c)
  }

  /**
   * How a run of `checkRequirements` ends: every check passed, a problem
   * was found whose message the alert shows, or an exception reached the
   * outer `catch` with the stringified error.
   */
  datatype Verdict = Ready | NotReady(problem: Problem) | CheckError(error: string)

  /** What one consulted check decides: nothing when it passes, otherwise the verdict. */
  function Decides(c: Check, r: Reply): (d: Option<Verdict>)
    ensures d.None? <==> r == Answer(true)
    ensures d.Some? ==> d.value != Ready
  {
    match r
    case Answer(ok) => if ok then None else Some(NotReady(Failed(c)))
    case Raised(e) => if c == ServiceRunning then Some(NotReady(ServiceCheckThrew)) else Some(CheckError(e))
  }

  /** The reference reading of the if/else chain: walk the checks, stop at the first that decides. */
  function Cascade(p: Probes, cs: seq<Check>): Verdict
    decreases |cs|
  {
    if cs == [] then Ready
    else match Decides(cs[0], ReplyTo(p, cs[0]))
      case Some(v) => v
      case None => Cascade(p, cs[1..])
  }

  /** The checks the walk consults, in order. */
  function Consulted(p: Probes, cs: seq<Check>): seq<Check>
    decreases |cs|
  {
    if cs == [] then []
    else if Decides(cs[0], ReplyTo(p, cs[0])).Some? then [cs[0]]
    else [cs[0]] + Consulted(p, cs[1..])
  }

  function Evaluate(p: Probes): Verdict {
    Cascade(p, CheckOrder)
  }

  /**
   * The decision part of `checkRequirements`, written like the source: the
   * local `requirementsMessage` (here: which message it is set to) and
   * `shouldOpenManager` set by an if/else chain, a throwing check leaving for
   * the outer `catch`. `consulted` records which checks were called.
   */
  method Assess(p: Probes) returns (verdict: Verdict, consulted: seq<Check>)
    ensures verdict == Evaluate(p)
    ensures consulted == Consulted(p, CheckOrder)
  {
    var requirementsMessage := ServiceCheckThrew;
    var shouldOpenManager := false;
    consulted := [WeChatInstalled];
    if p.installed.Raised? {
      FirstFailureDecides(p, 0);
      return CheckError(p.installed.error), consulted;
    }
    if !p.installed.ok {
      FirstFailureDecides(p, 0);
      requirementsMessage := Failed(WeChatInstalled);
      shouldOpenManager := true;
    } else {
      consulted := consulted + [WeChatRunning];
      if p.running.Raised? {
        FirstFailureDecides(p, 1);
        return CheckError(p.running.error), consulted;
      }
      if !p.running.ok {
        FirstFailureDecides(p, 1);
        requirementsMessage := Failed(WeChatRunning);
        shouldOpenManager := true;
      } else {
        consulted := consulted + [TweakInstalled];
        if p.tweakInstalled.Raised? {
          FirstFailureDecides(p, 2);
          return CheckError(p.tweakInstalled.error), consulted;
        }
        if !p.tweakInstalled.ok {
          FirstFailureDecides(p, 2);
          requirementsMessage := Failed(TweakInstalled);
          shouldOpenManager := true;
        } else {
          consulted := consulted + [ServiceRunning];
          match p.serviceRunning {
            case Raised(_) =>
              FirstFailureDecides(p, 3);
              requirementsMessage := ServiceCheckThrew;
              shouldOpenManager := true;
            case Answer(ok) =>
              if !ok {
                FirstFailureDecides(p, 3);
                requirementsMessage := Failed(ServiceRunning);
                shouldOpenManager := true;
              } else {
                ReadyIffAllPass(p);
              }
          }
        }
      }
    }
    verdict := if shouldOpenManager then NotReady(requirementsMessage) else Ready;
  }

  lemma {:induction false} CascadeReadyIffAllPass(p: Probes, cs: seq<Check>)
    ensures Cascade(p, cs) == Ready <==> forall k :: 0 <= k < |cs| ==> Passes(p, cs[k])
    ensures Cascade(p, cs) == Ready ==> Consulted(p, cs) == cs
    decreases |cs|
  {
    if cs != [] {
      CascadeReadyIffAllPass(p, cs[1..]);
      assert forall k :: 1 <= k < |cs| ==> cs[k] == cs[1..][k - 1];
    }
  }

  /** The environment ends ready exactly when all four checks answer yes; a thrown service check is not ready. */
  lemma ReadyIffAllPass(p: Probes)
    ensures Evaluate(p) == Ready <==> AllChecksPass(p)
    ensures Evaluate(p) == Ready ==> Consulted(p, CheckOrder) == CheckOrder
  {
    CascadeReadyIffAllPass(p, CheckOrder);
    assert forall c :: c in CheckOrder ==> exists k :: 0 <= k < |CheckOrder| && CheckOrder[k] == c;
  }

  lemma {:induction false} CascadeFirstFailure(p: Probes, cs: seq<Check>, k: nat)
    requires k < |cs|
    requires forall j :: 0 <= j < k ==> Passes(p, cs[j])
    requires !Passes(p, cs[k])
    ensures Decides(cs[k], ReplyTo(p, cs[k])).Some?
    ensures Cascade(p, cs) == Decides(cs[k], ReplyTo(p, cs[k])).value
    ensures Consulted(p, cs) == cs[..k + 1]
    decreases |cs|
  {
    if k > 0 {
      assert Passes(p, cs[0]);
      assert forall j :: 0 <= j < k - 1 ==> cs[1..][j] == cs[j + 1];
      CascadeFirstFailure(p, cs[1..], k - 1);
      assert cs[..k + 1] == [cs[0]] + cs[1..][..k];
    } else {
      assert cs[..1] == [cs[0]];
    }
  }

  /**
   * The verdict is decided by the first check, in the order installed,
   * running, tweak installed, service running, that does not answer yes,
   * and only the checks up to that one are consulted.
   */
  lemma FirstFailureDecides(p: Probes, k: nat)
    requires k < |CheckOrder|
    requires forall j :: 0 <= j < k ==> Passes(p, CheckOrder[j])
    requires !Passes(p, CheckOrder[k])
    ensures Evaluate(p) != Ready
    ensures Evaluate(p) == Decides(CheckOrder[k], ReplyTo(p, CheckOrder[k])).value
    ensures Consulted(p, CheckOrder) == CheckOrder[..k + 1]
  {
    CascadeFirstFailure(p, CheckOrder, k);
  }

  /** Two environments that agree up to the first failing check get the same verdict: later checks are never consulted. */
  lemma LaterChecksIgnored(p: Probes, q: Probes, k: nat)
    requires k < |CheckOrder|
    requires forall j :: 0 <= j <= k ==> ReplyTo(p, CheckOrder[j]) == ReplyTo(q, CheckOrder[j])
    requires forall j :: 0 <= j < k ==> Passes(p, CheckOrder[j])
    requires !Passes(p, CheckOrder[k])
    ensures Evaluate(p) == Evaluate(q)
    ensures Consulted(p, CheckOrder) == Consulted(q, CheckOrder)
  {
    FirstFailureDecides(p, k);
    FirstFailureDecides(q, k);
  }

  /** A thrown service check yields its own message, "Checking WeChat service failed…", and the environment is not ready. */
  lemma ServiceThrowIsNotReady(p: Probes)
    requires Passes(p, WeChatInstalled) && Passes(p, WeChatRunning) && Passes(p, TweakInstalled)
    requires p.serviceRunning.Raised?
    ensures Evaluate(p) == NotReady(ServiceCheckThrew)
  {
    FirstFailureDecides(p, 3);
  }

  /** A synchronous check that throws, once reached, leads to the outer `catch` with its error. */
  lemma SynchronousThrowReachesOuterCatch(p: Probes, k: nat)
    requires k < 3
    requires forall j :: 0 <= j < k ==> Passes(p, CheckOrder[j])
    requires ReplyTo(p, CheckOrder[k]).Raised?
    ensures Evaluate(p) == CheckError(ReplyTo(p, CheckOrder[k]).error)
  {
    FirstFailureDecides(p, k);
  }

  // ---------------------------------------------------------------------
  // What follows the verdict

  /** `openManageTweak`: launch the manager command, and on failure tell the user to open it by hand. */
  function OpenManagerEffects(launch: Step): (trace: seq<Effect>)
    ensures |trace| > 0 && trace[0] == LaunchManager
    ensures FailureToasts(trace) == (if launch.Rejected? then 1 else 0)
  {
    if launch.Rejected?
    then
      var toast := ShowToast(ManagerUnavailable);
      assert FailureToasts([toast]) == 1;
      [LaunchManager, toast]
    else [LaunchManager]
  }

  /** The alert shown for a verdict that is not ready. */
  function AlertFor(v: Verdict): Effect
    requires v != Ready
  {
    match v
    case NotReady(problem) => ConfirmAlert(NotReadyAlert(problem))
    case CheckError(e) => ConfirmAlert(CheckErrorAlert(e))
  }

  /** The calls made once the verdict is known. */
  function VerdictEffects(v: Verdict, confirmed: bool, launch: Step): seq<Effect> {
    if v == Ready then []
    else [AlertFor(v)] + (if confirmed then OpenManagerEffects(launch) else [])
  }

  /**
   * No call is made when the environment is ready; otherwise exactly one
   * alert comes first, and the manager is launched exactly when the user
   * confirms it.
   */
  lemma VerdictEffectsShape(v: Verdict, confirmed: bool, launch: Step)
    ensures var trace := VerdictEffects(v, confirmed, launch);
      && (v == Ready <==> trace == [])
      && (v != Ready ==> trace[0] == AlertFor(v))
      && ((LaunchManager in trace) <==> (v != Ready && confirmed))
  {
    if v != Ready {
      var alert := AlertFor(v);
      if confirmed {
        var rest := OpenManagerEffects(launch);
        assert ([alert] + rest)[1] == LaunchManager;
      } else {
        assert VerdictEffects(v, confirmed, launch) == [alert];
      }
    }
  }

  // ---------------------------------------------------------------------
  // Which screen is rendered

  datatype Screen = Loading | EnvironmentNotReady | ContactList

  /** The render branches: loading while initializing, else not ready, else the contact list. */
  function ScreenOf(isInitializing: bool, environmentReady: bool): (s: Screen)
    ensures s == Loading <==> isInitializing
    ensures s == EnvironmentNotReady <==> !isInitializing && !environmentReady
    ensures s == ContactList <==> !isInitializing && environmentReady
  {
    if isInitializing then Loading
    else if !environmentReady then EnvironmentNotReady
    else ContactList
  }

  /** Once the checks have run, the contact list is shown exactly when every check answered yes. */
  lemma ScreenAfterChecks(p: Probes)
    ensures ScreenOf(false, Evaluate(p) == Ready) != Loading
    ensures ScreenOf(false, Evaluate(p) == Ready) == ContactList <==> AllChecksPass(p)
  {
    ReadyIffAllPass(p);
  }
}
