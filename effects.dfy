/**
 * The host-platform calls the launcher makes, recorded as an abstract trace
 * of effects in the order they are issued. Toasts and alerts are recorded by
 * what they announce; the functions below give their styles and texts.
 */
module Effects {
  import opened Contacts
  import opened Requirements

  datatype ToastStyle = Success | Failure

  /** The toasts the launcher and its rows show. */
  datatype Toast =
      /** launching the manager command failed */
    | ManagerUnavailable
      /** `AI.ask` rejected in `processAiQuery` */
    | AiFailed(error: string)
      /** the AI's keyword is being searched for */
    | AiSearched(keyword: string)
      /** a step of `startWeChat` rejected */
    | ChatFailed(error: string)

  /** The `confirmAlert` dialogs of `checkRequirements`. */
  datatype Alert =
      /** a requirement is not met, or the service check threw */
    | NotReadyAlert(problem: Problem)
      /** a check threw into the outer `catch` */
    | CheckErrorAlert(error: string)

  datatype Effect =
    | ShowToast(toast: Toast)
      /** `confirmAlert` with a title, a message, and the actions "Open WeChat Tweak Manager" and "Cancel" */
    | ConfirmAlert(alert: Alert)
      /** `launchCommand({ name: "manageTweak" })` */
    | LaunchManager
      /** `AI.ask` with the prompt built around a query */
    | AskAi(query: string)
      /** `search(text)` of the search hook */
    | Search(text: string)
      /** `storageService.setPinnedContacts(contacts)` */
    | StorePinned(contacts: seq<SearchResult>)
      /** `wechatService.startChat(arg)` */
    | StartChat(arg: string)
      /** `storageService.addRecentContact(contact)` */
    | AddRecent(contact: SearchResult)
      /** `closeMainWindow({ clearRootSearch: true })` */
    | CloseMainWindow

  /** Only the AI search announcement is a success toast; every other toast reports a failure. */
  function StyleOf(t: Toast): (style: ToastStyle)
    ensures style == Success <==> t.AiSearched?
    ensures style == Failure <==> !t.AiSearched?
  {
    if t.AiSearched? then Success else Failure
  }

  function ToastTitle(t: Toast): string {
    match t
    case ManagerUnavailable => "Unable to open WeChat Tweak Manager"
    case AiFailed(_) => "AI Handling failure"
    case AiSearched(_) => "AI Search"
    case ChatFailed(_) => "Failed to open WeChat chat"
  }

  /** The toast's message: a rejection's error is shown as it is. */
  function ToastMessage(t: Toast): string {
    match t
    case ManagerUnavailable => "Please open WeChatTweak Manager manually"
    case AiFailed(e) => e
    case AiSearched(k) => "Search: \"" + k + "\""
    case ChatFailed(e) => e
  }

  function AlertTitle(a: Alert): string {
    match a
    case NotReadyAlert(_) => "Environment not ready"
    case CheckErrorAlert(_) => "Error checking request"
  }

  function AlertMessage(a: Alert): string {
    match a
    case NotReadyAlert(problem) => Message(problem)
    case CheckErrorAlert(e) => "An error occurred while checking requirements: " + e + ". Open WeChatTweak Manager to fix this?"
  }

  /** The outcome of an awaited call that may reject with an error. */
  datatype Step = Done | Rejected(error: string)

  /** How many effects of the trace are failure toasts. */
  function FailureToasts(trace: seq<Effect>): nat {
    if trace == [] then 0
    else (if trace[0].ShowToast? && StyleOf(trace[0].toast) == Failure then 1 else 0) + FailureToasts(trace[1..])
  }

  lemma {:induction false} FailureToastsAppend(a: seq<Effect>, b: seq<Effect>)
    ensures FailureToasts(a + b) == FailureToasts(a) + FailureToasts(b)
    decreases |a|
  {
    if a == [] {
      assert a + b == b;
    } else {
      assert (a + b)[1..] == a[1..] + b;
      FailureToastsAppend(a[1..], b);
    }
  }
}
