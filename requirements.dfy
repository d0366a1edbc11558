/**
 * The platform requirements `checkRequirements` consults and the problems it
 * can report, with the text of the message shown for each.
 */
module Requirements {
  /** The platform checks, in the order they are consulted. */
  datatype Check = WeChatInstalled | WeChatRunning | TweakInstalled | ServiceRunning

  const CheckOrder: seq<Check> := [WeChatInstalled, WeChatRunning, TweakInstalled, ServiceRunning]

  /** Which of the five messages `requirementsMessage` is set to: a check answered no, or the service check threw. */
  datatype Problem = Failed(check: Check) | ServiceCheckThrew

  /** The text of each message. */
  function Message(problem: Problem): string {
    match problem
    case Failed(WeChatInstalled) => "WeChat is not installed. Open WeChatTweak Manager to install it?"
    case Failed(WeChatRunning) => "WeChat is not running. Do you want to open WeChatTweak Manager to start it?"
    case Failed(TweakInstalled) => "WeChatTweak is not installed. Open WeChatTweak Manager to install it?"
    case Failed(ServiceRunning) => "WeChat service is not running. Open WeChat Tweak Manager to fix this problem?"
    case ServiceCheckThrew => "Checking WeChat service failed. Open WeChat Tweak Manager to fix this?"
  }
}
