/**
 * What a single row of the contact list shows and does: its title and
 * avatar fallbacks, its accessory, its pin action, and the calls made when
 * the user opens a chat from it.
 */
module ListItem {
  import opened Contacts
  import opened Effects

  /** The first non-empty string of `candidates`, or "" when all are empty: a chain of JavaScript `||` over strings. */
  function FirstNonEmpty(candidates: seq<string>): (r: string)
    ensures r == "" <==> forall k :: 0 <= k < |candidates| ==> candidates[k] == ""
    ensures r != "" ==> exists k :: 0 <= k < |candidates| && candidates[k] == r
                                    && forall j :: 0 <= j < k ==> candidates[j] == ""
    decreases |candidates|
  {
    if candidates == [] then ""
    else if candidates[0] != "" then candidates[0]
    else
      var r := FirstNonEmpty(candidates[1..]);
      assert forall k :: 1 <= k < |candidates| ==> candidates[k] == candidates[1..][k - 1];
      assert r != "" ==> exists k :: 1 <= k < |candidates| && candidates[k] == r
                                    && forall j :: 0 <= j < k ==> candidates[j] == "";
      r
  }

  /** `searchResult.title || searchResult.subtitle || searchResult.arg`. */
  function DisplayTitle(r: SearchResult): string {
    if r.title != "" then r.title
    else if r.subtitle != "" then r.subtitle
    else r.arg
  }

  /**
   * The title is the first non-empty of title, subtitle and arg; it is
   * always one of the three, and it is non-empty whenever `arg` is.
   */
  lemma DisplayTitleFallback(r: SearchResult)
    ensures DisplayTitle(r) == FirstNonEmpty([r.title, r.subtitle, r.arg])
    ensures DisplayTitle(r) in {r.title, r.subtitle, r.arg}
    ensures r.arg != "" ==> DisplayTitle(r) != ""
  {
    var cs := [r.title, r.subtitle, r.arg];
    assert cs[1..] == [r.subtitle, r.arg];
    assert cs[1..][1..] == [r.arg];
    assert cs[1..][1..][1..] == [];
    assert FirstNonEmpty(cs[1..][1..]) == r.arg;
    assert FirstNonEmpty(cs[1..]) == if r.subtitle != "" then r.subtitle else r.arg;
  }

  const AvatarFile: string := "avatar.png"

  /** `path.join(assetsPath, name)` for a plain file name: one separator between the parts, none when the directory is empty. */
  function JoinPath(dir: string, name: string): (p: string)
    ensures |p| >= |name| && p[|p| - |name|..] == name
    ensures dir == "" ==> p == name
    ensures dir != "" ==> |p| >= |dir| + |name| && p[..|dir|] == dir
    ensures dir != "" ==> p[|dir| - 1] == '/' || (|p| > |dir| && p[|dir|] == '/')
  {
    if dir == [] then name
    else if dir[|dir| - 1] == '/' then dir + name
    else dir + "/" + name
  }

  /** `searchResult.icon.path || defaultAvatarPath`. */
  function AvatarPath(r: SearchResult, assetsPath: string): string {
    if r.icon.path != "" then r.icon.path else JoinPath(assetsPath, AvatarFile)
  }

  /**
   * The avatar is the contact's icon when it has one, and otherwise the
   * bundled `avatar.png` inside the assets directory; it is never empty.
   */
  lemma AvatarFallback(r: SearchResult, assetsPath: string)
    ensures AvatarPath(r, assetsPath) == FirstNonEmpty([r.icon.path, JoinPath(assetsPath, AvatarFile)])
    ensures AvatarPath(r, assetsPath) != ""
    ensures r.icon.path != "" ==> AvatarPath(r, assetsPath) == r.icon.path
    ensures r.icon.path == "" ==>
      var p := AvatarPath(r, assetsPath);
      && |p| >= |assetsPath| + |AvatarFile|
      && p[..|assetsPath|] == assetsPath
      && p[|p| - |AvatarFile|..] == AvatarFile
  {
    var cs := [r.icon.path, JoinPath(assetsPath, AvatarFile)];
    assert cs[1..] == [JoinPath(assetsPath, AvatarFile)];
    assert cs[1..][1..] == [];
  }

  datatype PinIcon = Pin | PinDisabled

  /** The row's pin toggle action: its title and its icon. */
  datatype PinAction = PinAction(title: string, icon: PinIcon)

  /** What a row renders. */
  datatype RowView = RowView(title: string, avatar: string, accessoryText: string, accessoryPinIcon: bool, pinAction: PinAction)

  function PinActionFor(isPinned: bool): PinAction {
    if isPinned then PinAction("取消置顶联系人", PinDisabled) else PinAction("置顶联系人", Pin)
  }

  function Row(r: SearchResult, isPinned: bool, assetsPath: string): RowView {
    RowView(DisplayTitle(r), AvatarPath(r, assetsPath), r.arg, isPinned, PinActionFor(isPinned))
  }

  /**
   * The accessory text of every row is its `arg` and it carries the pin icon
   * exactly when the row is pinned; the pin action reads "取消置顶联系人" with
   * the pin-disabled icon on pinned rows and "置顶联系人" with the pin icon on
   * the others, so its title tells which of the two toggles it runs.
   */
  lemma RowLabels(r: SearchResult, isPinned: bool, assetsPath: string)
    ensures Row(r, isPinned, assetsPath).accessoryText == r.arg
    ensures Row(r, isPinned, assetsPath).accessoryPinIcon <==> isPinned
    ensures Row(r, isPinned, assetsPath).pinAction.icon == PinDisabled <==> isPinned
    ensures Row(r, isPinned, assetsPath).pinAction.title == (if isPinned then "取消置顶联系人" else "置顶联系人")
    ensures Row(r, isPinned, assetsPath).pinAction != Row(r, !isPinned, assetsPath).pinAction
  {
  }

  // ---------------------------------------------------------------------
  // startWeChat

  /** The calls of `startWeChat` given the outcome of each awaited call: straight-line, the first rejection jumping to the `catch`. */
  function StartWeChat(r: SearchResult, chat: Step, recent: Step, close: Step): (trace: seq<Effect>)
    ensures |trace| >= 2 && trace[0] == StartChat(r.arg)
  {
    if chat.Rejected? then [StartChat(r.arg), ShowToast(ChatFailed(chat.error))]
    else if recent.Rejected? then [StartChat(r.arg), AddRecent(r), ShowToast(ChatFailed(recent.error))]
    else if close.Rejected? then [StartChat(r.arg), AddRecent(r), CloseMainWindow, ShowToast(ChatFailed(close.error))]
    else [StartChat(r.arg), AddRecent(r), CloseMainWindow]
  }

  /** The index of the first rejected step, or the number of steps when none is rejected. */
  function FirstRejected(steps: seq<Step>): (k: nat)
    ensures k <= |steps|
    ensures forall j :: 0 <= j < k ==> steps[j] == Done
    ensures k < |steps| ==> steps[k].Rejected?
    decreases |steps|
  {
    if steps == [] then 0
    else if steps[0].Rejected? then 0
    else
      assert forall j :: 1 <= j < |steps| ==> steps[j] == steps[1..][j - 1];
      1 + FirstRejected(steps[1..])
  }

  /** A reference reading of a `try` block of awaited calls: run the calls in order until one rejects, then one failure toast. */
  function RunUntilRejected(calls: seq<Effect>, steps: seq<Step>): seq<Effect>
    requires |calls| == |steps|
    decreases |calls|
  {
    if calls == [] then []
    else if steps[0].Rejected? then [calls[0], ShowToast(ChatFailed(steps[0].error))]
    else [calls[0]] + RunUntilRejected(calls[1..], steps[1..])
  }

  /**
   * Running calls until one rejects issues them in order up to and including
   * the rejected one, followed by exactly one failure toast; when none rejects,
   * every call is issued and no toast is shown.
   */
  lemma {:induction false} RunUntilRejectedShape(calls: seq<Effect>, steps: seq<Step>)
    requires |calls| == |steps|
    requires forall j :: 0 <= j < |calls| ==> !calls[j].ShowToast?
    ensures var k := FirstRejected(steps);
      RunUntilRejected(calls, steps) ==
        if k < |steps| then calls[..k + 1] + [ShowToast(ChatFailed(steps[k].error))] else calls
    ensures FailureToasts(RunUntilRejected(calls, steps)) == (if FirstRejected(steps) < |steps| then 1 else 0)
    decreases |calls|
  {
    var k := FirstRejected(steps);
    if calls == [] {
    } else if steps[0].Rejected? {
      assert calls[..1] == [calls[0]];
      assert FailureToasts([calls[0]]) == 0;
      FailureToastsAppend([calls[0]], [ShowToast(ChatFailed(steps[0].error))]);
    } else {
      RunUntilRejectedShape(calls[1..], steps[1..]);
      assert FailureToasts([calls[0]]) == 0;
      FailureToastsAppend([calls[0]], RunUntilRejected(calls[1..], steps[1..]));
      var k' := FirstRejected(steps[1..]);
      assert k == k' + 1;
      if k < |steps| {
        assert steps[1..][k'] == steps[k];
        assert calls[..k + 1] == [calls[0]] + calls[1..][..k' + 1];
      } else {
        assert calls == [calls[0]] + calls[1..];
      }
    }
  }

  /**
   * `startWeChat` runs `startChat`, `addRecentContact` and `closeMainWindow`
   * in that order; a rejection at any step skips the later steps and shows
   * exactly one failure toast, and without a rejection no toast is shown.
   */
  lemma StartWeChatOrder(r: SearchResult, chat: Step, recent: Step, close: Step)
    ensures var calls := [StartChat(r.arg), AddRecent(r), CloseMainWindow];
      var steps := [chat, recent, close];
      var k := FirstRejected(steps);
      && StartWeChat(r, chat, recent, close) == RunUntilRejected(calls, steps)
      && StartWeChat(r, chat, recent, close) ==
           (if k < 3 then calls[..k + 1] + [ShowToast(ChatFailed(steps[k].error))] else calls)
      && FailureToasts(StartWeChat(r, chat, recent, close)) == (if k < 3 then 1 else 0)
  {
    var calls := [StartChat(r.arg), AddRecent(r), CloseMainWindow];
    var steps := [chat, recent, close];
    assert calls[1..] == [AddRecent(r), CloseMainWindow] && steps[1..] == [recent, close];
    assert calls[1..][1..] == [CloseMainWindow] && steps[1..][1..] == [close];
    assert calls[1..][1..][1..] == [] && steps[1..][1..][1..] == [];
    assert RunUntilRejected(calls[1..][1..], steps[1..][1..]) ==
      if close.Rejected? then [CloseMainWindow, ShowToast(ChatFailed(close.error))] else [CloseMainWindow];
    RunUntilRejectedShape(calls, steps);
  }
}
