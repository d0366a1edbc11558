# WeChat contact launcher: decision logic

This project models the decision logic of a desktop-launcher extension for
searching WeChat contacts and opening a chat with one of them. The logic
lives in the launcher's component (`src/index.tsx`) and in one list row
(`src/components/searchListltem.tsx`). The model covers:

- the **environment-readiness cascade** of `checkRequirements`: four platform checks
  (WeChat installed, WeChat running, WeChatTweak installed, WeChat service running),
  consulted in that order, the first failure choosing the alert message;
- the **screen** rendered from the initializing and ready flags;
- **input routing**: typed text goes to the AI path or to plain search;
- the **AI keyword guard** and the effect that triggers `processAiQuery`;
- the **pin list**: unpin filters by `arg`, pin appends;
- the **three-section display model** (Pinned, Recent, Contacts), with pinned contacts
  suppressed from the other two sections;
- a **list row**: title and avatar fallbacks, accessory and pin-action labels, and the
  order of the calls in `startWeChat`.

Modules, one per concern:

- `Text`: `includes`, lower-casing and `trim`.
- `Contacts`: the contact record and the pin-list updates.
- `Requirements`: the four checks, their order, and the alert messages.
- `Effects`: the host calls, as an abstract trace. Toasts and alerts are recorded by what they announce, and functions give their styles and texts.
- `Environment`: the cascade and the screens.
- `AiSearch`: routing, the guard and the AI effect.
- `Sections`: the display model.
- `ListItem`: the list row.
- `Launcher`: the component as a class. Its fields are the React state, and its methods are the handlers.

The `Command` handlers record their host calls in `Command.effects`, in the
order they are issued: `confirmAlert`, `launchCommand`, `AI.ask`, `showToast`,
`search` and `setPinnedContacts`. The row's `startWeChat` is modelled as the
pure trace `ListItem.StartWeChat` of `startChat`, `addRecentContact`,
`closeMainWindow` and `showToast`. Toasts and alerts are recorded by what they
announce; `Effects.ToastTitle`, `Effects.ToastMessage`, `Effects.AlertTitle`,
`Effects.AlertMessage` and `Requirements.Message` give their texts. The
outcomes of host calls are parameters: a platform check's answer or thrown
error is a `Reply`, the user's answer to an alert a `bool`, the outcome of an
awaited call a `Step`, and the AI's answer an `AiReply`.

Facts about the code that the model keeps:

- `processAiQuery` has no stale-response guard: it searches for whatever answer arrives.
- The pin toggles have no `catch`: the in-memory list is updated before the write, and a failed write is not reported.
- A new pin is appended at the end of the pinned list.
- The prompt asks the AI to answer "不支持的搜索内容" when there is no search intent, and "请输入和联系人相关的问题" when the query is not about a contact. The guard filters only "NO_SEARCH_INTENT", so both answers are searched for. `AiSearch.PromptRefusalIsSearched` states this.

## Model

| member | source | states |
|---|---|---|
| `Text.Includes` | src/index.tsx:264-266 | `includes`; specified by `Text.IncludesIffOccurs` |
| `Text.AsciiLower` | src/index.tsx:264-266 | `toLowerCase` on ASCII letters; keeps the length; `Text.LowerPreservesLetterFreeMatches` states what the routing needs of it |
| `Text.Trim` | src/index.tsx:56 | `trim`; specified by `Text.TrimIsSlice`, `Text.TrimEdges` and `Text.TrimIdempotent` |
| `Text.IncludesIffOccurs` | src/index.tsx:264-266 | `includes` holds exactly when some index of the text starts a copy of the keyword |
| `Text.LowerPreservesLetterFreeMatches` | src/index.tsx:264-266 | a keyword with no letters is found in the lower-cased text exactly when it is found in the text |
| `Text.TrimIsSlice` | src/index.tsx:56 | the trimmed answer is the slice after the leading white space, and everything around it is white space |
| `Text.TrimEdges` | src/index.tsx:56 | the trimmed answer neither starts nor ends with white space; it is empty exactly when the answer is all white space |
| `Text.TrimIdempotent` | src/index.tsx:56 | trimming twice is trimming once |
| `Contacts.WithoutArg` | src/index.tsx:284 | unpin keeps, in their original order, exactly the entries whose `arg` differs from the contact's: a subsequence with none keyed by it, every other entry kept, length reduced by the number keyed by it |
| `Contacts.WithPinned` | src/index.tsx:309 | pin gives the old list with the contact appended at the end |
| `Contacts.PinThenUnpin` | src/index.tsx:284-334 | pinning a contact whose `arg` is not pinned and then unpinning it restores the list exactly |
| `Contacts.PinKeepsArgsDistinct` | src/index.tsx:323-334 | pinning a contact whose `arg` is not pinned keeps the pinned `arg`s distinct |
| `Contacts.UnpinKeepsArgsDistinct` | src/index.tsx:284 | unpinning keeps distinct `arg`s distinct |
| `Contacts.UnpinRemovesOne` | src/index.tsx:284 | in a list with distinct `arg`s, unpinning a pinned contact removes exactly one entry |
| `Effects.StyleOf` | src/index.tsx:60-73 | the AI search announcement is the only success toast; the AI, launch and chat failures (also src/index.tsx:121-125 and src/components/searchListltem.tsx:25-29) are failure toasts |
| `Effects.ToastTitle` | src/index.tsx:60-73 | the toast titles, as written in the code (also src/index.tsx:121-125 and src/components/searchListltem.tsx:25-29); a literal table |
| `Effects.ToastMessage` | src/index.tsx:60-73 | the toast messages: the stringified error for a rejection, `Search: "k"` for the AI search, the fixed text for the launch failure; a literal table |
| `Effects.AlertTitle` | src/index.tsx:165-212 | "Environment not ready" and "Error checking request"; a literal table |
| `Effects.AlertMessage` | src/index.tsx:171-201 | the message of the requirement alert, or the outer `catch` message around the error; a literal table |
| `Requirements.Message` | src/index.tsx:134-162 | the five values `requirementsMessage` is set to; a literal table |
| `Environment.Decides` | src/index.tsx:134-162 | a consulted check decides nothing exactly when it answers yes, and otherwise decides a verdict that is not ready |
| `Environment.Cascade` | src/index.tsx:134-163 | the reference walk over the ordered checks; specified by `Environment.ReadyIffAllPass` and `Environment.FirstFailureDecides` |
| `Environment.Evaluate` | src/index.tsx:131-163 | the verdict of the reference walk over the four checks in order; specified by the same lemmas |
| `Environment.Assess` | src/index.tsx:131-163 | the if/else chain gives the same verdict and consults the same checks as the reference walk over the ordered checks |
| `Environment.ReadyIffAllPass` | src/index.tsx:134-191 | the environment ends ready exactly when all four checks answer yes, so a thrown service check is not ready |
| `Environment.FirstFailureDecides` | src/index.tsx:134-163 | the first check, in the order installed, running, tweak installed, service running, that does not answer yes decides the verdict, and only the checks up to it are consulted |
| `Environment.LaterChecksIgnored` | src/index.tsx:134-163 | environments that agree up to the first failing check get the same verdict and consult the same checks |
| `Environment.ServiceThrowIsNotReady` | src/index.tsx:152-162 | a thrown service check yields "Checking WeChat service failed…" and not ready |
| `Environment.SynchronousThrowReachesOuterCatch` | src/index.tsx:193-201 | a synchronous check that throws, once reached, ends in the outer `catch` with its error |
| `Environment.OpenManagerEffects` | src/index.tsx:111-127 | opening the manager launches the command first, and shows one failure toast exactly when the launch fails |
| `Environment.AlertFor` | src/index.tsx:165-208 | the alert of each verdict that is not ready; specified by `Environment.VerdictEffectsShape` |
| `Environment.VerdictEffects` | src/index.tsx:165-212 | the calls made once the verdict is known; specified by `Environment.VerdictEffectsShape` |
| `Environment.VerdictEffectsShape` | src/index.tsx:165-212 | no call when ready; otherwise the alert for the verdict comes first, and the manager is launched exactly when the user confirms |
| `Environment.ScreenOf` | src/index.tsx:225-258 | exactly one screen: loading iff initializing, not-ready iff not initializing and not ready, the list otherwise |
| `Environment.ScreenAfterChecks` | src/index.tsx:191-196 | after the checks, the screen is never loading, and it is the contact list exactly when all checks pass |
| `AiSearch.IsAiQuery` | src/index.tsx:263-267 | the three `includes` tests on the lower-cased text; specified by `AiSearch.FindWordSubsumed` and `AiSearch.ClassifierIgnoresCase` |
| `AiSearch.RouteOf` | src/index.tsx:263-271 | where the text goes; specified by `AiSearch.RoutingByKeyword` |
| `AiSearch.FindWordSubsumed` | src/index.tsx:263-267 | the "查找" test is subsumed by the "找" test |
| `AiSearch.ClassifierIgnoresCase` | src/index.tsx:263-267 | lower-casing the text never changes the routing |
| `AiSearch.RoutingByKeyword` | src/index.tsx:263-271 | text goes to the AI path exactly when it contains "搜索" or "找", else to search, and is passed on unchanged |
| `AiSearch.SearchKeyword` | src/index.tsx:56-57 | the trimmed answer when it passes the guard; specified by `AiSearch.KeywordGuard` |
| `AiSearch.KeywordGuard` | src/index.tsx:56-57 | the guard rejects exactly the blank answers and the marker surrounded by white space; a kept keyword is non-empty, not the marker, and is the trimmed slice of the answer |
| `AiSearch.PromptRefusalIsSearched` | src/index.tsx:47-57 | both answers the prompt asks for, "不支持的搜索内容" and "请输入和联系人相关的问题", pass the guard and are searched for |
| `AiSearch.ReplyEffects` | src/index.tsx:56-73 | once `AI.ask` settles, no further AI request is made, and one failure toast is shown exactly when it rejected |
| `AiSearch.ReplySearches` | src/index.tsx:56-59 | once `AI.ask` settles, `search(k)` is called exactly when the AI answered and the guard kept `k` |
| `AiSearch.ProcessEffects` | src/index.tsx:41-76 | empty text makes no call; otherwise the AI is asked first, and one failure toast is shown exactly when the request fails |
| `AiSearch.SearchIffKeyword` | src/index.tsx:56-59 | `search(k)` is called exactly when the text is non-empty, the AI answered, and the guard kept `k` |
| `AiSearch.EffectRun` | src/index.tsx:34-38 | the effect processes the query only when it is non-empty, the environment is ready and no request is in flight; afterwards `aiProcessing` is false and `aiQuery` unchanged |
| `AiSearch.ProcessEffectsAskOnce` | src/index.tsx:41-54 | processing non-empty text makes exactly one AI request |
| `AiSearch.Rounds` | src/index.tsx:34-38 | successive runs of the effect, each completed request re-running it; specified by `AiSearch.AsWrittenAsksEveryRound` and `AiSearch.ConsumingAsksOnce` |
| `AiSearch.AsWrittenAsksEveryRound` | src/index.tsx:34-38 | as written, a triggered effect asks the AI again on every re-run: one request per completed request |
| `AiSearch.EffectRunConsuming` | src/index.tsx:34-38 | the corrected effect clears the query when it processes it |
| `AiSearch.ConsumingAsksOnce` | src/index.tsx:34-38 | with the query consumed, a triggered effect asks the AI exactly once however often it re-runs |
| `Sections.Unsuppressed` | src/index.tsx:297-301 | the suppressed section keeps its source order, has no pinned `arg`, keeps every unpinned entry, and is shorter than its source by exactly the number of entries with a pinned `arg`, so every unpinned entry is rendered as often as it occurs |
| `Sections.Display` | src/index.tsx:276-343 | the three sections rendered; specified by `Sections.DisplaySections` |
| `Sections.DisplaySections` | src/index.tsx:276-343 | Pinned is shown iff something is pinned; Recent iff recents exist and the search text is ""; Recent and Contacts omit pinned `arg`s, are order-preserving subsequences that keep every unpinned entry, and lose exactly the entries with a pinned `arg` |
| `Sections.NothingPinnedNothingSuppressed` | src/index.tsx:322-326 | with nothing pinned, the Contacts section lists every result |
| `Sections.OfferedPinKeepsArgsDistinct` | src/index.tsx:298-334 | pinning any entry offered in the Recent or Contacts section keeps the pinned `arg`s distinct |
| `Sections.PinThenUnpinRestoresDisplay` | src/index.tsx:276-343 | pinning an offered entry and then unpinning it gives back the same rendered list |
| `Sections.PinnedContactLeavesOtherSections` | src/index.tsx:321-326 | a pinned contact appears in neither the Recent nor the Contacts section |
| `ListItem.FirstNonEmpty` | src/components/searchListltem.tsx:33 | a chain of `||` over strings gives the first non-empty candidate, or "" when all are empty |
| `ListItem.DisplayTitle` | src/components/searchListltem.tsx:33 | the row title; specified by `ListItem.DisplayTitleFallback` |
| `ListItem.DisplayTitleFallback` | src/components/searchListltem.tsx:33 | the title is the first non-empty of title, subtitle and arg; it is one of the three and is non-empty when `arg` is |
| `ListItem.JoinPath` | src/components/searchListltem.tsx:16 | the joined path starts with the directory, ends with the file name, and has a separator between them; an empty directory gives the file name |
| `ListItem.AvatarPath` | src/components/searchListltem.tsx:34 | the row avatar; specified by `ListItem.AvatarFallback` |
| `ListItem.AvatarFallback` | src/components/searchListltem.tsx:16-34 | the avatar is `icon.path` if non-empty, else a path that starts with the assets directory and ends with `avatar.png`; it is never empty |
| `ListItem.PinActionFor` | src/components/searchListltem.tsx:64-69 | the pin toggle's title and icon; specified by `ListItem.RowLabels` |
| `ListItem.Row` | src/components/searchListltem.tsx:36-71 | what a row renders; specified by `ListItem.RowLabels` |
| `ListItem.RowLabels` | src/components/searchListltem.tsx:40-66 | the accessory text is `arg`; the pin icon is there iff pinned; the pin action is "取消置顶联系人"/PinDisabled when pinned and "置顶联系人"/Pin otherwise |
| `ListItem.FirstRejected` | src/components/searchListltem.tsx:19-23 | the first rejected step: every earlier step is done |
| `ListItem.RunUntilRejectedShape` | src/components/searchListltem.tsx:19-30 | awaited calls run in order up to and including the first rejected one, then one failure toast; with no rejection all run and no toast |
| `ListItem.StartWeChat` | src/components/searchListltem.tsx:18-31 | `startChat` is always called first and at least one more call follows; the full order is `ListItem.StartWeChatOrder` |
| `ListItem.StartWeChatOrder` | src/components/searchListltem.tsx:18-31 | `startChat`, then `addRecentContact`, then `closeMainWindow`; a rejection skips the later calls and shows exactly one failure toast |
| `Launcher.Command.constructor` | src/index.tsx:21-26 | the initial state: initializing, not ready, nothing pinned, no AI query, and the loading screen |
| `Launcher.Command.CheckRequirements` | src/index.tsx:129-214 | initialization ends on every path; ready iff all checks pass; the screen is the list iff ready; the alert and manager calls follow the verdict; other state unchanged |
| `Launcher.Command.LoadPinnedContacts` | src/index.tsx:216-223 | a loaded list replaces the pinned list; a failed load leaves it unchanged |
| `Launcher.Command.OnSearchTextChange` | src/index.tsx:261-272 | exactly one of: `aiQuery` set to the text, or `search(text)` called |
| `Launcher.Command.ProcessAiQuery` | src/index.tsx:41-77 | the calls are those of `ProcessEffects`; for non-empty text `aiProcessing` ends false on success and on failure |
| `Launcher.Command.RunAiEffect` | src/index.tsx:34-38 | the state and the calls follow `EffectRun` |
| `Launcher.SettleReply` | src/index.tsx:56-73 | after `AI.ask` settles no further request is made; one failure toast exactly when it rejected; `search(k)` exactly when it answered and the guard kept `k` |
| `Launcher.Command.UnpinContact` | src/index.tsx:283-287 | the pinned list becomes the filtered list, which no longer holds the contact's `arg` and keeps `arg`s distinct; the new list is stored |
| `Launcher.Command.PinContact` | src/index.tsx:308-312 | the contact is appended; for a contact not yet pinned, `arg`s stay distinct and unpinning restores the old list; the new list is stored |
| `Launcher.PinThenUnpinContact` | src/index.tsx:283-312 | on the component, pinning a contact that is not pinned and then unpinning it gives back the pinned list, and stores the appended list and then the old one; the other fields are unchanged |
| `Launcher.PinRoundTripSession` | src/index.tsx:321-343 | a ready session that loads any stored pins, pins any contact of the Contacts section for any search text and then unpins it renders the same list as before; it stores the list with the contact appended, then the loaded list |

## Findings

| source | as written | input that shows it | evidently intended | confidence | as-written member | corrected member |
|---|---|---|---|---|---|---|
| src/index.tsx:34-38 | The effect depends on `[aiQuery, environmentReady, aiProcessing]`. `processAiQuery` sets `aiProcessing` to true and then back to false, and leaves `aiQuery` as it was. Setting it back to false re-runs the effect, and its condition holds again. | Environment ready; the user types "找张三". Every completed AI request starts another one for the same text, without end. | One AI request per query the user types. | medium, not executed | `AiSearch.AsWrittenAsksEveryRound` | `AiSearch.ConsumingAsksOnce` |

`Launcher.Command.RunAiEffect` is the code as written. `AiSearch.EffectRunConsuming`
is the corrected effect: it clears `aiQuery` when it takes the query.
`AiSearch.ConsumingAsksOnce` proves that the corrected effect asks once.

## Left out

- `src/tools/wechatAI.tsx`: one AI call over all contact titles, plus logging. It has no decision logic.
- `generateAiMessage` (src/index.tsx:80-109): a straight sequence of host calls (toast, `AI.ask`, `Clipboard.copy`, toast) with no decision.
- The "Open WeChatTweak Manager" action on the not-ready screen, the copy-to-clipboard, clear-history and feature-request actions: each is a single host call. `openManageTweak` itself is modelled by `Environment.OpenManagerEffects`.
- The `WeChatManager` checks, `wechatService.startChat` and `storageService`: their code is not part of this model. Their answers and outcomes are parameters, and their writes are trace entries.
- Ranking, pinyin matching and the recency cap in `useSearch`, `storageService` and `contactLoader`: not part of this model. The search results and recent contacts are input sequences, and `search(text)` is a trace entry.
- `confirmAlert` is modelled as returning the user's choice and never failing. If it threw inside the not-ready branch, the outer `catch` would show a second alert. That path is not modelled.
- `showToast` is modelled as never failing. A rejected success toast in `processAiQuery` would add a failure toast. That path is not modelled.
- React state batching, effect scheduling and the `throttle` of the search bar. The async interleaving of keystrokes with an in-flight request is also out. Each handler runs to completion as one step. `Rounds` in `AiSearch` models only the re-runs of the AI effect.
- `isLoading` and the section subtitles, which count all items, suppressed ones included. JSX layout, keyboard shortcuts and icons other than the pin icon are also out.
- `Text.AsciiLower`: `toLowerCase` is modelled on ASCII letters only. The routing keywords contain no letters, so full Unicode case mapping would not change the routing, as `AiSearch.ClassifierIgnoresCase` shows for ASCII.
- `ListItem.JoinPath`: models `path.join` for a directory and a plain file name. It does not normalise `.`, `..` or repeated separators.
- `Contacts.SearchResult`: an absent title, subtitle or icon path is modelled as the empty string. JavaScript's `||` treats both as false.
- `Environment.AlertFor`: the outer `catch` message holds the stringified error. The model takes that string as given, as `Raised(error)`.
