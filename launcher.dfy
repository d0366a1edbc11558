/**
 * The `Command` component of the launcher: the state it keeps (initializing
 * and ready flags, the pinned list, the AI query and whether a request is in
 * flight) and the handlers that change it, each recording the host calls it
 * makes in `effects`.
 */
module Launcher {
  import opened Wrappers
  import opened Text
  import opened Contacts
  import opened Effects
  import opened Environment
  import opened AiSearch
  import opened Sections

  /** What `storageService.getPinnedContacts` gives back: the stored list, or a rejection. */
  datatype Loaded = Loaded(contacts: seq<SearchResult>) | LoadFailed

  class Command {
    var isInitializing: bool
    var environmentReady: bool
    var pinnedContacts: seq<SearchResult>
    var aiProcessing: bool
    var aiQuery: string
    /** The host calls made so far, oldest first. */
    var effects: seq<Effect>

    /** The initial `useState` values. */
    constructor ()
      ensures isInitializing && !environmentReady && pinnedContacts == []
      ensures !aiProcessing && aiQuery == "" && effects == []
      ensures CurrentScreen() == Loading
    {
      isInitializing := true;
      environmentReady := false;
      pinnedContacts := [];
      aiProcessing := false;
      aiQuery := "";
      effects := [];
    }

    /** The screen the component renders in its current state. */
    function CurrentScreen(): Screen
      reads this
    {
      ScreenOf(isInitializing, environmentReady)
    }

    /** The contact list rendered for the search hook's recent contacts, search text and results. */
    function CurrentDisplay(recents: seq<SearchResult>, searchText: string, items: seq<SearchResult>): DisplayModel
      reads this
    {
      Display(pinnedContacts, recents, searchText, items)
    }

    /**
     * `checkRequirements`: on every path initialization ends; the environment
     * is ready exactly when all four checks answer yes, and otherwise one alert
     * is shown, followed by opening the manager if the user confirms it.
     * `confirmed` is the user's answer to the alert and `launch` the outcome of
     * launching the manager command.
     */
    method CheckRequirements(p: Probes, confirmed: bool, launch: Step)
      modifies this
      ensures !isInitializing
      ensures environmentReady <==> AllChecksPass(p)
      ensures CurrentScreen() == (if environmentReady then ContactList else EnvironmentNotReady)
      ensures effects == old(effects) + VerdictEffects(Evaluate(p), confirmed, launch)
      ensures pinnedContacts == old(pinnedContacts) && aiProcessing == old(aiProcessing) && aiQuery == old(aiQuery)
    {
      var verdict, _ := Assess(p);
      ReadyIffAllPass(p);
      if verdict != Ready {
        isInitializing := false;
        environmentReady := false;
        var alert := AlertFor(verdict);
        var afterAlert := if confirmed then OpenManagerEffects(launch) else [];
        effects := effects + ([alert] + afterAlert);
        return;
      }
      environmentReady := true;
      isInitializing := false;
    }

    /** `loadPinnedContacts`: a stored list replaces the pinned list; a failed load leaves it as it was. */
    method LoadPinnedContacts(stored: Loaded)
      modifies this
      ensures pinnedContacts == if stored.Loaded? then stored.contacts else old(pinnedContacts)
      ensures isInitializing == old(isInitializing) && environmentReady == old(environmentReady)
      ensures aiProcessing == old(aiProcessing) && aiQuery == old(aiQuery) && effects == old(effects)
    {
      if stored.Loaded? {
        pinnedContacts := stored.contacts;
      }
    }

    /**
     * `onSearchTextChange`: text holding "搜索" or "找" becomes the AI query,
     * any other text is searched for; exactly one of the two happens.
     */
    method OnSearchTextChange(text: string)
      modifies this
      ensures RouteOf(text) == ToAi(text) ==> aiQuery == text && effects == old(effects)
      ensures RouteOf(text) == ToSearch(text) ==> aiQuery == old(aiQuery) && effects == old(effects) + [Search(text)]
      ensures RouteOf(text).ToAi? <==> Includes(text, SearchWord) || Includes(text, SeekWord)
      ensures isInitializing == old(isInitializing) && environmentReady == old(environmentReady)
      ensures pinnedContacts == old(pinnedContacts) && aiProcessing == old(aiProcessing)
    {
      RoutingByKeyword(text);
      var lowered := AsciiLower(text);
      if Includes(lowered, SearchWord) || Includes(lowered, FindWord) || Includes(lowered, SeekWord) {
        aiQuery := text;
      } else {
        effects := effects + [Search(text)];
      }
    }

    /**
     * `processAiQuery(text)`, awaiting the AI's `reply`: nothing for empty
     * text; otherwise one request, a search for the guarded keyword or a
     * failure toast, and `aiProcessing` false afterwards on both paths.
     */
    method ProcessAiQuery(text: string, reply: AiReply)
      modifies this
      ensures effects == old(effects) + ProcessEffects(text, reply)
      ensures aiProcessing == (text == "" && old(aiProcessing))
      ensures isInitializing == old(isInitializing) && environmentReady == old(environmentReady)
      ensures pinnedContacts == old(pinnedContacts) && aiQuery == old(aiQuery)
    {
      if text == "" {
        return;
      }
      aiProcessing := true;
      var settled := SettleReply(reply);
      effects := effects + ([AskAi(text)] + settled);
      aiProcessing := false;
    }

    /** The effect on `[aiQuery, environmentReady, aiProcessing]`: process the query when the trigger holds. */
    method RunAiEffect(reply: AiReply)
      modifies this
      ensures var r := EffectRun(AiState(old(aiQuery), old(environmentReady), old(aiProcessing)), reply);
        && AiState(aiQuery, environmentReady, aiProcessing) == r.0
        && effects == old(effects) + r.1
      ensures isInitializing == old(isInitializing) && pinnedContacts == old(pinnedContacts)
    {
      if aiQuery != "" && environmentReady && !aiProcessing {
        ProcessAiQuery(aiQuery, reply);
      }
    }

    /** The Pinned section's toggle: drop every entry keyed by the contact's `arg`, then store the new list. */
    method UnpinContact(contact: SearchResult)
      modifies this
      ensures pinnedContacts == WithoutArg(old(pinnedContacts), contact.arg)
      ensures !HasArg(pinnedContacts, contact.arg)
      ensures NoDuplicateArgs(old(pinnedContacts)) ==> NoDuplicateArgs(pinnedContacts)
      ensures effects == old(effects) + [StorePinned(pinnedContacts)]
      ensures isInitializing == old(isInitializing) && environmentReady == old(environmentReady)
      ensures aiProcessing == old(aiProcessing) && aiQuery == old(aiQuery)
    {
      if NoDuplicateArgs(pinnedContacts) {
        UnpinKeepsArgsDistinct(pinnedContacts, contact.arg);
      }
      var newPinnedContacts := WithoutArg(pinnedContacts, contact.arg);
      pinnedContacts := newPinnedContacts;
      effects := effects + [StorePinned(newPinnedContacts)];
    }

    /** The Recent and Contacts sections' toggle: append the contact, then store the new list. */
    method PinContact(contact: SearchResult)
      modifies this
      ensures pinnedContacts == WithPinned(old(pinnedContacts), contact)
      ensures NoDuplicateArgs(old(pinnedContacts)) && !HasArg(old(pinnedContacts), contact.arg) ==>
        NoDuplicateArgs(pinnedContacts) && WithoutArg(pinnedContacts, contact.arg) == old(pinnedContacts)
      ensures effects == old(effects) + [StorePinned(pinnedContacts)]
      ensures isInitializing == old(isInitializing) && environmentReady == old(environmentReady)
      ensures aiProcessing == old(aiProcessing) && aiQuery == old(aiQuery)
    {
      if NoDuplicateArgs(pinnedContacts) && !HasArg(pinnedContacts, contact.arg) {
        PinKeepsArgsDistinct(pinnedContacts, contact);
        PinThenUnpin(pinnedContacts, contact);
      }
      var newPinnedContacts := WithPinned(pinnedContacts, contact);
      pinnedContacts := newPinnedContacts;
      effects := effects + [StorePinned(newPinnedContacts)];
    }
  }

  /**
   * The `try`/`catch` around the awaited `AI.ask` in `processAiQuery`: the
   * trimmed answer is searched for unless it is empty or the no-intent
   * marker, a rejection shows a failure toast, and no further request is made.
   * This is the statement-level form the handler runs; `ReplyEffects` is the
   * function the traces of `ProcessEffects` and `EffectRun` are built from,
   * and the last clause ties the two together.
   */
  method SettleReply(reply: AiReply) returns (settled: seq<Effect>)
    ensures forall j :: 0 <= j < |settled| ==> !settled[j].AskAi?
    ensures FailureToasts(settled) == (if reply.AskFailed? then 1 else 0)
    ensures forall k :: Search(k) in settled <==> reply.Answered? && SearchKeyword(reply.text) == Some(k)
    ensures settled == ReplyEffects(reply)
  {
    settled := [];
    match reply {
      case AskFailed(e) =>
        settled := [ShowToast(AiFailed(e))];
      case Answered(response) =>
        var searchKeyword := Trim(response);
        if searchKeyword != "" && searchKeyword != NoSearchIntent {
          settled := [Search(searchKeyword), ShowToast(AiSearched(searchKeyword))];
        }
    }
    assert settled == ReplyEffects(reply);
    forall k ensures Search(k) in settled <==> reply.Answered? && SearchKeyword(reply.text) == Some(k) {
      ReplySearches(reply, k);
    }
  }

  /**
   * The user pins a contact that is not pinned yet and then unpins it: the
   * pinned list is back where it was, and both new lists have been stored.
   */
  method PinThenUnpinContact(command: Command, c: SearchResult)
    requires !HasArg(command.pinnedContacts, c.arg)
    modifies command
    ensures command.pinnedContacts == old(command.pinnedContacts)
    ensures command.effects ==
      old(command.effects) + [StorePinned(WithPinned(old(command.pinnedContacts), c))] + [StorePinned(old(command.pinnedContacts))]
    ensures command.isInitializing == old(command.isInitializing)
    ensures command.environmentReady == old(command.environmentReady)
    ensures command.aiProcessing == old(command.aiProcessing) && command.aiQuery == old(command.aiQuery)
  {
    var pins := command.pinnedContacts;
    PinThenUnpin(pins, c);
    command.PinContact(c);
    command.UnpinContact(c);
  }

  /** The pinned list `loadPinnedContacts` leaves after starting from `[]`. */
  function LoadedPins(stored: Loaded): seq<SearchResult> {
    if stored.Loaded? then stored.contacts else []
  }

  /**
   * A session that starts, passes its checks, loads the stored pins, pins the
   * contact `c` rendered `k`-th in the Contacts section for `searchText`, and then
   * unpins it: it renders the same list as before, and the two writes store
   * the list with the contact appended and then the loaded list again.
   */
  method PinRoundTripSession(p: Probes, stored: Loaded, recents: seq<SearchResult>, searchText: string,
                             items: seq<SearchResult>, k: nat)
    returns (c: SearchResult, before: DisplayModel, after: DisplayModel, writes: seq<Effect>)
    requires AllChecksPass(p)
    requires k < |Unsuppressed(LoadedPins(stored), items)|
    ensures before == after
    ensures before == Display(LoadedPins(stored), recents, searchText, items)
    ensures c == Unsuppressed(LoadedPins(stored), items)[k]
    ensures writes == [StorePinned(WithPinned(LoadedPins(stored), c)), StorePinned(LoadedPins(stored))]
  {
    var pins := LoadedPins(stored);
    c := Unsuppressed(pins, items)[k];
    assert !HasArg(pins, c.arg);
    ReadyIffAllPass(p);
    var command := new Command();
    command.CheckRequirements(p, false, Done);
    assert command.effects == [];
    command.LoadPinnedContacts(stored);
    assert command.pinnedContacts == pins;
    before := command.CurrentDisplay(recents, searchText, items);
    PinThenUnpinContact(command, c);
    after := command.CurrentDisplay(recents, searchText, items);
    writes := command.effects;
    var pinWrite, unpinWrite := StorePinned(WithPinned(pins, c)), StorePinned(pins);
    assert writes == [] + [pinWrite] + [unpinWrite];
    assert [] + [pinWrite] + [unpinWrite] == [pinWrite, unpinWrite];
  }
}
