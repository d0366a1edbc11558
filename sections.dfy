/**
 * The three-section display model of the contact list: the pinned
 * contacts, the recent contacts (only while the search text is empty) and
 * the search results, with pinned contacts suppressed from the latter two.
 */
module Sections {
  import opened Contacts

  /** A section that is rendered with its entries in order, or not rendered at all. */
  datatype Section = Hidden | Shown(entries: seq<SearchResult>)

  /** The rendered list. The Contacts section is always rendered. */
  datatype DisplayModel = DisplayModel(pinnedSection: Section, recentSection: Section, contacts: seq<SearchResult>)

  /** The number of entries whose `arg` is pinned. */
  function PinnedEntries(pinned: seq<SearchResult>, entries: seq<SearchResult>): nat
    decreases |entries|
  {
    if entries == [] then 0
    else (if HasArg(pinned, entries[0].arg) then 1 else 0) + PinnedEntries(pinned, entries[1..])
  }

  /**
   * The `map` that returns `null` for every entry whose `arg` is pinned: the
   * others are rendered in their order, each as often as it occurs.
   */
  function Unsuppressed(pinned: seq<SearchResult>, entries: seq<SearchResult>): (r: seq<SearchResult>)
    ensures IsSubsequence(r, entries)
    ensures |r| == |entries| - PinnedEntries(pinned, entries)
    ensures forall k :: 0 <= k < |r| ==> !HasArg(pinned, r[k].arg)
    ensures forall k :: 0 <= k < |entries| && !HasArg(pinned, entries[k].arg) ==> entries[k] in r
    decreases |entries|
  {
    if entries == [] then []
    else
      var rest := Unsuppressed(pinned, entries[1..]);
      assert forall k :: 1 <= k < |entries| ==> entries[k] == entries[1..][k - 1];
      if HasArg(pinned, entries[0].arg) then rest else [entries[0]] + rest
  }

  /** The list rendered for the pinned list, the recent contacts, the search text and the search hook's results. */
  function Display(pinned: seq<SearchResult>, recents: seq<SearchResult>, searchText: string,
                   items: seq<SearchResult>): DisplayModel
  {
    DisplayModel(
      if |pinned| > 0 then Shown(pinned) else Hidden,
      if |recents| > 0 && searchText == "" then Shown(Unsuppressed(pinned, recents)) else Hidden,
      Unsuppressed(pinned, items))
  }

  /**
   * The Pinned section is rendered exactly when something is pinned, and
   * lists the pinned contacts; the Recent section exactly when there are
   * recent contacts and the search text is empty (even if all of them are
   * pinned); and neither the Recent nor the Contacts entries include a pinned
   * `arg`, each keeping its source's order and every unpinned entry.
   */
  lemma DisplaySections(pinned: seq<SearchResult>, recents: seq<SearchResult>, searchText: string,
                        items: seq<SearchResult>)
    ensures var d := Display(pinned, recents, searchText, items);
      && (d.pinnedSection.Shown? <==> |pinned| > 0)
      && (d.pinnedSection.Shown? ==> d.pinnedSection.entries == pinned)
      && (d.recentSection.Shown? <==> |recents| > 0 && searchText == "")
      && (d.recentSection.Shown? ==>
            IsSubsequence(d.recentSection.entries, recents)
            && |d.recentSection.entries| == |recents| - PinnedEntries(pinned, recents)
            && (forall k :: 0 <= k < |d.recentSection.entries| ==> !HasArg(pinned, d.recentSection.entries[k].arg))
            && (forall k :: 0 <= k < |recents| && !HasArg(pinned, recents[k].arg) ==> recents[k] in d.recentSection.entries))
      && IsSubsequence(d.contacts, items)
      && |d.contacts| == |items| - PinnedEntries(pinned, items)
      && (forall k :: 0 <= k < |d.contacts| ==> !HasArg(pinned, d.contacts[k].arg))
      && (forall k :: 0 <= k < |items| && !HasArg(pinned, items[k].arg) ==> items[k] in d.contacts)
  {
  }

  /** Nothing is suppressed while nothing is pinned. */
  lemma {:induction false} NothingPinnedNothingSuppressed(entries: seq<SearchResult>)
    ensures Unsuppressed([], entries) == entries
    decreases |entries|
  {
    if entries != [] {
      NothingPinnedNothingSuppressed(entries[1..]);
    }
  }

  /** An entry rendered in the Recent or Contacts section is one the pin action may append without duplicating an `arg`. */
  lemma OfferedPinKeepsArgsDistinct(pinned: seq<SearchResult>, entries: seq<SearchResult>, k: nat)
    requires NoDuplicateArgs(pinned) && k < |Unsuppressed(pinned, entries)|
    ensures NoDuplicateArgs(WithPinned(pinned, Unsuppressed(pinned, entries)[k]))
  {
    PinKeepsArgsDistinct(pinned, Unsuppressed(pinned, entries)[k]);
  }

  /**
   * Pinning an entry rendered in the Recent or Contacts section and then
   * unpinning it from the Pinned section gives back the same rendered list.
   */
  lemma PinThenUnpinRestoresDisplay(pinned: seq<SearchResult>, recents: seq<SearchResult>, searchText: string,
                                    items: seq<SearchResult>, c: SearchResult)
    requires c in Unsuppressed(pinned, recents) || c in Unsuppressed(pinned, items)
    ensures var d := Display(pinned, recents, searchText, items);
      Display(WithoutArg(WithPinned(pinned, c), c.arg), recents, searchText, items) == d
  {
    assert !HasArg(pinned, c.arg);
    PinThenUnpin(pinned, c);
  }

  /** Once a contact is pinned it leaves the Recent and Contacts sections. */
  lemma PinnedContactLeavesOtherSections(pinned: seq<SearchResult>, recents: seq<SearchResult>, searchText: string,
                                         items: seq<SearchResult>, c: SearchResult)
    ensures var d := Display(WithPinned(pinned, c), recents, searchText, items);
      && c !in d.contacts
      && (d.recentSection.Shown? ==> c !in d.recentSection.entries)
  {
    var p := WithPinned(pinned, c);
    assert p[|pinned|] == c;
    assert HasArg(p, c.arg);
  }
}
