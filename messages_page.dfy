/** The Messages page: the conversation list narrowed to one platform, and
    the guard that keeps a blank message from being sent. */
module MessagesPage {
  import opened JsValues
  import opened Text
  import opened Seqs

  /** The fields of a conversation the page filters on. */
  datatype Conversation = Conversation(name: string, platform: string)

  predicate OnPlatform(c: Conversation, selectedPlatform: string) {
    selectedPlatform == "all" || c.platform == selectedPlatform
  }

  /** `filteredConversations`: every conversation under "all", otherwise those
      of the selected platform; none while the list has not arrived. */
  function FilteredConversations(conversations: Option<seq<Conversation>>, selectedPlatform: string)
    : (r: seq<Conversation>)
    ensures conversations.None? ==> r == []
    ensures conversations.Some? ==> |r| <= |conversations.value|
  {
    match conversations
    case None => []
    case Some(cs) => Filter(cs, (c: Conversation) => OnPlatform(c, selectedPlatform))
  }

  /** Under "all" the list is shown unchanged. */
  lemma AllPlatformsShowsAll(cs: seq<Conversation>)
    ensures FilteredConversations(Some(cs), "all") == cs
  {
    FilterAll(cs, (c: Conversation) => OnPlatform(c, "all"));
  }

  /** Under any other choice the list keeps its order, a conversation is
      shown exactly when its platform is the one selected, and each shown
      conversation appears as often as in the full list. */
  lemma OnePlatformKeepsMatches(cs: seq<Conversation>, selectedPlatform: string)
    requires selectedPlatform != "all"
    ensures IsSubsequence(FilteredConversations(Some(cs), selectedPlatform), cs)
    ensures forall c ::
      (c in FilteredConversations(Some(cs), selectedPlatform) <==> c in cs && c.platform == selectedPlatform)
    ensures forall c: Conversation :: c.platform == selectedPlatform ==>
      multiset(FilteredConversations(Some(cs), selectedPlatform))[c] == multiset(cs)[c]
  {
    var keep := (c: Conversation) => OnPlatform(c, selectedPlatform);
    FilterIsSubsequence(cs, keep);
    forall c
      ensures c in FilteredConversations(Some(cs), selectedPlatform) <==> c in cs && c.platform == selectedPlatform
      ensures c.platform == selectedPlatform ==>
        multiset(FilteredConversations(Some(cs), selectedPlatform))[c] == multiset(cs)[c]
    {
      FilterMembers(cs, keep, c);
      FilterCounts(cs, keep, c);
    }
  }

  /** `newMessage.trim()` is truthy: the draft holds something besides white space. */
  predicate HasText(draft: string) {
    Trim(draft) != ""
  }

  /** Submitting the form: the draft, exactly as typed, is sent when it
      holds something besides white space, and nothing is sent otherwise. */
  function SendOnSubmit(draft: string): (sent: Option<string>)
    ensures sent.Some? ==> sent.value == draft
  {
    if HasText(draft) then Some(draft) else None
  }

  /** The send button is disabled while a send is pending or while the
      draft is blank. */
  predicate SendDisabled(pending: bool, draft: string) {
    pending || !HasText(draft)
  }

  /** A draft is sent exactly when it is not all white space. */
  lemma SendsUnlessBlank(draft: string)
    ensures SendOnSubmit(draft).Some? <==> !AllSpace(draft)
  {
    TrimEmptyIff(draft);
  }

  /** The button is enabled exactly when no send is pending and submitting
      would send the draft; it is disabled for every all-white-space draft. */
  lemma EnabledMeansSent(pending: bool, draft: string)
    ensures !SendDisabled(pending, draft) <==> !pending && SendOnSubmit(draft) == Some(draft)
    ensures AllSpace(draft) ==> SendDisabled(pending, draft)
  {
    TrimEmptyIff(draft);
  }
}
