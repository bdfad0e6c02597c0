/**
 * The conversation-session state of the chat front-end (app.js): the
 * conversation list mirrored from the conversation store, the active
 * conversation, the parent -> children branch index, the message counter
 * and the user's preferences, with the store's answers passed in as
 * parameters.  Every request the front-end sends is appended to
 * `requests`, so "no request is issued" can be stated.
 */
module Session {
  import opened JsValues
  import Themes

  /** A conversation record as the conversation store returns it;
   *  `Undefined` stands for a missing field. */
  datatype Conversation = Conversation(id: JsValue, title: JsValue, parentId: JsValue)

  /** The four persisted preferences, as saved to and read back from local
   *  storage and the settings endpoint. */
  datatype Settings = Settings(theme: JsValue, voiceOutput: JsValue, soundEffects: JsValue, autoScroll: JsValue)

  /** The outcome of GET /api/settings: a failed or non-ok request, an ok
   *  answer whose `values` is missing or falsy, or the values themselves. */
  datatype SettingsResponse = Failed | NoValues | Values(values: Settings)

  /** A request sent to the backend. */
  datatype Request =
    | ListConversations
    | CreateConversation(title: JsValue, parentId: JsValue)
    | PostMessage(conversationId: JsValue, sender: string, content: JsValue, parentMessageId: JsValue)
    | PostTranscript(conversationId: JsValue, speaker: string, content: JsValue)
    | ExportConversation(conversationId: JsValue)
    | ImportConversation(payload: JsValue)
    | GetSettings
    | PutSettings(values: Settings)

  /** A persistence call queued with `queueMicrotask` and not yet run. */
  datatype Job =
    | PersistMessage(sender: string, content: JsValue)
    | PersistTranscript(speaker: string, content: JsValue)

  /** The kind of toast an operation ends with. */
  datatype Toast = SuccessToast | ErrorToast

  const NewConversationTitle: JsValue := Str("New Conversation")

  // ---------------------------------------------------------------------
  // The branch index

  /** The branch index files `c` under `key`: its parent_id is truthy and
   *  converts to the property key `key`. */
  predicate FiledUnder(c: Conversation, key: string)
  {
    Truthy(c.parentId) && ToJsString(c.parentId) == key
  }

  /** The ids of the conversations of `cs` filed under `key`, in list order. */
  function ChildrenOf(cs: seq<Conversation>, key: string): seq<JsValue>
  {
    if cs == [] then []
    else ChildrenOf(cs[..|cs| - 1], key) + (if FiledUnder(cs[|cs| - 1], key) then [cs[|cs| - 1].id] else [])
  }

  /** The keys under which some conversation of `cs` is filed. */
  function ParentKeys(cs: seq<Conversation>): set<string>
  {
    set c | c in cs && Truthy(c.parentId) :: ToJsString(c.parentId)
  }

  /** The index the list refresh derives: each parent key maps to the ids of
   *  its children in list order; conversations without a truthy parent_id
   *  are filed nowhere. */
  function BranchIndex(cs: seq<Conversation>): map<string, seq<JsValue>>
  {
    map k | k in ParentKeys(cs) :: ChildrenOf(cs, k)
  }

  /** One step of the `reduce` callback: file `c` under its parent's key. */
  function FileConversation(branches: map<string, seq<JsValue>>, c: Conversation): (r: map<string, seq<JsValue>>)
    ensures !Truthy(c.parentId) ==> r == branches
    ensures Truthy(c.parentId) ==>
      var key := ToJsString(c.parentId);
      && r.Keys == branches.Keys + {key}
      && r[key] == (if key in branches then branches[key] else []) + [c.id]
      && forall k | k in branches && k != key :: r[k] == branches[k]
  {
    if !Truthy(c.parentId) then branches
    else
      var key := ToJsString(c.parentId);
      var siblings := if key in branches then branches[key] else [];
      branches[key := siblings + [c.id]]
  }

  /** A key has a non-empty child list exactly when some conversation is filed under it. */
  lemma {:induction false} ChildrenOfNonEmpty(cs: seq<Conversation>, key: string)
    ensures ChildrenOf(cs, key) != [] <==> key in ParentKeys(cs)
  {
    if cs != [] {
      var init, last := cs[..|cs| - 1], cs[|cs| - 1];
      ChildrenOfNonEmpty(init, key);
      assert cs == init + [last];
      assert ParentKeys(cs) == ParentKeys(init) + (if Truthy(last.parentId) then {ToJsString(last.parentId)} else {});
    }
  }

  /** Filing one more conversation extends the index of the shorter list. */
  lemma BranchIndexSnoc(cs: seq<Conversation>, c: Conversation)
    ensures BranchIndex(cs + [c]) == FileConversation(BranchIndex(cs), c)
  {
    var ext := cs + [c];
    var before, after := BranchIndex(cs), BranchIndex(ext);
    var filed := FileConversation(before, c);
    assert ext[..|ext| - 1] == cs;
    assert ParentKeys(ext) == ParentKeys(cs) + (if Truthy(c.parentId) then {ToJsString(c.parentId)} else {});
    assert after.Keys == filed.Keys;
    forall k | k in after.Keys
      ensures after[k] == filed[k]
    {
      assert after[k] == ChildrenOf(cs, k) + (if FiledUnder(c, k) then [c.id] else []);
      if FiledUnder(c, k) {
        ChildrenOfNonEmpty(cs, k);
        assert k !in before ==> ChildrenOf(cs, k) == [];
      }
    }
  }

  /** The `reduce` of refreshConversationList: walks the list once and
   *  pushes each child's id onto its parent's entry. */
  method BuildBranchIndex(cs: seq<Conversation>) returns (branches: map<string, seq<JsValue>>)
    ensures branches == BranchIndex(cs)
  {
    branches := map[];
    var i := 0;
    while i < |cs|
      invariant 0 <= i <= |cs|
      invariant branches == BranchIndex(cs[..i])
    {
      var convo := cs[i];
      branches := FileConversation(branches, convo);
      BranchIndexSnoc(cs[..i], convo);
      assert cs[..i + 1] == cs[..i] + [convo];
      i := i + 1;
    }
    assert cs[..i] == cs;
  }

  /** A child list holds `id` exactly when a conversation with that id is
   *  filed under the key. */
  lemma {:induction false} ChildrenOfHolds(cs: seq<Conversation>, key: string, id: JsValue)
    ensures id in ChildrenOf(cs, key) <==> exists i | 0 <= i < |cs| :: FiledUnder(cs[i], key) && cs[i].id == id
  {
    if cs != [] {
      var init := cs[..|cs| - 1];
      ChildrenOfHolds(init, key, id);
      if exists i | 0 <= i < |cs| :: FiledUnder(cs[i], key) && cs[i].id == id {
        var i :| 0 <= i < |cs| && FiledUnder(cs[i], key) && cs[i].id == id;
        if i < |init| {
          assert init[i] == cs[i];
        }
      }
      if exists i | 0 <= i < |init| :: FiledUnder(init[i], key) && init[i].id == id {
        var i :| 0 <= i < |init| && FiledUnder(init[i], key) && init[i].id == id;
        assert cs[i] == init[i];
      }
    }
  }

  /** Child lists keep list order: the children of a concatenation are the
   *  children of the first part followed by those of the second. */
  lemma {:induction false} ChildrenOfConcat(a: seq<Conversation>, b: seq<Conversation>, key: string)
    ensures ChildrenOf(a + b, key) == ChildrenOf(a, key) + ChildrenOf(b, key)
    decreases |b|
  {
    if b == [] {
      assert a + b == a;
    } else {
      var ab := a + b;
      assert ab[..|ab| - 1] == a + b[..|b| - 1];
      ChildrenOfConcat(a, b[..|b| - 1], key);
    }
  }

  /** A list in which no conversation has a truthy parent_id gives an empty index. */
  lemma RootsGiveEmptyIndex(cs: seq<Conversation>)
    requires forall i | 0 <= i < |cs| :: !Truthy(cs[i].parentId)
    ensures BranchIndex(cs) == map[]
  {
    assert ParentKeys(cs) == {};
  }

  /** A conversation without a truthy parent_id is filed nowhere: adding it
   *  to any list leaves the index unchanged. */
  lemma RootFiledNowhere(cs: seq<Conversation>, c: Conversation)
    requires !Truthy(c.parentId)
    ensures BranchIndex(cs + [c]) == BranchIndex(cs)
  {
    BranchIndexSnoc(cs, c);
  }

  /** The worked example: with conversations 1 (a root), 2 and 3 (both
   *  children of 1), the index maps key "1" to [2, 3] and nothing else. */
  lemma BranchIndexExample()
    ensures BranchIndex([Conversation(Num(1), Str("a"), Null),
                         Conversation(Num(2), Str("b"), Num(1)),
                         Conversation(Num(3), Str("c"), Num(1))])
            == map["1" := [Num(2), Num(3)]]
  {
    var cs := [Conversation(Num(1), Str("a"), Null),
               Conversation(Num(2), Str("b"), Num(1)),
               Conversation(Num(3), Str("c"), Num(1))];
    assert ToJsString(Num(1)) == "1";
    assert ParentKeys(cs) == {"1"};
    assert cs[..2] == [cs[0], cs[1]] && cs[..2][..1] == [cs[0]];
    assert ChildrenOf(cs[..1], "1") == [];
    assert ChildrenOf(cs[..2], "1") == [Num(2)];
    assert ChildrenOf(cs, "1") == [Num(2), Num(3)];
  }

  /** Property keys are strings, so a numeric parent_id 7 and a string
   *  parent_id "7" are filed under the same key. */
  lemma NumericAndStringParentsShareKey(id1: JsValue, id2: JsValue, title: JsValue)
    ensures BranchIndex([Conversation(id1, title, Num(7)), Conversation(id2, title, Str("7"))])
            == map["7" := [id1, id2]]
  {
    var cs := [Conversation(id1, title, Num(7)), Conversation(id2, title, Str("7"))];
    assert ToJsString(Num(7)) == "7";
    assert ParentKeys(cs) == {"7"};
    assert cs[..1] == [cs[0]] && cs[..1][..0] == [];
    assert ChildrenOf(cs[..1], "7") == [id1];
    assert ChildrenOf(cs, "7") == [id1, id2];
  }

  // ---------------------------------------------------------------------
  // Active conversation

  /** The active id after a successful refresh: the newest conversation's id
   *  is adopted only when no conversation is active and the list is not
   *  empty; a truthy active id is never replaced. */
  function AdoptedActive(active: JsValue, fetched: seq<Conversation>): (r: JsValue)
    ensures Truthy(active) ==> r == active
    ensures fetched == [] ==> r == active
    ensures !Truthy(active) && fetched != [] ==> r == fetched[0].id
  {
    if |fetched| > 0 && !Truthy(active) then fetched[0].id else active
  }

  /** The id that ensureActiveConversation resolves: the active id when it is
   *  truthy, otherwise the created conversation's id, or null when creation fails. */
  function EnsuredId(active: JsValue, created: Option<Conversation>): (r: JsValue)
    ensures Truthy(active) ==> r == active
    ensures !Truthy(active) && created.Some? ==> r == created.value.id
    ensures !Truthy(active) && created.None? ==> r == Null
  {
    if Truthy(active) then active else if created.Some? then created.value.id else Null
  }

  /** The requests ensureActiveConversation sends: none when a conversation
   *  is active, otherwise one creation request. */
  function CreationRequests(active: JsValue, parentId: JsValue): (r: seq<Request>)
    ensures Truthy(active) <==> r == []
    ensures |r| <= 1
  {
    if Truthy(active) then [] else [CreateConversation(NewConversationTitle, Or(parentId, Null))]
  }

  /** The list after ensureActiveConversation: the created record is put in
   *  front exactly when no conversation was active and creation succeeded;
   *  otherwise the list is as it was. */
  function ListAfterEnsure(active: JsValue, created: Option<Conversation>, cs: seq<Conversation>)
    : (r: seq<Conversation>)
    ensures |r| == |cs| + (if !Truthy(active) && created.Some? then 1 else 0)
    ensures r[|r| - |cs|..] == cs
    ensures |r| > |cs| ==> r[0] == created.value
  {
    if !Truthy(active) && created.Some? then [created.value] + cs else cs
  }

  /** Index of the first conversation whose id is strictly equal to `id`,
   *  or |cs| when there is none (`Array.prototype.find`). */
  function FirstIndexOf(cs: seq<Conversation>, id: JsValue): (r: nat)
    ensures r <= |cs|
    ensures forall j | 0 <= j < r :: cs[j].id != id
    ensures r < |cs| ==> cs[r].id == id
  {
    if cs == [] then 0
    else if cs[0].id == id then 0
    else 1 + FirstIndexOf(cs[1..], id)
  }

  /** The text of the conversation badge: the title of the first
   *  conversation with the active id, or "none". */
  function IndicatorText(cs: seq<Conversation>, active: JsValue): (r: string)
    ensures (forall j | 0 <= j < |cs| :: cs[j].id != active) ==> r == "Conversation: none"
    ensures forall i | 0 <= i < |cs| && cs[i].id == active && (forall j | 0 <= j < i :: cs[j].id != active) ::
      r == "Conversation: " + ToJsString(cs[i].title)
  {
    var i := FirstIndexOf(cs, active);
    if i < |cs| then "Conversation: " + ToJsString(cs[i].title) else "Conversation: none"
  }

  // ---------------------------------------------------------------------
  // Preferences

  /** Preferences that survive a save/load cycle unchanged: a truthy theme and
   *  every flag defined. */
  predicate WellFormed(s: Settings)
  {
    Truthy(s.theme) && s.voiceOutput != Undefined && s.soundEffects != Undefined && s.autoScroll != Undefined
  }

  /** The preferences loadSettings applies from a saved object: the theme
   *  defaults to 'dark' when falsy, each flag to true only when undefined. */
  function LocalDefaults(saved: Settings): (r: Settings)
    ensures WellFormed(r)
    ensures Truthy(saved.theme) ==> r.theme == saved.theme
    ensures !Truthy(saved.theme) ==> r.theme == Themes.Dark
    ensures saved.voiceOutput != Undefined ==> r.voiceOutput == saved.voiceOutput
    ensures saved.soundEffects != Undefined ==> r.soundEffects == saved.soundEffects
    ensures saved.autoScroll != Undefined ==> r.autoScroll == saved.autoScroll
    ensures saved.voiceOutput == Undefined ==> r.voiceOutput == Bool(true)
    ensures saved.soundEffects == Undefined ==> r.soundEffects == Bool(true)
    ensures saved.autoScroll == Undefined ==> r.autoScroll == Bool(true)
  {
    Settings(Or(saved.theme, Themes.Dark),
             DefinedOr(saved.voiceOutput, Bool(true)),
             DefinedOr(saved.soundEffects, Bool(true)),
             DefinedOr(saved.autoScroll, Bool(true)))
  }

  /** The backend merge: the backend's theme wins only when truthy, each
   *  backend flag only when defined; everything else keeps its current value. */
  function MergeBackend(current: Settings, values: Settings): (r: Settings)
    ensures Truthy(values.theme) ==> r.theme == values.theme
    ensures !Truthy(values.theme) ==> r.theme == current.theme
    ensures values.voiceOutput != Undefined ==> r.voiceOutput == values.voiceOutput
    ensures values.voiceOutput == Undefined ==> r.voiceOutput == current.voiceOutput
    ensures values.soundEffects != Undefined ==> r.soundEffects == values.soundEffects
    ensures values.soundEffects == Undefined ==> r.soundEffects == current.soundEffects
    ensures values.autoScroll != Undefined ==> r.autoScroll == values.autoScroll
    ensures values.autoScroll == Undefined ==> r.autoScroll == current.autoScroll
  {
    Settings(Or(values.theme, current.theme),
             DefinedOr(values.voiceOutput, current.voiceOutput),
             DefinedOr(values.soundEffects, current.soundEffects),
             DefinedOr(values.autoScroll, current.autoScroll))
  }

  /** loadBackendSettings on an answer: only an ok answer with values changes anything. */
  function ApplyResponse(current: Settings, response: SettingsResponse): (r: Settings)
    ensures !response.Values? ==> r == current
  {
    if response.Values? then MergeBackend(current, response.values) else current
  }

  /** Loading what was saved gives back the same preferences exactly when they
   *  were well formed. */
  lemma LocalDefaultsFixpoint(s: Settings)
    ensures LocalDefaults(s) == s <==> WellFormed(s)
  {
  }

  /** A backend answer that supplies nothing leaves the preferences as they are. */
  lemma MergeEmptyIsIdentity(current: Settings)
    ensures MergeBackend(current, Settings(Undefined, Undefined, Undefined, Undefined)) == current
  {
  }

  /** Merging two answers one after the other equals merging once with the
   *  later answer laid over the earlier: the last writer wins field by field. */
  lemma MergeLastWriterWins(current: Settings, first: Settings, second: Settings)
    ensures MergeBackend(MergeBackend(current, first), second)
            == MergeBackend(current, MergeBackend(first, second))
  {
  }

  /** The backend merge never breaks well-formed preferences. */
  lemma MergeKeepsWellFormed(current: Settings, values: Settings)
    requires WellFormed(current)
    ensures WellFormed(MergeBackend(current, values))
  {
  }

  /** The documented precedence case: a local theme 'light' and a backend
   *  answer {theme: 'dark', voiceOutput: false} load as 'dark' with voice
   *  output off and the other flags defaulted to true. */
  lemma LoadPrecedenceExample()
    ensures MergeBackend(LocalDefaults(Settings(Str("light"), Undefined, Undefined, Undefined)),
                         Settings(Str("dark"), Bool(false), Undefined, Undefined))
            == Settings(Str("dark"), Bool(false), Bool(true), Bool(true))
  {
  }

  // ---------------------------------------------------------------------
  // The session object

  class ChatSession {
    var conversations: seq<Conversation>
    var activeConversationId: JsValue
    var conversationBranches: map<string, seq<JsValue>>
    var messageCount: nat
    var currentTheme: JsValue
    var voiceOutput: JsValue
    var soundEffects: JsValue
    var autoScroll: JsValue
    /** The 'lambeck-ai-settings' local-storage entry; None when absent. */
    var storedSettings: Option<Settings>
    /** Every request sent to the backend, oldest first. */
    var requests: seq<Request>
    /** Persistence calls queued as microtasks, oldest first. */
    var pending: seq<Job>

    /** The list as of the last successful refresh, and the records created
     *  locally since then (newest first). */
    ghost var fetched: seq<Conversation>
    ghost var createdSince: seq<Conversation>

    /** Creating a conversation prepends it without rebuilding the index, so
     *  the index always describes the list of the last successful refresh. */
    ghost predicate Valid()
      reads this`conversations, this`conversationBranches, this`fetched, this`createdSince
    {
      conversations == createdSince + fetched && conversationBranches == BranchIndex(fetched)
    }

    /** The preferences snapshot that saveSettings writes. */
    function Preferences(): Settings
      reads this
    {
      Settings(currentTheme, voiceOutput, soundEffects, autoScroll)
    }

    constructor (stored: Option<Settings>)
      ensures Valid()
      ensures conversations == [] && activeConversationId == Null && conversationBranches == map[]
      ensures messageCount == 0
      ensures Preferences() == Settings(Themes.Dark, Bool(true), Bool(true), Bool(true))
      ensures storedSettings == stored && requests == [] && pending == []
    {
      conversations, activeConversationId, conversationBranches := [], Null, map[];
      messageCount := 0;
      currentTheme, voiceOutput, soundEffects, autoScroll := Themes.Dark, Bool(true), Bool(true), Bool(true);
      storedSettings, requests, pending := stored, [], [];
      fetched, createdSince := [], [];
    }

    // --- conversation list ---------------------------------------------

    /** refreshConversationList: `response` is the parsed list of an ok
     *  answer, or None when the request failed or was not ok. */
    method RefreshConversationList(response: Option<seq<Conversation>>)
      requires Valid()
      modifies this`conversations, this`conversationBranches, this`activeConversationId,
               this`requests, this`fetched, this`createdSince
      ensures Valid()
      ensures requests == old(requests) + [ListConversations]
      ensures response.None? ==>
        conversations == old(conversations) && conversationBranches == old(conversationBranches)
        && activeConversationId == old(activeConversationId)
      ensures response.Some? ==>
        conversations == response.value && conversationBranches == BranchIndex(response.value)
        && activeConversationId == AdoptedActive(old(activeConversationId), response.value)
    {
      requests := requests + [ListConversations];
      if response.None? {
        return;
      }
      conversations := response.value;
      conversationBranches := BuildBranchIndex(conversations);
      fetched, createdSince := conversations, [];
      if |conversations| > 0 && !Truthy(activeConversationId) {
        activeConversationId := conversations[0].id;
      }
    }

    /** createConversationOnServer: on an ok answer the created record is
     *  put at the front of the list and returned; otherwise None (null). */
    method CreateConversationOnServer(title: JsValue, parentId: JsValue, response: Option<Conversation>)
      returns (created: Option<Conversation>)
      requires Valid()
      modifies this`conversations, this`requests, this`createdSince
      ensures Valid()
      ensures requests == old(requests) + [CreateConversation(title, Or(parentId, Null))]
      ensures created == response
      ensures response.Some? ==> conversations == [response.value] + old(conversations)
      ensures response.None? ==> conversations == old(conversations)
    {
      requests := requests + [CreateConversation(title, Or(parentId, Null))];
      if response.None? {
        return None;
      }
      conversations := [response.value] + conversations;
      createdSince := [response.value] + createdSince;
      return response;
    }

    /** ensureActiveConversation: the active id when one is active (nothing
     *  is sent); otherwise a new conversation is created and its id, or
     *  null on failure, becomes the active id. */
    method EnsureActiveConversation(parentId: JsValue, response: Option<Conversation>) returns (id: JsValue)
      requires Valid()
      modifies this`conversations, this`requests, this`createdSince, this`activeConversationId
      ensures Valid()
      ensures id == activeConversationId == EnsuredId(old(activeConversationId), response)
      ensures requests == old(requests) + CreationRequests(old(activeConversationId), parentId)
      ensures conversations == ListAfterEnsure(old(activeConversationId), response, old(conversations))
    {
      if Truthy(activeConversationId) {
        return activeConversationId;
      }
      var created := CreateConversationOnServer(NewConversationTitle, parentId, response);
      activeConversationId := if created.Some? then created.value.id else Null;
      return activeConversationId;
    }

    /** bootstrapConversationSync: refresh, then create a first conversation
     *  when none is active. */
    method BootstrapConversationSync(listResponse: Option<seq<Conversation>>, createResponse: Option<Conversation>)
      requires Valid()
      modifies this`conversations, this`conversationBranches, this`activeConversationId,
               this`requests, this`fetched, this`createdSince
      ensures Valid()
      ensures var afterList := if listResponse.Some? then AdoptedActive(old(activeConversationId), listResponse.value)
                               else old(activeConversationId);
        activeConversationId == EnsuredId(afterList, createResponse)
        && requests == old(requests) + [ListConversations] + CreationRequests(afterList, Null)
      ensures listResponse.None? ==>
        conversations == ListAfterEnsure(old(activeConversationId), createResponse, old(conversations))
        && conversationBranches == old(conversationBranches)
      ensures listResponse.Some? ==>
        conversations == ListAfterEnsure(AdoptedActive(old(activeConversationId), listResponse.value),
                                         createResponse, listResponse.value)
        && conversationBranches == BranchIndex(listResponse.value)
    {
      RefreshConversationList(listResponse);
      if !Truthy(activeConversationId) {
        var created := CreateConversationOnServer(NewConversationTitle, Null, createResponse);
        activeConversationId := if created.Some? then created.value.id else Null;
      }
    }

    // --- persistence ---------------------------------------------------

    /** persistMessageToServer: resolves the active conversation and posts
     *  the message to it; when no id can be resolved no message request is sent. */
    method PersistMessageToServer(sender: string, content: JsValue, parentMessageId: JsValue,
                                  createResponse: Option<Conversation>)
      requires Valid()
      modifies this`conversations, this`requests, this`createdSince, this`activeConversationId
      ensures Valid()
      ensures activeConversationId == EnsuredId(old(activeConversationId), createResponse)
      ensures conversations == ListAfterEnsure(old(activeConversationId), createResponse, old(conversations))
      ensures requests == old(requests) + CreationRequests(old(activeConversationId), Null)
        + (if Truthy(activeConversationId)
           then [PostMessage(activeConversationId, sender, content, parentMessageId)] else [])
    {
      var conversationId := EnsureActiveConversation(Null, createResponse);
      if Truthy(conversationId) {
        requests := requests + [PostMessage(conversationId, sender, content, parentMessageId)];
      }
    }

    /** persistTranscriptToServer: the same guard, posting to the transcript endpoint. */
    method PersistTranscriptToServer(speaker: string, content: JsValue, createResponse: Option<Conversation>)
      requires Valid()
      modifies this`conversations, this`requests, this`createdSince, this`activeConversationId
      ensures Valid()
      ensures activeConversationId == EnsuredId(old(activeConversationId), createResponse)
      ensures conversations == ListAfterEnsure(old(activeConversationId), createResponse, old(conversations))
      ensures requests == old(requests) + CreationRequests(old(activeConversationId), Null)
        + (if Truthy(activeConversationId) then [PostTranscript(activeConversationId, speaker, content)] else [])
    {
      var conversationId := EnsureActiveConversation(Null, createResponse);
      if Truthy(conversationId) {
        requests := requests + [PostTranscript(conversationId, speaker, content)];
      }
    }

    /** addMessage: when the message list exists, counts the message and
     *  queues its persistence; nothing is sent before the message is shown. */
    method AddMessage(sender: string, text: JsValue, hasContainer: bool)
      modifies this`messageCount, this`pending
      ensures messageCount == old(messageCount) + (if hasContainer then 1 else 0)
      ensures pending == old(pending) + (if hasContainer then [PersistMessage(sender, text)] else [])
    {
      if !hasContainer {
        return;
      }
      messageCount := messageCount + 1;
      pending := pending + [PersistMessage(sender, text)];
    }

    /** addToTranscript: queues the transcript line's persistence. */
    method AddToTranscript(speaker: string, text: JsValue)
      modifies this`pending
      ensures pending == old(pending) + [PersistTranscript(speaker, text)]
    {
      pending := pending + [PersistTranscript(speaker, text)];
    }

    /** Runs the oldest queued persistence call. */
    method RunMicrotask(createResponse: Option<Conversation>)
      requires Valid() && pending != []
      modifies this`conversations, this`requests, this`createdSince, this`activeConversationId, this`pending
      ensures Valid()
      ensures pending == old(pending[1..])
      ensures activeConversationId == EnsuredId(old(activeConversationId), createResponse)
      ensures conversations == ListAfterEnsure(old(activeConversationId), createResponse, old(conversations))
      ensures var post := match old(pending[0])
                case PersistMessage(s, c) => PostMessage(activeConversationId, s, c, Null)
                case PersistTranscript(s, c) => PostTranscript(activeConversationId, s, c);
        requests == old(requests) + CreationRequests(old(activeConversationId), Null)
          + (if Truthy(activeConversationId) then [post] else [])
    {
      var job := pending[0];
      pending := pending[1..];
      match job
      case PersistMessage(s, c) => PersistMessageToServer(s, c, Null, createResponse);
      case PersistTranscript(s, c) => PersistTranscriptToServer(s, c, createResponse);
    }

    // --- user actions --------------------------------------------------

    /** clearChat: resets the counter, forgets the active conversation and
     *  starts a new one. */
    method ClearChat(createResponse: Option<Conversation>)
      requires Valid()
      modifies this`conversations, this`requests, this`createdSince, this`activeConversationId, this`messageCount
      ensures Valid()
      ensures messageCount == 0
      ensures activeConversationId == EnsuredId(Null, createResponse)
      ensures conversations == ListAfterEnsure(Null, createResponse, old(conversations))
      ensures requests == old(requests) + [CreateConversation(NewConversationTitle, Null)]
    {
      messageCount := 0;
      activeConversationId := Null;
      var _ := EnsureActiveConversation(Null, createResponse);
    }

    /** openConversationBranching: `title` is the prompt's answer (null when
     *  cancelled).  The branch is created under the resolved active
     *  conversation and, when created, becomes active before the list is
     *  refreshed. */
    method OpenConversationBranching(title: JsValue, ensureResponse: Option<Conversation>,
                                     branchResponse: Option<Conversation>,
                                     listResponse: Option<seq<Conversation>>)
      requires Valid()
      modifies this`conversations, this`conversationBranches, this`activeConversationId,
               this`requests, this`fetched, this`createdSince
      ensures Valid()
      ensures !Truthy(title) ==>
        requests == old(requests) && conversations == old(conversations)
        && conversationBranches == old(conversationBranches)
        && activeConversationId == old(activeConversationId)
      ensures Truthy(title) ==>
        var afterEnsure := ListAfterEnsure(old(activeConversationId), ensureResponse, old(conversations));
        && (branchResponse.None? ==>
              conversations == afterEnsure && conversationBranches == old(conversationBranches))
        && (branchResponse.Some? && listResponse.None? ==>
              conversations == [branchResponse.value] + afterEnsure
              && conversationBranches == old(conversationBranches))
        && (branchResponse.Some? && listResponse.Some? ==>
              conversations == listResponse.value && conversationBranches == BranchIndex(listResponse.value))
      ensures Truthy(title) ==>
        var parent := EnsuredId(old(activeConversationId), ensureResponse);
        requests == old(requests) + CreationRequests(old(activeConversationId), Null)
          + [CreateConversation(title, Or(parent, Null))]
          + (if branchResponse.Some? then [ListConversations] else [])
        && (branchResponse.None? ==> activeConversationId == parent)
        && (branchResponse.Some? && listResponse.None? ==> activeConversationId == branchResponse.value.id)
        && (branchResponse.Some? && listResponse.Some? ==>
              activeConversationId == AdoptedActive(branchResponse.value.id, listResponse.value))
    {
      if Truthy(title) {
        var parentId := EnsureActiveConversation(Null, ensureResponse);
        ghost var afterEnsure, requestsAfterEnsure := conversations, requests;
        var branch := CreateConversationOnServer(title, parentId, branchResponse);
        assert requests == requestsAfterEnsure + [CreateConversation(title, Or(parentId, Null))];
        if branch.Some? {
          activeConversationId := branch.value.id;
          RefreshConversationList(listResponse);
        }
      }
    }

    /** importConversationFromFile: `payload` is the parsed file (None when
     *  the file cannot be read or parsed), `response` the store's record of
     *  the imported conversation. */
    method ImportConversationFromFile(payload: Option<JsValue>, response: Option<Conversation>,
                                      listResponse: Option<seq<Conversation>>)
      returns (toast: Toast)
      requires Valid()
      modifies this`conversations, this`conversationBranches, this`activeConversationId,
               this`requests, this`fetched, this`createdSince
      ensures Valid()
      ensures toast == SuccessToast <==> payload.Some? && response.Some?
      ensures payload.None? ==> requests == old(requests)
      ensures payload.Some? ==>
        requests == old(requests) + [ImportConversation(payload.value)]
                    + (if response.Some? then [ListConversations] else [])
      ensures toast == ErrorToast ==>
        activeConversationId == old(activeConversationId)
        && conversations == old(conversations) && conversationBranches == old(conversationBranches)
      ensures toast == SuccessToast && listResponse.None? ==>
        conversations == old(conversations) && conversationBranches == old(conversationBranches)
      ensures toast == SuccessToast && listResponse.Some? ==>
        conversations == listResponse.value && conversationBranches == BranchIndex(listResponse.value)
      ensures toast == SuccessToast && listResponse.None? ==> activeConversationId == response.value.id
      ensures toast == SuccessToast && listResponse.Some? ==>
        activeConversationId == AdoptedActive(response.value.id, listResponse.value)
    {
      if payload.None? {
        return ErrorToast;
      }
      requests := requests + [ImportConversation(payload.value)];
      if response.None? {
        return ErrorToast;
      }
      activeConversationId := response.value.id;
      RefreshConversationList(listResponse);
      return SuccessToast;
    }

    /** exportChat: needs a resolvable conversation; without one it fails
     *  with a toast and asks for no export. */
    method ExportChat(createResponse: Option<Conversation>, exportOk: bool) returns (toast: Toast)
      requires Valid()
      modifies this`conversations, this`requests, this`createdSince, this`activeConversationId
      ensures Valid()
      ensures activeConversationId == EnsuredId(old(activeConversationId), createResponse)
      ensures conversations == ListAfterEnsure(old(activeConversationId), createResponse, old(conversations))
      ensures requests == old(requests) + CreationRequests(old(activeConversationId), Null)
        + (if Truthy(activeConversationId) then [ExportConversation(activeConversationId)] else [])
      ensures toast == SuccessToast <==> Truthy(activeConversationId) && exportOk
    {
      var conversationId := EnsureActiveConversation(Null, createResponse);
      toast := ErrorToast;
      if Truthy(conversationId) {
        requests := requests + [ExportConversation(conversationId)];
        toast := if exportOk then SuccessToast else ErrorToast;
      }
    }

    // --- preferences ---------------------------------------------------

    /** saveSettings: writes the snapshot to local storage and sends it to the backend. */
    method SaveSettings()
      modifies this`storedSettings, this`requests
      ensures storedSettings == Some(Preferences())
      ensures requests == old(requests) + [PutSettings(Preferences())]
    {
      storedSettings := Some(Preferences());
      requests := requests + [PutSettings(Preferences())];
    }

    /** loadBackendSettings. */
    method LoadBackendSettings(response: SettingsResponse)
      modifies this`currentTheme, this`voiceOutput, this`soundEffects, this`autoScroll, this`requests
      ensures Preferences() == ApplyResponse(old(Preferences()), response)
      ensures requests == old(requests) + [GetSettings]
    {
      requests := requests + [GetSettings];
      if response.Values? {
        var merged := MergeBackend(Preferences(), response.values);
        currentTheme, voiceOutput, soundEffects, autoScroll :=
          merged.theme, merged.voiceOutput, merged.soundEffects, merged.autoScroll;
      }
    }

    /** loadSettings: applies the saved preferences with their defaults, then
     *  the backend's; local storage itself is not written. */
    method LoadSettings(response: SettingsResponse)
      modifies this`currentTheme, this`voiceOutput, this`soundEffects, this`autoScroll, this`requests
      ensures var local := if storedSettings.Some? then LocalDefaults(storedSettings.value) else old(Preferences());
        Preferences() == ApplyResponse(local, response)
      ensures requests == old(requests) + [GetSettings]
    {
      if storedSettings.Some? {
        var local := LocalDefaults(storedSettings.value);
        currentTheme, voiceOutput, soundEffects, autoScroll :=
          local.theme, local.voiceOutput, local.soundEffects, local.autoScroll;
      }
      LoadBackendSettings(response);
    }

    /** setupThemeSystem: follows the system colour-scheme preference. */
    method SetupThemeSystem(prefersDark: bool)
      modifies this`currentTheme
      ensures currentTheme == (if prefersDark then Themes.Dark else Themes.Light)
    {
      currentTheme := if prefersDark then Themes.Dark else Themes.Light;
    }

    /** toggleTheme: flips the theme and saves. */
    method ToggleTheme()
      modifies this`currentTheme, this`storedSettings, this`requests
      ensures currentTheme == Themes.Toggled(old(currentTheme))
      ensures storedSettings == Some(Preferences())
      ensures requests == old(requests) + [PutSettings(Preferences())]
    {
      currentTheme := Themes.Toggled(currentTheme);
      SaveSettings();
    }

    /** changeTheme: applies the selector's choice and saves. */
    method ChangeTheme(theme: JsValue, prefersDark: bool)
      modifies this`currentTheme, this`storedSettings, this`requests
      ensures currentTheme == Themes.Resolved(theme, prefersDark)
      ensures storedSettings == Some(Preferences())
      ensures requests == old(requests) + [PutSettings(Preferences())]
    {
      currentTheme := Themes.Resolved(theme, prefersDark);
      SaveSettings();
    }

    /** toggleVoiceOutput. */
    method ToggleVoiceOutput(enabled: JsValue)
      modifies this`voiceOutput, this`storedSettings, this`requests
      ensures voiceOutput == enabled && storedSettings == Some(Preferences())
      ensures requests == old(requests) + [PutSettings(Preferences())]
    {
      voiceOutput := enabled;
      SaveSettings();
    }

    /** toggleSoundEffects. */
    method ToggleSoundEffects(enabled: JsValue)
      modifies this`soundEffects, this`storedSettings, this`requests
      ensures soundEffects == enabled && storedSettings == Some(Preferences())
      ensures requests == old(requests) + [PutSettings(Preferences())]
    {
      soundEffects := enabled;
      SaveSettings();
    }

    /** toggleAutoScroll. */
    method ToggleAutoScroll(enabled: JsValue)
      modifies this`autoScroll, this`storedSettings, this`requests
      ensures autoScroll == enabled && storedSettings == Some(Preferences())
      ensures requests == old(requests) + [PutSettings(Preferences())]
    {
      autoScroll := enabled;
      SaveSettings();
    }
  }

  /** What a caller can rely on from the contracts alone: saving well-formed
   *  preferences and loading them again with a silent backend restores them. */
  method SaveThenLoadRestores(s: ChatSession)
    requires WellFormed(s.Preferences())
    modifies s
    ensures s.Preferences() == old(s.Preferences())
  {
    s.SaveSettings();
    s.LoadSettings(Failed);
    LocalDefaultsFixpoint(old(s.Preferences()));
  }
}
