/**
 * The chat page's state as one value, and what the name, send and submit
 * handlers make of it. The page's class (ChatController.NerdAI) runs these
 * handlers imperatively; the step functions here are their specifications.
 */
module ChatPage {
  import opened Wrappers
  import opened ChatModel

  datatype Page = Page(userName: string, allChats: seq<Chat>, activeChatId: Option<int>, userInput: string,
                       isLoading: bool, isSidebarOpen: bool, store: Store)

  /** The page after its first load: the active id names a chat, and the store holds the collection. */
  predicate PageValid(p: Page) {
    ActiveExists(p.allChats, p.activeChatId) && Persisted(p.store, p.allChats)
  }

  /** `handleNewChat(name, save)`: a new chat, in front of the others or alone, active, sidebar closed. */
  function NewChatStep(p: Page, name: string, save: bool, freshId: int): Page {
    var chat := FreshChat(name, freshId);
    var chats := if save then [chat] + p.allChats else [chat];
    p.(allChats := chats, activeChatId := Some(freshId), isSidebarOpen := false, store := Sync(p.store, chats))
  }

  /** `handleDeleteChat` on the chat at position index, as ChatModel.ChatsAfterDelete describes. */
  function DeleteStep(p: Page, index: nat, freshId: int): Page
    requires index < |p.allChats| && !HasId(p.allChats, freshId)
  {
    var chatId := p.allChats[index].id;
    assert p.allChats[index].id != freshId;
    var chats := ChatsAfterDelete(p.allChats, p.activeChatId, chatId, p.userName, freshId);
    var restarted := p.activeChatId == Some(chatId) && RemoveChat(p.allChats, chatId) == [];
    p.(allChats := chats, activeChatId := ActiveAfterDelete(p.allChats, p.activeChatId, chatId, freshId),
       isSidebarOpen := p.isSidebarOpen && !restarted, store := Sync(p.store, chats))
  }

  /** The load effect; None when the chats entry does not parse. */
  function BootStep(p: Page, freshId: int): Option<Page>
    requires NameKey in p.store ==> p.store[NameKey].Text?
  {
    if !ChatsReadable(p.store) then None
    else
      var name := StoredName(p.store);
      var saved := SavedChats(p.store);
      if saved != [] then Some(p.(userName := name, allChats := saved, activeChatId := Some(saved[0].id),
                                  store := Sync(p.store, saved)))
      else Some(NewChatStep(p.(userName := name), name, false, freshId))
  }

  /** `handleNameSubmission(name)`. */
  function NameStep(p: Page, name: string): Page {
    var nickname := Nickname(name);
    var chats := UpdateActiveChat(p.allChats, p.activeChatId, Some(Message("bot", Greeting(nickname))), None);
    p.(userName := nickname, allChats := chats, store := Sync(p.store[NameKey := Text(nickname)], chats))
  }

  /** `handleSendMessage`: the page after the send described by ChatModel.SendChats. */
  function SendPage(p: Page, outcome: Completion): Page {
    var found := FindChat(p.allChats, p.activeChatId);
    if found.None? then p.(isLoading := true)
    else
      var chats := SendChats(p.allChats, p.activeChatId, found.value, p.userInput, Reply(outcome, p.userName));
      p.(allChats := chats, isLoading := false, store := Sync(p.store, chats))
  }

  /** The completion request `handleSendMessage` posts, when the active chat exists. */
  function SendRequest(p: Page): Option<Request> {
    var found := FindChat(p.allChats, p.activeChatId);
    if found.None? then None
    else Some(Request(p.userName, ToContents(found.value.messages + [Message("user", p.userInput)])))
  }

  /** Whether `handleSubmit` returns at its guard. */
  predicate SubmitIgnored(p: Page) {
    Trim(p.userInput) == [] || p.isLoading
  }

  /** `handleSubmit`: the page afterwards. */
  function SubmitPage(p: Page, outcome: Completion): Page {
    if SubmitIgnored(p) then p
    else if p.userName == [] then NameStep(p, p.userInput).(userInput := [])
    else SendPage(p, outcome).(userInput := [])
  }

  /** `handleSubmit`: the request it posts, on the send path only. */
  function SubmitRequest(p: Page): Option<Request> {
    if SubmitIgnored(p) || p.userName == [] then None else SendRequest(p)
  }

  lemma KeysDistinct()
    ensures NameKey != ChatsKey
  {
    assert |NameKey| != |ChatsKey|;
  }

  /**
   * A new chat: the fresh chat with its one bot message leads the
   * collection, followed by the old chats when saved, and is active; the
   * page is valid afterwards, and a fresh id keeps the ids distinct.
   */
  lemma NewChatStepFacts(p: Page, name: string, save: bool, freshId: int)
    ensures var q := NewChatStep(p, name, save, freshId);
            |q.allChats| >= 1 && q.allChats[0] == FreshChat(name, freshId)
            && q.allChats[1..] == (if save then p.allChats else [])
            && q.activeChatId == Some(freshId) && !q.isSidebarOpen && PageValid(q)
            && q.userName == p.userName && q.userInput == p.userInput && q.isLoading == p.isLoading
    ensures (!save || (!HasId(p.allChats, freshId) && UniqueIds(p.allChats)))
            ==> UniqueIds(NewChatStep(p, name, save, freshId).allChats)
  {
    var q := NewChatStep(p, name, save, freshId);
    assert q.allChats[0].id == freshId;
    SyncPersists(p.store, q.allChats);
    if save && !HasId(p.allChats, freshId) && UniqueIds(p.allChats) {
      forall i, j | 0 <= i < j < |q.allChats| ensures q.allChats[i].id != q.allChats[j].id {
        assert q.allChats[j] == p.allChats[j - 1];
        if i > 0 {
          assert q.allChats[i] == p.allChats[i - 1];
        }
      }
    }
  }

  /**
   * A delete: no chat with the deleted id is left; when other chats
   * survive they are the collection, in their order; the active id stays
   * unless the active chat went; the page stays valid and the ids distinct.
   */
  lemma DeleteStepFacts(p: Page, index: nat, freshId: int)
    requires index < |p.allChats| && !HasId(p.allChats, freshId)
    ensures var chatId := p.allChats[index].id;
            var q := DeleteStep(p, index, freshId);
            !HasId(q.allChats, chatId)
            && (RemoveChat(p.allChats, chatId) != [] ==> q.allChats == RemoveChat(p.allChats, chatId))
            && (p.activeChatId != Some(chatId) ==> q.activeChatId == p.activeChatId)
            && Persisted(q.store, q.allChats)
            && q.userName == p.userName && q.userInput == p.userInput && q.isLoading == p.isLoading
    ensures ActiveExists(p.allChats, p.activeChatId) ==> PageValid(DeleteStep(p, index, freshId))
    ensures UniqueIds(p.allChats) ==> UniqueIds(DeleteStep(p, index, freshId).allChats)
  {
    var chatId := p.allChats[index].id;
    assert chatId != freshId;
    var q := DeleteStep(p, index, freshId);
    SyncPersists(p.store, q.allChats);
    if ActiveExists(p.allChats, p.activeChatId) {
      DeleteKeepsActive(p.allChats, p.activeChatId, chatId, p.userName, freshId);
    }
    if UniqueIds(p.allChats) {
      DeleteKeepsUniqueIds(p.allChats, p.activeChatId, chatId, p.userName, freshId);
    }
  }

  /** Deleting the last chat while it is active is a saved new chat on an empty collection. */
  lemma DeleteStepRestart(p: Page, index: nat, freshId: int)
    requires index < |p.allChats| && !HasId(p.allChats, freshId)
    requires p.activeChatId == Some(p.allChats[index].id) && RemoveChat(p.allChats, p.allChats[index].id) == []
    ensures DeleteStep(p, index, freshId) == NewChatStep(p.(allChats := []), p.userName, true, freshId)
  {
    var chat := FreshChat(p.userName, freshId);
    assert [chat] + [] == [chat];
  }

  /**
   * The load: it fails exactly when the chats entry does not parse;
   * otherwise the name is the stored one (or empty), the stored chats are
   * kept with the first active, or a single new chat starts, and the page is
   * valid.
   */
  lemma BootStepFacts(p: Page, freshId: int)
    requires NameKey in p.store ==> p.store[NameKey].Text?
    ensures BootStep(p, freshId).Some? <==> ChatsReadable(p.store)
    ensures ChatsReadable(p.store) ==>
              var q := BootStep(p, freshId).value;
              q.userName == StoredName(p.store) && PageValid(q)
              && (SavedChats(p.store) != [] ==> q.allChats == SavedChats(p.store)
                                                 && q.activeChatId == Some(q.allChats[0].id))
              && (SavedChats(p.store) == [] ==> q.allChats == [FreshChat(q.userName, freshId)]
                                                 && q.activeChatId == Some(freshId))
              && q.userInput == p.userInput && q.isLoading == p.isLoading
  {
    if ChatsReadable(p.store) {
      var q := BootStep(p, freshId).value;
      if SavedChats(p.store) != [] {
        assert q.allChats[0].id == SavedChats(p.store)[0].id;
        SyncPersists(p.store, q.allChats);
      } else {
        NewChatStepFacts(p.(userName := StoredName(p.store)), StoredName(p.store), false, freshId);
      }
    }
  }

  /**
   * A name submission: the nickname becomes the user's name, in the state
   * and under the name key of the store; each chat with the active id gains
   * exactly the bot's greeting, every other chat stays; nothing else changes.
   */
  lemma NameStepFacts(p: Page, name: string)
    ensures var q := NameStep(p, name);
            q.userName == Nickname(name) && NameKey in q.store && q.store[NameKey] == Text(q.userName)
            && (q.userName != [] <==> !AllSpace(name))
            && |q.allChats| == |p.allChats|
            && (forall i | 0 <= i < |p.allChats| && Some(p.allChats[i].id) != p.activeChatId ::
                  q.allChats[i] == p.allChats[i])
            && (forall i | 0 <= i < |p.allChats| && Some(p.allChats[i].id) == p.activeChatId ::
                  q.allChats[i].id == p.allChats[i].id && q.allChats[i].title == p.allChats[i].title
                  && q.allChats[i].messages == p.allChats[i].messages + [Message("bot", Greeting(q.userName))])
            && q.activeChatId == p.activeChatId && q.userInput == p.userInput
            && q.isLoading == p.isLoading && q.isSidebarOpen == p.isSidebarOpen
  {
    KeysDistinct();
    NicknameNonEmpty(name);
    GreetedChats(p.allChats, p.activeChatId, Message("bot", Greeting(Nickname(name))));
  }

  /** Appending message m to the chats with the active id, title unchanged, chat by chat. */
  lemma GreetedChats(chats: seq<Chat>, active: Option<int>, m: Message)
    ensures var r := UpdateActiveChat(chats, active, Some(m), None);
            |r| == |chats|
            && (forall i | 0 <= i < |chats| && Some(chats[i].id) != active :: r[i] == chats[i])
            && (forall i | 0 <= i < |chats| && Some(chats[i].id) == active ::
                  r[i].id == chats[i].id && r[i].title == chats[i].title && r[i].messages == chats[i].messages + [m])
  {
    UpdateActiveChatShape(chats, active, Some(m), None);
  }

  /** A name submission keeps the page valid and the ids distinct. */
  lemma NameStepKeeps(p: Page, name: string)
    ensures PageValid(p) ==> PageValid(NameStep(p, name))
    ensures UniqueIds(p.allChats) ==> UniqueIds(NameStep(p, name).allChats)
  {
    var m := Some(Message("bot", Greeting(Nickname(name))));
    if PageValid(p) {
      NameStepValid(p, name);
    }
    if UniqueIds(p.allChats) {
      UpdateKeepsUniqueIds(p.allChats, p.activeChatId, m, None);
    }
  }

  lemma NameStepValid(p: Page, name: string)
    requires PageValid(p)
    ensures PageValid(NameStep(p, name))
  {
    var m := Some(Message("bot", Greeting(Nickname(name))));
    UpdateKeepsActive(p.allChats, p.activeChatId, m, None, p.activeChatId);
    SyncPersists(p.store[NameKey := Text(Nickname(name))], NameStep(p, name).allChats);
  }

  /**
   * The request of a send: the active chat's transcript followed by the
   * user's message, roles mapped to "user" and "model", texts in order; the
   * instruction names the user. Without an active chat nothing is posted.
   */
  lemma SendRequestFacts(p: Page)
    ensures SendRequest(p).Some? <==> FindChat(p.allChats, p.activeChatId).Some?
    ensures FindChat(p.allChats, p.activeChatId).Some? ==>
            var found := FindChat(p.allChats, p.activeChatId).value;
            var r := SendRequest(p).value;
            r.userName == p.userName
            && |r.contents| == |found.messages| + 1
            && (forall i | 0 <= i < |found.messages| ::
                  r.contents[i] == Content(RequestRole(found.messages[i].role), found.messages[i].content))
            && r.contents[|found.messages|] == Content("user", p.userInput)
  {
    var found := FindChat(p.allChats, p.activeChatId);
    if found.Some? {
      var conv := found.value.messages + [Message("user", p.userInput)];
      var c := ToContents(conv);
      assert conv[|found.value.messages|] == Message("user", p.userInput);
      forall i | 0 <= i < |found.value.messages|
        ensures c[i] == Content(RequestRole(found.value.messages[i].role), found.value.messages[i].content)
      {
        assert conv[i] == found.value.messages[i];
      }
    }
  }

  /**
   * A send with no chat under the active id stops early: nothing changes
   * but the loading flag, which stays on.
   */
  lemma SendPageNoChat(p: Page, outcome: Completion)
    requires FindChat(p.allChats, p.activeChatId).None?
    ensures SendPage(p, outcome) == p.(isLoading := true)
  {
  }

  /**
   * A send from an existing chat: the reply (the completion's text, or the
   * apology naming the user) follows the user's message in each chat with
   * the active id, the first user message names the chat, loading is over,
   * and the store holds the new collection.
   */
  lemma SendPageChats(p: Page, outcome: Completion)
    requires FindChat(p.allChats, p.activeChatId).Some?
    ensures var found := FindChat(p.allChats, p.activeChatId).value;
            var q := SendPage(p, outcome);
            var reply := Reply(outcome, p.userName);
            |q.allChats| == |p.allChats|
            && (forall i | 0 <= i < |p.allChats| && Some(p.allChats[i].id) != p.activeChatId ::
                  q.allChats[i] == p.allChats[i])
            && (forall i | 0 <= i < |p.allChats| && Some(p.allChats[i].id) == p.activeChatId ::
                  q.allChats[i].messages == p.allChats[i].messages + [Message("user", p.userInput), reply]
                  && q.allChats[i].title == (if HasUserMessage(found.messages) || p.userInput == []
                                             then p.allChats[i].title else DeriveTitle(p.userInput)))
  {
    var found := FindChat(p.allChats, p.activeChatId).value;
    SendChatsShape(p.allChats, p.activeChatId, found, p.userInput, Reply(outcome, p.userName));
  }

  /** A send from an existing chat ends loading, saves the collection and changes no other field. */
  lemma SendPageFields(p: Page, outcome: Completion)
    requires FindChat(p.allChats, p.activeChatId).Some?
    ensures var q := SendPage(p, outcome);
            !q.isLoading && Persisted(q.store, q.allChats)
            && q.userName == p.userName && q.activeChatId == p.activeChatId && q.userInput == p.userInput
            && q.isSidebarOpen == p.isSidebarOpen
  {
    SyncPersists(p.store, SendPage(p, outcome).allChats);
  }

  /** On a valid page a send always finds its chat, and leaves the page valid and not loading. */
  lemma SendPageKeeps(p: Page, outcome: Completion)
    ensures PageValid(p) ==> FindChat(p.allChats, p.activeChatId).Some?
                             && PageValid(SendPage(p, outcome)) && !SendPage(p, outcome).isLoading
    ensures UniqueIds(p.allChats) ==> UniqueIds(SendPage(p, outcome).allChats)
  {
    var found := FindChat(p.allChats, p.activeChatId);
    if found.Some? {
      SendChatsKeeps(p.allChats, p.activeChatId, found.value, p.userInput, Reply(outcome, p.userName));
      SyncPersists(p.store, SendPage(p, outcome).allChats);
    }
  }

  /**
   * Submit: a blank input or a pending reply changes nothing and posts
   * nothing; otherwise the input is cleared, and it becomes the user's
   * (non-empty) name while none is known, with no request, or is sent with
   * the name unchanged.
   */
  lemma SubmitFacts(p: Page, outcome: Completion)
    ensures SubmitIgnored(p) <==> AllSpace(p.userInput) || p.isLoading
    ensures SubmitIgnored(p) ==> SubmitPage(p, outcome) == p && SubmitRequest(p) == None
    ensures !SubmitIgnored(p) ==> SubmitPage(p, outcome).userInput == []
    ensures !SubmitIgnored(p) && p.userName == [] ==>
              SubmitRequest(p) == None
              && SubmitPage(p, outcome) == NameStep(p, p.userInput).(userInput := [])
              && SubmitPage(p, outcome).userName != []
    ensures !SubmitIgnored(p) && p.userName != [] ==>
              SubmitPage(p, outcome) == SendPage(p, outcome).(userInput := [])
              && SubmitRequest(p) == SendRequest(p)
              && SubmitPage(p, outcome).userName == p.userName
  {
    TrimBlank(p.userInput);
    NicknameNonEmpty(p.userInput);
    if FindChat(p.allChats, p.activeChatId).Some? {
      SendPageFields(p, outcome);
    }
  }

  /** Submit keeps a valid page valid, posts a request exactly on the send path, and leaves no reply pending. */
  lemma SubmitKeeps(p: Page, outcome: Completion)
    requires PageValid(p)
    ensures PageValid(SubmitPage(p, outcome))
    ensures SubmitPage(p, outcome).isLoading == p.isLoading
    ensures SubmitRequest(p).Some? <==> !AllSpace(p.userInput) && !p.isLoading && p.userName != []
    ensures UniqueIds(p.allChats) ==> UniqueIds(SubmitPage(p, outcome).allChats)
  {
    TrimBlank(p.userInput);
    NameStepKeeps(p, p.userInput);
    SendPageKeeps(p, outcome);
    SendRequestFacts(p);
  }
}
