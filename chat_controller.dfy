/**
 * The state of the Nerd AI chat page and its handlers. Each handler runs to
 * completion before the next one starts; once a handler's state updates
 * are in, the effect that saves the chats brings the store in line with the
 * collection (`Sync`).
 */
module ChatController {
  import opened Wrappers
  import opened ChatModel
  import opened ChatPage

  class NerdAI {
    var userName: string
    var allChats: seq<Chat>
    var activeChatId: Option<int>
    var userInput: string
    var isLoading: bool
    var isSidebarOpen: bool
    /** The browser's `localStorage`. */
    var store: Store

    /** The fields as one value. */
    function State(): Page
      reads this
    {
      Page(userName, allChats, activeChatId, userInput, isLoading, isSidebarOpen, store)
    }

    /** The page after its first load: the active id names a chat, and the store holds the collection. */
    predicate Valid()
      reads this
    {
      PageValid(State())
    }

    /** The first render: the initial values of the page's state, over the store as the browser has it. */
    constructor(initial: Store)
      ensures userName == [] && allChats == [] && activeChatId == None && userInput == []
      ensures !isLoading && !isSidebarOpen && store == initial
    {
      userName := [];
      allChats := [];
      activeChatId := None;
      userInput := [];
      isLoading := false;
      isSidebarOpen := false;
      store := initial;
    }

    /**
     * The load effect: the stored name, then the stored chats with the first
     * one active, or a single new chat when none are stored. When the chats
     * entry is not JSON, parsing throws and no state changes (ok is false).
     */
    method Boot(freshId: int) returns (ok: bool)
      requires NameKey in store ==> store[NameKey].Text?
      modifies this
      ensures ok == BootStep(old(State()), freshId).Some?
      ensures State() == if ok then BootStep(old(State()), freshId).value else old(State())
      ensures ok ==> Valid()
    {
      BootStepFacts(State(), freshId);
      if !ChatsReadable(store) {
        return false;
      }
      var savedName := StoredName(store);
      var savedChats := SavedChats(store);
      userName := savedName;
      if |savedChats| > 0 {
        allChats := savedChats;
        activeChatId := Some(savedChats[0].id);
        store := Sync(store, allChats);
      } else {
        NewChat(savedName, false, freshId);
      }
      ok := true;
    }

    /**
     * `handleNewChat(name, save)`, with the fresh id the caller supplies in
     * place of the clock.
     */
    method NewChat(name: string, save: bool, freshId: int)
      modifies this
      ensures State() == NewChatStep(old(State()), name, save, freshId)
      ensures Valid()
    {
      NewChatStepFacts(State(), name, save, freshId);
      var chat := FreshChat(name, freshId);
      if save {
        allChats := [chat] + allChats;
      } else {
        allChats := [chat];
      }
      activeChatId := Some(freshId);
      isSidebarOpen := false;
      store := Sync(store, allChats);
    }

    /**
     * `handleDeleteChat` on the chat at position index of the list, with the
     * new chat (when one is needed) put in front of the survivors.
     */
    method DeleteChat(index: nat, freshId: int)
      requires index < |allChats| && !HasId(allChats, freshId)
      modifies this
      ensures State() == DeleteStep(old(State()), index, freshId)
      ensures old(ActiveExists(allChats, activeChatId)) ==> Valid()
    {
      DeleteStepFacts(State(), index, freshId);
      var chatId := allChats[index].id;
      assert allChats[index].id != freshId;
      var remaining := RemoveChat(allChats, chatId);
      if activeChatId == Some(chatId) && |remaining| == 0 {
        DeleteStepRestart(State(), index, freshId);
        allChats := remaining;
        NewChat(userName, true, freshId);
      } else {
        allChats := remaining;
        if activeChatId == Some(chatId) {
          activeChatId := Some(remaining[0].id);
        }
        store := Sync(store, allChats);
      }
    }

    /** A click on the chat at position index of the list: it becomes active and the sidebar closes. */
    method SelectChat(index: nat)
      requires index < |allChats|
      modifies this
      ensures allChats == old(allChats) && store == old(store) && userName == old(userName)
      ensures activeChatId == Some(allChats[index].id) && !isSidebarOpen
      ensures userInput == old(userInput) && isLoading == old(isLoading)
      ensures old(Persisted(store, allChats)) ==> Valid()
    {
      activeChatId := Some(allChats[index].id);
      isSidebarOpen := false;
    }

    /** The sidebar button flips the sidebar. */
    method ToggleSidebar()
      modifies this
      ensures isSidebarOpen == !old(isSidebarOpen)
      ensures allChats == old(allChats) && activeChatId == old(activeChatId) && store == old(store)
      ensures userName == old(userName) && userInput == old(userInput) && isLoading == old(isLoading)
    {
      isSidebarOpen := !isSidebarOpen;
    }

    /** Typing into the input field. */
    method SetUserInput(text: string)
      modifies this
      ensures userInput == text
      ensures allChats == old(allChats) && activeChatId == old(activeChatId) && store == old(store)
      ensures userName == old(userName) && isSidebarOpen == old(isSidebarOpen) && isLoading == old(isLoading)
    {
      userInput := text;
    }

    /** `handleNameSubmission(name)`, run on the current state. */
    method NameSubmission(name: string)
      modifies this
      ensures State() == NameStep(old(State()), name)
      ensures old(Valid()) ==> Valid()
    {
      ghost var p := State();
      ghost var q := NameStep(p, name);
      ghost var valid := PageValid(p);
      if valid {
        NameStepValid(p, name);
      }
      var nickname := Nickname(name);
      userName := nickname;
      store := store[NameKey := Text(nickname)];
      var greeting := Greeting(nickname);
      allChats := UpdateActiveChat(allChats, activeChatId, Some(Message("bot", greeting)), None);
      store := Sync(store, allChats);
      assert userName == q.userName;
      assert allChats == q.allChats;
      assert store == q.store;
    }

    /**
     * `handleSendMessage` with the outcome of the completion request; the
     * request it would post is its result.
     */
    method SendMessage(outcome: Completion) returns (request: Option<Request>)
      modifies this
      ensures State() == SendPage(old(State()), outcome) && request == SendRequest(old(State()))
      ensures old(Valid()) ==> Valid() && !isLoading
    {
      SendPageKeeps(State(), outcome);
      isLoading := true;
      var user := Message("user", userInput);
      var activeChat := FindChat(allChats, activeChatId);
      if activeChat.None? {
        return None;
      }
      var newTitle := NewTitle(activeChat.value.messages, userInput);
      allChats := UpdateActiveChat(allChats, activeChatId, Some(user), newTitle);
      var conversation := activeChat.value.messages + [user];
      request := Some(Request(userName, ToContents(conversation)));
      var reply := Reply(outcome, userName);
      allChats := UpdateActiveChat(allChats, activeChatId, Some(reply), None);
      isLoading := false;
      store := Sync(store, allChats);
    }

    /** `handleSubmit`: the guard, then the name path or the send path, then the input is cleared. */
    method Submit(outcome: Completion) returns (request: Option<Request>)
      modifies this
      ensures State() == SubmitPage(old(State()), outcome) && request == SubmitRequest(old(State()))
      ensures old(Valid()) ==> Valid()
    {
      if Valid() {
        SubmitKeeps(State(), outcome);
      }
      if SubmitIgnored(State()) {
        return None;
      }
      ghost var p := State();
      if userName == [] {
        NameSubmission(userInput);
        request := None;
        userInput := [];
        assert State() == NameStep(p, p.userInput).(userInput := []);
      } else {
        request := SendMessage(outcome);
        userInput := [];
        assert State() == SendPage(p, outcome).(userInput := []);
      }
    }
  }
}
