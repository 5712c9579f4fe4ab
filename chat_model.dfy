/**
 * The pure part of the Nerd AI chat page: its records (messages, chats, the
 * request sent to the completion service, the values kept in the browser's
 * key-value store) and the expressions the page's handlers evaluate.
 *
 * Strings are sequences of Unicode scalar values; JavaScript counts UTF-16
 * code units, which differ only for characters outside the Basic
 * Multilingual Plane.
 */
module ChatModel {
  import opened Wrappers

  /** One transcript entry: `role` is "user" or "bot" for entries the page writes. */
  datatype Message = Message(role: string, content: string)

  datatype Chat = Chat(id: int, title: string, messages: seq<Message>)

  /** The outcome of the completion request: the reply text, or any error. */
  datatype Completion = Success(text: string) | Failure

  /** One entry of the request's `contents`: a role and the text of its only part. */
  datatype Content = Content(role: string, text: string)

  /**
   * The body of the completion request: the contents, and the user name its
   * system instruction is built from (the instruction's text is
   * `SystemPrompt(userName)`).
   */
  datatype Request = Request(userName: string, contents: seq<Content>)

  /**
   * A value of the key-value store: a plain string, or the JSON text of a
   * list of chats. `Text` under the chats key stands for text that is not
   * JSON, on which `JSON.parse` throws.
   */
  datatype StoreValue = Text(text: string) | ChatList(chats: seq<Chat>)

  type Store = map<string, StoreValue>

  const NameKey := "nerd-ai-username"
  const ChatsKey := "nerd-ai-chats"
  const NewChatTitle := "New Conversation"
  /** Titles derived from a first message keep this many characters. */
  const TitleLength := 30

  // The fixed phrases of the page's messages and of the system instruction.
  const PromptHead := "You are Nerd AI, a friendly and encouraging programming tutor. You were created by Quaigraine. You are currently chatting with "
  const PromptTail := ". Always address them by their name. Keep your tone patient, welcoming, and slightly informal. Break down complex topics into simple, bite-sized pieces."
  const GreetingTail := "! It's so nice to meet you. What programming topic is on your mind today?"
  const FailureTail := "! Something went wrong on my end. Please check the console for errors."
  const OpeningTail := ", let's start a fresh topic! What's on your mind?"
  const Introduction := "Hey there! I'm Nerd, your personal AI companion. Quaigraine asked me to help you learn. To make things a bit more friendly, what's your name?"

  // ---------------------------------------------------------------------
  // String.prototype.trim and toLowerCase

  /** The characters `trim` removes: ECMAScript WhiteSpace and LineTerminator. */
  predicate IsJsSpace(c: char) {
    c == '\t' || c == '\n' || c == '\U{000B}' || c == '\U{000C}' || c == '\r' || c == ' '
    || c == '\U{00A0}' || c == '\U{1680}' || ('\U{2000}' <= c <= '\U{200A}')
    || c == '\U{2028}' || c == '\U{2029}' || c == '\U{202F}' || c == '\U{205F}'
    || c == '\U{3000}' || c == '\U{FEFF}'
  }

  predicate AllSpace(s: string) {
    forall k | 0 <= k < |s| :: IsJsSpace(s[k])
  }

  /** `s` without its leading white space: a suffix of s. */
  function TrimStart(s: string): (r: string)
    ensures |r| <= |s| && r == s[|s| - |r|..]
    ensures AllSpace(s[..|s| - |r|])
    ensures r != [] ==> !IsJsSpace(r[0])
  {
    if s != [] && IsJsSpace(s[0]) then
      var r := TrimStart(s[1..]);
      assert s[..|s| - |r|] == [s[0]] + s[1..][..|s[1..]| - |r|];
      r
    else s
  }

  /** `s` without its trailing white space: a prefix of s. */
  function TrimEnd(s: string): (r: string)
    ensures |r| <= |s| && r == s[..|r|]
    ensures AllSpace(s[|r|..])
    ensures r != [] ==> !IsJsSpace(r[|r| - 1])
  {
    if s != [] && IsJsSpace(s[|s| - 1]) then
      var r := TrimEnd(s[..|s| - 1]);
      assert s[|r|..] == s[..|s| - 1][|r|..] + [s[|s| - 1]];
      r
    else s
  }

  /** `s.trim()`: the part of s between its leading and its trailing white space. */
  function Trim(s: string): (r: string)
    ensures |r| <= |s|
    ensures r != [] ==> !IsJsSpace(r[0]) && !IsJsSpace(r[|r| - 1])
  {
    TrimEnd(TrimStart(s))
  }

  /** The trim is a slice of s, with only white space before and after it. */
  lemma TrimSlice(s: string)
    ensures var r := Trim(s);
            exists i | 0 <= i <= |s| - |r| :: s[i..i + |r|] == r && AllSpace(s[..i]) && AllSpace(s[i + |r|..])
  {
    var t := TrimStart(s);
    TrimSliceAt(s, t, TrimEnd(t), |s| - |t|);
  }

  lemma TrimSliceAt(s: string, t: string, r: string, i: nat)
    requires i <= |s| && t == s[i..] && AllSpace(s[..i])
    requires |r| <= |t| && r == t[..|r|] && AllSpace(t[|r|..])
    ensures i + |r| <= |s| && s[i..i + |r|] == r && AllSpace(s[..i]) && AllSpace(s[i + |r|..])
  {
    assert s[i..i + |r|] == t[..|r|];
    assert s[i + |r|..] == t[|r|..];
  }

  /** A string that neither starts nor ends with white space is its own trim. */
  lemma TrimUnchanged(s: string)
    requires s != [] ==> !IsJsSpace(s[0]) && !IsJsSpace(s[|s| - 1])
    ensures Trim(s) == s
  {
  }

  /** `trim` is idempotent. */
  lemma TrimIdempotent(s: string)
    ensures Trim(Trim(s)) == Trim(s)
  {
    TrimUnchanged(Trim(s));
  }

  lemma AllSpaceSplit(s: string, k: nat)
    requires k <= |s| && AllSpace(s[..k]) && AllSpace(s[k..])
    ensures AllSpace(s)
  {
    forall i | 0 <= i < |s| ensures IsJsSpace(s[i]) {
      if i < k {
        assert s[..k][i] == s[i];
      } else {
        assert s[k..][i - k] == s[i];
      }
    }
  }

  lemma EmptyTrimEndBlank(t: string)
    requires |TrimEnd(t)| == 0
    ensures AllSpace(t)
  {
    assert t[0..] == t;
  }

  lemma BlankTrimEmpty(s: string)
    requires AllSpace(s)
    ensures Trim(s) == []
  {
  }

  /** `!s.trim()`: the trim is empty exactly when s is all white space. */
  lemma TrimBlank(s: string)
    ensures Trim(s) == [] <==> AllSpace(s)
  {
    var t := TrimStart(s);
    if |TrimEnd(t)| == 0 {
      EmptyTrimEndBlank(t);
      AllSpaceSplit(s, |s| - |t|);
    } else if AllSpace(s) {
      BlankTrimEmpty(s);
    }
  }

  /**
   * Case folding of ASCII letters. Outside ASCII only the Kelvin sign
   * lower-cases to an ASCII letter ('k'), and no alias key holds a 'k', so
   * every comparison with an alias key comes out as with full Unicode folding.
   */
  function LowerChar(c: char): (l: char)
    ensures 'A' <= c <= 'Z' ==> 'a' <= l <= 'z' && l as int == c as int + 32
    ensures !('A' <= c <= 'Z') ==> l == c
  {
    if 'A' <= c <= 'Z' then (c as int + 32) as char else c
  }

  /** `s.toLowerCase()`, character by character. */
  function ToLower(s: string): (r: string)
    ensures |r| == |s|
    ensures forall i | 0 <= i < |s| :: r[i] == LowerChar(s[i])
  {
    if s == [] then [] else [LowerChar(s[0])] + ToLower(s[1..])
  }

  // ---------------------------------------------------------------------
  // handleNameSubmission: the nickname

  const DerbyKey := "derborah"
  const DerbyAlias := "Derby"
  const LessyKey := "blessing"
  const LessyAlias := "lessy"

  /** `s.toLowerCase() === key`, compared character by character. */
  predicate LowerEquals(s: string, key: string) {
    if s == [] then key == []
    else key != [] && LowerChar(s[0]) == key[0] && LowerEquals(s[1..], key[1..])
  }

  lemma {:induction false} LowerEqualsToLower(s: string, key: string)
    ensures LowerEquals(s, key) <==> ToLower(s) == key
  {
    if s != [] && key != [] {
      LowerEqualsToLower(s[1..], key[1..]);
      var t := ToLower(s);
      assert t == [LowerChar(s[0])] + ToLower(s[1..]);
      if t == key {
        assert key[1..] == t[1..];
      }
    }
  }

  /**
   * The name the page keeps: the trimmed input, with two aliases applied in
   * turn, each matched on the lower-cased name.
   */
  function Nickname(name: string): string {
    var nickname := Trim(name);
    var nickname := if LowerEquals(nickname, DerbyKey) then DerbyAlias else nickname;
    if LowerEquals(nickname, LessyKey) then LessyAlias else nickname
  }

  /** The aliases, stated on the lower-cased trimmed name. */
  lemma NicknameCases(name: string)
    ensures ToLower(Trim(name)) == DerbyKey ==> Nickname(name) == DerbyAlias
    ensures ToLower(Trim(name)) == LessyKey ==> Nickname(name) == LessyAlias
    ensures ToLower(Trim(name)) != DerbyKey && ToLower(Trim(name)) != LessyKey ==> Nickname(name) == Trim(name)
  {
    LowerEqualsToLower(Trim(name), DerbyKey);
    LowerEqualsToLower(Trim(name), LessyKey);
    assert !LowerEquals(DerbyAlias, LessyKey);
  }

  /** A nickname is empty exactly when the submitted name is blank. */
  lemma NicknameNonEmpty(name: string)
    ensures Nickname(name) != [] <==> !AllSpace(name)
  {
    TrimBlank(name);
  }

  // ---------------------------------------------------------------------
  // handleSendMessage: the title of a conversation

  /** `input.substring(0, 30) + (input.length > 30 ? '...' : '')`. */
  function DeriveTitle(input: string): (r: string)
    ensures |input| <= TitleLength ==> r == input
    ensures |input| > TitleLength ==>
              (|r| == TitleLength + 3 && r[..TitleLength] == input[..TitleLength] && r[TitleLength..] == "...")
  {
    if |input| <= TitleLength then input else input[..TitleLength] + "..."
  }

  /** The title is never longer than 33 characters, and is empty only for an empty input. */
  lemma TitleBounds(input: string)
    ensures |DeriveTitle(input)| <= TitleLength + 3
    ensures DeriveTitle(input) == [] <==> input == []
  {
  }

  predicate HasUserMessage(messages: seq<Message>) {
    exists i | 0 <= i < |messages| :: messages[i].role == "user"
  }

  /** The title a send proposes: only a conversation's first user message names it. */
  function NewTitle(messages: seq<Message>, input: string): (t: Option<string>)
    ensures t.Some? <==> !HasUserMessage(messages)
    ensures t.Some? ==> t.value == DeriveTitle(input)
  {
    if HasUserMessage(messages) then None else Some(DeriveTitle(input))
  }

  /** After one send, a conversation holds a user message, so later sends keep its title. */
  lemma TitleSetOnce(messages: seq<Message>, input: string, reply: Message, next: string)
    ensures NewTitle(messages + [Message("user", input), reply], next) == None
  {
    var m := messages + [Message("user", input), reply];
    assert m[|messages|].role == "user";
  }

  // ---------------------------------------------------------------------
  // updateActiveChat

  /** The new title of an updated chat: JavaScript's `newTitle || chat.title`. */
  function TitleOr(newTitle: Option<string>, title: string): string {
    if newTitle.Some? && newTitle.value != [] then newTitle.value else title
  }

  /** The added messages: none, or the one given (`newMessage ? [...] : ...`). */
  function Added(newMessage: Option<Message>): (r: seq<Message>)
    ensures |r| <= 1 && (|r| == 1 <==> newMessage.Some?)
    ensures forall i | 0 <= i < |r| :: Some(r[i]) == newMessage
  {
    if newMessage.Some? then [newMessage.value] else []
  }

  /**
   * The collection after `updateActiveChat(chatId, newMessage, newTitle)`:
   * the same chats in the same order, each chat with that id extended by the
   * message and retitled, every other chat as it was.
   */
  function UpdateActiveChat(chats: seq<Chat>, chatId: Option<int>, newMessage: Option<Message>,
                            newTitle: Option<string>): (r: seq<Chat>)
    ensures |r| == |chats|
  {
    if chats == [] then []
    else
      var c := chats[0];
      var head := if Some(c.id) == chatId then Chat(c.id, TitleOr(newTitle, c.title), c.messages + Added(newMessage)) else c;
      [head] + UpdateActiveChat(chats[1..], chatId, newMessage, newTitle)
  }

  /** The update chat by chat: ids and order kept, the matching chats extended and retitled, the rest unchanged. */
  lemma {:induction false} UpdateActiveChatShape(chats: seq<Chat>, chatId: Option<int>, newMessage: Option<Message>,
                                                 newTitle: Option<string>)
    ensures var r := UpdateActiveChat(chats, chatId, newMessage, newTitle);
            forall i | 0 <= i < |chats| :: r[i].id == chats[i].id
    ensures var r := UpdateActiveChat(chats, chatId, newMessage, newTitle);
            forall i | 0 <= i < |chats| && Some(chats[i].id) != chatId :: r[i] == chats[i]
    ensures var r := UpdateActiveChat(chats, chatId, newMessage, newTitle);
            forall i | 0 <= i < |chats| && Some(chats[i].id) == chatId ::
              r[i].messages == chats[i].messages + Added(newMessage)
              && r[i].title == TitleOr(newTitle, chats[i].title)
  {
    if chats != [] {
      UpdateActiveChatShape(chats[1..], chatId, newMessage, newTitle);
      var r := UpdateActiveChat(chats, chatId, newMessage, newTitle);
      var tail := UpdateActiveChat(chats[1..], chatId, newMessage, newTitle);
      forall i | 0 < i < |chats| ensures r[i] == tail[i - 1] && chats[i] == chats[1..][i - 1] {
      }
    }
  }

  /** An update keeps the set of ids, so the active id still names a chat. */
  lemma UpdateKeepsActive(chats: seq<Chat>, chatId: Option<int>, newMessage: Option<Message>,
                          newTitle: Option<string>, active: Option<int>)
    ensures ActiveExists(UpdateActiveChat(chats, chatId, newMessage, newTitle), active)
            <==> ActiveExists(chats, active)
  {
    var r := UpdateActiveChat(chats, chatId, newMessage, newTitle);
    UpdateActiveChatShape(chats, chatId, newMessage, newTitle);
    if ActiveExists(chats, active) {
      var i :| 0 <= i < |chats| && chats[i].id == active.value;
      assert r[i].id == active.value;
    }
    if ActiveExists(r, active) {
      var i :| 0 <= i < |r| && r[i].id == active.value;
      assert chats[i].id == active.value;
    }
  }

  /** An update keeps the ids distinct. */
  lemma UpdateKeepsUniqueIds(chats: seq<Chat>, chatId: Option<int>, newMessage: Option<Message>,
                             newTitle: Option<string>)
    requires UniqueIds(chats)
    ensures UniqueIds(UpdateActiveChat(chats, chatId, newMessage, newTitle))
  {
    var r := UpdateActiveChat(chats, chatId, newMessage, newTitle);
    UpdateActiveChatShape(chats, chatId, newMessage, newTitle);
    forall i, j | 0 <= i < j < |r| ensures r[i].id != r[j].id {
      assert r[i].id == chats[i].id && r[j].id == chats[j].id;
    }
  }

  /**
   * The collection after a send from the active chat `found`: the user's
   * message, with the title the send proposes, then the bot's reply.
   */
  function SendChats(chats: seq<Chat>, active: Option<int>, found: Chat, input: string, reply: Message): seq<Chat> {
    var user := Message("user", input);
    UpdateActiveChat(UpdateActiveChat(chats, active, Some(user), NewTitle(found.messages, input)), active, Some(reply), None)
  }

  /**
   * A send leaves the collection's order and every other chat alone; each
   * chat with the active id gains the user's message and then the reply, and
   * takes the derived title exactly when the active chat held no user message.
   */
  lemma SendChatsShape(chats: seq<Chat>, active: Option<int>, found: Chat, input: string, reply: Message)
    ensures var r := SendChats(chats, active, found, input, reply);
            |r| == |chats|
            && (forall i | 0 <= i < |chats| :: r[i].id == chats[i].id)
            && (forall i | 0 <= i < |chats| && Some(chats[i].id) != active :: r[i] == chats[i])
            && (forall i | 0 <= i < |chats| && Some(chats[i].id) == active ::
                  r[i].messages == chats[i].messages + [Message("user", input), reply]
                  && r[i].title == (if HasUserMessage(found.messages) || input == [] then chats[i].title
                                    else DeriveTitle(input)))
  {
    var user := Message("user", input);
    var t := NewTitle(found.messages, input);
    var middle := UpdateActiveChat(chats, active, Some(user), t);
    var r := UpdateActiveChat(middle, active, Some(reply), None);
    UpdateActiveChatShape(chats, active, Some(user), t);
    UpdateActiveChatShape(middle, active, Some(reply), None);
    forall i | 0 <= i < |chats| && Some(chats[i].id) == active
      ensures r[i].messages == chats[i].messages + [user, reply]
    {
      assert middle[i].messages == chats[i].messages + [user];
    }
    TitleBounds(input);
  }

  /** A send keeps the active chat and the distinct ids. */
  lemma SendChatsKeeps(chats: seq<Chat>, active: Option<int>, found: Chat, input: string, reply: Message)
    ensures ActiveExists(SendChats(chats, active, found, input, reply), active) <==> ActiveExists(chats, active)
    ensures UniqueIds(chats) ==> UniqueIds(SendChats(chats, active, found, input, reply))
  {
    var user := Message("user", input);
    var t := NewTitle(found.messages, input);
    var middle := UpdateActiveChat(chats, active, Some(user), t);
    UpdateKeepsActive(chats, active, Some(user), t, active);
    UpdateKeepsActive(middle, active, Some(reply), None, active);
    if UniqueIds(chats) {
      UpdateKeepsUniqueIds(chats, active, Some(user), t);
      UpdateKeepsUniqueIds(middle, active, Some(reply), None);
    }
  }

  // ---------------------------------------------------------------------
  // handleDeleteChat and handleNewChat

  /** `allChats.filter(chat => chat.id !== chatId)`. */
  function RemoveChat(chats: seq<Chat>, chatId: int): (r: seq<Chat>)
    ensures |r| <= |chats|
  {
    if chats == [] then []
    else if chats[0].id != chatId then [chats[0]] + RemoveChat(chats[1..], chatId)
    else RemoveChat(chats[1..], chatId)
  }

  /** The survivors are exactly the chats whose id differs from chatId. */
  lemma RemoveChatMembers(chats: seq<Chat>, chatId: int)
    ensures var r := RemoveChat(chats, chatId);
            forall i | 0 <= i < |r| :: r[i].id != chatId && r[i] in chats
    ensures var r := RemoveChat(chats, chatId);
            forall i | 0 <= i < |chats| && chats[i].id != chatId :: chats[i] in r
  {
    RemoveChatSurvivors(chats, chatId);
    RemoveChatKeeps(chats, chatId);
  }

  lemma {:induction false} RemoveChatSurvivors(chats: seq<Chat>, chatId: int)
    ensures forall i | 0 <= i < |RemoveChat(chats, chatId)| ::
              RemoveChat(chats, chatId)[i].id != chatId && RemoveChat(chats, chatId)[i] in chats
  {
    if chats != [] {
      var rest := chats[1..];
      var tail := RemoveChat(rest, chatId);
      RemoveChatSurvivors(rest, chatId);
      assert chats == [chats[0]] + rest;
      SurvivorsCons(chats[0], rest, tail, chatId);
    }
  }

  lemma SurvivorsCons(c: Chat, rest: seq<Chat>, tail: seq<Chat>, chatId: int)
    requires forall i | 0 <= i < |tail| :: tail[i].id != chatId && tail[i] in rest
    ensures var r := (if c.id != chatId then [c] else []) + tail;
            forall i | 0 <= i < |r| :: r[i].id != chatId && r[i] in [c] + rest
  {
    var r := (if c.id != chatId then [c] else []) + tail;
    var h := |r| - |tail|;
    forall i | 0 <= i < |r| ensures r[i].id != chatId && r[i] in [c] + rest {
      if i >= h {
        assert r[i] == tail[i - h];
        assert tail[i - h] in rest;
      }
    }
  }

  lemma {:induction false} RemoveChatKeeps(chats: seq<Chat>, chatId: int)
    ensures forall i | 0 <= i < |chats| && chats[i].id != chatId :: chats[i] in RemoveChat(chats, chatId)
  {
    if chats != [] {
      var rest := chats[1..];
      var tail := RemoveChat(rest, chatId);
      RemoveChatKeeps(rest, chatId);
      assert chats == [chats[0]] + rest;
      KeepsCons(chats[0], rest, tail, chatId);
    }
  }

  lemma KeepsCons(c: Chat, rest: seq<Chat>, tail: seq<Chat>, chatId: int)
    requires forall i | 0 <= i < |rest| && rest[i].id != chatId :: rest[i] in tail
    ensures var chats, r := [c] + rest, (if c.id != chatId then [c] else []) + tail;
            forall i | 0 <= i < |chats| && chats[i].id != chatId :: chats[i] in r
  {
    var chats, r := [c] + rest, (if c.id != chatId then [c] else []) + tail;
    forall i | 0 <= i < |chats| && chats[i].id != chatId ensures chats[i] in r {
      if i > 0 {
        assert chats[i] == rest[i - 1];
        assert rest[i - 1] in tail;
      }
    }
  }

  /** One step of the filter: the head survives exactly when its id differs. */
  lemma RemoveChatCons(c: Chat, rest: seq<Chat>, chatId: int)
    ensures RemoveChat([c] + rest, chatId) == (if c.id != chatId then [c] else []) + RemoveChat(rest, chatId)
  {
    assert ([c] + rest)[0] == c && ([c] + rest)[1..] == rest;
  }

  /** The filter distributes over a concatenation whose left part starts with c, given that it does over the rest. */
  lemma RemoveChatAppendCons(c: Chat, rest: seq<Chat>, b: seq<Chat>, chatId: int)
    requires RemoveChat(rest + b, chatId) == RemoveChat(rest, chatId) + RemoveChat(b, chatId)
    ensures RemoveChat([c] + rest + b, chatId) == RemoveChat([c] + rest, chatId) + RemoveChat(b, chatId)
  {
    var head := if c.id != chatId then [c] else [];
    var x, y := RemoveChat(rest, chatId), RemoveChat(b, chatId);
    assert [c] + rest + b == [c] + (rest + b);
    RemoveChatCons(c, rest + b, chatId);
    RemoveChatCons(c, rest, chatId);
    assert head + (x + y) == head + x + y;
  }

  /** The survivors keep their relative order: the filter distributes over concatenation. */
  lemma {:induction false} RemoveChatAppend(a: seq<Chat>, b: seq<Chat>, chatId: int)
    ensures RemoveChat(a + b, chatId) == RemoveChat(a, chatId) + RemoveChat(b, chatId)
  {
    if a == [] {
      assert a + b == b;
    } else {
      RemoveChatAppend(a[1..], b, chatId);
      RemoveChatAppendCons(a[0], a[1..], b, chatId);
      assert a == [a[0]] + a[1..];
    }
  }

  /** Removing an id no chat carries changes nothing. */
  lemma {:induction false} RemoveChatAbsent(chats: seq<Chat>, chatId: int)
    requires forall i | 0 <= i < |chats| :: chats[i].id != chatId
    ensures RemoveChat(chats, chatId) == chats
  {
    if chats != [] {
      RemoveChatAbsent(chats[1..], chatId);
    }
  }

  /** The bot's opening message of a new chat, personal when a name is known. */
  function Opening(name: string): string {
    if name != [] then "Alright " + name + OpeningTail
    else Introduction
  }

  /** The chat `handleNewChat(name)` creates, with the fresh id the caller supplies. */
  function FreshChat(name: string, id: int): (c: Chat)
    ensures c.id == id && c.title == NewChatTitle && |c.messages| == 1 && c.messages[0].role == "bot"
    ensures !HasUserMessage(c.messages)
  {
    Chat(id, NewChatTitle, [Message("bot", Opening(name))])
  }

  /** The chats carry pairwise distinct ids. */
  predicate UniqueIds(chats: seq<Chat>) {
    forall i, j | 0 <= i < j < |chats| :: chats[i].id != chats[j].id
  }

  predicate HasId(chats: seq<Chat>, id: int) {
    exists i | 0 <= i < |chats| :: chats[i].id == id
  }

  /** The active id names a chat of the collection. */
  predicate ActiveExists(chats: seq<Chat>, active: Option<int>) {
    active.Some? && HasId(chats, active.value)
  }

  /**
   * The collection after deleting chatId, when the active chat was the last
   * one: a new chat stands alone. When other chats survive, they remain.
   */
  function ChatsAfterDelete(chats: seq<Chat>, active: Option<int>, chatId: int, name: string,
                            freshId: int): (r: seq<Chat>)
    requires freshId != chatId
    ensures forall i | 0 <= i < |r| :: r[i].id != chatId
  {
    RemoveChatMembers(chats, chatId);
    var remaining := RemoveChat(chats, chatId);
    if active == Some(chatId) && remaining == [] then [FreshChat(name, freshId)] else remaining
  }

  /** The active id after deleting chatId. */
  function ActiveAfterDelete(chats: seq<Chat>, active: Option<int>, chatId: int, freshId: int): Option<int> {
    var remaining := RemoveChat(chats, chatId);
    if active != Some(chatId) then active
    else if remaining != [] then Some(remaining[0].id)
    else Some(freshId)
  }

  /**
   * Deleting keeps the active id naming an existing chat: it stays when
   * another chat was deleted, and moves to the first survivor or to the new
   * chat otherwise.
   */
  lemma DeleteKeepsActive(chats: seq<Chat>, active: Option<int>, chatId: int, name: string, freshId: int)
    requires freshId != chatId && ActiveExists(chats, active)
    ensures ActiveExists(ChatsAfterDelete(chats, active, chatId, name, freshId),
                         ActiveAfterDelete(chats, active, chatId, freshId))
  {
    var remaining := RemoveChat(chats, chatId);
    var r := ChatsAfterDelete(chats, active, chatId, name, freshId);
    RemoveChatMembers(chats, chatId);
    if active != Some(chatId) {
      var i :| 0 <= i < |chats| && chats[i].id == active.value;
      var k :| 0 <= k < |remaining| && remaining[k] == chats[i];
      assert r[k].id == active.value;
    } else if remaining != [] {
      assert r[0].id == remaining[0].id;
    } else {
      assert r[0].id == freshId;
    }
  }

  /** A delete keeps the ids distinct when the new chat's id is fresh. */
  lemma DeleteKeepsUniqueIds(chats: seq<Chat>, active: Option<int>, chatId: int, name: string, freshId: int)
    requires freshId != chatId && UniqueIds(chats)
    ensures UniqueIds(ChatsAfterDelete(chats, active, chatId, name, freshId))
  {
    RemoveChatUnique(chats, chatId);
  }

  /** The ids of a tail are distinct when those of the whole are. */
  lemma TailUnique(chats: seq<Chat>)
    requires chats != [] && UniqueIds(chats)
    ensures UniqueIds(chats[1..])
  {
    var rest := chats[1..];
    forall i, j | 0 <= i < j < |rest| ensures rest[i].id != rest[j].id {
      assert rest[i] == chats[i + 1] && rest[j] == chats[j + 1];
    }
  }

  /** A chat whose id no chat of tail carries keeps the ids distinct in front of it. */
  lemma ConsUnique(c: Chat, tail: seq<Chat>)
    requires UniqueIds(tail) && forall k | 0 <= k < |tail| :: tail[k].id != c.id
    ensures UniqueIds([c] + tail)
  {
    var r := [c] + tail;
    forall i, j | 0 <= i < j < |r| ensures r[i].id != r[j].id {
      assert r[j] == tail[j - 1];
      if i > 0 {
        assert r[i] == tail[i - 1];
      }
    }
  }

  /** The head's id is not carried by any survivor of the tail. */
  lemma HeadNotInFilteredTail(chats: seq<Chat>, chatId: int)
    requires chats != [] && UniqueIds(chats)
    ensures forall k | 0 <= k < |RemoveChat(chats[1..], chatId)| :: RemoveChat(chats[1..], chatId)[k].id != chats[0].id
  {
    var tail := RemoveChat(chats[1..], chatId);
    RemoveChatMembers(chats[1..], chatId);
    forall k | 0 <= k < |tail| ensures tail[k].id != chats[0].id {
      var j :| 0 <= j < |chats[1..]| && chats[1..][j] == tail[k];
      assert chats[j + 1] == tail[k];
    }
  }

  lemma {:induction false} RemoveChatUnique(chats: seq<Chat>, chatId: int)
    requires UniqueIds(chats)
    ensures UniqueIds(RemoveChat(chats, chatId))
  {
    if chats != [] {
      TailUnique(chats);
      RemoveChatUnique(chats[1..], chatId);
      if chats[0].id != chatId {
        HeadNotInFilteredTail(chats, chatId);
        ConsUnique(chats[0], RemoveChat(chats[1..], chatId));
      }
    }
  }

  /**
   * The collection `handleDeleteChat` leaves as written: `handleNewChat`
   * prepends onto the collection the handler was created with, and that
   * later write replaces the filtered one.
   */
  function ChatsAfterDeleteAsWritten(chats: seq<Chat>, active: Option<int>, chatId: int, name: string,
                                     freshId: int): (r: seq<Chat>)
    ensures active == Some(chatId) && RemoveChat(chats, chatId) == [] ==> r == [FreshChat(name, freshId)] + chats
  {
    var remaining := RemoveChat(chats, chatId);
    if active == Some(chatId) && remaining == [] then [FreshChat(name, freshId)] + chats else remaining
  }

  /** As written, deleting the only, active chat leaves that chat in the collection. */
  lemma DeletedChatReappears(c: Chat, name: string, freshId: int)
    requires freshId != c.id
    ensures RemoveChat([c], c.id) == []
    ensures HasId(ChatsAfterDeleteAsWritten([c], Some(c.id), c.id, name, freshId), c.id)
    ensures !HasId(ChatsAfterDelete([c], Some(c.id), c.id, name, freshId), c.id)
  {
    assert RemoveChat([c], c.id) == RemoveChat([], c.id);
    var r := ChatsAfterDeleteAsWritten([c], Some(c.id), c.id, name, freshId);
    assert r[1] == c;
  }

  // ---------------------------------------------------------------------
  // The send path: find, the request, the replies

  /** `chats.find(chat => chat.id === active)`: a chat with the active id, when there is one. */
  function FindChat(chats: seq<Chat>, active: Option<int>): (r: Option<Chat>)
    ensures r.None? <==> (active.None? || !HasId(chats, active.value))
    ensures r.Some? ==> Some(r.value.id) == active
  {
    if chats == [] then None
    else if Some(chats[0].id) == active then Some(chats[0])
    else
      assert active.Some? ==> (HasId(chats, active.value) <==> HasId(chats[1..], active.value)) by {
        if active.Some? && HasId(chats, active.value) {
          var i :| 0 <= i < |chats| && chats[i].id == active.value;
          assert chats[1..][i - 1] == chats[i];
        }
        if active.Some? && HasId(chats[1..], active.value) {
          var i :| 0 <= i < |chats[1..]| && chats[1..][i].id == active.value;
          assert chats[i + 1] == chats[1..][i];
        }
      }
      FindChat(chats[1..], active)
  }

  /** The chat found is the first one with the active id. */
  lemma {:induction false} FindChatFirst(chats: seq<Chat>, active: Option<int>)
    ensures var r := FindChat(chats, active);
            r.Some? ==> exists i | 0 <= i < |chats| :: chats[i] == r.value && !HasId(chats[..i], active.value)
  {
    if chats != [] {
      if Some(chats[0].id) == active {
        assert chats[..0] == [];
      } else {
        FindChatFirst(chats[1..], active);
        var r := FindChat(chats[1..], active);
        if r.Some? {
          var i :| 0 <= i < |chats[1..]| && chats[1..][i] == r.value && !HasId(chats[1..][..i], active.value);
          assert chats[..i + 1] == [chats[0]] + chats[1..][..i];
          assert chats[i + 1] == r.value;
        }
      }
    }
  }

  /** The role of a transcript entry in the request: "user" stays, any other becomes "model". */
  function RequestRole(role: string): (r: string)
    ensures r == "user" || r == "model"
    ensures r == "user" <==> role == "user"
  {
    if role == "user" then "user" else "model"
  }

  /** The request's `contents`: the transcript in order, role by role and text by text. */
  function ToContents(messages: seq<Message>): (r: seq<Content>)
    ensures |r| == |messages|
    ensures forall i | 0 <= i < |messages| :: r[i].role == RequestRole(messages[i].role)
                                            && r[i].text == messages[i].content
  {
    if messages == [] then []
    else [Content(RequestRole(messages[0].role), messages[0].content)] + ToContents(messages[1..])
  }

  /** The payload map is a map: it distributes over concatenation. */
  lemma {:induction false} ToContentsAppend(a: seq<Message>, b: seq<Message>)
    ensures ToContents(a + b) == ToContents(a) + ToContents(b)
  {
    if a != [] {
      assert (a + b)[1..] == a[1..] + b;
      ToContentsAppend(a[1..], b);
    }
  }

  /** The system instruction, which tells the model who it talks to. */
  function SystemPrompt(userName: string): (r: string)
    ensures |r| == |PromptHead| + |userName| + |PromptTail|
    ensures r[|PromptHead|..|PromptHead| + |userName|] == userName
  {
    PromptHead + userName + PromptTail
  }

  function Greeting(nickname: string): string {
    "Hey " + nickname + GreetingTail
  }

  function FailureText(userName: string): string {
    "Oh no, " + userName + FailureTail
  }

  /** The bot's answer to a send: the reply text, or the apology when the request failed. */
  function Reply(outcome: Completion, userName: string): (m: Message)
    ensures m.role == "bot"
    ensures outcome.Success? ==> m.content == outcome.text
    ensures outcome.Failure? ==> m.content == FailureText(userName)
  {
    match outcome
    case Success(text) => Message("bot", text)
    case Failure => Message("bot", FailureText(userName))
  }

  // ---------------------------------------------------------------------
  // The store

  /** The value `localStorage.getItem('nerd-ai-username') || ''` reads. */
  function StoredName(store: Store): string
    requires NameKey in store ==> store[NameKey].Text?
  {
    if NameKey in store then store[NameKey].text else ""
  }

  /** No chats stored yet, or the JSON list of chats under their key. */
  predicate ChatsReadable(store: Store) {
    ChatsKey in store ==> store[ChatsKey].ChatList?
  }

  /** `JSON.parse(localStorage.getItem('nerd-ai-chats')) || []`, when the entry parses. */
  function SavedChats(store: Store): seq<Chat>
    requires ChatsReadable(store)
  {
    if ChatsKey in store then store[ChatsKey].chats else []
  }

  /**
   * The store after the save effect: the chats under their key when there
   * are any, no entry for them otherwise; every other entry as it was.
   */
  function Sync(store: Store, chats: seq<Chat>): (r: Store)
    ensures ChatsKey in r <==> chats != []
    ensures chats != [] ==> r[ChatsKey] == ChatList(chats)
    ensures forall k | k != ChatsKey :: (k in r <==> k in store) && (k in r ==> r[k] == store[k])
  {
    if chats != [] then store[ChatsKey := ChatList(chats)] else store - {ChatsKey}
  }

  /** The store holds exactly the collection it was last synchronised with. */
  predicate Persisted(store: Store, chats: seq<Chat>) {
    (ChatsKey in store <==> chats != []) && (chats != [] ==> store[ChatsKey] == ChatList(chats))
  }

  /** Synchronising persists, and a second synchronisation changes nothing. */
  lemma SyncPersists(store: Store, chats: seq<Chat>)
    ensures Persisted(Sync(store, chats), chats)
    ensures Sync(Sync(store, chats), chats) == Sync(store, chats)
  {
  }
}
