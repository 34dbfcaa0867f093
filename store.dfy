/** The handlers' shared state (handler/handlers.go:15-18) as one object whose
    methods update it in place, each proved against its reference definition in
    ChatSpec. Cookies come in as an optional token and replies go out as values;
    the lock, the HTTP context and the file writes are not part of this model. */
module Handler {
  import opened Wrappers
  import opened Models
  import opened Ids
  import Render
  import ChatSpec

  class Store {
    var messages: seq<Message>
    var users: map<string, User>
    var sessions: map<string, string>

    /** The store's contents as a value. */
    function State(): ChatSpec.State
      reads this
    {
      ChatSpec.State(messages, users, sessions)
    }

    predicate Valid()
      reads this
    {
      ChatSpec.Inv(State())
    }

    /** `LoadMessages` at start-up: the log read from disk, no users, no sessions. */
    constructor (log: seq<Message>)
      ensures Valid()
      ensures State() == ChatSpec.Initial(log)
    {
      messages := log;
      users := map[];
      sessions := map[];
    }

    /** `userID, found := sessions[token]`. */
    method LookupSession(token: string) returns (userId: string, found: bool)
      ensures found == ChatSpec.Lookup(State(), token).Some?
      ensures userId == ChatSpec.ViewerId(State(), token)
    {
      found := token in sessions;
      userId := if found then sessions[token] else "";
    }

    /** `users[userId]`. */
    method LookupUser(userId: string) returns (user: User)
      ensures user == ChatSpec.UserOf(State(), userId)
    {
      user := if userId in users then users[userId] else ZeroUser;
    }

    /** The session check of `ChatPage`. */
    method ChatPage(cookie: Option<string>) returns (page: ChatSpec.Page)
      ensures page == ChatSpec.ChatPage(State(), cookie)
    {
      if cookie.None? || cookie.value == "" {
        return ChatSpec.LoginForm;
      }
      var userId, found := LookupSession(cookie.value);
      var user := LookupUser(userId);
      if !found {
        return ChatSpec.ClearCookieAndRedirect;
      }
      page := ChatSpec.ChatShell(user.name);
    }

    /** `Login`: the returned token is the cookie to set, `None` when nothing was stored. */
    method Login(name: string, userRand: RandomBytes, sessionRand: RandomBytes, now: Timestamp) returns (cookie: Option<string>)
      requires Valid()
      modifies this`users, this`sessions
      ensures Valid()
      ensures (State(), cookie) == ChatSpec.Login(old(State()), name, userRand, sessionRand, now)
    {
      if name == "" {
        return None;
      }
      var userId := GenerateId(userRand);
      var user := User(userId, name, now);
      var sessionId := GenerateId(sessionRand);
      users := users[userId := user];
      sessions := sessions[sessionId := userId];
      cookie := Some(sessionId);
    }

    /** `Logout`: forgets the cookie's session, if there is a cookie; the
        reply always clears the cookie and redirects. */
    method Logout(cookie: Option<string>) returns (page: ChatSpec.Page)
      requires Valid()
      modifies this`sessions
      ensures Valid()
      ensures (State(), page) == ChatSpec.Logout(old(State()), cookie)
    {
      if cookie.Some? {
        sessions := sessions - {cookie.value};
      }
      page := ChatSpec.ClearCookieAndRedirect;
    }

    /** The in-memory half of `saveMessageToFile`: append to the log. */
    method SaveMessage(msg: Message)
      modifies this`messages
      ensures messages == old(messages) + [msg]
    {
      messages := messages + [msg];
    }

    /** `GetMessages`: renders a copy of the log for the cookie's user. */
    method GetMessages(cookie: Option<string>) returns (reply: ChatSpec.Reply)
      ensures reply == ChatSpec.Poll(State(), cookie)
    {
      if cookie.None? {
        return ChatSpec.Redirect;
      }
      var userId, _ := LookupSession(cookie.value);
      var messagesCopy := messages;
      var chatContent := Render.RenderMessages(messagesCopy, userId);
      reply := ChatSpec.Html(chatContent);
    }

    /** `SendMessage`. */
    method SendMessage(cookie: Option<string>, content: string, msgRand: RandomBytes, now: Timestamp) returns (reply: ChatSpec.Reply)
      requires Valid()
      modifies this`messages
      ensures Valid()
      ensures (State(), reply) == ChatSpec.Send(old(State()), cookie, content, msgRand, now)
    {
      if cookie.None? {
        return ChatSpec.Redirect;
      }
      var userId, found := LookupSession(cookie.value);
      var user := LookupUser(userId);
      if !found {
        return ChatSpec.Redirect;
      }
      if content == "" {
        reply := GetMessages(cookie);
        return;
      }
      var newMessage := Message(GenerateId(msgRand), userId, user.name, content, now);
      SaveMessage(newMessage);
      reply := GetMessages(cookie);
    }
  }
}
