/**
 * The Telegram webhook of app.py: each update is checked for an attachment,
 * turned into a query, and routed by the chat's session state in
 * `users_dict` to a welcome, a farewell, a request to start, or the finance
 * mediator, whose answer is posted back in chunks.
 *
 * Downloading and reading attachments, the genai model and Yahoo Finance are
 * passed in as functions; posting to Telegram appends to an outbox.
 */
module App {
  import opened Wrappers
  import Chunking
  import GeminiFinance

  // -------------------------------------------------------------- telegram data

  /** An attached file: its `file_id` and `mime_type`. */
  datatype Document = Document(fileId: string, mimeType: string)

  /**
   * A message of an update: the chat it came from, its `text` and `caption`
   * (`''` when absent, as `message.get(..., '')` reads them) and its document.
   */
  datatype Message = Message(chatId: int, text: string, caption: string, document: Option<Document>)

  /** An update; `message` is None when it is absent or empty. */
  datatype Update = Update(message: Option<Message>)

  /** A request to `/webhook`. */
  datatype Request = GetRequest | PostRequest(update: Update)

  // ------------------------------------------------------------- session state

  datatype Status = Start | End

  /** An entry of `users_dict`: `{'callback_data': ..., 'status': ...}`. */
  datatype UserEntry = UserEntry(callbackData: Option<string>, status: Status)

  /** The entry a welcome writes: no callback data, status `'start'`. */
  const Fresh: UserEntry := UserEntry(None, Start)

  // --------------------------------------------------------------- attachments

  const AllowedMimeTypes: set<string> := {"text/csv", "application/vnd.ms-excel", "application/pdf"}

  /** Why an attachment is refused. */
  datatype Rejection = MissingCaption | UnsupportedFileType

  /**
   * The query a message carries: its text, or for an attachment the file's
   * text, a blank line and the caption. The caption is checked before the
   * file type. `extract` stands for downloading the file and reading its text.
   */
  function Query(m: Message, extract: Document -> string): Result<string, Rejection> {
    match m.document
    case None => Success(m.text)
    case Some(doc) =>
      if m.caption == "" then Failure(MissingCaption)
      else if doc.mimeType !in AllowedMimeTypes then Failure(UnsupportedFileType)
      else Success(extract(doc) + "\n\n" + m.caption)
  }

  /**
   * A plain message's query is its text. An attachment without a caption is
   * refused whatever its type; one with a caption is refused exactly when
   * its type is not CSV, Excel or PDF; otherwise its query is the file's
   * text, a blank line and the caption, and the message text is ignored.
   */
  lemma QueryPrechecks(m: Message, extract: Document -> string)
    ensures m.document.None? ==> Query(m, extract) == Success(m.text)
    ensures m.document.Some? && m.caption == "" ==> Query(m, extract) == Failure(MissingCaption)
    ensures m.document.Some? && m.caption != "" ==>
      (Query(m, extract) == Failure(UnsupportedFileType) <==> m.document.value.mimeType !in AllowedMimeTypes)
    ensures Query(m, extract).Success? && m.document.Some? ==>
      && m.caption != ""
      && m.document.value.mimeType in {"text/csv", "application/vnd.ms-excel", "application/pdf"}
      && Query(m, extract).value == extract(m.document.value) + "\n\n" + m.caption
  {
  }

  // ------------------------------------------------------------------- routing

  /** What the webhook does with a query. */
  datatype Action = ShowWelcome | ShowFarewell | AskToStart | Forward(query: string)

  /**
   * The branches of the webhook after the query is known, in their order:
   * `/start` or an unknown chat is welcomed (and its entry reset), `/end`
   * ends the session (the entry is kept), a chat whose session is not
   * started is asked to start, anything else goes to the mediator.
   */
  function Route(users: map<int, UserEntry>, chat: int, q: string): (Action, map<int, UserEntry>) {
    if q == "/start" || chat !in users then
      (ShowWelcome, users[chat := Fresh])
    else if q == "/end" then
      (ShowFarewell, users[chat := users[chat].(status := End)])
    else if users[chat].status != Start then
      (AskToStart, users)
    else
      (Forward(q), users)
  }

  /** `/start`, or any query from a chat with no entry, welcomes and (re)starts the session. */
  lemma RouteWelcome(users: map<int, UserEntry>, chat: int, q: string)
    ensures Route(users, chat, q).0 == ShowWelcome <==> q == "/start" || chat !in users
    ensures Route(users, chat, q).0 == ShowWelcome ==> Route(users, chat, q).1 == users[chat := Fresh]
  {
  }

  /**
   * `/end` from a known chat ends its session: only the status changes and
   * the entry stays. From an unknown chat it is welcomed instead.
   */
  lemma RouteEnd(users: map<int, UserEntry>, chat: int)
    ensures chat in users ==>
      var (action, after) := Route(users, chat, "/end");
      && action == ShowFarewell
      && chat in after
      && after[chat] == UserEntry(users[chat].callbackData, End)
    ensures chat !in users ==> Route(users, chat, "/end") == (ShowWelcome, users[chat := Fresh])
  {
  }

  /**
   * Any other query from a known chat is forwarded unchanged when its
   * session is started and otherwise answered by a request to start; either
   * way `users_dict` is left as it was.
   */
  lemma RouteOtherQuery(users: map<int, UserEntry>, chat: int, q: string)
    requires chat in users && q != "/start" && q != "/end"
    ensures users[chat].status == Start ==> Route(users, chat, q) == (Forward(q), users)
    ensures users[chat].status != Start ==> Route(users, chat, q) == (AskToStart, users)
  {
  }

  /** A query is forwarded exactly when it is not a command and the chat's session is started. */
  lemma ForwardOnlyWhenStarted(users: map<int, UserEntry>, chat: int, q: string)
    ensures Route(users, chat, q).0.Forward? <==>
      chat in users && users[chat].status == Start && q != "/start" && q != "/end"
    ensures Route(users, chat, q).0.Forward? ==> Route(users, chat, q).0.query == q
  {
  }

  /** Routing writes only the entry of the chat at hand, and never removes one. */
  lemma RouteFrame(users: map<int, UserEntry>, chat: int, q: string)
    ensures var after := Route(users, chat, q).1;
      && after.Keys == users.Keys + {chat}
      && (forall c :: c in users && c != chat ==> after[c] == users[c])
      && (Route(users, chat, q).0 !in {ShowWelcome, ShowFarewell} ==> after == users)
  {
  }

  /** After `/end`, the next ordinary query is answered by a request to start. */
  lemma EndThenAskToStart(users: map<int, UserEntry>, chat: int, q: string)
    requires chat in users && q != "/start" && q != "/end"
    ensures Route(Route(users, chat, "/end").1, chat, q) == (AskToStart, Route(users, chat, "/end").1)
  {
  }

  /** Restarting is idempotent: a second `/start` leaves the same state as the first. */
  lemma RestartIdempotent(users: map<int, UserEntry>, chat: int)
    ensures var after := Route(users, chat, "/start").1;
      Route(after, chat, "/start") == (ShowWelcome, after) && after[chat] == Fresh
  {
    var after := Route(users, chat, "/start").1;
    assert after[chat := Fresh] == after;
  }

  /** Routing the queries of one chat in order. */
  function RouteAll(users: map<int, UserEntry>, chat: int, qs: seq<string>): map<int, UserEntry>
    decreases |qs|
  {
    if qs == [] then users else RouteAll(Route(users, chat, qs[0]).1, chat, qs[1..])
  }

  /**
   * The session status after the queries `qs` of a new chat: the first query
   * starts it, and from then on the last `/start` or `/end` decides.
   */
  function StatusAfter(qs: seq<string>): Status
    requires qs != []
    decreases |qs|
  {
    var last := qs[|qs| - 1];
    if |qs| == 1 || last == "/start" then Start
    else if last == "/end" then End
    else StatusAfter(qs[..|qs| - 1])
  }

  lemma {:induction false} RouteAllSnoc(users: map<int, UserEntry>, chat: int, qs: seq<string>, q: string)
    ensures RouteAll(users, chat, qs + [q]) == Route(RouteAll(users, chat, qs), chat, q).1
    decreases |qs|
  {
    if qs == [] {
      assert [q][1..] == [];
    } else {
      assert (qs + [q])[1..] == qs[1..] + [q];
      RouteAllSnoc(Route(users, chat, qs[0]).1, chat, qs[1..], q);
    }
  }

  /**
   * The session lifecycle of one chat that had no entry: after any
   * non-empty run of its queries it has an entry with no callback data,
   * whose status is the one `StatusAfter` gives, and other chats' entries
   * are untouched.
   */
  lemma {:induction false} SessionLifecycle(users: map<int, UserEntry>, chat: int, qs: seq<string>)
    requires chat !in users && qs != []
    ensures var after := RouteAll(users, chat, qs);
      && chat in after
      && after[chat] == UserEntry(None, StatusAfter(qs))
      && after - {chat} == users
    decreases |qs|
  {
    var init := qs[..|qs| - 1];
    var last := qs[|qs| - 1];
    assert qs == init + [last];
    RouteAllSnoc(users, chat, init, last);
    if init == [] {
      assert RouteAll(users, chat, init) == users;
      assert users[chat := Fresh] - {chat} == users;
    } else {
      SessionLifecycle(users, chat, init);
      var before := RouteAll(users, chat, init);
      assert StatusAfter(qs) == if last == "/start" then Start else if last == "/end" then End else StatusAfter(init);
      var after := Route(before, chat, last).1;
      assert after - {chat} == before - {chat};
    }
  }

  // ----------------------------------------------------------------- the hook

  /** The fixed texts the bot posts; their wording is not modelled. */
  datatype Notices = Notices(welcome: string, farewell: string, askStart: string, noCaption: string, wrongFileType: string)

  /** Each fixed text of app.py fits in one Telegram message. */
  predicate NoticesFit(n: Notices) {
    && |n.welcome| <= Chunking.MaxMessageLength
    && |n.farewell| <= Chunking.MaxMessageLength
    && |n.askStart| <= Chunking.MaxMessageLength
    && |n.noCaption| <= Chunking.MaxMessageLength
    && |n.wrongFileType| <= Chunking.MaxMessageLength
  }

  /** What the webhook depends on but does not define. */
  datatype Env = Env(
    gemini: GeminiFinance.Gemini,
    market: GeminiFinance.Market,
    extract: Document -> string,
    notices: Notices)

  /** One `send_message` call: the chat and the texts posted to it, in order. */
  datatype Sent = Sent(chat: int, texts: seq<string>)

  /**
   * The JSON the webhook returns: `status: ok` for GET, the `action` of each
   * branch, the `error` of each refused attachment, or `Invalid request`.
   */
  datatype Reply = WebhookActive | Welcomed | Ended | AskedToStart | Replied | NoCaption | WrongFileType | InvalidRequest

  /** An exception that escapes the webhook. */
  datatype Fault = SendFailed(sendError: Chunking.SendError) | MediatorFailed(mediatorError: GeminiFinance.MediatorError)

  /** The webhook's reply, the new `users_dict` and the posts it made. */
  datatype Outcome = Outcome(reply: Result<Reply, Fault>, users: map<int, UserEntry>, posts: seq<Sent>)

  /** `send_message(chat, text)` followed by returning `reply`. */
  function Notified(users: map<int, UserEntry>, chat: int, text: string, reply: Reply): Outcome {
    match Chunking.ChunksOf(text)
    case Failure(e) => Outcome(Failure(SendFailed(e)), users, [])
    case Success(texts) => Outcome(Success(reply), users, [Sent(chat, texts)])
  }

  /** `webhook()` on one request, from the current `users_dict`. */
  function Handle(users: map<int, UserEntry>, request: Request, env: Env): Outcome {
    if request.GetRequest? then
      Outcome(Success(WebhookActive), users, [])
    else if request.update.message.None? then
      Outcome(Success(InvalidRequest), users, [])
    else
      var m := request.update.message.value;
      match Query(m, env.extract)
      case Failure(MissingCaption) => Notified(users, m.chatId, env.notices.noCaption, NoCaption)
      case Failure(UnsupportedFileType) => Notified(users, m.chatId, env.notices.wrongFileType, WrongFileType)
      case Success(q) =>
        var (action, after) := Route(users, m.chatId, q);
        match action
        case ShowWelcome => Notified(after, m.chatId, env.notices.welcome, Welcomed)
        case ShowFarewell => Notified(after, m.chatId, env.notices.farewell, Ended)
        case AskToStart => Notified(after, m.chatId, env.notices.askStart, AskedToStart)
        case Forward(query) =>
          match GeminiFinance.Exchange(query, env.gemini, env.market).0
          case Failure(e) => Outcome(Failure(MediatorFailed(e)), after, [])
          case Success(answer) => Notified(after, m.chatId, answer, Replied)
  }

  /**
   * A refused attachment leaves `users_dict` alone and posts only the
   * matching notice to the chat, unchanged.
   */
  lemma RefusedAttachmentLeavesUsers(users: map<int, UserEntry>, m: Message, env: Env)
    requires NoticesFit(env.notices) && Query(m, env.extract).Failure?
    ensures var o := Handle(users, PostRequest(Update(Some(m))), env);
      && o.users == users
      && o.reply == Success(if Query(m, env.extract).error == MissingCaption then NoCaption else WrongFileType)
      && o.posts == [Sent(m.chatId, [if o.reply.value == NoCaption then env.notices.noCaption else env.notices.wrongFileType])]
  {
    var n := env.notices;
    Chunking.ShortTextSentWhole(n.noCaption);
    Chunking.ShortTextSentWhole(n.wrongFileType);
  }

  /**
   * A forwarded query reaches the mediator unchanged; its answer is posted to
   * the chat in the chunks `send_message` makes of it, and `users_dict` is
   * unchanged. When the mediator fails nothing is posted.
   */
  lemma ForwardedQueryAnswered(users: map<int, UserEntry>, m: Message, env: Env)
    requires Query(m, env.extract).Success? && Route(users, m.chatId, Query(m, env.extract).value).0.Forward?
    ensures var q := Query(m, env.extract).value;
      var o := Handle(users, PostRequest(Update(Some(m))), env);
      var answer := GeminiFinance.Exchange(q, env.gemini, env.market).0;
      && o.users == users
      && (answer.Failure? ==> o.reply == Failure(MediatorFailed(answer.error)) && o.posts == [])
      && (answer.Success? && Chunking.ChunksOf(answer.value).Success? ==>
            o.reply == Success(Replied) && o.posts == [Sent(m.chatId, Chunking.ChunksOf(answer.value).value)])
  {
    ForwardOnlyWhenStarted(users, m.chatId, Query(m, env.extract).value);
  }

  /**
   * With notices that fit, a command or a query from a chat that is not
   * started posts exactly one notice, unchanged, and replies with the action.
   */
  lemma NoticeReplies(users: map<int, UserEntry>, m: Message, env: Env)
    requires NoticesFit(env.notices) && Query(m, env.extract).Success?
    requires !Route(users, m.chatId, Query(m, env.extract).value).0.Forward?
    ensures var (action, after) := Route(users, m.chatId, Query(m, env.extract).value);
      var o := Handle(users, PostRequest(Update(Some(m))), env);
      var n := env.notices;
      && o.users == after
      && o.reply == Success(match action case ShowWelcome => Welcomed case ShowFarewell => Ended case _ => AskedToStart)
      && o.posts == [Sent(m.chatId, [match action case ShowWelcome => n.welcome case ShowFarewell => n.farewell case _ => n.askStart])]
  {
    var n := env.notices;
    Chunking.ShortTextSentWhole(n.welcome);
    Chunking.ShortTextSentWhole(n.farewell);
    Chunking.ShortTextSentWhole(n.askStart);
  }

  /** The Flask app's state: `users_dict`, and the messages posted so far. */
  class Bot {
    var users: map<int, UserEntry>
    var outbox: seq<Sent>
    const env: Env

    constructor(env: Env)
      ensures users == map[] && outbox == [] && this.env == env
    {
      users := map[];
      outbox := [];
      this.env := env;
    }

    /** `send_message(chat, text)`: posts the chunks to the chat, or raises. */
    method SendMessage(chat: int, text: string) returns (sent: Result<seq<string>, Chunking.SendError>)
      modifies this
      ensures sent == Chunking.ChunksOf(text)
      ensures users == old(users)
      ensures outbox == old(outbox) + (if sent.Success? then [Sent(chat, sent.value)] else [])
    {
      sent := Chunking.SendMessage(text);
      if sent.Success? {
        outbox := outbox + [Sent(chat, sent.value)];
      }
    }

    /** `send_message` followed by returning `reply`. */
    method Notify(chat: int, text: string, reply: Reply) returns (r: Result<Reply, Fault>)
      modifies this
      ensures var o := Notified(old(users), chat, text, reply);
        r == o.reply && users == o.users && outbox == old(outbox) + o.posts
    {
      var sent := SendMessage(chat, text);
      if sent.Failure? {
        return Failure(SendFailed(sent.error));
      }
      return Success(reply);
    }

    /** `webhook()`: handles one request, updating `users_dict` in place. */
    method Webhook(request: Request) returns (reply: Result<Reply, Fault>)
      modifies this
      ensures var o := Handle(old(users), request, env);
        reply == o.reply && users == o.users && outbox == old(outbox) + o.posts
    {
      if request.GetRequest? {
        return Success(WebhookActive);
      }
      if request.update.message.None? {
        return Success(InvalidRequest);
      }
      var m := request.update.message.value;
      var chat := m.chatId;
      var q := m.text;
      if m.document.Some? {
        var doc := m.document.value;
        if m.caption == "" {
          reply := Notify(chat, env.notices.noCaption, NoCaption);
          return;
        }
        if doc.mimeType !in AllowedMimeTypes {
          reply := Notify(chat, env.notices.wrongFileType, WrongFileType);
          return;
        }
        q := env.extract(doc) + "\n\n" + m.caption;
      }
      assert Query(m, env.extract) == Success(q);
      if q == "/start" || chat !in users {
        users := users[chat := Fresh];
        reply := Notify(chat, env.notices.welcome, Welcomed);
        return;
      }
      if q == "/end" {
        users := users[chat := users[chat].(status := End)];
        reply := Notify(chat, env.notices.farewell, Ended);
        return;
      }
      if users[chat].status != Start {
        reply := Notify(chat, env.notices.askStart, AskedToStart);
        return;
      }
      var answer, _ := GeminiFinance.GeminiFinanceResponse(q, env.gemini, env.market);
      if answer.Failure? {
        return Failure(MediatorFailed(answer.error));
      }
      reply := Notify(chat, answer.value, Replied);
    }
  }
}
