/**
 * The chat list kept by `App` (frontend/src/App.tsx) with the shapes of
 * frontend/src/types/index.ts: the reducers handed to `setChats`, the
 * current-chat lookup, and `handleSubmit`.
 *
 * Fresh ids (`uuidv4`) and clock readings (`new Date()`) are parameters; the
 * chart endpoint's answer is the abstract value `ChartResponse`.
 */
module ChatStore {
  import opened Wrappers
  import opened Js
  import FileParser

  type Time = int

  /** A chart configuration, opaque except for its own enumerable keys. */
  datatype ChartOptions = ChartOptions(keys: seq<string>)

  datatype Message = Message(
    id: int,
    text: string,
    isBot: bool,
    timestamp: Time,
    showChart: bool,
    chartOptions: Option<ChartOptions>,
    attachment: Option<FileParser.Attachment>)

  datatype Chat = Chat(id: string, title: string, messages: seq<Message>, lastUpdated: Time)

  const DefaultTitle := "New Conversation"
  const Greeting := "¡Hola! Soy tu asistente de IA. Puedes enviarme mensajes, adjuntar archivos o pedirme que cree gráficos utilizando canvas."
  const AttachedPrefix := "Archivo adjunto: "

  /** Message ids are the sequence numbers 1, 2, ... of the conversation. */
  predicate WellNumbered(c: Chat) {
    forall i :: 0 <= i < |c.messages| ==> c.messages[i].id == i + 1
  }

  /** `createInitialChat`: the default title and the bot's greeting as message 1. */
  function CreateInitialChat(id: string, greetedAt: Time, createdAt: Time): (c: Chat)
    ensures c.id == id && c.title == DefaultTitle
    ensures |c.messages| == 1 && c.messages[0].isBot && c.messages[0].text == Greeting
    ensures WellNumbered(c)
  {
    Chat(id, DefaultTitle, [Message(1, Greeting, true, greetedAt, false, None, None)], createdAt)
  }

  predicate HasId(chats: seq<Chat>, id: string) {
    exists i :: 0 <= i < |chats| && chats[i].id == id
  }

  predicate DistinctIds(chats: seq<Chat>) {
    forall i, j :: 0 <= i < j < |chats| ==> chats[i].id != chats[j].id
  }

  /** `chats.find(chat => chat.id === id)`, as the index of the first match. */
  function FindChat(chats: seq<Chat>, id: string): (k: Option<nat>)
    ensures k.None? <==> !HasId(chats, id)
    ensures k.Some? ==> k.value < |chats| && chats[k.value].id == id
    ensures k.Some? ==> forall j :: 0 <= j < k.value ==> chats[j].id != id
  {
    if chats == [] then None
    else if chats[0].id == id then Some(0)
    else
      match FindChat(chats[1..], id)
      case None =>
        assert forall i :: 1 <= i < |chats| ==> chats[i] == chats[1..][i - 1];
        None
      case Some(k) => Some(k + 1)
  }

  /** `getCurrentChat`: the chat with the active id, or the first chat when none has it. */
  function GetCurrentChat(chats: seq<Chat>, active: string): (c: Chat)
    requires |chats| > 0
    ensures c in chats
    ensures HasId(chats, active) ==> c.id == active
    ensures !HasId(chats, active) ==> c == chats[0]
    ensures DistinctIds(chats) && HasId(chats, active) ==> forall i :: 0 <= i < |chats| && chats[i].id == active ==> chats[i] == c
  {
    match FindChat(chats, active)
    case Some(k) => chats[k]
    case None => chats[0]
  }

  /** `updateChat`: every chat with the id is replaced, the others are kept in place. */
  function UpdateChat(chats: seq<Chat>, id: string, updated: Chat): (r: seq<Chat>)
    ensures |r| == |chats|
    ensures forall i :: 0 <= i < |chats| && chats[i].id != id ==> r[i] == chats[i]
    ensures forall i :: 0 <= i < |chats| && chats[i].id == id ==> r[i] == updated
    ensures !HasId(chats, id) ==> r == chats
    ensures updated.id == id ==> forall i :: 0 <= i < |chats| ==> r[i].id == chats[i].id
  {
    seq(|chats|, i requires 0 <= i < |chats| => if chats[i].id == id then updated else chats[i])
  }

  /** `handleRenameChat`: matching chats get the new title and nothing else changes. */
  function RenameChat(chats: seq<Chat>, id: string, title: string): (r: seq<Chat>)
    ensures |r| == |chats|
    ensures forall i :: 0 <= i < |chats| && chats[i].id != id ==> r[i] == chats[i]
    ensures forall i :: 0 <= i < |chats| && chats[i].id == id ==> r[i] == chats[i].(title := title)
    ensures forall i :: 0 <= i < |chats| ==> r[i].id == chats[i].id && r[i].messages == chats[i].messages
  {
    seq(|chats|, i requires 0 <= i < |chats| => if chats[i].id == id then chats[i].(title := title) else chats[i])
  }

  /** `prev.filter(chat => chat.id !== id)` */
  function FilterOut(chats: seq<Chat>, id: string): (r: seq<Chat>)
    ensures |r| <= |chats|
    ensures forall i :: 0 <= i < |r| ==> r[i].id != id
    ensures forall c :: c in r <==> c in chats && c.id != id
  {
    if chats == [] then []
    else if chats[0].id == id then FilterOut(chats[1..], id)
    else [chats[0]] + FilterOut(chats[1..], id)
  }

  /** Filtering keeps the surviving chats in their order. */
  lemma {:induction false} FilterOutAppend(a: seq<Chat>, b: seq<Chat>, id: string)
    ensures FilterOut(a + b, id) == FilterOut(a, id) + FilterOut(b, id)
  {
    if a != [] {
      assert (a + b)[1..] == a[1..] + b;
      FilterOutAppend(a[1..], b, id);
    } else {
      assert a + b == b;
    }
  }

  lemma {:induction false} FilterOutDistinct(chats: seq<Chat>, id: string)
    requires DistinctIds(chats)
    ensures DistinctIds(FilterOut(chats, id))
  {
    if chats != [] {
      var rest := chats[1..];
      assert DistinctIds(rest) by {
        forall i, j | 0 <= i < j < |rest| ensures rest[i].id != rest[j].id {
          assert rest[i] == chats[i + 1] && rest[j] == chats[j + 1];
        }
      }
      FilterOutDistinct(rest, id);
      if chats[0].id != id {
        var r := [chats[0]] + FilterOut(rest, id);
        forall j | 1 <= j < |r| ensures r[0].id != r[j].id {
          assert r[j] in rest;
          var k :| 0 <= k < |rest| && rest[k] == r[j];
          assert chats[k + 1] == r[j];
        }
      }
    }
  }

  lemma HasIdFromIndexed(chats: seq<Chat>, i: int)
    requires 0 <= i < |chats|
    ensures HasId(chats, chats[i].id)
  {
  }

  /** The chat list after `handleDeleteChat`: never empty, a fresh chat when no other is left. */
  function DeleteChats(chats: seq<Chat>, id: string, replacement: Chat): (r: seq<Chat>)
    ensures |r| > 0
    ensures replacement.id != id ==> !HasId(r, id)
    ensures FilterOut(chats, id) == [] ==> r == [replacement]
    ensures FilterOut(chats, id) != [] ==> r == FilterOut(chats, id)
  {
    var rest := FilterOut(chats, id);
    if rest == [] then [replacement] else rest
  }

  /**
   * The active id after deleting `id`: unchanged for another chat, else the
   * first remaining chat's id, else `freshId`.
   */
  function ActiveAfterDelete(chats: seq<Chat>, active: string, id: string, freshId: string): (a: string)
    ensures active != id ==> a == active
    ensures active == id && FilterOut(chats, id) != [] ==> a == FilterOut(chats, id)[0].id
    ensures active == id && FilterOut(chats, id) == [] ==> a == freshId
  {
    if active == id then
      var rest := FilterOut(chats, id);
      if |rest| > 0 then rest[0].id else freshId
    else active
  }

  /**
   * `handleDeleteChat` as written: the replacement chat takes the id
   * `listId`, while `setActiveChat` calls `createInitialChat()` a second
   * time and takes that chat's id `activeId`.
   */
  function DeleteChatAsWritten(chats: seq<Chat>, active: string, id: string,
                               listId: string, activeId: string, greetedAt: Time, createdAt: Time): (r: (seq<Chat>, string))
    ensures |r.0| > 0
    ensures r.0 == DeleteChats(chats, id, CreateInitialChat(listId, greetedAt, createdAt))
    ensures r.1 == ActiveAfterDelete(chats, active, id, activeId)
  {
    (DeleteChats(chats, id, CreateInitialChat(listId, greetedAt, createdAt)), ActiveAfterDelete(chats, active, id, activeId))
  }

  lemma {:induction false} ActiveSurvivesDelete(chats: seq<Chat>, active: string, id: string, replacement: Chat)
    requires DistinctIds(chats) && HasId(chats, active) && replacement.id != id
    ensures DistinctIds(DeleteChats(chats, id, replacement))
    ensures HasId(DeleteChats(chats, id, replacement), ActiveAfterDelete(chats, active, id, replacement.id))
  {
    var list := DeleteChats(chats, id, replacement);
    FilterOutDistinct(chats, id);
    if active != id {
      var k :| 0 <= k < |chats| && chats[k].id == active;
      assert chats[k] in FilterOut(chats, id);
      var j :| 0 <= j < |list| && list[j] == chats[k];
      HasIdFromIndexed(list, j);
    } else {
      HasIdFromIndexed(list, 0);
    }
  }

  /** `handleDeleteChat` with the active id taken from the replacement chat itself. */
  function DeleteChat(chats: seq<Chat>, active: string, id: string,
                      freshId: string, greetedAt: Time, createdAt: Time): (r: (seq<Chat>, string))
    requires DistinctIds(chats) && HasId(chats, active) && freshId != id
    ensures |r.0| > 0 && !HasId(r.0, id)
    ensures DistinctIds(r.0)
    ensures HasId(r.0, r.1)
    ensures active != id ==> r.1 == active
    // the deleted active chat hands over to the first survivor, else to the replacement
    ensures r.1 == ActiveAfterDelete(chats, active, id, freshId)
    ensures r.0 == DeleteChats(chats, id, CreateInitialChat(freshId, greetedAt, createdAt))
  {
    var replacement := CreateInitialChat(freshId, greetedAt, createdAt);
    ActiveSurvivesDelete(chats, active, id, replacement);
    (DeleteChats(chats, id, replacement), ActiveAfterDelete(chats, active, id, freshId))
  }

  // ---------------------------------------------------------------- handleSubmit

  /** `!input.trim() && !file`: the guard that makes a submission a no-op. */
  predicate SubmitIgnored(input: string, file: Option<FileParser.Attachment>) {
    IsBlank(input) && file.None?
  }

  /** `input || (file ? 'Archivo adjunto: ' + file.name : '')` */
  function UserText(input: string, file: Option<FileParser.Attachment>): (t: string)
    ensures input != "" ==> t == input
    ensures input == "" && file.Some? ==> AttachedPrefix <= t && t[|AttachedPrefix|..] == file.value.name
    ensures t == "" <==> input == "" && file.None?
  {
    if input != "" then input
    else if file.Some? then AttachedPrefix + file.value.name
    else ""
  }

  /** The title after a submission: `input || file?.name || 'Chat'` on the first one only. */
  function NextTitle(chat: Chat, input: string, file: Option<FileParser.Attachment>): (t: string)
    ensures |chat.messages| != 1 ==> t == chat.title
    ensures |chat.messages| == 1 && input != "" ==> t == input
    ensures |chat.messages| == 1 && input == "" ==> t == (if file.Some? && file.value.name != "" then file.value.name else "Chat")
    ensures |chat.messages| == 1 ==> t != ""
  {
    if |chat.messages| == 1 then
      if input != "" then input
      else if file.Some? && file.value.name != "" then file.value.name
      else "Chat"
    else chat.title
  }

  /** What the chart endpoint answered, as far as `handleSubmit` looks at it. */
  datatype ChartResponse =
    | FetchFailed(message: string)           // the request threw before a response
    | Http(status: nat, body: ResponseBody)

  datatype ResponseBody =
    | Unreadable(message: string)            // `response.json()` rejected
    | Json(code: VisualizationCode, explanation: Option<string>)

  /** `visualization_code` in the body. */
  datatype VisualizationCode =
    | CodeAbsent                             // undefined, null, false or 0
    | CodeText(text: string, parsed: JsonParse)
    | CodeObject(options: ChartOptions)
    | CodeOther                              // a truthy number or boolean

  /** What `JSON.parse` makes of a string. */
  datatype JsonParse = Parsed(value: ChartOptions) | SyntaxError(description: string)

  /** The reply the bot posts: its text and, for a chart, the options. */
  datatype Reply = Reply(text: string, chart: Option<ChartOptions>)

  const ErrorPrefix := "Lo siento, ocurrió un error al generar la respuesta: "
  const StatusPrefix := "La solicitud a la API falló con el estado "
  const CodeParsePrefix := "Error al parsear visualization_code: "
  const ChartDefaultText := "Aquí está tu gráfico."
  const NoChartDefaultText := "Respuesta normal."
  const PlainPrefix := "Respuesta normal: "
  const NoText := "Sin texto"

  /** `response.ok` */
  predicate IsOk(status: nat) {
    200 <= status <= 299
  }

  /** `options` after the `visualization_code` branch, or the message a failed parse throws. */
  function OptionsOf(code: VisualizationCode): (r: Result<ChartOptions, string>)
    // only a non-empty string that does not parse fails
    ensures r.Failure? <==> code.CodeText? && code.text != "" && code.parsed.SyntaxError?
    ensures r.Failure? ==> CodeParsePrefix <= r.error
    ensures code.CodeText? && code.text != "" && code.parsed.Parsed? ==> r == Success(code.parsed.value)
    ensures code.CodeObject? ==> r == Success(code.options)
    ensures code.CodeAbsent? || code.CodeOther? || (code.CodeText? && code.text == "") ==> r == Success(ChartOptions([]))
  {
    match code
    case CodeAbsent => Success(ChartOptions([]))
    case CodeText(text, parsed) =>
      if text == "" then Success(ChartOptions([]))
      else (
        match parsed
        case Parsed(o) => Success(o)
        case SyntaxError(d) => Failure(CodeParsePrefix + d))
    case CodeObject(o) => Success(o)
    case CodeOther => Success(ChartOptions([]))
  }

  function OrDefault(s: Option<string>, default: string): (r: string)
    ensures s.Some? && s.value != "" ==> r == s.value
    ensures s.None? || s.value == "" ==> r == default
  {
    if s.Some? && s.value != "" then s.value else default
  }

  function ErrorReply(message: string): (r: Reply)
    ensures ErrorPrefix <= r.text && r.chart.None?
    ensures r.text[|ErrorPrefix|..] == message
  {
    Reply(ErrorPrefix + message, None)
  }

  /** The bot's reply in the chart branch: a chart, a plain answer or an error. */
  function ChartReply(response: ChartResponse): (r: Reply)
    ensures r.chart.Some? <==>
      && response.Http? && IsOk(response.status) && response.body.Json?
      && OptionsOf(response.body.code).Success? && |OptionsOf(response.body.code).value.keys| > 0
    ensures r.chart.Some? ==> r.chart.value == OptionsOf(response.body.code).value
    ensures response.FetchFailed? || (response.Http? && !IsOk(response.status)) ==> ErrorPrefix <= r.text
  {
    match response
    case FetchFailed(m) => ErrorReply(m)
    case Http(status, body) =>
      if !IsOk(status) then ErrorReply(StatusPrefix + NatToString(status))
      else
        match body
        case Unreadable(m) => ErrorReply(m)
        case Json(code, explanation) =>
          match OptionsOf(code)
          case Failure(m) => ErrorReply(m)
          case Success(o) =>
            if |o.keys| > 0 then Reply(OrDefault(explanation, ChartDefaultText), Some(o))
            else Reply(OrDefault(explanation, NoChartDefaultText), None)
  }

  /**
   * Every branch of the chart request: the apology for a failed request, a
   * non-2xx status (naming it), an unreadable body or an unparsable code;
   * otherwise the explanation or the default text of each outcome.
   */
  lemma ChartReplyCases(response: ChartResponse)
    ensures response.FetchFailed? ==> ChartReply(response) == ErrorReply(response.message)
    ensures response.Http? && !IsOk(response.status) ==>
      ChartReply(response) == ErrorReply(StatusPrefix + NatToString(response.status))
    ensures response.Http? && IsOk(response.status) && response.body.Unreadable? ==>
      ChartReply(response) == ErrorReply(response.body.message)
    ensures response.Http? && IsOk(response.status) && response.body.Json? && OptionsOf(response.body.code).Failure? ==>
      ChartReply(response) == ErrorReply(OptionsOf(response.body.code).error)
    ensures ChartReply(response).chart.Some? ==>
      ChartReply(response).text == OrDefault(response.body.explanation, ChartDefaultText)
    ensures response.Http? && IsOk(response.status) && response.body.Json? && OptionsOf(response.body.code).Success?
            && |OptionsOf(response.body.code).value.keys| == 0 ==>
      ChartReply(response) == Reply(OrDefault(response.body.explanation, NoChartDefaultText), None)
  {
  }

  /** A 200 answer whose code is a JSON string with keys and whose explanation is "here". */
  lemma ChartScenario(code: string, keys: seq<string>)
    requires code != "" && |keys| > 0
    ensures var r := ChartReply(Http(200, Json(CodeText(code, Parsed(ChartOptions(keys))), Some("here"))));
      r == Reply("here", Some(ChartOptions(keys)))
  {
  }

  /** The reply without the chart endpoint: `'Respuesta normal: ' + (input || "Sin texto")`. */
  function PlainReply(input: string): (r: Reply)
    ensures r.chart.None?
    ensures input != "" ==> r.text == PlainPrefix + input
    ensures input == "" ==> r.text == PlainPrefix + NoText
  {
    Reply(PlainPrefix + (if input != "" then input else NoText), None)
  }

  function BotReply(input: string, generateChart: bool, response: ChartResponse): (r: Reply)
    ensures !generateChart ==> r == PlainReply(input)
    ensures generateChart ==> r == ChartReply(response)
  {
    if generateChart then ChartReply(response) else PlainReply(input)
  }

  /** The answered chat: the user's message, then the bot's reply. */
  function SubmittedChat(chat: Chat, input: string, file: Option<FileParser.Attachment>, reply: Reply,
                         sentAt: Time, repliedAt: Time, updatedAt: Time): (c: Chat)
    ensures c.id == chat.id
    ensures c.title == NextTitle(chat, input, file)
    ensures |c.messages| == |chat.messages| + 2
    ensures c.messages[..|chat.messages|] == chat.messages
    ensures var user := c.messages[|chat.messages|];
      && user.id == |chat.messages| + 1 && !user.isBot
      && user.text == UserText(input, file) && user.attachment == file
      && !user.showChart && user.chartOptions.None?
    ensures var bot := c.messages[|chat.messages| + 1];
      && bot.id == |chat.messages| + 2 && bot.isBot
      && bot.text == reply.text && bot.showChart == reply.chart.Some? && bot.chartOptions == reply.chart
      && bot.attachment.None?
    ensures WellNumbered(chat) ==> WellNumbered(c)
  {
    var n := |chat.messages|;
    var user := Message(n + 1, UserText(input, file), false, sentAt, false, None, file);
    var bot := Message(n + 2, reply.text, true, repliedAt, reply.chart.Some?, reply.chart, None);
    Chat(chat.id, NextTitle(chat, input, file), chat.messages + [user, bot], updatedAt)
  }

  /** The chat list after `handleSubmit`. */
  function SubmitChats(chats: seq<Chat>, active: string, input: string, file: Option<FileParser.Attachment>,
                       generateChart: bool, response: ChartResponse,
                       sentAt: Time, repliedAt: Time, updatedAt: Time): (r: seq<Chat>)
    requires |chats| > 0
    ensures SubmitIgnored(input, file) ==> r == chats
    ensures |r| == |chats|
  {
    if SubmitIgnored(input, file) then chats
    else
      var current := GetCurrentChat(chats, active);
      UpdateChat(chats, active, SubmittedChat(current, input, file, BotReply(input, generateChart, response), sentAt, repliedAt, updatedAt))
  }

  /**
   * When the active id names a chat, a submission that is not ignored
   * extends exactly that chat by the user's message and the reply.
   */
  lemma SubmitExtendsActiveChat(chats: seq<Chat>, active: string, input: string, file: Option<FileParser.Attachment>,
                                generateChart: bool, response: ChartResponse, sentAt: Time, repliedAt: Time, updatedAt: Time)
    requires |chats| > 0 && DistinctIds(chats) && HasId(chats, active) && !SubmitIgnored(input, file)
    ensures var r := SubmitChats(chats, active, input, file, generateChart, response, sentAt, repliedAt, updatedAt);
      forall i :: 0 <= i < |chats| ==>
        if chats[i].id == active
        then r[i] == SubmittedChat(chats[i], input, file, BotReply(input, generateChart, response), sentAt, repliedAt, updatedAt)
        else r[i] == chats[i]
  {
  }

  /**
   * As written, deleting the only chat leaves the active id pointing at no
   * chat when the two `createInitialChat()` calls draw different ids, and the
   * next submission is then dropped: `updateChat` finds nothing to replace.
   */
  lemma DeleteLastChatLosesNextSubmit(c: Chat, listId: string, activeId: string, greetedAt: Time, createdAt: Time,
                                      input: string, response: ChartResponse, sentAt: Time, repliedAt: Time, updatedAt: Time)
    requires listId != activeId && !IsBlank(input)
    ensures var (chats, active) := DeleteChatAsWritten([c], c.id, c.id, listId, activeId, greetedAt, createdAt);
      && !HasId(chats, active)
      && SubmitChats(chats, active, input, None, false, response, sentAt, repliedAt, updatedAt) == chats
  {
    assert FilterOut([c][1..], c.id) == [];
    assert FilterOut([c], c.id) == [];
  }

  /** With the corrected delete, the same sequence extends the replacement chat. */
  lemma DeleteLastChatThenSubmit(c: Chat, freshId: string, greetedAt: Time, createdAt: Time,
                                 input: string, response: ChartResponse, sentAt: Time, repliedAt: Time, updatedAt: Time)
    requires freshId != c.id && !IsBlank(input)
    ensures HasId([c], c.id) && var (chats, active) := DeleteChat([c], c.id, c.id, freshId, greetedAt, createdAt);
      && chats == [CreateInitialChat(freshId, greetedAt, createdAt)] && active == freshId
      && |SubmitChats(chats, active, input, None, false, response, sentAt, repliedAt, updatedAt)[0].messages| == 3
  {
    assert FilterOut([c][1..], c.id) == [];
    assert FilterOut([c], c.id) == [];
    HasIdFromIndexed([c], 0);
    var chats := [CreateInitialChat(freshId, greetedAt, createdAt)];
    HasIdFromIndexed(chats, 0);
  }

  /** Replacing a chat twice under its own id leaves only the second replacement. */
  lemma UpdateChatTwice(chats: seq<Chat>, id: string, first: Chat, second: Chat)
    requires first.id == id
    ensures UpdateChat(UpdateChat(chats, id, first), id, second) == UpdateChat(chats, id, second)
  {
  }

  /** A submission keeps the list non-empty, the ids unique and named, and the messages numbered. */
  lemma {:induction false} SubmitKeepsInvariant(chats: seq<Chat>, active: string, input: string, file: Option<FileParser.Attachment>,
                                                generateChart: bool, response: ChartResponse,
                                                sentAt: Time, repliedAt: Time, updatedAt: Time)
    requires |chats| > 0 && DistinctIds(chats) && HasId(chats, active)
    requires forall i :: 0 <= i < |chats| ==> WellNumbered(chats[i])
    ensures var r := SubmitChats(chats, active, input, file, generateChart, response, sentAt, repliedAt, updatedAt);
      && |r| > 0 && DistinctIds(r) && HasId(r, active)
      && forall i :: 0 <= i < |r| ==> WellNumbered(r[i])
  {
    var r := SubmitChats(chats, active, input, file, generateChart, response, sentAt, repliedAt, updatedAt);
    if !SubmitIgnored(input, file) {
      var current := GetCurrentChat(chats, active);
      var updated := SubmittedChat(current, input, file, BotReply(input, generateChart, response), sentAt, repliedAt, updatedAt);
      assert r == UpdateChat(chats, active, updated);
      assert WellNumbered(current);
      forall i | 0 <= i < |r| ensures WellNumbered(r[i]) {
        assert WellNumbered(chats[i]);
      }
      var k :| 0 <= k < |chats| && chats[k].id == active;
      HasIdFromIndexed(r, k);
    }
  }

  // ---------------------------------------------------------------- the store

  /** The state `App` keeps with `useState`. */
  class App {
    var chats: seq<Chat>
    var activeChat: string
    var input: string
    var isTyping: bool

    /** Never empty, ids unique, the active id names a chat, messages numbered. */
    ghost predicate Valid()
      reads this
    {
      && |chats| > 0
      && DistinctIds(chats)
      && HasId(chats, activeChat)
      && forall i :: 0 <= i < |chats| ==> WellNumbered(chats[i])
    }

    constructor (firstId: string, greetedAt: Time, createdAt: Time)
      ensures Valid()
      ensures chats == [CreateInitialChat(firstId, greetedAt, createdAt)] && activeChat == firstId
      ensures input == "" && !isTyping
    {
      chats := [CreateInitialChat(firstId, greetedAt, createdAt)];
      activeChat := firstId;
      input := "";
      isTyping := false;
      new;
      HasIdFromIndexed(chats, 0);
    }

    /** `onChatSelect`, called by the tray with a listed chat's id. */
    method SelectChat(id: string)
      requires Valid() && HasId(chats, id)
      modifies this
      ensures Valid()
      ensures activeChat == id && chats == old(chats) && input == old(input) && isTyping == old(isTyping)
    {
      activeChat := id;
    }

    /** `setInput`, the text box's change handler. */
    method SetInput(text: string)
      requires Valid()
      modifies this
      ensures Valid()
      ensures input == text && chats == old(chats) && activeChat == old(activeChat) && isTyping == old(isTyping)
    {
      input := text;
    }

    /** `handleNewChat`: one initial chat appended at the end and made active. */
    method HandleNewChat(freshId: string, greetedAt: Time, createdAt: Time)
      requires Valid() && !HasId(chats, freshId)
      modifies this
      ensures Valid()
      ensures chats == old(chats) + [CreateInitialChat(freshId, greetedAt, createdAt)]
      ensures activeChat == freshId && input == old(input) && isTyping == old(isTyping)
    {
      chats := chats + [CreateInitialChat(freshId, greetedAt, createdAt)];
      activeChat := freshId;
      HasIdFromIndexed(chats, |chats| - 1);
    }

    /** `handleDeleteChat`, with the replacement chat's id as the new active id. */
    method HandleDeleteChat(id: string, freshId: string, greetedAt: Time, createdAt: Time)
      requires Valid() && freshId != id && !HasId(chats, freshId)
      modifies this
      ensures Valid()
      ensures !HasId(chats, id)
      ensures (chats, activeChat) == DeleteChat(old(chats), old(activeChat), id, freshId, greetedAt, createdAt)
      ensures input == old(input) && isTyping == old(isTyping)
    {
      var r := DeleteChat(chats, activeChat, id, freshId, greetedAt, createdAt);
      ghost var before := chats;
      chats, activeChat := r.0, r.1;
      forall i | 0 <= i < |chats| ensures WellNumbered(chats[i]) {
        if chats[i] != CreateInitialChat(freshId, greetedAt, createdAt) {
          assert chats[i] in FilterOut(before, id);
          ghost var k :| 0 <= k < |before| && before[k] == chats[i];
        }
      }
    }

    /** `handleRenameChat` */
    method HandleRenameChat(id: string, title: string)
      requires Valid()
      modifies this
      ensures Valid()
      ensures chats == RenameChat(old(chats), id, title)
      ensures activeChat == old(activeChat) && input == old(input) && isTyping == old(isTyping)
    {
      ghost var before := chats;
      chats := RenameChat(chats, id, title);
      ghost var k :| 0 <= k < |before| && before[k].id == activeChat;
      HasIdFromIndexed(chats, k);
      forall i | 0 <= i < |chats| ensures WellNumbered(chats[i]) {
        assert WellNumbered(before[i]);
      }
    }

    /**
     * The reply step of `handleSubmit`: with a chart request the typing
     * indicator is on while the endpoint is awaited and off afterwards.
     */
    method Answer(text: string, generateChart: bool, response: ChartResponse) returns (reply: Reply)
      modifies this
      ensures reply == BotReply(text, generateChart, response)
      ensures isTyping == (if generateChart then false else old(isTyping))
      ensures chats == old(chats) && activeChat == old(activeChat) && input == old(input)
    {
      if generateChart {
        isTyping := true;
        reply := ChartReply(response);
        isTyping := false;
      } else {
        reply := PlainReply(text);
      }
    }

    /**
     * `handleSubmit(e, file, generateChart)`: the user's message, then the
     * reply, in the active chat; the text box is cleared and the typing
     * indicator is off once a chart request has finished.
     */
    method HandleSubmit(file: Option<FileParser.Attachment>, generateChart: bool, response: ChartResponse,
                        sentAt: Time, repliedAt: Time, updatedAt: Time)
      requires Valid()
      modifies this
      ensures Valid()
      ensures SubmitIgnored(old(input), file) ==>
        chats == old(chats) && input == old(input) && isTyping == old(isTyping) && activeChat == old(activeChat)
      ensures !SubmitIgnored(old(input), file) ==>
        && chats == SubmitChats(old(chats), old(activeChat), old(input), file, generateChart, response, sentAt, repliedAt, updatedAt)
        && input == "" && activeChat == old(activeChat)
        && isTyping == (if generateChart then false else old(isTyping))
    {
      if IsBlank(input) && file.None? {
        return;
      }
      ghost var before := chats;
      var current := GetCurrentChat(chats, activeChat);
      var text := input;
      var n := |current.messages|;
      var userMessage := Message(n + 1, UserText(text, file), false, sentAt, false, None, file);
      var updated := Chat(current.id, NextTitle(current, text, file), current.messages + [userMessage], sentAt);
      ghost var userMessageChat := updated;
      chats := UpdateChat(chats, activeChat, updated);
      input := "";
      var reply := Answer(text, generateChart, response);
      var botMessage := Message(n + 2, reply.text, true, repliedAt, reply.chart.Some?, reply.chart, None);
      assert reply == BotReply(text, generateChart, response);
      assert current.messages + [userMessage] + [botMessage] == current.messages + [userMessage, botMessage];
      updated := updated.(messages := updated.messages + [botMessage], lastUpdated := updatedAt);
      assert updated == SubmittedChat(current, text, file, reply, sentAt, repliedAt, updatedAt);
      UpdateChatTwice(before, activeChat, userMessageChat, updated);
      chats := UpdateChat(chats, activeChat, updated);
      assert !SubmitIgnored(text, file) && current == GetCurrentChat(before, activeChat);
      assert chats == SubmitChats(before, activeChat, text, file, generateChart, response, sentAt, repliedAt, updatedAt);
      SubmitKeepsInvariant(before, activeChat, text, file, generateChart, response, sentAt, repliedAt, updatedAt);
    }
  }
}
