/**
 * The Trello webhook handler: one delivery in, one response out, and at most
 * one archived-card document handed to the document store.
 *
 * The handler is a chain of gates with early returns. The first gate that
 * fires decides the response; only a delivery that passes all of them builds
 * a document and tries to insert it. Python exceptions that nothing catches
 * (a missing `requestContext`, a payload whose `action`, `data` or `card` is
 * not a dict, ...) are the explicit outcome `Crash`.
 */
module Webhook {
  import opened Wrappers
  import opened PyJson

  /** What `json.loads` gives back: a value, or an exception (caught by the bare `except`). */
  datatype Parse = Parsed(value: Json) | ParseError

  /**
   * The parts of the Python runtime the handler calls but that are not
   * modelled here: `json.loads`, and `repr` of a list or a dict (which an
   * f-string uses when it interpolates one).
   */
  datatype Runtime = Runtime(loads: string -> Parse, repr: Json -> string)

  /** The outcome of getting the client and calling `insert_one`: `str(inserted_id)` or `str(e)`. */
  datatype StoreResult = Inserted(id: string) | StoreFailed(message: string)

  /**
   * A response body: plain text, or the JSON text `json.dumps` makes of
   * `{"status": "saved", "insertedId": insertedId}`.
   */
  datatype Body = Text(text: string) | Saved(insertedId: string)

  datatype Response = Response(status: int, body: Body)

  /** The archived-card record, one field per key of the dict given to `insert_one`. */
  datatype Document = Document(
    cardId: Json,
    name: Json,
    shortUrl: string,
    dateClosed: Json,
    boardId: Json,
    boardName: Json,
    listId: Json,
    listName: Json,
    archivedAt: Json,
    archivedBy: Json)
  {
    /** The dict as the store receives it. */
    function ToJson(): (j: Json)
      ensures j.Obj? && j.fields.Keys == DocumentKeys
      ensures j.fields["cardId"] == cardId && j.fields["name"] == name
      ensures j.fields["shortUrl"] == Str(shortUrl)
      ensures j.fields["dateClosed"] == dateClosed
      ensures j.fields["boardId"] == boardId && j.fields["boardName"] == boardName
      ensures j.fields["listId"] == listId && j.fields["listName"] == listName
      ensures j.fields["archivedAt"] == archivedAt && j.fields["archivedBy"] == archivedBy
    {
      Obj(map[
        "cardId" := cardId,
        "name" := name,
        "shortUrl" := Str(shortUrl),
        "dateClosed" := dateClosed,
        "boardId" := boardId,
        "boardName" := boardName,
        "listId" := listId,
        "listName" := listName,
        "archivedAt" := archivedAt,
        "archivedBy" := archivedBy])
    }
  }

  const DocumentKeys: set<string> := {
    "cardId", "name", "shortUrl", "dateClosed", "boardId",
    "boardName", "listId", "listName", "archivedAt", "archivedBy"
  }

  /** The ten key names are distinct. */
  lemma DocumentKeysCount()
    ensures |DocumentKeys| == 10
  {
  }

  /** The stored dict has exactly ten keys. */
  lemma DocumentHasTenKeys(doc: Document)
    ensures |doc.ToJson().fields| == 10
  {
    DocumentKeysCount();
  }

  const ShortUrlPrefix: string := "https://trello.com/c/"
  const StoreErrorPrefix: string := "MongoDB error: "

  const ProbeOk: Response := Response(200, Text("OK"))
  const InvalidJson: Response := Response(400, Text("Invalid JSON"))
  const NoAction: Response := Response(200, Text("No action"))
  const Ignored: Response := Response(200, Text("Ignored"))
  const NotArchived: Response := Response(200, Text("Not archived"))

  /** What the gates and the document construction decide, before the insert. */
  datatype Gate = Respond(response: Response) | Store(document: Document) | Raise

  /**
   * What one invocation ends in: a response together with the document whose
   * `insert_one` returned (if any), or an exception that escapes the handler.
   */
  datatype Outcome = Reply(response: Response, stored: Option<Document>) | Crash

  // ---------------------------------------------------------------------
  // Reading the event

  /** `event["requestContext"]["http"]["method"]`, or `None` when that raises. */
  function MethodOf(event: Json): Option<Json>
  {
    match Subscript(event, "requestContext")
    case None => None
    case Some(context) =>
      match Subscript(context, "http")
      case None => None
      case Some(http) => Subscript(http, "method")
  }

  /** The validation handshake: the method is `GET` or `HEAD`. */
  predicate IsProbe(event: Json)
  {
    MethodOf(event) == Some(Str("GET")) || MethodOf(event) == Some(Str("HEAD"))
  }

  /** The method can be read and the handshake gate lets the delivery through. */
  predicate PastMethodGate(event: Json)
  {
    MethodOf(event).Some? && !IsProbe(event)
  }

  /**
   * The text `json.loads` is given: `event.get("body", "{}")` when that is a
   * string. Any other body value (`None` included) makes `json.loads` raise.
   */
  function BodyText(event: Json): Option<string>
  {
    if !event.Obj? then None
    else
      match Get(event.fields, "body", Str("{}"))
      case Str(t) => Some(t)
      case _ => None
  }

  /** The result of the `try: json.loads(...)` block. */
  function Payload(event: Json, rt: Runtime): Parse
  {
    match BodyText(event)
    case None => ParseError
    case Some(t) => rt.loads(t)
  }

  // ---------------------------------------------------------------------
  // Reference view of a Trello payload, by lookups that never raise

  function ActionOf(body: Json): Json { Field(body, "action") }
  function TypeOf(body: Json): Json { Field(ActionOf(body), "type") }
  function DataOf(body: Json): Json { Field(ActionOf(body), "data") }
  function CardOf(body: Json): Json { Field(DataOf(body), "card") }
  function ClosedOf(body: Json): Json { Field(CardOf(body), "closed") }

  /** `key`, when `v` is a dict that holds it, holds a dict. */
  predicate DictOrAbsent(v: Json, key: string)
  {
    v.Obj? && key in v.fields ==> v.fields[key].Obj?
  }

  /**
   * The shape Trello sends: the body is a dict, and a truthy `action` is a
   * dict whose `data`, `memberCreator`, `card`, `board` and `list`, where
   * present, are dicts too.
   */
  predicate TrelloShaped(body: Json)
  {
    && body.Obj?
    && (Truthy(ActionOf(body)) ==>
          && ActionOf(body).Obj?
          && DictOrAbsent(ActionOf(body), "data")
          && DictOrAbsent(ActionOf(body), "memberCreator")
          && DictOrAbsent(DataOf(body), "card")
          && DictOrAbsent(DataOf(body), "board")
          && DictOrAbsent(DataOf(body), "list"))
  }

  /** A body that reports an `updateCard` on a card whose `closed` is truthy. */
  predicate ArchivalBody(body: Json)
  {
    && Truthy(ActionOf(body))
    && TypeOf(body) == Str("updateCard")
    && Truthy(ClosedOf(body))
  }

  /** A delivery past the method gate whose body parses and reports an archival. */
  predicate Archival(event: Json, rt: Runtime)
  {
    && PastMethodGate(event)
    && Payload(event, rt).Parsed?
    && ArchivalBody(Payload(event, rt).value)
  }

  /**
   * Where the handler raises, stated by lookups that never raise: a body that
   * is not a dict; a truthy `action` that is not a dict; for an `updateCard`,
   * a `data` or `card` present but not a dict; and for a card found closed, a
   * `board`, `list` or `memberCreator` present but not a dict.
   */
  predicate PayloadRaises(body: Json)
  {
    || !body.Obj?
    || (&& Truthy(ActionOf(body))
        && (|| !ActionOf(body).Obj?
            || (&& TypeOf(body) == Str("updateCard")
                && (|| !DictOrAbsent(ActionOf(body), "data")
                    || !DictOrAbsent(DataOf(body), "card")
                    || (&& Truthy(ClosedOf(body))
                        && (|| !DictOrAbsent(DataOf(body), "board")
                            || !DictOrAbsent(DataOf(body), "list")
                            || !DictOrAbsent(ActionOf(body), "memberCreator")))))))
  }

  /** The delivery reaches an exception nothing catches. */
  predicate Crashes(event: Json, rt: Runtime)
  {
    || MethodOf(event).None?
    || (PastMethodGate(event) && Payload(event, rt).Parsed? && PayloadRaises(Payload(event, rt).value))
  }

  /** The archived-card record of a body, read by lookups that never raise. */
  function ExpectedDocument(body: Json, repr: Json -> string): Document
  {
    var action := ActionOf(body);
    var card := CardOf(body);
    var board := Field(DataOf(body), "board");
    var list := Field(DataOf(body), "list");
    Document(
      cardId := Field(card, "id"),
      name := Field(card, "name"),
      shortUrl := ShortUrlPrefix + PyStr(Field(card, "shortLink"), repr),
      dateClosed := if Truthy(Field(card, "dateClosed")) then Field(card, "dateClosed") else Field(action, "date"),
      boardId := Field(board, "id"),
      boardName := Field(board, "name"),
      listId := Field(list, "id"),
      listName := Field(list, "name"),
      archivedAt := Field(action, "date"),
      archivedBy := Field(Field(action, "memberCreator"), "fullName"))
  }

  // ---------------------------------------------------------------------
  // The handler

  /** The `document = {...}` literal, from the dicts the handler has in hand. */
  function BuildDocument(
    action: map<string, Json>, card: map<string, Json>, board: map<string, Json>,
    list: map<string, Json>, member: map<string, Json>, repr: Json -> string): Document
  {
    Document(
      cardId := Get(card, "id", Null),
      name := Get(card, "name", Null),
      shortUrl := ShortUrlPrefix + PyStr(Get(card, "shortLink", Null), repr),
      dateClosed := Or(Get(card, "dateClosed", Null), Get(action, "date", Null)),
      boardId := Get(board, "id", Null),
      boardName := Get(board, "name", Null),
      listId := Get(list, "id", Null),
      listName := Get(list, "name", Null),
      archivedAt := Get(action, "date", Null),
      archivedBy := Get(member, "fullName", Null))
  }

  /** The gates on the parsed body (lines 34-49) and the document construction (lines 52-69). */
  function Screen(body: Json, repr: Json -> string): (g: Gate)
    ensures g == Raise <==> PayloadRaises(body)
    ensures g == Respond(NoAction) <==> body.Obj? && !Truthy(ActionOf(body))
    ensures g == Respond(Ignored) <==>
              && body.Obj? && Truthy(ActionOf(body)) && ActionOf(body).Obj?
              && TypeOf(body) != Str("updateCard")
    ensures g == Respond(NotArchived) <==>
              && body.Obj? && Truthy(ActionOf(body)) && ActionOf(body).Obj?
              && TypeOf(body) == Str("updateCard")
              && DictOrAbsent(ActionOf(body), "data") && DictOrAbsent(DataOf(body), "card")
              && !Truthy(ClosedOf(body))
    ensures g.Store? <==> ArchivalBody(body) && !PayloadRaises(body)
    ensures g.Respond? ==> g.response in {NoAction, Ignored, NotArchived}
    ensures g.Store? ==> g.document == ExpectedDocument(body, repr)
  {
    if !body.Obj? then Raise
    else
      var action := Get(body.fields, "action", EmptyObj);
      if !Truthy(action) then Respond(NoAction)
      else if !action.Obj? then Raise
      else if Get(action.fields, "type", Null) != Str("updateCard") then Respond(Ignored)
      else
        var data := Get(action.fields, "data", EmptyObj);
        if !data.Obj? then Raise
        else
          var card := Get(data.fields, "card", EmptyObj);
          var board := Get(data.fields, "board", EmptyObj);
          var list := Get(data.fields, "list", EmptyObj);
          if !card.Obj? then Raise
          else if !Truthy(Get(card.fields, "closed", Null)) then Respond(NotArchived)
          else if !board.Obj? || !list.Obj? then Raise
          else
            var member := Get(action.fields, "memberCreator", EmptyObj);
            if !member.Obj? then Raise
            else Store(BuildDocument(action.fields, card.fields, board.fields, list.fields, member.fields, repr))
  }

  /** Everything up to the insert: the method gate, the parse, then `Screen`. The first gate that fires decides. */
  function Triage(event: Json, rt: Runtime): (g: Gate)
    ensures g == Raise <==> Crashes(event, rt)
    ensures g == Respond(ProbeOk) <==> IsProbe(event)
    ensures g == Respond(InvalidJson) <==> PastMethodGate(event) && Payload(event, rt).ParseError?
    ensures g == Respond(NoAction) <==>
              && PastMethodGate(event) && Payload(event, rt).Parsed? && Payload(event, rt).value.Obj?
              && !Truthy(ActionOf(Payload(event, rt).value))
    ensures g == Respond(Ignored) <==>
              && PastMethodGate(event) && Payload(event, rt).Parsed? && Payload(event, rt).value.Obj?
              && Truthy(ActionOf(Payload(event, rt).value)) && ActionOf(Payload(event, rt).value).Obj?
              && TypeOf(Payload(event, rt).value) != Str("updateCard")
    ensures g == Respond(NotArchived) <==>
              && PastMethodGate(event) && Payload(event, rt).Parsed? && Payload(event, rt).value.Obj?
              && Truthy(ActionOf(Payload(event, rt).value)) && ActionOf(Payload(event, rt).value).Obj?
              && TypeOf(Payload(event, rt).value) == Str("updateCard")
              && DictOrAbsent(ActionOf(Payload(event, rt).value), "data")
              && DictOrAbsent(DataOf(Payload(event, rt).value), "card")
              && !Truthy(ClosedOf(Payload(event, rt).value))
    ensures g.Store? <==> Archival(event, rt) && !Crashes(event, rt)
    ensures g.Respond? ==> g.response in {ProbeOk, InvalidJson, NoAction, Ignored, NotArchived}
    ensures g.Store? ==> g.document == ExpectedDocument(Payload(event, rt).value, rt.repr)
  {
    match MethodOf(event)
    case None => Raise
    case Some(verb) =>
      if verb == Str("GET") || verb == Str("HEAD") then Respond(ProbeOk)
      else
        match Payload(event, rt)
        case ParseError => Respond(InvalidJson)
        case Parsed(body) => Screen(body, rt.repr)
  }

  /** The `try` block around the insert: every storage failure becomes a 500, none escapes. */
  function Persist(doc: Document, store: StoreResult): (o: Outcome)
    ensures o.Reply?
    ensures o.stored.Some? <==> store.Inserted?
    ensures o.stored.Some? ==> o.stored.value == doc && o.response == Response(200, Saved(store.id))
    ensures o.response.status == 500 <==> store.StoreFailed?
    ensures store.StoreFailed? ==>
              && o.response.body.Text?
              && |o.response.body.text| >= |StoreErrorPrefix|
              && o.response.body.text[..|StoreErrorPrefix|] == StoreErrorPrefix
              && o.response.body.text[|StoreErrorPrefix|..] == store.message
  {
    match store
    case Inserted(id) => Reply(Response(200, Saved(id)), Some(doc))
    case StoreFailed(message) => Reply(Response(500, Text(StoreErrorPrefix + message)), None)
  }

  /** `lambda_handler(event, context)`, with the insert's outcome given as `store`. */
  function Handle(event: Json, rt: Runtime, store: StoreResult): (o: Outcome)
    ensures IsProbe(event) ==> o == Reply(ProbeOk, None)
    ensures o.Crash? <==> Crashes(event, rt)
    ensures o.Reply? ==> o.response.status in {200, 400, 500}
    ensures o.Reply? && o.response.status == 400 <==> PastMethodGate(event) && Payload(event, rt).ParseError?
    ensures o.Reply? && o.response.status == 500 <==> Archival(event, rt) && !Crashes(event, rt) && store.StoreFailed?
    ensures o.Reply? && o.stored.Some? <==> Archival(event, rt) && !Crashes(event, rt) && store.Inserted?
    ensures o.Reply? && o.stored.Some? ==>
              o.stored.value == ExpectedDocument(Payload(event, rt).value, rt.repr)
  {
    match Triage(event, rt)
    case Raise => Crash
    case Respond(r) => Reply(r, None)
    case Store(doc) => Persist(doc, store)
  }
}
