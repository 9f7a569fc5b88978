/**
 * Properties of the webhook handler that relate several of its gates, the
 * document it builds, and concrete deliveries.
 */
module HandlerProperties {
  import opened Wrappers
  import opened PyJson
  import opened Webhook

  /** On a payload of the shape Trello sends, no exception escapes the handler. */
  lemma NoCrashOnTrelloShapes(event: Json, rt: Runtime, store: StoreResult)
    requires MethodOf(event).Some?
    requires Payload(event, rt).Parsed? ==> TrelloShaped(Payload(event, rt).value)
    ensures Handle(event, rt, store).Reply?
  {
  }

  /**
   * A document is stored exactly when the delivery passes the method gate,
   * parses, carries a truthy `action` of type `updateCard` whose card has a
   * truthy `closed`, and the insert succeeds.
   */
  lemma StoredIffArchival(event: Json, rt: Runtime, store: StoreResult)
    requires MethodOf(event).Some?
    requires Payload(event, rt).Parsed? ==> TrelloShaped(Payload(event, rt).value)
    ensures var o := Handle(event, rt, store);
            o.Reply? && o.stored.Some? <==> Archival(event, rt) && store.Inserted?
  {
    NoCrashOnTrelloShapes(event, rt, store);
  }

  /** An `updateCard` on a card whose `closed` is absent or falsy is answered "Not archived" and stores nothing. */
  lemma OpenCardIsNotArchived(event: Json, rt: Runtime, store: StoreResult)
    requires PastMethodGate(event) && Payload(event, rt).Parsed?
    requires TrelloShaped(Payload(event, rt).value)
    requires Truthy(ActionOf(Payload(event, rt).value))
    requires TypeOf(Payload(event, rt).value) == Str("updateCard")
    requires !Truthy(ClosedOf(Payload(event, rt).value))
    ensures Handle(event, rt, store) == Reply(NotArchived, None)
  {
  }

  /** A body that parses to something other than a dict crashes at `body.get`: it is not a 400. */
  lemma NonObjectBodyCrashes(event: Json, rt: Runtime, store: StoreResult)
    requires PastMethodGate(event) && Payload(event, rt).Parsed?
    requires !Payload(event, rt).value.Obj?
    ensures Handle(event, rt, store) == Crash
  {
  }

  /** A truthy `action` that is not a dict (a non-empty string, say) crashes at `action.get`. */
  lemma NonDictActionCrashes(event: Json, rt: Runtime, store: StoreResult)
    requires PastMethodGate(event) && Payload(event, rt).Parsed?
    requires Payload(event, rt).value.Obj?
    requires Truthy(ActionOf(Payload(event, rt).value)) && !ActionOf(Payload(event, rt).value).Obj?
    ensures Handle(event, rt, store) == Crash
  {
  }

  /** An `updateCard` whose `data.card` is an explicit `null` crashes at `card.get("closed")`. */
  lemma NullCardCrashes(event: Json, rt: Runtime, store: StoreResult)
    requires PastMethodGate(event) && Payload(event, rt).Parsed?
    requires Payload(event, rt).value.Obj? && ActionOf(Payload(event, rt).value).Obj?
    requires TypeOf(Payload(event, rt).value) == Str("updateCard")
    requires DataOf(Payload(event, rt).value).Obj?
    requires "card" in DataOf(Payload(event, rt).value).fields
    requires DataOf(Payload(event, rt).value).fields["card"] == Null
    ensures Handle(event, rt, store) == Crash
  {
  }

  /** A delivery without a `body` is read as `"{}"`: it parses, and has no action. */
  lemma MissingBodyIsNoAction(event: Json, rt: Runtime, store: StoreResult)
    requires PastMethodGate(event)
    requires "body" !in event.fields
    requires rt.loads("{}") == Parsed(EmptyObj)
    ensures Handle(event, rt, store) == Reply(NoAction, None)
  {
  }

  /** A `body` that is not a string (`null` included) makes `json.loads` raise: 400, whatever `loads` does. */
  lemma NonStringBodyIsInvalidJson(event: Json, rt: Runtime, store: StoreResult)
    requires PastMethodGate(event)
    requires "body" in event.fields && !event.fields["body"].Str?
    ensures Handle(event, rt, store) == Reply(InvalidJson, None)
  {
  }

  /** Every stored `shortUrl` is the fixed prefix followed by `str(shortLink)`, `"None"` when it is absent. */
  lemma ShortUrlPrefixed(event: Json, rt: Runtime)
    requires Triage(event, rt).Store?
    ensures var doc := Triage(event, rt).document;
            var link := Field(CardOf(Payload(event, rt).value), "shortLink");
            && |doc.shortUrl| >= |ShortUrlPrefix|
            && doc.shortUrl[..|ShortUrlPrefix|] == ShortUrlPrefix
            && (link.Str? ==> doc.shortUrl == ShortUrlPrefix + link.s)
            && (link == Null ==> doc.shortUrl == ShortUrlPrefix + "None")
            && (link.Num? ==> doc.shortUrl == ShortUrlPrefix + Decimal(link.n))
  {
  }

  /**
   * Two stored records with the same `shortUrl` came from the same `shortLink`,
   * when both are strings or both are integers.
   */
  lemma ShortUrlDeterminesLink(event: Json, event': Json, rt: Runtime)
    requires Triage(event, rt).Store? && Triage(event', rt).Store?
    requires Triage(event, rt).document.shortUrl == Triage(event', rt).document.shortUrl
    ensures var link := Field(CardOf(Payload(event, rt).value), "shortLink");
            var link' := Field(CardOf(Payload(event', rt).value), "shortLink");
            && (link.Str? && link'.Str? ==> link == link')
            && (link.Num? && link'.Num? ==> link == link')
  {
    var link := Field(CardOf(Payload(event, rt).value), "shortLink");
    var link' := Field(CardOf(Payload(event', rt).value), "shortLink");
    var url := Triage(event, rt).document.shortUrl;
    assert url == ShortUrlPrefix + PyStr(link, rt.repr);
    assert url == ShortUrlPrefix + PyStr(link', rt.repr);
    assert PyStr(link, rt.repr) == url[|ShortUrlPrefix|..] == PyStr(link', rt.repr);
    if link.Num? && link'.Num? {
      DecimalInjective(link.n, link'.n);
    }
  }

  /** `dateClosed` is the card's own when truthy; otherwise it equals `archivedAt`, the action's date. */
  lemma DateClosedFallback(event: Json, rt: Runtime)
    requires Triage(event, rt).Store?
    ensures var doc := Triage(event, rt).document;
            var own := Field(CardOf(Payload(event, rt).value), "dateClosed");
            && doc.archivedAt == Field(ActionOf(Payload(event, rt).value), "date")
            && (Truthy(own) ==> doc.dateClosed == own)
            && (!Truthy(own) ==> doc.dateClosed == doc.archivedAt)
  {
  }

  /** The body with `action.data.memberCreator` replaced by `other`. */
  function WithDataMember(body: Json, other: Json): Json
    requires body.Obj? && ActionOf(body).Obj? && DataOf(body).Obj?
  {
    var action := ActionOf(body);
    var data := DataOf(body);
    Obj(body.fields["action" := Obj(action.fields["data" := Obj(data.fields["memberCreator" := other])])])
  }

  /**
   * `archivedBy` comes from the action's own `memberCreator`: whatever
   * `data.memberCreator` holds, the expected record is the same.
   */
  lemma ArchivedByIgnoresDataMemberCreator(body: Json, repr: Json -> string, other: Json)
    requires body.Obj? && ActionOf(body).Obj? && DataOf(body).Obj?
    ensures ExpectedDocument(WithDataMember(body, other), repr) == ExpectedDocument(body, repr)
  {
  }

  // ---------------------------------------------------------------------
  // Concrete deliveries

  function PostEvent(body: string): Json
  {
    Obj(map[
      "requestContext" := Obj(map["http" := Obj(map["method" := Str("POST")])]),
      "body" := Str(body)])
  }

  const ScenarioDate: Json := Str("2024-01-01T00:00:00Z")

  function ScenarioCard(closed: Json): Json
  {
    Obj(map["id" := Str("c1"), "name" := Str("Invoice"), "closed" := closed, "shortLink" := Str("abc123")])
  }

  const ScenarioBoard: Json := Obj(map["id" := Str("b1"), "name" := Str("Board")])
  const ScenarioList: Json := Obj(map["id" := Str("l1"), "name" := Str("Done")])
  const ScenarioMember: Json := Obj(map["fullName" := Str("Jane Doe")])

  function ScenarioData(closed: Json): Json
  {
    Obj(map["card" := ScenarioCard(closed), "board" := ScenarioBoard, "list" := ScenarioList])
  }

  function ScenarioAction(closed: Json): Json
  {
    Obj(map[
      "type" := Str("updateCard"),
      "date" := ScenarioDate,
      "data" := ScenarioData(closed),
      "memberCreator" := ScenarioMember])
  }

  /** A sample archival payload for card c1 on board b1, with `closed` left open. */
  function ArchivePayload(closed: Json): Json
  {
    Obj(map["action" := ScenarioAction(closed)])
  }

  /** The scenario event passes the method gate and hands `text` to `json.loads`. */
  lemma ScenarioEvent(text: string, rt: Runtime)
    ensures PastMethodGate(PostEvent(text))
    ensures Payload(PostEvent(text), rt) == rt.loads(text)
  {
    assert MethodOf(PostEvent(text)) == Some(Str("POST"));
    assert BodyText(PostEvent(text)) == Some(text);
  }

  /** How the reference lookups see the scenario payload. */
  lemma ScenarioShape(closed: Json)
    ensures TrelloShaped(ArchivePayload(closed))
    ensures TypeOf(ArchivePayload(closed)) == Str("updateCard")
    ensures ClosedOf(ArchivePayload(closed)) == closed
  {
    ScenarioPaths(closed);
  }

  /** Where the action, its data and its card sit in the scenario payload. */
  lemma ScenarioPaths(closed: Json)
    ensures ActionOf(ArchivePayload(closed)) == ScenarioAction(closed)
    ensures TypeOf(ArchivePayload(closed)) == Str("updateCard")
    ensures DataOf(ArchivePayload(closed)) == ScenarioData(closed)
    ensures CardOf(ArchivePayload(closed)) == ScenarioCard(closed)
    ensures ClosedOf(ArchivePayload(closed)) == closed
  {
  }

  /** The record of card c1 on board b1: the action date stands in for the missing `dateClosed`. */
  const ScenarioRecord: Document := Document(
    cardId := Str("c1"), name := Str("Invoice"),
    shortUrl := "https://trello.com/c/abc123",
    dateClosed := Str("2024-01-01T00:00:00Z"),
    boardId := Str("b1"), boardName := Str("Board"),
    listId := Str("l1"), listName := Str("Done"),
    archivedAt := Str("2024-01-01T00:00:00Z"),
    archivedBy := Str("Jane Doe"))

  /** The leaf values of the scenario payload, as the reference lookups read them. */
  lemma ScenarioLeaves(closed: Json)
    ensures Field(ScenarioCard(closed), "id") == Str("c1")
    ensures Field(ScenarioCard(closed), "name") == Str("Invoice")
    ensures Field(ScenarioCard(closed), "shortLink") == Str("abc123")
    ensures Field(ScenarioCard(closed), "dateClosed") == Null
    ensures Field(ScenarioData(closed), "board") == ScenarioBoard
    ensures Field(ScenarioData(closed), "list") == ScenarioList
    ensures Field(ScenarioAction(closed), "date") == ScenarioDate
    ensures Field(ScenarioAction(closed), "memberCreator") == ScenarioMember
  {
  }

  lemma ScenarioExpectedDocument(repr: Json -> string)
    ensures ExpectedDocument(ArchivePayload(Bool(true)), repr) == ScenarioRecord
  {
    var body := ArchivePayload(Bool(true));
    ScenarioPaths(Bool(true));
    ScenarioLeaves(Bool(true));
    var d := ExpectedDocument(body, repr);
    assert d.shortUrl == "https://trello.com/c/abc123" by {
      assert ShortUrlPrefix + "abc123" == "https://trello.com/c/abc123";
    }
    // Field by field: one equation of ten fields at once is too costly for the solver.
    assert d.cardId == Str("c1") && d.name == Str("Invoice");
    assert d.dateClosed == ScenarioDate && d.archivedAt == ScenarioDate;
    assert d.boardId == Str("b1") && d.boardName == Str("Board");
    assert d.listId == Str("l1") && d.listName == Str("Done");
    assert d.archivedBy == Str("Jane Doe");
  }

  /** The sample archival delivery stores exactly its record and replies "saved". */
  lemma ArchiveScenario(text: string, rt: Runtime, id: string)
    requires rt.loads(text) == Parsed(ArchivePayload(Bool(true)))
    ensures Handle(PostEvent(text), rt, Inserted(id)) == Reply(Response(200, Saved(id)), Some(ScenarioRecord))
  {
    var event := PostEvent(text);
    ScenarioEvent(text, rt);
    ScenarioShape(Bool(true));
    StoredIffArchival(event, rt, Inserted(id));
    ScenarioExpectedDocument(rt.repr);
  }

  /** The string "false" is truthy, so a card whose `closed` is "false" is stored as archived. */
  lemma StringFalseCountsAsClosed(text: string, rt: Runtime, id: string)
    requires rt.loads(text) == Parsed(ArchivePayload(Str("false")))
    ensures Handle(PostEvent(text), rt, Inserted(id)).stored.Some?
  {
    ScenarioEvent(text, rt);
    ScenarioShape(Str("false"));
    StoredIffArchival(PostEvent(text), rt, Inserted(id));
  }

  /** The same card with `closed` false is not stored, and the response says why. */
  lemma OpenCardScenario(text: string, rt: Runtime, store: StoreResult)
    requires rt.loads(text) == Parsed(ArchivePayload(Bool(false)))
    ensures Handle(PostEvent(text), rt, store) == Reply(NotArchived, None)
  {
    ScenarioEvent(text, rt);
    ScenarioShape(Bool(false));
  }

  /** When the insert fails the handler still replies: 500 with the driver's message. */
  lemma StoreFailureScenario(text: string, rt: Runtime, message: string)
    requires rt.loads(text) == Parsed(ArchivePayload(Bool(true)))
    ensures Handle(PostEvent(text), rt, StoreFailed(message)) ==
              Reply(Response(500, Text("MongoDB error: " + message)), None)
  {
    ScenarioEvent(text, rt);
    ScenarioShape(Bool(true));
    NoCrashOnTrelloShapes(PostEvent(text), rt, StoreFailed(message));
  }
}
