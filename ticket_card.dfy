/**
 * The two ticket cards of the remote-support bot: the "new request" card shown in
 * personal chat, with the validation flags it computes, and the card that confirms a
 * submitted or edited request.
 */
module TicketCard {
  import opened Wrappers
  import opened DotNet
  import opened Cards

  /** The administrator's card configuration; only its template is read, by a call whose result is dropped. */
  datatype CardConfiguration = CardConfiguration(cardTemplate: Option<string>)

  /** The ticket fields the cards read. Strings may be null; the additional properties are a JSON object. */
  datatype TicketDetail = TicketDetail(
    ticketId: Option<string>,
    rowKey: Option<string>,
    description: Option<string>,
    categoryType: Option<string>,
    requestType: Option<string>,
    issueOccurredOn: Option<Instant>,
    additionalProperties: Option<string>)

  /** The exceptions the two card builders can throw. */
  datatype Error =
    | ArgumentNullException(paramName: string)
    | JsonException

  /** The three validation markers the new-request card computes. */
  datatype ValidationFlags = ValidationFlags(descriptionMissing: bool, categoryMissing: bool, dateInvalid: bool)

  /**
   * The new-request card together with the values its builder computes on the way:
   * the flags and the description and category it would prefill.
   */
  datatype NewTicketCard = NewTicketCard(
    card: Card,
    flags: ValidationFlags,
    issueDescription: string,
    issueCategory: string)

  /** The fixed notice that sends users to the Digital Service Desk. */
  const DigitalServiceDeskNotice: string :=
    "To serve you better, we have moved to Digital Service Desk on HIP and MyWorld on 1 Jun 2023. "
    + "<br/>Simply open your HIP App or go to MyWorld, select <b><a href=\"https://myworld.ocbc.com:8843/web/sg/myworld/#/myportal/digitalservicedesk\">"
    + "\"Digital Service Desk\"</a></b> to try it out!"

  /**
   * Builds the new-request card. `today` is DateTime.Today as an instant (the start of the
   * local day). Without validation mode the ticket is not read and may be null.
   */
  method GetNewTicketCard(
    cardConfiguration: Option<CardConfiguration>,
    localizer: string -> string,
    showValidationMessage: bool,
    ticketDetail: Option<TicketDetail>,
    today: Instant)
    returns (r: Result<NewTicketCard, Error>)
    ensures cardConfiguration.None? ==> r == Failure(ArgumentNullException("cardConfiguration"))
    ensures cardConfiguration.Some? && showValidationMessage && ticketDetail.None? ==>
              r == Failure(ArgumentNullException("ticketDetail"))
    ensures r.Success? <==> cardConfiguration.Some? && (showValidationMessage ==> ticketDetail.Some?)
    // The body is the title and the notice, whatever the flags and the ticket hold.
    ensures r.Success? ==>
              r.value.card == Card([TextBlock(localizer("NewRequestTitle")), TextBlock(DigitalServiceDeskNotice)], [])
    ensures r.Success? && !showValidationMessage ==>
              && r.value.flags == ValidationFlags(false, false, false)
              && r.value.issueDescription == ""
              && r.value.issueCategory == ""
    ensures r.Success? && showValidationMessage ==>
              var t := ticketDetail.value;
              && (r.value.flags.descriptionMissing <==> t.description.None? || WhiteSpaceOnly(t.description.value))
              && r.value.issueDescription == (if r.value.flags.descriptionMissing then "" else t.description.value)
              && (r.value.flags.categoryMissing <==> t.categoryType.None? || WhiteSpaceOnly(t.categoryType.value))
              && r.value.issueCategory == (if r.value.flags.categoryMissing then "" else t.categoryType.value)
              && (r.value.flags.dateInvalid <==>
                    t.issueOccurredOn.None? || t.issueOccurredOn.value == MinValue || t.issueOccurredOn.value > today)
    // A prefilled value is empty exactly when its field is flagged as missing.
    ensures r.Success? ==>
              && ((r.value.issueDescription == "") <==> (showValidationMessage ==> r.value.flags.descriptionMissing))
              && ((r.value.issueCategory == "") <==> (showValidationMessage ==> r.value.flags.categoryMissing))
  {
    if cardConfiguration.None? {
      return Failure(ArgumentNullException("cardConfiguration"));
    }

    var issueDescription := "";
    var issueCategory := "";
    var dynamicElements: seq<Element> := [];
    var showDescriptionValidation := false;
    var showCategoryValidation := false;
    var showDateValidation := false;

    if showValidationMessage {
      if ticketDetail.None? {
        return Failure(ArgumentNullException("ticketDetail"));
      }
      var ticket := ticketDetail.value;
      if IsNullOrWhiteSpace(ticket.description) {
        showDescriptionValidation := true;
      } else {
        issueDescription := ticket.description.value;
      }

      if IsNullOrWhiteSpace(ticket.categoryType) {
        showCategoryValidation := true;
      } else {
        issueCategory := ticket.categoryType.value;
      }

      if || ticket.issueOccurredOn.None?
         || ticket.issueOccurredOn.value == MinValue
         || Compare(ticket.issueOccurredOn.value, today) > 0
      {
        showDateValidation := true;
      }
    }

    dynamicElements := dynamicElements + [
      TextBlock(localizer("NewRequestTitle")),
      TextBlock(DigitalServiceDeskNotice)
    ];

    var flags := ValidationFlags(showDescriptionValidation, showCategoryValidation, showDateValidation);
    r := Success(NewTicketCard(Card(dynamicElements, []), flags, issueDescription, issueCategory));
  }

  /** What the confirmation card shows of a ticket, as a reader of the card recovers it. */
  datatype DetailView = DetailView(
    requestNumber: string,
    category: Option<string>,
    requestType: Option<string>,
    description: Option<string>,
    ticketId: Option<string>)

  /** The view of a ticket the confirmation card is meant to show; a null row key shows as an empty number. */
  function ViewOf(t: TicketDetail): DetailView {
    DetailView(t.rowKey.GetOr(""), t.categoryType, t.requestType, t.description, t.ticketId)
  }

  /**
   * Reads a confirmation card back: six body elements with the labelled rows at positions
   * 2 to 5, a request number written as "#" and the row key, and an edit action first.
   */
  function ReadDetailCard(card: Card): Option<DetailView> {
    if && |card.body| == 6
       && card.body[2].ColumnPair? && card.body[3].ColumnPair?
       && card.body[4].ColumnPair? && card.body[5].ColumnPair?
       && card.body[2].value.Some? && |card.body[2].value.value| >= 1 && card.body[2].value.value[0] == '#'
       && |card.actions| >= 1 && card.actions[0].SubmitAction?
       && card.actions[0].command == Some(EditRequestAction)
    then
      Some(DetailView(
        card.body[2].value.value[1..],
        card.body[3].value,
        card.body[4].value,
        card.body[5].value,
        card.actions[0].postedValues))
    else
      None
  }

  /** The rows of the fixed head of the confirmation card: its two text blocks add none. */
  lemma HeadColumns(head: seq<Element>)
    requires |head| == 5 && head[0].TextBlock? && head[1].TextBlock?
    requires head[2].ColumnPair? && head[3].ColumnPair? && head[4].ColumnPair?
    ensures Columns(head) == [
              (head[2].caption, head[2].value), (head[3].caption, head[3].value), (head[4].caption, head[4].value)]
  {
    ColumnsAppend(head[..2], head[2..]);
    assert head[..2] == [head[0]] + [head[1]];
    ColumnsAppend([head[0]], [head[1]]);
    assert head[2..] == [head[2]] + ([head[3]] + [head[4]]);
    ColumnsAppend([head[2]], [head[3]] + [head[4]]);
    ColumnsAppend([head[3]], [head[4]]);
  }

  /**
   * Builds the card that confirms a submitted (or, with `isEdited`, updated) request.
   * `deserializes` says whether Json.NET accepts the additional properties as a string
   * dictionary; `confirmationCard` is the withdraw confirmation card built from a ticket id.
   */
  method GetTicketDetailsForPersonalChatCard(
    cardElementMapping: Option<map<string, string>>,
    ticketDetail: Option<TicketDetail>,
    localizer: string -> string,
    isEdited: bool,
    deserializes: string -> bool,
    confirmationCard: Option<string> -> Card)
    returns (r: Result<Card, Error>)
    // Json.NET reads the empty text as a null dictionary without throwing.
    requires deserializes("")
    ensures ticketDetail.None? ==> r == Failure(ArgumentNullException("ticketDetail"))
    ensures ticketDetail.Some? && cardElementMapping.None? ==> r == Failure(ArgumentNullException("cardElementMapping"))
    ensures ticketDetail.Some? && cardElementMapping.Some? && ticketDetail.value.additionalProperties.None? ==>
              r == Failure(ArgumentNullException("value"))
    ensures ticketDetail.Some? && cardElementMapping.Some? && ticketDetail.value.additionalProperties.Some?
            && !deserializes(ticketDetail.value.additionalProperties.value) ==>
              r == Failure(JsonException)
    ensures r.Success? <==>
              && ticketDetail.Some? && cardElementMapping.Some?
              && ticketDetail.value.additionalProperties.Some?
              && deserializes(ticketDetail.value.additionalProperties.value)
    // Reading order: title variant, content, then only labelled rows, the description last.
    ensures r.Success? ==>
              var t := ticketDetail.value;
              && |r.value.body| == 6
              && r.value.body[0] == TextBlock(localizer(if isEdited then "RequestUpdatedText" else "RequestSubmittedText"))
              && r.value.body[1] == TextBlock(localizer("RequestSubmittedContent"))
              && Columns(r.value.body) == [
                   (localizer("RequestNumberText"), Some("#" + t.rowKey.GetOr(""))),
                   (localizer("CategoryTypeText"), t.categoryType),
                   (localizer("RequestTypeText"), t.requestType),
                   (localizer("DescriptionText"), t.description)]
              && r.value.body[|r.value.body| - 1] == ColumnPair(localizer("DescriptionText"), t.description)
    // Exactly three actions: edit, withdraw, new request.
    ensures r.Success? ==>
              var t := ticketDetail.value;
              r.value.actions == [
                SubmitAction(localizer("EditTicketActionText"), FetchAction, Some(EditRequestAction), t.ticketId),
                ShowCardAction(localizer("WithdrawRequestActionText"), confirmationCard(t.ticketId)),
                SubmitAction(localizer("NewRequestButtonText"), MessageBackAction(localizer("NewRequestButtonText")), None, None)]
    // The card shows the ticket's values and carries its id: reading it back gives the ticket's view.
    ensures r.Success? ==> ReadDetailCard(r.value) == Some(ViewOf(ticketDetail.value))
  {
    if ticketDetail.None? {
      return Failure(ArgumentNullException("ticketDetail"));
    }
    if cardElementMapping.None? {
      return Failure(ArgumentNullException("cardElementMapping"));
    }
    var ticket := ticketDetail.value;

    // Json.NET rejects a null string and malformed JSON; the dictionary it parses is not used.
    if ticket.additionalProperties.None? {
      return Failure(ArgumentNullException("value"));
    }
    if !deserializes(ticket.additionalProperties.value) {
      return Failure(JsonException);
    }

    var dynamicElements: seq<Element> := [];
    var ticketAdditionalFields: seq<Element> := [];

    var title := if isEdited then localizer("RequestUpdatedText") else localizer("RequestSubmittedText");
    var head := [
      TextBlock(title),
      TextBlock(localizer("RequestSubmittedContent")),
      ColumnPair(localizer("RequestNumberText"), Some("#" + ticket.rowKey.GetOr(""))),
      ColumnPair(localizer("CategoryTypeText"), ticket.categoryType),
      ColumnPair(localizer("RequestTypeText"), ticket.requestType)
    ];
    var descriptionRow := [ColumnPair(localizer("DescriptionText"), ticket.description)];

    dynamicElements := dynamicElements + head;
    dynamicElements := dynamicElements + ticketAdditionalFields;
    assert dynamicElements == head;
    ColumnsAppend(dynamicElements, descriptionRow);
    dynamicElements := dynamicElements + descriptionRow;
    HeadColumns(head);
    ColumnsOne(descriptionRow[0]);

    var edit := SubmitAction(localizer("EditTicketActionText"), FetchAction, Some(EditRequestAction), ticket.ticketId);
    var withdraw := ShowCardAction(localizer("WithdrawRequestActionText"), confirmationCard(ticket.ticketId));
    var newRequest := SubmitAction(
      localizer("NewRequestButtonText"), MessageBackAction(localizer("NewRequestButtonText")), None, None);

    r := Success(Card(dynamicElements, [edit, withdraw, newRequest]));
    assert ("#" + ticket.rowKey.GetOr(""))[1..] == ticket.rowKey.GetOr("");
  }

  /**
   * A caller in validation mode with an empty description, the category "Hardware" and a date
   * of yesterday: only the description is flagged, and the category is prefilled.
   */
  method ValidationModeClient(localizer: string -> string, today: Instant)
    requires today > 1
  {
    var ticket := TicketDetail(None, None, Some(""), Some("Hardware"), None, Some(today - 1), None);
    var r := GetNewTicketCard(Some(CardConfiguration(Some(""))), localizer, true, Some(ticket), today);
    assert !IsWhiteSpace("Hardware"[0]);
    assert WhiteSpaceOnly("");
    assert r.Success?;
    assert r.value.flags == ValidationFlags(true, false, false);
    assert r.value.issueCategory == "Hardware";
    assert |r.value.card.body| == 2;

    var failed := GetNewTicketCard(Some(CardConfiguration(Some(""))), localizer, true, None, today);
    assert failed == Failure(ArgumentNullException("ticketDetail"));
    var quiet := GetNewTicketCard(Some(CardConfiguration(Some(""))), localizer, false, None, today);
    assert quiet.Success? && quiet.value.flags == ValidationFlags(false, false, false);
  }
}
