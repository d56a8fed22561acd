# Ticket cards of the remote-support bot

A Dafny model of the two card builders in `TicketCard`. The Teams remote-support bot uses them in personal chat.

- `GetNewTicketCard` builds the "new request" card. In validation mode it first checks the ticket
  the user submitted. It raises three markers: description missing, category missing, and
  occurrence date invalid. It also picks the description and category it would prefill.
- `GetTicketDetailsForPersonalChatCard` builds the card that confirms a submitted or edited
  request. The card has a fixed body and three actions: edit, withdraw and new request.

Cards are values of a closed variant (`Cards.Element`, `Cards.Action`, `Cards.Card`) instead of
the AdaptiveCards object model. A value written to a card is kept verbatim. A null .NET reference
is `None`. A thrown exception is a `Failure` carrying the exception and its parameter name.
The string localizer is a total function `string -> string`. `today` stands for `DateTime.Today`
and is a parameter. Instants are whole ticks counted from `DateTimeOffset.MinValue`, which is `0`.
They are compared as `DateTimeOffset.Compare` compares them, by the UTC instant.

The source computes the validation markers and then drops them. Only the date marker is passed on,
to a call whose result never reaches the card. The model therefore returns the markers and the
prefilled strings next to the card. That way the rule can be stated.

Notes on the code:

- The additional fields never reach either card. Line 91 is commented out, and so is the loop
  at lines 121-130 that would fill the confirmation card's block. In the model, the new-request
  body is always the title and the notice, and the additional-fields block of the confirmation
  card is always empty.
- The null test on `IssueOccurredOn` (line 65) is kept, so an absent date is flagged. The call to
  `DateTimeOffset.Compare` on the same property at line 67 suggests the property is not nullable.
  If so, this case never arises.
- The notice literal at line 85 has unescaped quotes around its link. The model uses the text
  that is evidently meant.

## Model

| member | source | states |
|---|---|---|
| `TicketCard.GetNewTicketCard` | Source/RemoteSupport/Cards/TicketCard.cs:31-101 | A null configuration always fails with ArgumentNullException("cardConfiguration"). In validation mode, a null ticket fails with ArgumentNullException("ticketDetail"). Nothing else fails. Without validation mode, all three markers are false and the prefills are empty, even when the ticket is null. In validation mode: the description marker is set exactly when the description is null or all white space, and otherwise the description is prefilled. The category works the same way. The date marker is set exactly when the date is absent, equals MinValue, or is later than today, so any other date up to today passes. A prefill is empty exactly when its marker is set. The body is always the localized "NewRequestTitle" block followed by the fixed notice, with no actions. |
| `TicketCard.GetTicketDetailsForPersonalChatCard` | Source/RemoteSupport/Cards/TicketCard.cs:112-195 | The null checks come first, in order: ticket, then element mapping, then the additional-properties string (Json.NET's "value"). Malformed additional properties fail with a JSON exception. Every other input succeeds. The body has six elements: the "RequestUpdatedText" or "RequestSubmittedText" title (chosen by isEdited), then "RequestSubmittedContent". Then come exactly four labelled rows in order: request number "#"+RowKey, category, request type, and description last. There are exactly three actions. The first is an edit fetch with the edit command and the ticket id as posted value. The second is a withdraw show-card holding the confirmation card of the ticket id. The third is a message-back new-request submit with no command and no posted value. Reading the card back recovers the ticket's row key (or the empty string when it is null), category, request type, description and id. |
| `TicketCard.HeadColumns` | Source/RemoteSupport/Cards/TicketCard.cs:132-149 | The fixed head of the confirmation card has three labelled rows, in order. Its two text blocks contribute none. |
| `Cards.Columns` | Source/RemoteSupport/Cards/TicketCard.cs:146-151 | The labelled rows of a body, in reading order, are never more than its elements. When there are as many rows as elements, every element is a column pair. |
| `Cards.ColumnsAppend` | Source/RemoteSupport/Cards/TicketCard.cs:132-151 | The rows of a body built piece by piece with AddRange and Add are the rows of the pieces, concatenated. |
| `DotNet.AllWhiteSpace` | Source/RemoteSupport/Cards/TicketCard.cs:47 | The scan is true exactly when every character is .NET white space. |
| `DotNet.IsNullOrWhiteSpace` | Source/RemoteSupport/Cards/TicketCard.cs:47-63 | True exactly for null or an all-white-space string. False exactly when the string exists and has a character that is not white space, so it is then non-empty. |
| `DotNet.Compare` | Source/RemoteSupport/Cards/TicketCard.cs:65-67 | DateTimeOffset comparison is negative, zero or positive exactly when the first instant is earlier than, equal to, or later than the second. |

`TicketCard.ValidationModeClient` is a verified caller that uses only the contract above: in
validation mode, an empty description, the category "Hardware" and yesterday's date raise only
the description marker.

## Left out

- AdaptiveCards and Bot Schema details are not modelled: weights, sizes, spacing, wrapping, the content type, the `Attachment` wrapper and the card version.
- `CardHelper.ConvertToAdaptiveCard` (line 73) is not modelled. Its result is discarded, and any exception it might throw is not captured.
- `CardHelper.GetAdaptiveCardColumnSet` is the opaque constructor `ColumnPair(caption, value)`. Its own layout and its use of the localizer are not part of this model.
- `WithdrawCard.ConfirmationCard` is not part of this model. It is the parameter `confirmationCard`, a function of the ticket id.
- JSON parsing (line 117) is not modelled. Only its effect on the outcome is kept: a null string throws, and the parameter `deserializes` decides whether Json.NET accepts the text. The parsed dictionary is unused by the live code, so it is not computed.
- The commented-out code at lines 91 and 121-130 is not modelled, because it does not run.
- Resource lookup by `IStringLocalizer` is not modelled. The localizer is an injected total function.
- Clock and time-zone semantics are not modelled. `DateTime.Today` is a parameter already converted to an instant. An occurrence instant later on the current day counts as after today, as it does in the source.
- The notice's HTML and link are kept as one constant string and are not interpreted.
- `cardElementMapping` is only checked for null. Its entries were read only by the commented-out loop.
- The C# default arguments (`showValidationMessage = false`, `ticketDetail = null`, `isEdited = false`, lines 31 and 112) are not modelled as defaults. Callers pass every argument explicitly.
- .NET strings are sequences of UTF-16 code units. A Dafny `string` holds Unicode scalar values, so a lone surrogate cannot be represented. Its white-space test is not modelled; Char.IsWhiteSpace is false for it anyway.
- `GetTicketDetailsForPersonalChatCard` requires `deserializes("")`, because Json.NET returns null for the empty text instead of throwing. Beyond that, the oracle is not constrained to Json.NET's grammar.
