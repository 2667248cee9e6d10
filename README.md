# qr-bill-bot: a verified model of the receipt pipeline

qr-bill-bot is a Telegram bot. It turns a fiscal-receipt QR code (a photo, or the
QR text typed into the chat) into the receipt's list of items and its total.
It gets them from the tax authority's receipt API, in three calls:
authorize, create a ticket for the QR query, fetch the bill for the ticket.
This Dafny project models the logic around those calls and proves what it guarantees.

The project has four modules:

- `Results` (results.dfy): `Option` and `Result`.
- `Fns` (fns.dfy) models src/fns.rs:
  - the `FnsApiError` taxonomy, with its message texts and the conversion from transport errors;
  - the `Bill` aggregate, a class whose `total` is kept up to date as records are appended;
  - the `FnsSession` class, whose header map gains `sessionId` after authorization.
  Each remote call is an oracle that takes the request (with its headers) and answers
  `SendFailed`, `ParseFailed` (the JSON body did not deserialize) or `Received(payload)`.
  The pure function `Resolve` specifies the whole workflow:
  the requests sent, the headers they carry, where it stops, and which error or records come out.
  The imperative `FnsSession.FetchBillInfo` is proved to do exactly what `Resolve` says.
  A ghost log `sent` records every request the session sends.
- `QrDecode` (qr_decode.dfy) models the grid-selection loop of src/qr_decode.rs, `decode_qr`.
  Its input is the image loader's and grid detector's output: a load error,
  or one decode outcome per grid. The loop is proved against `LastDecoded`, the last successful decode.
- `Bot` (bot.dfy) models src/bot.rs:
  - the largest-photo loop;
  - the temporary file path;
  - the reply chosen by each handler;
  - the branch order of the dispatcher.
  Each handler returns the effects it performs, in order (messages sent, file downloaded, bill fetched).
  The handlers call `QrDecode.DecodeQr` and `Fns.FetchBillInfo` themselves.

`BillRecord::new` (src/fns.rs:63-69) is the datatype constructor `Fns.BillRecord`.
The Rust `?` operator that passes a step's error up unchanged is the early `return Err(...)` in `FnsSession.FetchBillInfo`.

Error mapping of each remote step: a failed `send()` gives the step's own error
(`AuthorizationError`, `TicketCreationError`, `BillFetchingError`).
A response body that fails to deserialize goes through `From<reqwest::Error>`
and becomes `HttpError(text)` (src/fns.rs:128-134, 147-153, 163-169).

## Model

| member | source | states |
|---|---|---|
| `Fns.Display` | src/fns.rs:15-24 | a message starts with "Failed to perform request: " exactly when the error is `HttpError`, and the rest of it is the cause |
| `Fns.DisplayInjective` | src/fns.rs:15-24 | two errors with the same message are the same error |
| `Fns.FromTransportError` | src/fns.rs:28-32 | a transport error becomes `HttpError`, and its message embeds the error text verbatim |
| `Fns.TotalAppend` | src/fns.rs:56-59 | appending a record raises the sum of price*quantity by exactly that record's price*quantity |
| `Fns.Bill.constructor` | src/fns.rs:49-54 | a new bill has no records and total 0, and satisfies the invariant total == sum of price*quantity |
| `Fns.Bill.AddRecord` | src/fns.rs:56-59 | the record is appended at the end, earlier records are unchanged, total rises by price*quantity, and the invariant is kept; the caller keeps the u64 total from overflowing |
| `Fns.StepResult` | src/fns.rs:128-134 | a step succeeds exactly when the reply parsed; a send failure gives the step's own error, a parse failure gives `HttpError` with the parse error's text |
| `Fns.ValidHeaderValue` | src/fns.rs:90-91 | the rule `HeaderValue::from_str` applies before `unwrap`: tab and every character from 32 up except DEL; an accepted value holds no line break and no NUL |
| `Fns.AuthRequestOf` | src/fns.rs:118-125 | the authorization request carries the settings' inn, password and client secret, and exactly the session's current headers |
| `Fns.RecordOf` | src/fns.rs:110 | `BillRecord::new(item.name, item.quantity, item.price)`: the record keeps the item's name, quantity and price, so it costs the item's price*quantity |
| `Fns.InitialHeaders` | src/fns.rs:88-95 | the starting header map has exactly the keys `Device-OS` and `Device-ID`, holding the settings' device OS and device id |
| `Fns.RecordsOf` | src/fns.rs:108-111 | one record per receipt item, in the items' order, each with the item's name, quantity and price |
| `Fns.RecordsTotal` | src/fns.rs:108-111 | the records' total equals the sum of price*quantity read straight off the receipt items |
| `Fns.Resolve` | src/fns.rs:98-113 | authorization goes first with the current headers; a ticket is requested only after a successful authorization, and a bill only after a successful ticket; both later requests carry the headers plus `sessionId`; the bill is fetched by the new ticket's id; a result comes out only when all three calls succeed, and it is the receipt items in order; `AuthorizationError`, `TicketCreationError` and `BillFetchingError` each arise exactly from a send failure of their step; a parse failure at any step gives `HttpError` with its cause |
| `Fns.ResolvedTotal` | src/fns.rs:108-111 | a successful run's records sum to the receipt items' price*quantity total |
| `Fns.MilkExample` | src/fns.rs:98-113 | session "s1", ticket "t1" and the item Milk x2 at 150 give the single record (Milk, 2, 150), total 300, and the bill request for "t1" carries `sessionId` "s1" |
| `Fns.FnsSession.constructor` | src/fns.rs:88-95 | a new session keeps the settings, starts with exactly the two device headers, and has sent nothing |
| `Fns.FnsSession.Authorize` | src/fns.rs:116-135 | sends one authorization request with the credentials and the current headers, and maps its reply as `StepResult` does with `AuthorizationError` |
| `Fns.FnsSession.CreateTicket` | src/fns.rs:137-154 | sends one ticket request with the query and the current headers, and maps its reply with `TicketCreationError` |
| `Fns.FnsSession.FetchBill` | src/fns.rs:156-171 | sends one bill request for the ticket id with the current headers, and maps its reply with `BillFetchingError` |
| `Fns.FnsSession.FetchBillInfo` | src/fns.rs:98-113 | sends exactly the requests of `Resolve` in order, leaves the headers as `Resolve` says, and returns a fresh valid bill holding `Resolve`'s records, or `Resolve`'s error |
| `Fns.BuildBill` | src/fns.rs:108-111 | starting from a new bill and adding one record per receipt item gives a valid bill whose records are the items' records in order (the caller keeps the total within u64) |
| `Fns.FetchBillInfo` | src/fns.rs:174-176 | a fresh session per query: the requests sent, the bill and the error are those of `Resolve` started from the two device headers |
| `QrDecode.Display` | src/qr_decode.rs:14-22 | `NotFound` and `DecodeFailed` have their fixed texts; a message starts with "Could not load qr from file: " exactly when the error is `IOError`, followed by the cause |
| `QrDecode.DisplayInjective` | src/qr_decode.rs:14-22 | two errors with the same message are the same error |
| `QrDecode.FromImageError` | src/qr_decode.rs:26-30 | an image error becomes `IOError`, and its message embeds the error text |
| `QrDecode.LastDecoded` | src/qr_decode.rs:44-53 | the reference the loop is proved against: whatever it chooses is the content of one of the grids that decoded |
| `QrDecode.Decode` | src/qr_decode.rs:32-59 | the outcome `decode_qr` promises: a load failure gives `IOError` with its cause; `NotFound` exactly when the image has no grids; an `Ok` content is the content of a grid that decoded |
| `QrDecode.DecodeQr` | src/qr_decode.rs:32-59 | a load failure gives `IOError` with its cause before any grid is looked at; no grids gives `NotFound`; otherwise the loop's result is `DecodeFailed` or the last decoded content, as `Decode` says |
| `QrDecode.LastDecodedNone` | src/qr_decode.rs:44-57 | nothing is chosen exactly when every grid failed to decode |
| `QrDecode.LastSuccessChosen` | src/qr_decode.rs:44-53 | a grid that decoded and is followed only by failed grids is the one whose content is chosen |
| `QrDecode.ChosenIsLastSuccess` | src/qr_decode.rs:44-53 | whatever is chosen is the content of a decoded grid after which no grid decoded |
| `QrDecode.UndecodableIgnored` | src/qr_decode.rs:51 | inserting or removing a failed grid anywhere leaves the chosen content unchanged |
| `QrDecode.DecodeIgnoresUndecodable` | src/qr_decode.rs:39-57 | inserting or removing a failed grid leaves the result unchanged, as long as some grid remains |
| `QrDecode.DecodeCases` | src/qr_decode.rs:39-57 | no grids gives `NotFound`; all grids failing gives `DecodeFailed`; otherwise the result is `Ok` of the last decoded grid's content |
| `QrDecode.LastWinsExample` | src/qr_decode.rs:44-57 | grids [fails, "X", "Y"] give "Y"; a single failing grid gives `DecodeFailed` |
| `Bot.LargestPhoto` | src/bot.rs:112-121 | for a non-empty list, the chosen index is in range, its width*height is at least every photo's, and every earlier photo is strictly smaller (ties keep the earliest) |
| `Bot.LargestEarliestUnique` | src/bot.rs:115-121 | at most one photo is both largest and earliest, so the selection is determined |
| `Bot.TempPath` | src/bot.rs:123 | the path is "/tmp/bill_qr_bot_", then the file's unique id, then ".jpg" |
| `Bot.TempPathInjective` | src/bot.rs:123 | photos with different unique ids get different paths |
| `Bot.PhotoDownload` | src/bot.rs:123-128 | the downloaded file is the chosen photo's own `file_id`, saved to "/tmp/bill_qr_bot_" + its unique id + ".jpg" |
| `Bot.ResolveFetcher` | src/bot.rs:155 | `fns::fetch_bill_info` as the bot calls it, a fresh session per query; authorization does not depend on the query, so when its request cannot be sent every query gives `AuthorizationError` |
| `Bot.BillReply` | src/bot.rs:155-164 | the reply is the bill exactly when the fetch succeeded, and "Could not fetch bill" for every error |
| `Bot.AfterDecode` | src/bot.rs:130-140 | the bill is fetched exactly when the QR decoded, and then for its content; otherwise the only reply is "Could not decode QR" |
| `Bot.ReplyToDecoded` | src/bot.rs:130-140 | after decoding, runs the modelled fetch for the content or replies "Could not decode QR", as `AfterDecode` says |
| `Bot.FetchBill` | src/bot.rs:153-165 | runs the modelled fetch for the query, then replies with its records or the failure text |
| `Bot.HandleQrQuery` | src/bot.rs:145-151 | "Trying fetch bill...", then the fetch for the message text, then its reply |
| `Bot.HandleQrPhoto` | src/bot.rs:108-143 | "Trying fetch bill...", then the download of the largest (earliest among equals) photo to its temporary path, then what `AfterDecode` says for the decoded file |
| `Bot.CommandReply` | src/bot.rs:65-72 | `/help` answers with the command descriptions, `/start` with "Type /help to get more info" |
| `Bot.Route` | src/bot.rs:61-81 | a command always goes to the command endpoint; otherwise a message with a photo goes to the photo handler; otherwise a message with text goes to the query handler; anything else is unhandled |
| `Bot.HandleMessage` | src/bot.rs:61-81 | each message gets the effects of the handler `Route` picks, and an unhandled update gets none |

## Left out

- HTTP itself (reqwest), JSON serialisation and the endpoint URLs built from the host. Each call is an oracle on the request it carries, so `host` is not part of a request.
- Header names are kept as spelled ("Device-OS", "sessionId"). HTTP compares them without regard to case, and that is not modelled.
- The panics of the header-value `.parse().unwrap()` calls (src/fns.rs:90-91, 101). They become preconditions: `ValidHeaderValue` on the device settings, and, in `RunFits`, on the session id the run's authorization returns.
- The panic of `message.photo().unwrap()[0]` (src/bot.rs:112) on a photo message with no sizes. `Bot.HandleQrPhoto` and `Bot.HandleMessage` require a photo message to carry at least one size, as the chat service sends them.
- `Fns.Bill.AddRecord`: does not model what happens when the u64 total overflows (a panic, or wrap-around in a release build). It requires that the new total fits. `Fns.BuildBill` requires the same of its items, and `Fns.FnsSession.FetchBillInfo` and `Fns.FetchBillInfo` of the bill their one run builds (`RunFits`). Each handler of the bot requires this only of the query it fetches for: `Bot.FetchBill` and `Bot.HandleQrQuery` of their text (`QueryReady`), `Bot.ReplyToDecoded` of the decoded content, `Bot.HandleQrPhoto` of the content decoded from the largest photo's file (`PhotoReady`), and `Bot.HandleMessage` of whichever of these its message reaches; a command or an unhandled message needs nothing.
- `Bot.LargestPhoto`: does not model u32 overflow of `width * height` (src/bot.rs:113, 116). It requires every product to fit in 32 bits (`AreasFit`).
- The auth and ticket responses keep all their fields, but the session reads few of them. Of the auth response it reads `sessionId`, and `name`, which is only logged (src/fns.rs:100). Of the ticket response it reads only `id`, which is logged (src/fns.rs:104) and used for the bill request (src/fns.rs:106). `refresh_token`, `phone`, `email`, `surname`, `kind`, `status` and `statusReal` are never read (these are the JSON keys; the Dafny fields are spelled `refreshToken` and so on). No status is checked, so there is no polling.
- Image loading, luma conversion and rqrr grid detection and decoding are foreign library calls. The model starts from their output (`QrDecode.Image`). In the bot, `files` says which image the decoder sees at a path once the photo is saved there.
- `show_bill` (src/bot.rs:167-176) uses floating-point division and `{:.2}` formatting. A bill reply is the effect `SayBill(records)`, not the rendered text.
- Teloxide's sending, file download, dispatching and command parsing. Every send and download is taken to succeed, so the `BotError` conversions (src/bot.rs:21-56) are not modelled. A message's command is given as already parsed. The `/help` text is a parameter, because teloxide generates it.
- The async structure, the logging calls, and the per-request transport client.
- src/api.rs (the HTTP front end) is not part of this model: it is not declared as a module of the bot, and its logic only forwards requests. src/main.rs only builds the configuration from compile-time environment variables and sets up logging.
