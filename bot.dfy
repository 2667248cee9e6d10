/**
 * The chat front end (src/bot.rs): which photo of a message is decoded, where
 * it is saved, which replies go out, and which handler a message reaches.
 *
 * Talking to the chat service is not modelled: each handler returns the list
 * of effects it performs, in order. The handlers run the modelled core
 * (QrDecode.DecodeQr, Fns.FetchBillInfo); what the saved photo file holds and
 * how the remote service answers are parameters.
 */
module Bot {
  import opened Results
  import Fns
  import QrDecode

  const U32_MAX: nat := 0xFFFF_FFFF

  /** Rust's u32, the type of a photo's width and height. */
  type U32 = x: nat | x <= U32_MAX

  /** One size of a photo as the chat service offers it. */
  datatype PhotoSize = PhotoSize(fileId: string, fileUniqueId: string, width: U32, height: U32)

  function Area(p: PhotoSize): nat
  {
    p.width * p.height
  }

  /** The u32 product width * height does not overflow for any photo of the list. */
  predicate AreasFit(photos: seq<PhotoSize>)
  {
    forall i :: 0 <= i < |photos| ==> Area(photos[i]) <= U32_MAX
  }

  /** Photo k has the largest area, and every photo before it is strictly smaller. */
  predicate IsLargestEarliest(photos: seq<PhotoSize>, k: int)
  {
    0 <= k < |photos| &&
    (forall i :: 0 <= i < |photos| ==> Area(photos[i]) <= Area(photos[k])) &&
    (forall i :: 0 <= i < k ==> Area(photos[i]) < Area(photos[k]))
  }

  /**
   * The selection loop of handle_qr_photo: start from the first photo and take
   * a later one only when it is strictly larger, so ties keep the earliest.
   */
  method LargestPhoto(photos: seq<PhotoSize>) returns (k: nat)
    requires |photos| > 0
    requires AreasFit(photos)
    ensures k < |photos|
    ensures forall i :: 0 <= i < |photos| ==> Area(photos[i]) <= Area(photos[k])
    ensures forall i :: 0 <= i < k ==> Area(photos[i]) < Area(photos[k])
  {
    k := 0;
    var maxPhotoSize := photos[0].width * photos[0].height;
    for i := 0 to |photos|
      invariant k < |photos| && maxPhotoSize == Area(photos[k])
      invariant forall j :: 0 <= j < i ==> Area(photos[j]) <= maxPhotoSize
      invariant forall j :: 0 <= j < k ==> Area(photos[j]) < maxPhotoSize
    {
      var photoSize := photos[i].height * photos[i].width;
      if photoSize > maxPhotoSize {
        maxPhotoSize := photoSize;
        k := i;
      }
    }
  }

  /** Only one photo can be both largest and earliest, so LargestPhoto's choice is determined. */
  lemma LargestEarliestUnique(photos: seq<PhotoSize>, k1: int, k2: int)
    requires IsLargestEarliest(photos, k1) && IsLargestEarliest(photos, k2)
    ensures k1 == k2
  {
    assert Area(photos[k1]) <= Area(photos[k2]) && Area(photos[k2]) <= Area(photos[k1]);
    assert !(k1 < k2) && !(k2 < k1);
  }

  const TempPrefix: string := "/tmp/bill_qr_bot_"
  const TempSuffix: string := ".jpg"

  /** Where handle_qr_photo saves the photo: a fixed prefix, the unique id, ".jpg". */
  function TempPath(fileUniqueId: string): (path: string)
    ensures |path| == |TempPrefix| + |fileUniqueId| + |TempSuffix|
    ensures path[..|TempPrefix|] == TempPrefix
    ensures path[|path| - |TempSuffix|..] == TempSuffix
    ensures path[|TempPrefix|..|path| - |TempSuffix|] == fileUniqueId
  {
    TempPrefix + fileUniqueId + TempSuffix
  }

  /** Photos with different unique ids are saved to different files. */
  lemma TempPathInjective(a: string, b: string)
    requires TempPath(a) == TempPath(b)
    ensures a == b
  {
  }

  /** What a handler does, in order. */
  datatype Effect =
    | Say(text: string)                       // send_message with plain text
    | SayBill(records: seq<Fns.BillRecord>)   // send_message(show_bill(bill)) as HTML
    | Download(fileId: string, path: string)  // get_file, File::create, download_file
    | Fetch(query: string)                    // fns::fetch_bill_info

  const TryingText: string := "Trying fetch bill..."
  const FetchFailedText: string := "Could not fetch bill"
  const DecodeFailedText: string := "Could not decode QR"
  const StartText: string := "Type /help to get more info"

  /** What fns::fetch_bill_info gives for a query, as the bot sees it. */
  type Fetcher = string -> Result<seq<Fns.BillRecord>, Fns.FnsApiError>

  /** The fetcher the bot runs with: a fresh session per query against the remote service. */
  function ResolveFetcher(settings: Fns.FnsSettings, remote: Fns.Remote): (fetch: Fetcher)
    // authorization does not depend on the query: if its request cannot be sent, every query fails alike
    ensures forall q :: fetch(q) == Err(Fns.AuthorizationError) <==>
      remote.authorize(Fns.AuthRequestOf(settings, Fns.InitialHeaders(settings))).SendFailed?
  {
    query => Fns.Resolve(settings, Fns.InitialHeaders(settings), query, remote).result
  }

  /** What fns::fetch_bill_info needs for one query so that none of its unwraps panics and its total fits a u64. */
  predicate QueryReady(settings: Fns.FnsSettings, remote: Fns.Remote, query: string)
  {
    Fns.ValidHeaderValue(settings.deviceOs) && Fns.ValidHeaderValue(settings.deviceId) &&
    Fns.RunFits(settings, Fns.InitialHeaders(settings), query, remote)
  }

  /** The same for the query handle_qr_photo ends up with: the content decoded from the largest photo's file. */
  ghost predicate PhotoReady(photos: seq<PhotoSize>, files: string -> QrDecode.Image,
                             settings: Fns.FnsSettings, remote: Fns.Remote)
  {
    forall k :: IsLargestEarliest(photos, k) ==>
      var decoded := QrDecode.Decode(files(TempPath(photos[k].fileUniqueId)));
      decoded.Ok? ==> QueryReady(settings, remote, decoded.value)
  }

  /** The reply of the bot's fetch_bill: the bill on success, one fixed text for any error. */
  function BillReply(result: Result<seq<Fns.BillRecord>, Fns.FnsApiError>): (e: Effect)
    ensures e.SayBill? <==> result.Ok?
    ensures result.Ok? ==> e.records == result.value
    ensures result.Err? ==> e == Say(FetchFailedText)
  {
    match result
    case Ok(records) => SayBill(records)
    case Err(_) => Say(FetchFailedText)
  }

  /**
   * What follows the download in handle_qr_photo: the bill is fetched only
   * when the QR decoded, and then exactly for its content.
   */
  function AfterDecode(decoded: Result<string, QrDecode.QrDecodeError>, fetch: Fetcher): (effects: seq<Effect>)
    ensures (exists i :: 0 <= i < |effects| && effects[i].Fetch?) <==> decoded.Ok?
    ensures decoded.Ok? ==> effects == [Fetch(decoded.value), BillReply(fetch(decoded.value))]
    ensures decoded.Err? ==> effects == [Say(DecodeFailedText)]
  {
    match decoded
    case Ok(content) =>
      var effects := [Fetch(content), BillReply(fetch(content))];
      assert effects[0].Fetch?;
      effects
    case Err(_) => [Say(DecodeFailedText)]
  }

  /** The bot's fetch_bill: run fns::fetch_bill_info for the query, then reply with the bill or the failure text. */
  method FetchBill(query: string, settings: Fns.FnsSettings, remote: Fns.Remote) returns (effects: seq<Effect>)
    requires QueryReady(settings, remote, query)
    ensures effects == [Fetch(query), BillReply(ResolveFetcher(settings, remote)(query))]
  {
    var bill, _ := Fns.FetchBillInfo(settings, query, remote);
    match bill
    case Ok(b) =>
      effects := [Fetch(query), SayBill(b.records)];
    case Err(_) =>
      effects := [Fetch(query), Say(FetchFailedText)];
  }

  /** handle_qr_query: announce the fetch, then fetch the bill for the message text. */
  method HandleQrQuery(text: string, settings: Fns.FnsSettings, remote: Fns.Remote) returns (effects: seq<Effect>)
    requires QueryReady(settings, remote, text)
    ensures effects == [Say(TryingText), Fetch(text), BillReply(ResolveFetcher(settings, remote)(text))]
  {
    var fetched := FetchBill(text, settings, remote);
    effects := [Say(TryingText)] + fetched;
  }

  /** Fetch a photo's file and save it under its temporary path. */
  function PhotoDownload(photo: PhotoSize): (e: Effect)
    ensures e.Download? && e.fileId == photo.fileId
    ensures |e.path| >= |TempPrefix| + |TempSuffix| && e.path[..|TempPrefix|] == TempPrefix
    ensures e.path[|TempPrefix|..|e.path| - |TempSuffix|] == photo.fileUniqueId
    ensures e.path[|e.path| - |TempSuffix|..] == TempSuffix
  {
    Download(photo.fileId, TempPath(photo.fileUniqueId))
  }

  /**
   * handle_qr_photo: announce the fetch, save the largest photo (the earliest
   * of equally large ones) under its temporary path, decode that file, and
   * either fetch the bill for its content or say that decoding failed.
   * `files` says what image the decoder finds at a path once the photo is saved there.
   */
  method HandleQrPhoto(photos: seq<PhotoSize>, files: string -> QrDecode.Image,
                       settings: Fns.FnsSettings, remote: Fns.Remote)
      returns (effects: seq<Effect>)
    requires |photos| > 0
    requires AreasFit(photos)
    requires PhotoReady(photos, files, settings, remote)
    ensures |effects| >= 3 && effects[0] == Say(TryingText)
    ensures exists k :: IsLargestEarliest(photos, k) && effects[1] == PhotoDownload(photos[k])
    ensures effects[1].Download? &&
      effects[2..] == AfterDecode(QrDecode.Decode(files(effects[1].path)), ResolveFetcher(settings, remote))
  {
    var k := LargestPhoto(photos);
    var qrPhoto := photos[k];
    var qrPath := TempPath(qrPhoto.fileUniqueId);
    effects := [Say(TryingText), PhotoDownload(qrPhoto)];
    assert IsLargestEarliest(photos, k);

    var decoded := QrDecode.DecodeQr(files(qrPath));
    var replies := ReplyToDecoded(decoded, settings, remote);
    effects := effects + replies;
  }

  /** The match on decode_qr's result in handle_qr_photo. */
  method ReplyToDecoded(decoded: Result<string, QrDecode.QrDecodeError>, settings: Fns.FnsSettings, remote: Fns.Remote)
      returns (effects: seq<Effect>)
    requires decoded.Ok? ==> QueryReady(settings, remote, decoded.value)
    ensures effects == AfterDecode(decoded, ResolveFetcher(settings, remote))
  {
    match decoded
    case Ok(content) =>
      effects := FetchBill(content, settings, remote);
    case Err(_) =>
      effects := [Say(DecodeFailedText)];
  }

  datatype BasicCommand = Help | Start

  /** The reply to a command; the help text is generated from the command list by teloxide. */
  function CommandReply(cmd: BasicCommand, descriptions: string): (text: string)
    ensures cmd.Help? ==> text == descriptions
    ensures cmd.Start? ==> text == StartText
  {
    match cmd
    case Help => descriptions
    case Start => StartText
  }

  /**
   * What the dispatcher knows of a message: the command its text parses as
   * (parsing belongs to teloxide), its photo sizes, and its text.
   */
  datatype Message = Message(command: Option<BasicCommand>, photo: Option<seq<PhotoSize>>, text: Option<string>)

  datatype Endpoint =
    | CommandEndpoint(cmd: BasicCommand)
    | PhotoEndpoint(photos: seq<PhotoSize>)
    | QueryEndpoint(text: string)
    | Unhandled

  /** The branches of run_bot's handler, tried in order: command, photo, text; else the default handler. */
  function Route(m: Message): (e: Endpoint)
    ensures m.command.Some? ==> e == CommandEndpoint(m.command.value)
    ensures e.PhotoEndpoint? <==> m.command.None? && m.photo.Some?
    ensures e.PhotoEndpoint? ==> e.photos == m.photo.value
    ensures e.QueryEndpoint? <==> m.command.None? && m.photo.None? && m.text.Some?
    ensures e.QueryEndpoint? ==> e.text == m.text.value
    ensures e.Unhandled? <==> m.command.None? && m.photo.None? && m.text.None?
  {
    if m.command.Some? then CommandEndpoint(m.command.value)
    else if m.photo.Some? then PhotoEndpoint(m.photo.value)
    else if m.text.Some? then QueryEndpoint(m.text.value)
    else Unhandled
  }

  /**
   * One message through run_bot's handler tree. A photo message is taken to
   * carry at least one size, as the chat service sends them (the source indexes [0]).
   */
  method HandleMessage(m: Message, descriptions: string, files: string -> QrDecode.Image,
                       settings: Fns.FnsSettings, remote: Fns.Remote)
      returns (effects: seq<Effect>)
    requires m.command.None? && m.photo.Some? ==>
      |m.photo.value| > 0 && AreasFit(m.photo.value) && PhotoReady(m.photo.value, files, settings, remote)
    requires m.command.None? && m.photo.None? && m.text.Some? ==> QueryReady(settings, remote, m.text.value)
    ensures Route(m).CommandEndpoint? ==> effects == [Say(CommandReply(Route(m).cmd, descriptions))]
    ensures Route(m).QueryEndpoint? ==>
      effects == [Say(TryingText), Fetch(m.text.value), BillReply(ResolveFetcher(settings, remote)(m.text.value))]
    ensures Route(m).PhotoEndpoint? ==>
      |effects| >= 3 && effects[0] == Say(TryingText) &&
      (exists k :: IsLargestEarliest(m.photo.value, k) && effects[1] == PhotoDownload(m.photo.value[k])) &&
      effects[1].Download? &&
      effects[2..] == AfterDecode(QrDecode.Decode(files(effects[1].path)), ResolveFetcher(settings, remote))
    ensures Route(m).Unhandled? ==> effects == []
  {
    var endpoint := Route(m);
    match endpoint
    case CommandEndpoint(cmd) =>
      effects := [Say(CommandReply(cmd, descriptions))];
    case PhotoEndpoint(photos) =>
      effects := HandleQrPhoto(photos, files, settings, remote);
    case QueryEndpoint(text) =>
      effects := HandleQrQuery(text, settings, remote);
    case Unhandled =>
      effects := [];
  }
}
