/** The lot-notification webhook handler: it reads a POSTed lot body, skips a
    body that names no lot, and otherwise builds a Telegram caption, an
    inline keyboard with CARFAX and COPART links, and either a photo message
    or a text message. The VIN resolver and Telegram are not called here:
    the resolver's reply is an input, and the message to send is the output. */
module Hook {
  import opened Text
  import opened JsValues
  import opened MoneyFormat
  import opened CopartUrl
  import opened PriceLine
  import opened UriEncoding

  /** The fields of the request body the handler reads, under their wire
      names. A missing body reads as `EmptyBody`. */
  datatype Body = Body(
    source: JsVal, lot_id: JsVal, lotId: JsVal, url: JsVal, fv: JsVal,
    orr: JsVal, ord: JsVal, bnp: JsVal, old_bnp: JsVal, yn: JsVal,
    STT: JsVal, title: JsVal, name: JsVal, scn: JsVal, photo_url: JsVal, ts: JsVal)

  const EmptyBody := Body(Undefined, Undefined, Undefined, Undefined, Undefined,
                          Undefined, Undefined, Undefined, Undefined, Undefined,
                          Undefined, Undefined, Undefined, Undefined, Undefined, Undefined)

  /** The body after its defaults and aliases are applied. */
  datatype Fields = Fields(
    source: JsVal, lotId: string, url: JsVal, maskedVin: JsVal,
    odo: JsVal, odoRemark: JsVal, bnp: JsVal, oldBnp: JsVal,
    locationText: JsVal, titleCode: JsVal, sellerName: string,
    photoUrl: string, ts: JsVal)

  const CopartLotPrefix := "https://www.copart.com/lot/"
  const CarfaxPrefix := "https://www.carfaxonline.com/vhr/"

  /** `String(body.lot_id ?? body.lotId ?? "")` */
  function LotIdOf(b: Body): (lotId: string)
    ensures !Nullish(b.lot_id) ==> lotId == ToStr(b.lot_id)
    ensures Nullish(b.lot_id) && !Nullish(b.lotId) ==> lotId == ToStr(b.lotId)
    ensures Nullish(b.lot_id) && Nullish(b.lotId) ==> lotId == ""
  {
    ToStr(Coalesce(b.lot_id, Coalesce(b.lotId, Str(""))))
  }

  /** `body.url || (lotId ? "https://www.copart.com/lot/" + lotId : "")` */
  function UrlOf(b: Body, lotId: string): (url: JsVal)
    ensures Truthy(b.url) ==> url == b.url
    ensures !Truthy(b.url) && lotId != "" ==> url == Str(CopartLotPrefix + lotId)
    ensures !Truthy(b.url) && lotId == "" ==> url == Str("")
  {
    Or(b.url, Str(if lotId != "" then CopartLotPrefix + lotId else ""))
  }

  /** The defaults and aliases of the handler's first lines. */
  function Normalize(b: Body): (f: Fields)
    ensures f.lotId == LotIdOf(b) && f.url == UrlOf(b, f.lotId)
    ensures f.odo == Str("") <==> b.orr == Str("") || Nullish(b.orr)
    ensures Truthy(f.titleCode) <==> Truthy(b.STT) || Truthy(b.title)
    ensures Truthy(f.locationText) <==> Truthy(b.yn)
    ensures f.sellerName == JsTrim(ToStr(Or(b.name, Or(b.scn, Str("")))))
    ensures f.photoUrl == JsTrim(ToStr(Or(b.photo_url, Str(""))))
  {
    var lotId := LotIdOf(b);
    Fields(
      source := Or(b.source, Str("")),
      lotId := lotId,
      url := UrlOf(b, lotId),
      maskedVin := Or(b.fv, Str("")),
      odo := Coalesce(b.orr, Str("")),
      odoRemark := Or(b.ord, Str("")),
      bnp := Coalesce(b.bnp, Str("")),
      oldBnp := Coalesce(b.old_bnp, Str("")),
      locationText := Or(b.yn, Str("")),
      titleCode := Or(b.STT, Or(b.title, Str(""))),
      sellerName := JsTrim(ToStr(Or(b.name, Or(b.scn, Str(""))))),
      photoUrl := JsTrim(ToStr(Or(b.photo_url, Str("")))),
      ts := Coalesce(b.ts, Str("")))
  }

  /** The fields read with `??`, which falls back to "" only on null or
      undefined: the odometer, both prices and the timestamp. */
  lemma NormalizeNullish(b: Body)
    ensures var f := Normalize(b);
      (Nullish(b.orr) ==> f.odo == Str("")) && (!Nullish(b.orr) ==> f.odo == b.orr)
      && (Nullish(b.bnp) ==> f.bnp == Str("")) && (!Nullish(b.bnp) ==> f.bnp == b.bnp)
      && (Nullish(b.old_bnp) ==> f.oldBnp == Str("")) && (!Nullish(b.old_bnp) ==> f.oldBnp == b.old_bnp)
      && (Nullish(b.ts) ==> f.ts == Str("")) && (!Nullish(b.ts) ==> f.ts == b.ts)
  {
  }

  /** The fields read with `||`, which falls back on every falsy value: the
      source, the masked VIN, the odometer remark, the location text, and
      the title code from `STT`, then `title`. */
  lemma NormalizeFalsy(b: Body)
    ensures var f := Normalize(b);
      (Truthy(b.source) ==> f.source == b.source) && (!Truthy(b.source) ==> f.source == Str(""))
      && (Truthy(b.fv) ==> f.maskedVin == b.fv) && (!Truthy(b.fv) ==> f.maskedVin == Str(""))
      && (Truthy(b.ord) ==> f.odoRemark == b.ord) && (!Truthy(b.ord) ==> f.odoRemark == Str(""))
      && (Truthy(b.yn) ==> f.locationText == b.yn) && (!Truthy(b.yn) ==> f.locationText == Str(""))
      && (Truthy(b.STT) ==> f.titleCode == b.STT)
      && (!Truthy(b.STT) && Truthy(b.title) ==> f.titleCode == b.title)
      && (!Truthy(b.STT) && !Truthy(b.title) ==> f.titleCode == Str(""))
  {
  }

  /** The seller name comes from `name`, then `scn`, and the photo from
      `photo_url`, each as trimmed text; "" when none is truthy. */
  lemma NormalizeTexts(b: Body)
    ensures var f := Normalize(b);
      (Truthy(b.name) ==> f.sellerName == JsTrim(ToStr(b.name)))
      && (!Truthy(b.name) && Truthy(b.scn) ==> f.sellerName == JsTrim(ToStr(b.scn)))
      && (!Truthy(b.name) && !Truthy(b.scn) ==> f.sellerName == "")
      && (Truthy(b.photo_url) ==> f.photoUrl == JsTrim(ToStr(b.photo_url)))
      && (!Truthy(b.photo_url) ==> f.photoUrl == "")
  {
    EmptyTrims();
  }

  lemma EmptyTrims()
    ensures JsTrim(ToStr(Str(""))) == ""
  {
    assert TrimStart("", IsJsSpace) == "";
  }

  /** `!lotId && !url`: a body with neither a lot id nor a url is skipped. */
  predicate Skip(f: Fields)
  {
    f.lotId == "" && !Truthy(f.url)
  }

  /** `[year, make, model].filter(Boolean).join(" ").trim()` */
  function CarTitle(id: Identity): string
  {
    JsTrim(Join(NonEmpty([id.year, id.make, id.model]), " "))
  }

  /** `xs.filter(Boolean)` on strings. */
  function NonEmpty(xs: seq<string>): (ys: seq<string>)
    ensures |ys| <= |xs|
    ensures forall k :: 0 <= k < |ys| ==> ys[k] != ""
    ensures (forall k :: 0 <= k < |xs| ==> xs[k] == "") <==> ys == []
    ensures |xs| > 0 && xs[0] != "" ==> |ys| > 0 && ys[0] == xs[0]
  {
    if xs == [] then []
    else if xs[0] == "" then NonEmpty(xs[1..])
    else [xs[0]] + NonEmpty(xs[1..])
  }

  /** The filter keeps every non-empty part, as often as it occurs. */
  lemma {:induction false} NonEmptyKeeps(xs: seq<string>)
    ensures multiset(NonEmpty(xs)) == multiset(xs)["" := 0]
  {
    if xs != [] {
      assert xs == [xs[0]] + xs[1..];
      NonEmptyKeeps(xs[1..]);
    }
  }

  /** The filter keeps the parts in their order: filtering two lists one
      after the other is filtering each and concatenating. */
  lemma {:induction false} NonEmptyAppend(a: seq<string>, b: seq<string>)
    ensures NonEmpty(a + b) == NonEmpty(a) + NonEmpty(b)
  {
    if a == [] {
      assert a + b == b;
    } else {
      assert (a + b)[0] == a[0];
      assert (a + b)[1..] == a[1..] + b;
      NonEmptyAppend(a[1..], b);
    }
  }

  /** With year, make and model all known, the title is the three of them
      separated by spaces. */
  lemma CarTitleParts(id: Identity)
    requires id.year != "" && id.make != "" && id.model != ""
    ensures CarTitle(id) == JsTrim(id.year + " " + id.make + " " + id.model)
  {
    var parts := [id.year, id.make, id.model];
    NonEmptyAll(parts);
    assert parts[1..][1..] == [id.model];
    assert Join(parts[1..], " ") == id.make + " " + id.model;
    assert Join(parts, " ") == id.year + " " + (id.make + " " + id.model);
    assert id.year + " " + (id.make + " " + id.model) == id.year + " " + id.make + " " + id.model;
  }

  lemma {:induction false} NonEmptyAll(xs: seq<string>)
    requires forall k :: 0 <= k < |xs| ==> xs[k] != ""
    ensures NonEmpty(xs) == xs
  {
    if xs != [] {
      NonEmptyAll(xs[1..]);
    }
  }

  const NewLotLine := "\U{1F697} <b>NEW LOT</b>"

  /** The first caption line. */
  function TitleLine(carTitle: string): string
  {
    if carTitle != "" then "\U{1F697} <b>" + carTitle + "</b>" else NewLotLine
  }

  /** `state || locationText || "n/a"` */
  function Located(state: string, locationText: JsVal): (located: JsVal)
    ensures state != "" ==> located == Str(state)
    ensures state == "" && Truthy(locationText) ==> located == locationText
    ensures state == "" && !Truthy(locationText) ==> located == Str("n/a")
  {
    Or(Str(state), Or(locationText, Str("n/a")))
  }

  /** The odometer text: the formatted odometer when one was sent, else
      the resolver's odometer. */
  function OdoText(odo: JsVal, resolvedOdo: string): string
  {
    if odo != Str("") then Money(odo) else resolvedOdo
  }

  /** What follows "Odo: " on the odometer line, or "" when the line is left
      out: the odometer text when there is one, else the resolver's
      odometer, then the remark in parentheses. Nothing is shown when no
      odometer was sent and there is no remark. */
  function OdoShow(sent: bool, odoText: string, odoRemark: JsVal, resolvedOdo: string): string
  {
    if sent || Truthy(odoRemark) then
      var remark := Remark(odoRemark);
      if odoText != "" || resolvedOdo != "" then
        (if odoText != "" then odoText else resolvedOdo) + remark
      else JsTrim(remark)
    else ""
  }

  /** The remark as the odometer line appends it. */
  function Remark(odoRemark: JsVal): string
  {
    if Truthy(odoRemark) then " (" + ToStr(odoRemark) + ")" else ""
  }

  /** The lines of the caption, in order. */
  function CaptionLines(f: Fields, carTitle: string, located: JsVal, resolvedOdo: string): seq<string>
  {
    var odoShow := OdoShow(f.odo != Str(""), OdoText(f.odo, resolvedOdo), f.odoRemark, resolvedOdo);
    [TitleLine(carTitle)]
    + Optional(f.sellerName != "", NameLine(f.sellerName))
    + [PriceText(f.oldBnp, f.bnp)]
    + [LocatedLine(located)]
    + Optional(Truthy(f.titleCode), TitleCodeLine(f.titleCode))
    + Optional(odoShow != "", OdoLine(odoShow))
    + Optional(Truthy(f.source), SourceLine(f.source))
  }

  /** A line pushed only when `present`. */
  function Optional(present: bool, line: string): seq<string>
  {
    if present then [line] else []
  }

  function NameLine(sellerName: string): string { "Name: " + sellerName }

  function PriceText(oldBnp: JsVal, bnp: JsVal): string
  {
    "Price: " + BuildPriceLine(oldBnp, bnp) + " ( MMR n/a )"
  }

  function LocatedLine(located: JsVal): string { "Located: " + ToStr(located) }

  function TitleCodeLine(titleCode: JsVal): string { "Title: " + ToStr(titleCode) }

  function OdoLine(show: string): string { "Odo: " + show }

  function SourceLine(source: JsVal): string { "\U{26A1} NEW LOT (" + ToStr(source) + ")" }

  /** The odometer block of the handler: "" when it pushes no line. */
  method OdoDisplay(odo: JsVal, odoRemark: JsVal, resolvedOdo: string) returns (show: string)
    ensures show == OdoShow(odo != Str(""), OdoText(odo, resolvedOdo), odoRemark, resolvedOdo)
  {
    show := "";
    if odo != Str("") || Truthy(odoRemark) {
      var odoText := if odo != Str("") then Money(odo) else if resolvedOdo != "" then resolvedOdo else "";
      assert odoText == OdoText(odo, resolvedOdo);
      var remark := if Truthy(odoRemark) then " (" + ToStr(odoRemark) + ")" else "";
      show := if odoText != "" || resolvedOdo != "" then (if odoText != "" then odoText else resolvedOdo) + remark
              else JsTrim(remark);
    }
  }

  /** The caption lines, pushed one by one as the handler does. */
  method BuildCaptionLines(f: Fields, carTitle: string, located: JsVal, resolvedOdo: string)
    returns (lines: seq<string>)
    ensures lines == CaptionLines(f, carTitle, located, resolvedOdo)
  {
    if carTitle != "" {
      lines := [TitleLine(carTitle)];
    } else {
      lines := [NewLotLine];
    }
    ghost var prefix := lines;
    if f.sellerName != "" {
      lines := lines + [NameLine(f.sellerName)];
    }
    assert lines == prefix + Optional(f.sellerName != "", NameLine(f.sellerName));
    lines := lines + [PriceText(f.oldBnp, f.bnp)];
    lines := lines + [LocatedLine(located)];
    prefix := lines;
    if Truthy(f.titleCode) {
      lines := lines + [TitleCodeLine(f.titleCode)];
    }
    assert lines == prefix + Optional(Truthy(f.titleCode), TitleCodeLine(f.titleCode));
    prefix := lines;
    var show := OdoDisplay(f.odo, f.odoRemark, resolvedOdo);
    if show != "" {
      lines := lines + [OdoLine(show)];
    }
    assert lines == prefix + Optional(show != "", OdoLine(show));
    prefix := lines;
    if Truthy(f.source) {
      lines := lines + [SourceLine(f.source)];
    }
    assert lines == prefix + Optional(Truthy(f.source), SourceLine(f.source));
  }

  /** One inline-keyboard button. */
  datatype Button = Button(text: string, url: JsVal)

  /** `fullVin ? "https://www.carfaxonline.com/vhr/" + encodeURIComponent(fullVin) : ""` */
  function CarfaxLink(fullVin: string): (link: string)
    ensures link == "" <==> fullVin == ""
  {
    if fullVin != "" then CarfaxPrefix + EncodeUriComponent(fullVin) else ""
  }

  /** The one keyboard row: CARFAX when there is a CARFAX link, then COPART. */
  function Keyboard(carfaxLink: string, copartLink: JsVal): (row: seq<Button>)
    ensures |row| == (if carfaxLink != "" then 2 else 1)
    ensures row[|row| - 1] == Button("COPART", copartLink)
    ensures |row| == 2 ==> row[0] == Button("CARFAX", Str(carfaxLink))
  {
    (if carfaxLink != "" then [Button("CARFAX", Str(carfaxLink))] else []) + [Button("COPART", copartLink)]
  }

  /** The reply of the VIN resolver, when it answered with a JSON object;
      `None` when the request failed. */
  datatype ResolverReply = ResolverReply(vin: JsVal, odometer: JsVal)

  /** The deployment settings the handler reads; an unset one is "". */
  datatype Env = Env(webhookSecret: string, vinResolverUrl: string, botToken: string, chatId: string)

  /** The request as far as the handler looks at it. */
  datatype Request = Request(isPost: bool, token: JsVal, body: Body)

  /** The Telegram call the handler makes. */
  datatype Delivery =
    | Photo(photoUrl: string, caption: string, keyboard: seq<Button>)
    | Message(text: string, keyboard: seq<Button>)

  /** The fields of the handler's success reply besides Telegram's own answer. */
  datatype Summary = Summary(
    lotId: string, title: string, state: JsVal, maskedVin: JsVal,
    fullVin: string, odo: JsVal, odoRemark: JsVal, ts: JsVal)

  datatype Response =
    | MethodNotAllowed
    | BadToken
    | Skipped
    | NotConfigured
    | Deliver(delivery: Delivery, summary: Summary)

  /** The HTTP status of each response. */
  function Status(r: Response): (code: int)
    ensures code == 200 <==> r.Skipped? || r.Deliver?
  {
    match r
    case MethodNotAllowed => 405
    case BadToken => 401
    case Skipped => 200
    case NotConfigured => 500
    case Deliver(_, _) => 200
  }

  /** The VIN and odometer the handler goes on with: the resolver is asked
      only when it is configured and the lot id is known. */
  function Resolved(env: Env, lotId: string, reply: Option<ResolverReply>): (r: (string, string))
    ensures (env.vinResolverUrl == "" || lotId == "" || reply.None?) ==> r == ("", "")
    ensures env.vinResolverUrl != "" && lotId != "" && reply.Some? ==>
      r.0 == ToStr(Or(reply.value.vin, Str(""))) && r.1 == ToStr(Or(reply.value.odometer, Str("")))
  {
    if env.vinResolverUrl != "" && lotId != "" && reply.Some? then
      (ToStr(Or(reply.value.vin, Str(""))), ToStr(Or(reply.value.odometer, Str(""))))
    else ("", "")
  }

  /** `handler(req, res)` with the resolver's reply given. */
  function Respond(env: Env, req: Request, reply: Option<ResolverReply>): Response
  {
    if !req.isPost then MethodNotAllowed
    else if env.webhookSecret != "" && req.token != Str(env.webhookSecret) then BadToken
    else
      var f := Normalize(req.body);
      if Skip(f) then Skipped else Compose(env, f, Extract(f.url), reply)
  }

  /** The rest of the handler, for a body that names a lot: the caption, the
      keyboard and the Telegram call. Without a bot token or a chat id there
      is nothing to deliver to. */
  function Compose(env: Env, f: Fields, id: Identity, reply: Option<ResolverReply>): (r: Response)
    ensures r.Deliver? || r.NotConfigured?
    ensures r.NotConfigured? <==> env.botToken == "" || env.chatId == ""
  {
    var (fullVin, resolvedOdo) := Resolved(env, f.lotId, reply);
    var copartLink := Or(f.url, Str(CopartLotPrefix + f.lotId));
    var located := Located(id.state, f.locationText);
    if env.botToken == "" || env.chatId == "" then NotConfigured
    else
      var caption := Caption(f, id, located, resolvedOdo);
      var keyboard := Keyboard(CarfaxLink(fullVin), copartLink);
      Deliver(Telegram(f.photoUrl, caption, keyboard, copartLink),
              Summary(f.lotId, CarTitle(id), located, f.maskedVin, fullVin, f.odo, f.odoRemark, f.ts))
  }

  /** The caption: its lines joined with newlines. */
  function Caption(f: Fields, id: Identity, located: JsVal, resolvedOdo: string): string
  {
    Join(CaptionLines(f, CarTitle(id), located, resolvedOdo), "\n")
  }

  /** The Telegram call: a photo with the caption when there is a photo url,
      otherwise a message that ends with the COPART link on a line of its own. */
  function Telegram(photoUrl: string, caption: string, keyboard: seq<Button>, copartLink: JsVal): (d: Delivery)
    ensures d.keyboard == keyboard
    ensures d.Photo? <==> photoUrl != ""
  {
    if photoUrl != "" then Photo(photoUrl, caption, keyboard)
    else Message(caption + "\n" + ToStr(copartLink), keyboard)
  }

  /** The handler, step by step. */
  method Handle(env: Env, req: Request, reply: Option<ResolverReply>) returns (resp: Response)
    ensures resp == Respond(env, req, reply)
  {
    if !req.isPost {
      return MethodNotAllowed;
    }
    if env.webhookSecret != "" && req.token != Str(env.webhookSecret) {
      return BadToken;
    }
    var f := Normalize(req.body);
    if Skip(f) {
      return Skipped;
    }
    resp := Notify(env, f, reply);
  }

  /** The steps of the handler after the skip test. */
  method Notify(env: Env, f: Fields, reply: Option<ResolverReply>) returns (resp: Response)
    ensures resp == Compose(env, f, Extract(f.url), reply)
  {
    var id := ExtractFromCopartUrl(f.url);
    var carTitle := CarTitle(id);
    var fullVin, resolvedOdo := "", "";
    if env.vinResolverUrl != "" && f.lotId != "" && reply.Some? {
      fullVin := ToStr(Or(reply.value.vin, Str("")));
      resolvedOdo := ToStr(Or(reply.value.odometer, Str("")));
    }
    assert (fullVin, resolvedOdo) == Resolved(env, f.lotId, reply);
    var copartLink := Or(f.url, Str(CopartLotPrefix + f.lotId));
    var carfaxLink := CarfaxLink(fullVin);
    var located := Located(id.state, f.locationText);
    var lines := BuildCaptionLines(f, carTitle, located, resolvedOdo);
    var caption := Join(lines, "\n");
    assert caption == Caption(f, id, located, resolvedOdo);
    var keyboard := Keyboard(carfaxLink, copartLink);
    if env.botToken == "" || env.chatId == "" {
      return NotConfigured;
    }
    var delivery;
    if f.photoUrl != "" {
      delivery := Photo(f.photoUrl, caption, keyboard);
    } else {
      delivery := Message(caption + "\n" + ToStr(copartLink), keyboard);
    }
    resp := Deliver(delivery, Summary(f.lotId, carTitle, located, f.maskedVin, fullVin, f.odo, f.odoRemark, f.ts));
  }

  // ---------------------------------------------------------------------
  // Properties.

  /** A body is skipped exactly when it has no lot id and no truthy url: a
      url is made up from the lot id whenever there is one. */
  lemma SkipRule(b: Body)
    ensures Skip(Normalize(b)) <==> LotIdOf(b) == "" && !Truthy(b.url)
  {
  }

  /** `??` lets an empty `lot_id` win over a non-empty `lotId`. */
  lemma EmptyLotIdWins(b: Body)
    requires b.lot_id == Str("") && b.lotId == Str("123")
    ensures Normalize(b).lotId == ""
  {
  }

  /** A body with nothing in it is skipped. */
  lemma EmptyBodySkipped(env: Env, token: JsVal)
    requires env.webhookSecret == "" || token == Str(env.webhookSecret)
    ensures Respond(env, Request(true, token, EmptyBody), None) == Skipped
  {
    assert Skip(Normalize(EmptyBody));
  }

  /** Once a body is not skipped, its url is truthy, so the COPART link is
      always the url and the lot-id fallback of the link is never taken. */
  lemma CopartLinkIsUrl(b: Body)
    requires !Skip(Normalize(b))
    ensures var f := Normalize(b); Or(f.url, Str(CopartLotPrefix + f.lotId)) == f.url
  {
  }

  /** The title line reads "NEW LOT" exactly when the url gave no year, and
      then it gave no make and no model either. */
  lemma NewLotTitle(url: JsVal)
    ensures var id := Extract(url);
      TitleLine(CarTitle(id)) == NewLotLine <==> id.year == "" && id.make == "" && id.model == ""
  {
    var id := Extract(url);
    ExtractWellFormed(url);
    if id.year != "" {
      CarTitleStartsWithYear(id);
      NotNewLot(CarTitle(id));
    } else {
      assert NonEmpty([id.year, id.make, id.model]) == [];
      assert CarTitle(id) == "";
    }
  }

  /** With a year, the car title starts with the year's first digit. */
  lemma CarTitleStartsWithYear(id: Identity)
    requires WellFormed(id) && id.year != ""
    ensures |CarTitle(id)| > 0 && IsDigit(CarTitle(id)[0])
  {
    var ys := NonEmpty([id.year, id.make, id.model]);
    var j := Join(ys, " ");
    JoinFirst(ys, " ");
    assert IsDigit(j[0]);
    TrimKeepsFirst(j, IsJsSpace);
  }

  lemma NotNewLot(t: string)
    requires |t| > 0 && IsDigit(t[0])
    ensures TitleLine(t) != NewLotLine
  {
    var line := TitleLine(t);
    assert line == "\U{1F697} <b>" + t + "</b>";
    assert line[5] == t[0];
    assert NewLotLine[5] == 'N';
  }

  lemma JoinFirst(parts: seq<string>, sep: string)
    requires |parts| > 0 && |parts[0]| > 0
    ensures |Join(parts, sep)| > 0 && Join(parts, sep)[0] == parts[0][0]
  {
  }

  /** The odometer line, case by case. A resolver odometer is never shown on
      its own: with no odometer sent and no remark there is no line. */
  lemma OdoCases(odo: JsVal, odoRemark: JsVal, resolvedOdo: string)
    ensures var show := OdoShow(odo != Str(""), OdoText(odo, resolvedOdo), odoRemark, resolvedOdo);
      (odo == Str("") && !Truthy(odoRemark) ==> show == "")
      && (odo != Str("") && Money(odo) != "" ==> show == Money(odo) + Remark(odoRemark))
      && (odo != Str("") && Money(odo) == "" && resolvedOdo != "" ==> show == resolvedOdo + Remark(odoRemark))
      && (odo == Str("") && Truthy(odoRemark) && resolvedOdo != "" ==> show == resolvedOdo + Remark(odoRemark))
      && ((odo == Str("") || Money(odo) == "") && Truthy(odoRemark) && resolvedOdo == "" ==>
            show == "(" + ToStr(odoRemark) + ")")
      && (odo != Str("") && Money(odo) == "" && !Truthy(odoRemark) && resolvedOdo == "" ==> show == "")
  {
    ShowCases(odo != Str(""), OdoText(odo, resolvedOdo), odoRemark, resolvedOdo);
  }

  lemma ShowCases(sent: bool, odoText: string, odoRemark: JsVal, resolvedOdo: string)
    ensures var show := OdoShow(sent, odoText, odoRemark, resolvedOdo);
      (!sent && !Truthy(odoRemark) ==> show == "")
      && ((sent || Truthy(odoRemark)) && odoText != "" ==> show == odoText + Remark(odoRemark))
      && ((sent || Truthy(odoRemark)) && odoText == "" && resolvedOdo != "" ==> show == resolvedOdo + Remark(odoRemark))
      && (Truthy(odoRemark) && odoText == "" && resolvedOdo == "" ==> show == "(" + ToStr(odoRemark) + ")")
      && (!Truthy(odoRemark) && odoText == "" && resolvedOdo == "" ==> show == "")
  {
    if Truthy(odoRemark) {
      RemarkTrim(ToStr(odoRemark));
    }
  }

  lemma RemarkTrim(r: string)
    ensures JsTrim(" (" + r + ")") == "(" + r + ")"
  {
    var t := "(" + r + ")";
    assert " (" + r + ")" == [' '] + t;
    assert t[0] == '(' && t[|t| - 1] == ')';
    TrimOneLeading(' ', t, IsJsSpace);
  }

  /** The caption always has its title line first, then the seller when
      there is one, then the price line and the location line. */
  lemma CaptionShape(f: Fields, carTitle: string, located: JsVal, resolvedOdo: string)
    ensures var lines := CaptionLines(f, carTitle, located, resolvedOdo);
      var p := if f.sellerName != "" then 2 else 1;
      3 <= |lines| <= 7 && lines[0] == TitleLine(carTitle)
      && (f.sellerName != "" ==> lines[1] == "Name: " + f.sellerName)
      && lines[p] == "Price: " + BuildPriceLine(f.oldBnp, f.bnp) + " ( MMR n/a )"
      && lines[p + 1] == LocatedLine(located)
  {
  }

  /** What the handler answers, by the order of its checks. */
  lemma RespondOutcome(env: Env, req: Request, reply: Option<ResolverReply>)
    ensures var r := Respond(env, req, reply);
      var authorized := env.webhookSecret == "" || req.token == Str(env.webhookSecret);
      var skip := LotIdOf(req.body) == "" && !Truthy(req.body.url);
      (r.MethodNotAllowed? <==> !req.isPost)
      && (r.BadToken? <==> req.isPost && !authorized)
      && (r.Skipped? <==> req.isPost && authorized && skip)
      && (r.NotConfigured? <==> req.isPost && authorized && !skip && (env.botToken == "" || env.chatId == ""))
      && (r.Deliver? <==> req.isPost && authorized && !skip && env.botToken != "" && env.chatId != "")
  {
    var r := Respond(env, req, reply);
    if !req.isPost {
      assert r == MethodNotAllowed;
    } else if env.webhookSecret != "" && req.token != Str(env.webhookSecret) {
      assert r == BadToken;
    } else {
      var f := Normalize(req.body);
      SkipRule(req.body);
      if Skip(f) {
        assert r == Skipped;
      } else {
        assert r == Compose(env, f, Extract(f.url), reply);
      }
    }
  }

  /** A delivered notification: a photo exactly when there is a photo url;
      a text message ends with the COPART link on its own line; the keyboard
      has CARFAX exactly when a full VIN was resolved, and COPART, linking to
      the url, last; a full VIN comes only from a configured resolver asked
      about a known lot. */
  predicate WellShaped(env: Env, f: Fields, reply: Option<ResolverReply>, r: Response)
    requires r.Deliver?
  {
    var kb := r.delivery.keyboard;
    (r.delivery.Photo? <==> f.photoUrl != "")
    && (r.delivery.Message? ==> EndsWith(r.delivery.text, "\n" + ToStr(f.url)))
    && (|kb| == 2 <==> r.summary.fullVin != "")
    && 1 <= |kb| <= 2 && kb[|kb| - 1] == Button("COPART", f.url)
    && (|kb| == 2 ==> kb[0] == Button("CARFAX", Str(CarfaxPrefix + EncodeUriComponent(r.summary.fullVin))))
    && (r.summary.fullVin != "" ==> env.vinResolverUrl != "" && f.lotId != "" && reply.Some?)
  }

  /** Every delivered answer of the handler is well shaped. */
  lemma DeliveryShape(env: Env, req: Request, reply: Option<ResolverReply>)
    requires Respond(env, req, reply).Deliver?
    ensures WellShaped(env, Normalize(req.body), reply, Respond(env, req, reply))
  {
    var f := Normalize(req.body);
    DeliveredIsComposed(env, req, reply);
    ComposeShape(env, f, Extract(f.url), reply);
  }

  /** A delivered answer is `Compose` of the normalized body, whose url is
      then truthy. */
  lemma DeliveredIsComposed(env: Env, req: Request, reply: Option<ResolverReply>)
    requires Respond(env, req, reply).Deliver?
    ensures var f := Normalize(req.body);
      Truthy(f.url) && Respond(env, req, reply) == Compose(env, f, Extract(f.url), reply)
  {
    CopartLinkIsUrl(req.body);
  }

  lemma ComposeShape(env: Env, f: Fields, id: Identity, reply: Option<ResolverReply>)
    requires Compose(env, f, id, reply).Deliver? && Truthy(f.url)
    ensures WellShaped(env, f, reply, Compose(env, f, id, reply))
  {
    var (fullVin, resolvedOdo) := Resolved(env, f.lotId, reply);
    var located := Located(id.state, f.locationText);
    var caption := Caption(f, id, located, resolvedOdo);
    var r := Compose(env, f, id, reply);
    if r.delivery.Message? {
      assert r.delivery.text == caption + ("\n" + ToStr(f.url));
      EndsWithAppend(caption, "\n" + ToStr(f.url));
    }
  }

  /** The price line in a delivered caption is `buildPriceLine(old_bnp, bnp)`
      of the body's prices, with missing prices read as "". */
  lemma DeliveredPrice(b: Body)
    ensures var f := Normalize(b);
      BuildPriceLine(f.oldBnp, f.bnp) == "n/a" <==>
        (b.old_bnp == Str("") || Nullish(b.old_bnp)) && (b.bnp == Str("") || Nullish(b.bnp))
  {
    var f := Normalize(b);
    assert f.oldBnp == Coalesce(b.old_bnp, Str("")) && f.bnp == Coalesce(b.bnp, Str(""));
    PresentDefault(b.old_bnp);
    PresentDefault(b.bnp);
  }

  /** `v ?? ""` is a price exactly when v is. */
  lemma PresentDefault(v: JsVal)
    ensures Present(Coalesce(v, Str(""))) <==> !(v == Str("") || Nullish(v))
  {
  }
}
