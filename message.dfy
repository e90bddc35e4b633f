/** Assembling one marketing email (`create_email_message`, `build_html_body` and the
    file-check and Content-ID parts of `make_inline_image`). */
module Message {
  import opened Common
  import opened Tracking

  const EmailAddress: string := "manik@lachicdesigns.com"
  const EmailSubject: string := "\U{2728} Re: Following up on your interest in our Handbags - La Chic Designs!"
  const CatalogUrl: string := "https://drive.google.com/file/d/1IvZvhlwjSTF0e8HQ7HJZwa74fk1HVyk1/view?usp=share_link"

  /** The two product photos, relative to the script's directory, and their Content-IDs. */
  const HandbagImagePath1: string := "images/LaChic-090.jpg"
  const HandbagImagePath2: string := "images/LaChic-094.jpg"
  const Cid1: string := "handbag1"
  const Cid2: string := "handbag2"

  datatype Header = Header(name: string, value: string)

  /** A MIME entity as a value: a container of parts, a text part, or an image part. */
  datatype Mime =
    | Multipart(subtype: string, headers: seq<Header>, parts: seq<Mime>)
    | Text(subtype: string, body: string)
    | Image(subtype: string, headers: seq<Header>, data: seq<Byte>)

  /** The file system as the image helper sees it: whether a path is a file, and the
      re-encoded JPEG bytes the imaging library produces for it. */
  datatype Images = Images(isFile: string -> bool, jpeg: string -> seq<Byte>)

  /** The value of the first header called `name` (`msg[name]`). */
  function HeaderValue(headers: seq<Header>, name: string): (r: Option<string>)
    ensures r.None? <==> forall k :: 0 <= k < |headers| ==> headers[k].name != name
    ensures r.Some? ==> exists k :: 0 <= k < |headers| && headers[k] == Header(name, r.value)
                          && forall j :: 0 <= j < k ==> headers[j].name != name
    decreases |headers|
  {
    if headers == [] then None
    else if headers[0].name == name then Some(headers[0].value)
    else
      var r := HeaderValue(headers[1..], name);
      if r.Some? then
        var k :| 0 <= k < |headers[1..]| && headers[1..][k] == Header(name, r.value)
                 && forall j :: 0 <= j < k ==> headers[1..][j].name != name;
        assert headers[k + 1] == Header(name, r.value);
        assert forall j :: 0 <= j < k + 1 ==> headers[j].name != name by {
          forall j | 1 <= j < k + 1 ensures headers[j].name != name {
            assert headers[j] == headers[1..][j - 1];
          }
        }
        r
      else r
  }

  function ContentId(part: Mime): Option<string>
  {
    if part.Image? then HeaderValue(part.headers, "Content-ID") else None
  }

  function Bracketed(cid: string): string
  {
    "<" + cid + ">"
  }

  // ---------------------------------------------------------------------------------------
  // Inline images

  /** `make_inline_image`: nothing for a missing file, otherwise the re-encoded photo
      carrying the Content-ID `<cid>`. */
  function MakeInlineImage(path: string, cid: string, images: Images): (r: Option<Mime>)
    ensures r.None? <==> !images.isFile(path)
    ensures r.Some? ==> r.value.Image? && r.value.subtype == "jpeg" && r.value.data == images.jpeg(path)
                        && ContentId(r.value) == Some(Bracketed(cid))
  {
    if !images.isFile(path) then None
    else Some(Image("jpeg", [Header("Content-ID", Bracketed(cid))], images.jpeg(path)))
  }

  function Attachable(part: Option<Mime>): seq<Mime>
  {
    if part.Some? then [part.value] else []
  }

  /** The photos that follow the body, handbag1 before handbag2. */
  function InlineImages(images: Images): seq<Mime>
  {
    Attachable(MakeInlineImage(HandbagImagePath1, Cid1, images))
      + Attachable(MakeInlineImage(HandbagImagePath2, Cid2, images))
  }

  // ---------------------------------------------------------------------------------------
  // Bodies: templates with holes for the greeting and the links

  /** Python truthiness of the name cell: present and not empty. */
  predicate Truthy(name: Option<string>)
  {
    name.Some? && name.value != ""
  }

  /** `recipient_name if recipient_name else "there"` */
  function HtmlGreeting(name: Option<string>): string
  {
    if Truthy(name) then name.value else "there"
  }

  /** `recipient_name or ''` */
  function TextGreeting(name: Option<string>): string
  {
    if Truthy(name) then name.value else ""
  }

  function Salutation(greeting: string): string
  {
    "Hi " + greeting + ","
  }

  /** The opening of an `<img>` tag showing `src`. */
  function Src(src: string): string
  {
    "<img src=\"" + src + "\""
  }

  /** The opening of a link to `url`. */
  function Href(url: string): string
  {
    "<a href=\"" + url + "\""
  }

  function CidRef(cid: string): string
  {
    "cid:" + cid
  }

  // The static text of the two bodies; the marketing copy is abbreviated.
  const HtmlHead := "<html>\n<body>\n<table>\n<tr><td><h1>La Chic Designs</h1></td></tr>\n<tr><td>\n"
  const Photo1Tail := " alt=\"Handbag 1\">\n"
  const Photo2Tail := " alt=\"Handbag 2\">\n"
  const GreetingOpen := "</td></tr>\n<tr><td>\n<p>"
  const GreetingClose := "</p>\n"
  const CatalogOpen := "<p>I just wanted to follow up on the email I sent last week ...</p>\n<p>... Check out our 2025 handbag catalog "
  const CatalogClose := ">here</a>.</p>\n"
  const ButtonTail := ">Visit Our Website</a>\n"
  const HtmlSignOff := "<p>When you access our website, please use: ...</p>\n<p>Best regards, ...</p>\n</td></tr>\n</table>\n"
  const PixelTail := " width=\"1\" height=\"1\" style=\"display:none;\" alt=\"\">\n"
  const HtmlFoot := "</body>\n</html>\n"
  const TextIntro := "\n\nI just wanted to follow up on the email I sent last week ...\n\nCatalog:\n"
  const TextVisit := "\n\nVisit the website:\n"
  const TextSignOff := "\n\nLogin:\nUsername: User50\n...\n"

  /** The HTML body, piece by piece; the holes are the greeting, the tracking link and the
      open pixel. */
  function HtmlPieces(name: Option<string>, trackingUrl: string, pixelUrl: string): seq<string>
  {
    [ HtmlHead,
      Src(CidRef(Cid1)) + Photo1Tail,
      Src(CidRef(Cid2)) + Photo2Tail,
      GreetingOpen + Salutation(HtmlGreeting(name)) + GreetingClose,
      CatalogOpen + Href(CatalogUrl) + CatalogClose,
      Href(trackingUrl) + ButtonTail,
      HtmlSignOff,
      Src(pixelUrl) + PixelTail,
      HtmlFoot ]
  }

  /** `build_html_body`: it greets the recipient, shows both photos by Content-ID, links the
      catalog, links the button to the tracking URL and loads the open pixel. */
  function HtmlBody(name: Option<string>, trackingUrl: string, pixelUrl: string): (html: string)
    ensures Contains(html, Salutation(HtmlGreeting(name)))
    ensures Contains(html, Src(CidRef(Cid1))) && Contains(html, Src(CidRef(Cid2)))
    ensures Contains(html, Href(trackingUrl)) && Contains(html, Src(pixelUrl))
    ensures Contains(html, Href(CatalogUrl))
  {
    HtmlPiecesReferences(name, trackingUrl, pixelUrl);
    Concatenation(HtmlPieces(name, trackingUrl, pixelUrl))
  }

  /** The plain-text fallback, piece by piece. */
  function TextPieces(name: Option<string>, trackingUrl: string): seq<string>
  {
    [ Salutation(TextGreeting(name)), TextIntro, CatalogUrl, TextVisit, trackingUrl, TextSignOff ]
  }

  /** The plain-text fallback: it opens with the greeting line and carries the catalog and
      the tracking URL. */
  function TextBody(name: Option<string>, trackingUrl: string): (text: string)
    ensures Salutation(TextGreeting(name)) <= text
    ensures Contains(text, trackingUrl) && Contains(text, CatalogUrl)
  {
    TextPiecesReferences(name, trackingUrl);
    Concatenation(TextPieces(name, trackingUrl))
  }

  // ---------------------------------------------------------------------------------------
  // The message

  /** The finished email: a `related` container with the From, To and Subject headers,
      whose first part is the `alternative` [plain, html] pair, followed by the photos. */
  function EmailMessage(toEmail: string, name: Option<string>, md5: Digest, images: Images): Mime
  {
    var links := BuildTracking(toEmail, md5);
    MessageOf(toEmail, TextBody(name, links.trackingUrl), HtmlBody(name, links.trackingUrl, links.pixelUrl), images)
  }

  /** A part as it is attached: a finished value, or a live container that may still be
      filled after it has been attached. */
  datatype Part = Leaf(value: Mime) | Container(box: MimeMultipart)

  predicate LeavesOnly(box: MimeMultipart)
    reads box
  {
    forall p | p in box.parts :: p.Leaf?
  }

  /** The containers among some attached parts. */
  function Boxes(parts: seq<Part>): set<MimeMultipart>
  {
    set p | p in parts && p.Container? :: p.box
  }

  /** Every attached container holds only finished parts, so the tree has depth two. */
  predicate Nested(parts: seq<Part>)
    reads Boxes(parts)
  {
    forall p | p in parts && p.Container? :: LeavesOnly(p.box)
  }

  function LeafValues(parts: seq<Part>): (r: seq<Mime>)
    requires forall p | p in parts :: p.Leaf?
    ensures |r| == |parts| && forall k :: 0 <= k < |parts| ==> r[k] == parts[k].value
    decreases |parts|
  {
    if parts == [] then [] else [parts[0].value] + LeafValues(parts[1..])
  }

  /** A live container as the value it would serialise to now. */
  function Flatten(box: MimeMultipart): Mime
    requires LeavesOnly(box)
    reads box
  {
    Multipart(box.subtype, box.headers, LeafValues(box.parts))
  }

  function PartTrees(parts: seq<Part>): seq<Mime>
    requires Nested(parts)
    reads Boxes(parts)
    decreases |parts|
  {
    if parts == [] then []
    else
      var first := match parts[0] case Leaf(m) => m case Container(b) => Flatten(b);
      [first] + PartTrees(parts[1..])
  }

  function Leaves(values: seq<Mime>): (r: seq<Part>)
    ensures |r| == |values| && forall k :: 0 <= k < |r| ==> r[k] == Leaf(values[k])
  {
    seq(|values|, k requires 0 <= k < |values| => Leaf(values[k]))
  }

  /** The view of a container holding one flattened container and then finished parts. */
  lemma AttachedTree(box: MimeMultipart, boxTree: Mime, first: seq<Mime>, second: seq<Mime>)
    requires LeavesOnly(box) && Flatten(box) == boxTree
    ensures Nested([Container(box)] + Leaves(first) + Leaves(second))
    ensures PartTrees([Container(box)] + Leaves(first) + Leaves(second)) == [boxTree] + first + second
  {
    var parts := [Container(box)] + Leaves(first) + Leaves(second);
    assert parts[1..] == Leaves(first + second);
    LeafTrees(first + second);
  }

  lemma {:induction false} LeafTrees(values: seq<Mime>)
    ensures Nested(Leaves(values)) && PartTrees(Leaves(values)) == values
    decreases |values|
  {
    if values != [] {
      LeafTrees(values[1..]);
      assert Leaves(values)[1..] == Leaves(values[1..]);
    }
  }

  /** A `MIMEMultipart` under construction. */
  class MimeMultipart {
    const subtype: string
    var headers: seq<Header>
    var parts: seq<Part>

    constructor (subtype: string)
      ensures this.subtype == subtype && headers == [] && parts == []
    {
      this.subtype := subtype;
      headers := [];
      parts := [];
    }

    /** `msg[name] = value`, which adds a header. */
    method SetHeader(name: string, value: string)
      modifies this
      ensures headers == old(headers) + [Header(name, value)] && parts == old(parts)
    {
      headers := headers + [Header(name, value)];
    }

    /** `msg.attach(part)` */
    method Attach(part: Part)
      requires part.Container? ==> LeavesOnly(part.box)
      modifies this
      ensures parts == old(parts) + [part] && headers == old(headers)
    {
      parts := parts + [part];
    }

    predicate Valid()
      reads this, Boxes(parts)
    {
      Nested(parts)
    }

    /** The container as a value, as it would be serialised now. */
    function Tree(): Mime
      requires Valid()
      reads this, Boxes(parts)
    {
      Multipart(subtype, headers, PartTrees(parts))
    }
  }

  /** `create_email_message`, step by step as the source builds it: the alternative part is
      attached first and filled afterwards, through the shared reference. */
  method CreateEmailMessage(toEmail: string, name: Option<string>, md5: Digest, images: Images)
    returns (msg: MimeMultipart)
    ensures fresh(msg)
    ensures msg.Valid() && msg.Tree() == EmailMessage(toEmail, name, md5, images)
  {
    var links := BuildTracking(toEmail, md5);
    var textBody := TextBody(name, links.trackingUrl);
    var htmlBody := HtmlBody(name, links.trackingUrl, links.pixelUrl);
    msg := Assemble(toEmail, textBody, htmlBody, images);
  }

  /** The message around two finished bodies. */
  function MessageOf(toEmail: string, textBody: string, htmlBody: string, images: Images): Mime
  {
    Multipart("related",
      [Header("From", EmailAddress), Header("To", toEmail), Header("Subject", EmailSubject)],
      [Multipart("alternative", [], [Text("plain", textBody), Text("html", htmlBody)])]
      + InlineImages(images))
  }

  method Assemble(toEmail: string, textBody: string, htmlBody: string, images: Images)
    returns (msg: MimeMultipart)
    ensures fresh(msg)
    ensures msg.Valid() && msg.Tree() == MessageOf(toEmail, textBody, htmlBody, images)
  {
    msg := NewMessage(toEmail);
    var alt := AttachAlternative(msg, textBody, htmlBody);
    var img1 := MakeInlineImage(HandbagImagePath1, Cid1, images);
    AttachIfPresent(msg, img1);
    var img2 := MakeInlineImage(HandbagImagePath2, Cid2, images);
    AttachIfPresent(msg, img2);
    var plainAndHtml := Multipart("alternative", [], [Text("plain", textBody), Text("html", htmlBody)]);
    AttachedTree(alt, plainAndHtml, Attachable(img1), Attachable(img2));
    assert msg.parts == [Container(alt)] + Leaves(Attachable(img1)) + Leaves(Attachable(img2));
    assert InlineImages(images) == Attachable(img1) + Attachable(img2);
  }

  /** The `related` container with its three headers set and nothing attached yet. */
  method NewMessage(toEmail: string) returns (msg: MimeMultipart)
    ensures fresh(msg) && msg.subtype == "related" && msg.parts == []
    ensures msg.headers == [Header("From", EmailAddress), Header("To", toEmail), Header("Subject", EmailSubject)]
  {
    msg := new MimeMultipart("related");
    msg.SetHeader("From", EmailAddress);
    msg.SetHeader("To", toEmail);
    msg.SetHeader("Subject", EmailSubject);
  }

  /** The `alternative` container, attached to `msg` while still empty and then filled with
      the plain-text part and the HTML part. */
  method AttachAlternative(msg: MimeMultipart, textBody: string, htmlBody: string) returns (alt: MimeMultipart)
    modifies msg
    ensures fresh(alt) && msg.parts == old(msg.parts) + [Container(alt)] && msg.headers == old(msg.headers)
    ensures LeavesOnly(alt) && Flatten(alt) == Multipart("alternative", [], [Text("plain", textBody), Text("html", htmlBody)])
  {
    alt := new MimeMultipart("alternative");
    msg.Attach(Container(alt));
    alt.Attach(Leaf(Text("plain", textBody)));
    alt.Attach(Leaf(Text("html", htmlBody)));
  }

  /** `if img: msg.attach(img)` */
  method AttachIfPresent(msg: MimeMultipart, img: Option<Mime>)
    modifies msg
    ensures msg.parts == old(msg.parts) + Leaves(Attachable(img)) && msg.headers == old(msg.headers)
  {
    if img.Some? {
      msg.Attach(Leaf(img.value));
    }
  }

  // ---------------------------------------------------------------------------------------
  // Properties of the bodies

  /** Text in one template piece is text in the whole body. */
  lemma {:induction false} ConcatContains(pieces: seq<string>, k: nat, t: string)
    requires k < |pieces| && Contains(pieces[k], t)
    ensures Contains(Concatenation(pieces), t)
    decreases |pieces|
  {
    if k == 0 {
      ContainsLeft(pieces[0], Concatenation(pieces[1..]), t);
    } else {
      ConcatContains(pieces[1..], k - 1, t);
      ContainsRight(pieces[0], Concatenation(pieces[1..]), t);
    }
  }

  /** `t` at the front of a piece. */
  lemma ContainsFront(t: string, rest: string)
    ensures Contains(t + rest, t)
  {
    ContainsSelf(t);
    ContainsLeft(t, rest, t);
  }

  /** The greeting fallbacks: the HTML body always greets someone, the plain-text body
      greets nobody when the name is missing or empty, and the two agree exactly when the
      name is present and not empty. */
  lemma GreetingFallbacks(name: Option<string>)
    ensures HtmlGreeting(name) != ""
    ensures TextGreeting(name) == "" <==> !Truthy(name)
    ensures HtmlGreeting(name) == TextGreeting(name) <==> Truthy(name)
    ensures Truthy(name) ==> HtmlGreeting(name) == name.value
    ensures !Truthy(name) ==> HtmlGreeting(name) == "there"
  {
  }

  lemma HtmlPiecesReferences(name: Option<string>, trackingUrl: string, pixelUrl: string)
    ensures var html := Concatenation(HtmlPieces(name, trackingUrl, pixelUrl));
      Contains(html, Salutation(HtmlGreeting(name))) &&
      Contains(html, Src(CidRef(Cid1))) && Contains(html, Src(CidRef(Cid2))) &&
      Contains(html, Href(trackingUrl)) && Contains(html, Src(pixelUrl)) &&
      Contains(html, Href(CatalogUrl))
  {
    var pieces := HtmlPieces(name, trackingUrl, pixelUrl);
    ContainsMiddle("</td></tr>\n<tr><td>\n<p>", Salutation(HtmlGreeting(name)), "</p>\n");
    ConcatContains(pieces, 3, Salutation(HtmlGreeting(name)));
    ContainsFront(Src(CidRef(Cid1)), " alt=\"Handbag 1\">\n");
    ConcatContains(pieces, 1, Src(CidRef(Cid1)));
    ContainsFront(Src(CidRef(Cid2)), " alt=\"Handbag 2\">\n");
    ConcatContains(pieces, 2, Src(CidRef(Cid2)));
    ContainsMiddle("<p>I just wanted to follow up on the email I sent last week ...</p>\n<p>... Check out our 2025 handbag catalog ",
      Href(CatalogUrl), ">here</a>.</p>\n");
    ConcatContains(pieces, 4, Href(CatalogUrl));
    ContainsFront(Href(trackingUrl), ">Visit Our Website</a>\n");
    ConcatContains(pieces, 5, Href(trackingUrl));
    ContainsFront(Src(pixelUrl), " width=\"1\" height=\"1\" style=\"display:none;\" alt=\"\">\n");
    ConcatContains(pieces, 7, Src(pixelUrl));
  }

  lemma TextPiecesReferences(name: Option<string>, trackingUrl: string)
    ensures var text := Concatenation(TextPieces(name, trackingUrl));
      Salutation(TextGreeting(name)) <= text &&
      Contains(text, trackingUrl) && Contains(text, CatalogUrl)
  {
    var pieces := TextPieces(name, trackingUrl);
    assert Concatenation(pieces) == pieces[0] + Concatenation(pieces[1..]);
    ContainsSelf(trackingUrl);
    ConcatContains(pieces, 4, trackingUrl);
    ContainsSelf(CatalogUrl);
    ConcatContains(pieces, 2, CatalogUrl);
  }

  // ---------------------------------------------------------------------------------------
  // Properties of the message

  function PlainPart(m: Mime): Option<string>
  {
    if m.Multipart? && |m.parts| >= 1 && m.parts[0].Multipart? && |m.parts[0].parts| == 2
       && m.parts[0].parts[0].Text? && m.parts[0].parts[0].subtype == "plain"
    then Some(m.parts[0].parts[0].body) else None
  }

  function HtmlPart(m: Mime): Option<string>
  {
    if m.Multipart? && |m.parts| >= 1 && m.parts[0].Multipart? && |m.parts[0].parts| == 2
       && m.parts[0].parts[1].Text? && m.parts[0].parts[1].subtype == "html"
    then Some(m.parts[0].parts[1].body) else None
  }

  /** The top level: a `related` container addressed from the sender to the recipient under
      the campaign subject, whose first part is the `alternative` pair [plain, html]. */
  lemma MessageLayout(toEmail: string, name: Option<string>, md5: Digest, images: Images)
    ensures var m := EmailMessage(toEmail, name, md5, images);
      var links := BuildTracking(toEmail, md5);
      m.Multipart? && m.subtype == "related" &&
      HeaderValue(m.headers, "From") == Some(EmailAddress) &&
      HeaderValue(m.headers, "To") == Some(toEmail) &&
      HeaderValue(m.headers, "Subject") == Some(EmailSubject) &&
      m.parts[0].Multipart? && m.parts[0].subtype == "alternative" &&
      PlainPart(m) == Some(TextBody(name, links.trackingUrl)) &&
      HtmlPart(m) == Some(HtmlBody(name, links.trackingUrl, links.pixelUrl))
  {
    var links := BuildTracking(toEmail, md5);
    AroundBodies(toEmail, TextBody(name, links.trackingUrl), HtmlBody(name, links.trackingUrl, links.pixelUrl), images);
  }

  lemma AroundBodies(toEmail: string, textBody: string, htmlBody: string, images: Images)
    ensures var m := MessageOf(toEmail, textBody, htmlBody, images);
      m.Multipart? && m.subtype == "related" &&
      HeaderValue(m.headers, "From") == Some(EmailAddress) &&
      HeaderValue(m.headers, "To") == Some(toEmail) &&
      HeaderValue(m.headers, "Subject") == Some(EmailSubject) &&
      m.parts[0].Multipart? && m.parts[0].subtype == "alternative" &&
      PlainPart(m) == Some(textBody) && HtmlPart(m) == Some(htmlBody) &&
      m.parts[1..] == InlineImages(images)
  {
    var m := MessageOf(toEmail, textBody, htmlBody, images);
    assert |"From"| != |"Subject"| && |"To"| != |"Subject"|;
    assert m.headers[1..] == [Header("To", toEmail), Header("Subject", EmailSubject)];
    assert m.headers[1..][1..] == [Header("Subject", EmailSubject)];
    assert HeaderValue(m.headers[1..][1..], "Subject") == Some(EmailSubject);
    assert HeaderValue(m.headers[1..], "Subject") == Some(EmailSubject);
  }

  function ContentIds(parts: seq<Mime>): (r: seq<Option<string>>)
    ensures |r| == |parts| && forall k :: 0 <= k < |parts| ==> r[k] == ContentId(parts[k])
  {
    seq(|parts|, k requires 0 <= k < |parts| => ContentId(parts[k]))
  }

  function PresentIds(images: Images): seq<Option<string>>
  {
    (if images.isFile(HandbagImagePath1) then [Some(Bracketed(Cid1))] else [])
      + (if images.isFile(HandbagImagePath2) then [Some(Bracketed(Cid2))] else [])
  }

  /** After the body come the photos, handbag1 before handbag2, each one exactly when its
      file exists, each a JPEG part carrying its Content-ID. */
  lemma ImagesInOrder(toEmail: string, name: Option<string>, md5: Digest, images: Images)
    ensures var m := EmailMessage(toEmail, name, md5, images);
      |m.parts| >= 1 &&
      ContentIds(m.parts[1..]) == PresentIds(images) &&
      forall k :: 1 <= k < |m.parts| ==> m.parts[k].Image? && m.parts[k].subtype == "jpeg"
  {
    var links := BuildTracking(toEmail, md5);
    AroundBodies(toEmail, TextBody(name, links.trackingUrl), HtmlBody(name, links.trackingUrl, links.pixelUrl), images);
    InlineImagesInOrder(images);
  }

  lemma InlineImagesInOrder(images: Images)
    ensures ContentIds(InlineImages(images)) == PresentIds(images)
    ensures forall k :: 0 <= k < |InlineImages(images)| ==>
              InlineImages(images)[k].Image? && InlineImages(images)[k].subtype == "jpeg"
  {
    var first := Attachable(MakeInlineImage(HandbagImagePath1, Cid1, images));
    var second := Attachable(MakeInlineImage(HandbagImagePath2, Cid2, images));
    assert ContentIds(first) == (if images.isFile(HandbagImagePath1) then [Some(Bracketed(Cid1))] else []);
    assert ContentIds(second) == (if images.isFile(HandbagImagePath2) then [Some(Bracketed(Cid2))] else []);
    assert ContentIds(first + second) == ContentIds(first) + ContentIds(second);
  }

  lemma BracketedInjective(a: string, b: string)
    requires Bracketed(a) == Bracketed(b)
    ensures a == b
  {
    assert a == Bracketed(a)[1..|Bracketed(a)| - 1];
    assert b == Bracketed(b)[1..|Bracketed(b)| - 1];
  }

  /** Every photo in the message is shown by the HTML body: the body holds an image whose
      source is `cid:` followed by the photo's Content-ID. */
  lemma ImagesAreReferenced(toEmail: string, name: Option<string>, md5: Digest, images: Images, k: nat, cid: string)
    requires var m := EmailMessage(toEmail, name, md5, images);
      1 <= k < |m.parts| && ContentId(m.parts[k]) == Some(Bracketed(cid))
    ensures var m := EmailMessage(toEmail, name, md5, images);
      HtmlPart(m).Some? && Contains(HtmlPart(m).value, Src(CidRef(cid)))
  {
    var links := BuildTracking(toEmail, md5);
    var html := HtmlBody(name, links.trackingUrl, links.pixelUrl);
    ReferencedAround(toEmail, TextBody(name, links.trackingUrl), html, images, k, cid);
  }

  lemma ReferencedAround(toEmail: string, textBody: string, htmlBody: string, images: Images, k: nat, cid: string)
    requires Contains(htmlBody, Src(CidRef(Cid1))) && Contains(htmlBody, Src(CidRef(Cid2)))
    requires var m := MessageOf(toEmail, textBody, htmlBody, images);
      1 <= k < |m.parts| && ContentId(m.parts[k]) == Some(Bracketed(cid))
    ensures var m := MessageOf(toEmail, textBody, htmlBody, images);
      HtmlPart(m).Some? && Contains(HtmlPart(m).value, Src(CidRef(cid)))
  {
    var m := MessageOf(toEmail, textBody, htmlBody, images);
    assert m.parts[1..] == InlineImages(images) && HtmlPart(m) == Some(htmlBody) by {
      AroundBodies(toEmail, textBody, htmlBody, images);
    }
    assert m.parts[k] == InlineImages(images)[k - 1];
    InlineImageReferenced(images, k - 1, cid, htmlBody);
  }

  lemma InlineImageReferenced(images: Images, k: nat, cid: string, html: string)
    requires k < |InlineImages(images)| && ContentId(InlineImages(images)[k]) == Some(Bracketed(cid))
    requires Contains(html, Src(CidRef(Cid1))) && Contains(html, Src(CidRef(Cid2)))
    ensures Contains(html, Src(CidRef(cid)))
  {
    InlineImagesInOrder(images);
    assert ContentIds(InlineImages(images))[k] == Some(Bracketed(cid));
    var ids := PresentIds(images);
    assert ids[k] == Some(Bracketed(Cid1)) || ids[k] == Some(Bracketed(Cid2));
    if ids[k] == Some(Bracketed(Cid1)) {
      BracketedInjective(cid, Cid1);
    } else {
      BracketedInjective(cid, Cid2);
    }
  }

  /** The links in the bodies are the recipient's own tracking links. */
  lemma MessageCarriesTracking(toEmail: string, name: Option<string>, md5: Digest, images: Images)
    ensures var m := EmailMessage(toEmail, name, md5, images);
      var links := BuildTracking(toEmail, md5);
      HtmlPart(m).Some? && PlainPart(m).Some? &&
      Contains(HtmlPart(m).value, Href(links.trackingUrl)) &&
      Contains(HtmlPart(m).value, Src(links.pixelUrl)) &&
      Contains(PlainPart(m).value, links.trackingUrl)
  {
    var links := BuildTracking(toEmail, md5);
    MessageLayout(toEmail, name, md5, images);
  }
}
