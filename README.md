# Bulk email campaign: a verified model

`Bulk_Email_Tue.py` sends a marketing email to every address in a spreadsheet. It works in
batches of fifteen, and each message carries per-recipient click and open tracking. This
project models the logic under the I/O in Dafny and proves what that logic promises.

- `common.dfy` (`Common`) holds shared pieces: `Option`, bytes, and Python's `rstrip`, `lstrip`,
  `join`, `split` and `in`, all on strings.
- `tracking.dfy` (`Tracking`) models `build_tracking`. The token is the MD5 hex digest of the
  UTF-8 bytes of the lower-cased address. The click URL is the base URL with trailing `/`
  removed, then `/?`, then `urlencode` of the four UTM parameters. `urlencode` is modelled as
  `quote_plus` applied byte by byte. The pixel URL is `OPEN_PIXEL_BASE?id=<token>`. A small
  query-string reader states what a link carries.
- `recipients.dfy` (`Recipients`) models the loading of recipients. The pandas pipeline is
  modelled as functions: drop missing addresses, then `strip`, then drop blank addresses. The
  collecting loop is a method. Both are tied to a one-pass reference, `Loaded`.
- `message.dfy` (`Message`) models `create_email_message`. `MIMEMultipart` is a class whose
  headers and parts change in place. The result is read out as a `Mime` value tree. The two
  bodies are templates with holes for the photos, the name, the catalog link, the tracking
  link and the pixel. `make_inline_image` keeps its missing-file branch and its `Content-ID` header.
- `dispatch.dfy` (`Dispatch`) models `send_bulk_emails`. The batch loop and the per-recipient
  loop are methods. They produce a log of events: `BatchStart(number, size)`, `Sent(to)`,
  `Failed(to)`, `Sleep(seconds)` and `Aborted(number)`. The methods are proved equal to the
  specification function `Run`, and the properties of the run are proved about `Run`.

The foreign calls are parameters:
- MD5 is a `Digest` function.
- The file system and the image re-encoder are `Images`.
- The mail relay is `Relay`, with two parts:
  - `opens(number)` says whether the session for a batch (connect, STARTTLS, login) comes up;
  - `accepts(index)` says whether the `index`-th `sendmail` call of the run goes through and
    its success line (line 310) is printed.

## Model

| member | source | states |
|---|---|---|
| Tracking.BuildTracking | Bulk_Email_Tue.py:50-63 | The click URL is `https://lachicdesigns.com/?utm_source=email&utm_medium=bulk&utm_campaign=handbag_drop_2025_01&utm_content=` followed by the quoted token, with the keys in insertion order. The pixel URL is `OPEN_PIXEL_BASE + "?id=" + token`, with the token bare. |
| Tracking.TrackingIgnoresCase | Bulk_Email_Tue.py:52 | Two addresses with the same lower-case form get identical links. |
| Tracking.TrackingOfLowerAndUpper | Bulk_Email_Tue.py:52 | The links of an address equal those of its lower-cased form. For an ASCII address they also equal those of its upper-cased form. |
| Tracking.LowerIdempotent | Bulk_Email_Tue.py:52 | Lower-casing twice is lower-casing once. |
| Tracking.LowerOfUpper | Bulk_Email_Tue.py:52 | On an ASCII string, lower-casing the upper-cased string equals lower-casing the original. |
| Tracking.Utf8Char | Bulk_Email_Tue.py:52 | A character encodes to 1 to 4 bytes. It encodes to one byte exactly when it is ASCII, and then that byte is its code. |
| Tracking.QuotePlus | Bulk_Email_Tue.py:61 | `quote_plus` output holds only unreserved characters, `+` and `%`. |
| Tracking.QuotePlusKeepsUnreserved | Bulk_Email_Tue.py:61 | `quote_plus` leaves a string of unreserved characters unchanged. |
| Tracking.HexDigestUnquoted | Bulk_Email_Tue.py:52-61 | A hex digest is not changed by `quote_plus`, and it contains none of `&`, `=`, `?`, `/`. |
| Tracking.FieldUnquoted | Bulk_Email_Tue.py:61 | An unreserved key and value encode as `key=value`. |
| Tracking.UrlEncodeFour | Bulk_Email_Tue.py:54-61 | For four unreserved keys and three unreserved first values, the encoding is `k0=v0&k1=v1&k2=v2&k3=` followed by the fourth value quoted, in the given order. |
| Tracking.EncodedTrackingParams | Bulk_Email_Tue.py:54-61 | The four UTM parameters encode to the fixed query with the quoted token last. |
| Tracking.TrimmedBase | Bulk_Email_Tue.py:61 | `BASE_TRACKING_URL.rstrip("/")` is `https://lachicdesigns.com`. |
| Tracking.QuotedHasNoDelimiters | Bulk_Email_Tue.py:61 | A quoted value contains none of `/`, `?`, `&`, `=`. |
| Tracking.UrlEncodeHasNoQuestionMark | Bulk_Email_Tue.py:61 | No `urlencode` output contains `?`. |
| Tracking.NoSlashRunBeforeQuery | Bulk_Email_Tue.py:61 | A base containing no `?`, with its trailing slashes stripped, then `/?`, then a query with no `?`, never contains `//?`. |
| Tracking.TrackingUrlHasNoDoubleSlash | Bulk_Email_Tue.py:61 | No click URL contains `//?`, for any address and any digest. |
| Tracking.TrackingQueryRoundTrip | Bulk_Email_Tue.py:54-61 | For a token without `&`, reading the query back gives each UTM key its value, and `utm_content` the token. |
| Tracking.ReadTrackingUrl | Bulk_Email_Tue.py:61 | For a token without `&`, a URL of the click shape yields the three UTM values and the token from its query string. |
| Tracking.TrackingLinkRoundTrip | Bulk_Email_Tue.py:50-63 | For a hex-digest token, the click URL's query gives `email`, `bulk`, `handbag_drop_2025_01` and the token. |
| Tracking.PixelLinkRoundTrip | Bulk_Email_Tue.py:50-62 | For a hex-digest token, the pixel URL's `id` is the token, the same one carried by `utm_content`. |
| Recipients.LoadRecipients | Bulk_Email_Tue.py:284-292 | The loop that collects `(email, name)` pairs returns exactly `Loaded` of the sheet. |
| Recipients.CleanedMatchesLoaded | Bulk_Email_Tue.py:284-286 | Loading the filtered rows (drop missing, strip, drop blank) gives the same recipients as loading the original rows. |
| Recipients.CleanedRowsAreClean | Bulk_Email_Tue.py:284-286 | After the three dataframe steps, every row has an address that is present, non-empty and trimmed. |
| Recipients.LoadedSelectsRows | Bulk_Email_Tue.py:284-292 | The output is the recipients of the kept rows, in strictly increasing row order, one per kept row. Its length is at most the row count. |
| Recipients.LoadedIffKept | Bulk_Email_Tue.py:284-286 | A row is loaded exactly when its address is present and not blank once stripped. |
| Recipients.KeptIndicesComplete | Bulk_Email_Tue.py:284-286 | Every row that passes the filters is loaded. |
| Recipients.LoadedAddressesClean | Bulk_Email_Tue.py:285-286 | Every loaded address is non-empty and equal to its own `strip()`. |
| Recipients.LoadedNames | Bulk_Email_Tue.py:291 | A loaded name is `None` exactly when the name column is absent or the cell is missing. Otherwise it is the raw cell. |
| Recipients.LoadedConcat | Bulk_Email_Tue.py:289-292 | Loading distributes over concatenation of rows, so order is kept and duplicates are not removed. |
| Recipients.CleanedStep | Bulk_Email_Tue.py:284-286 | The dataframe pipeline treats the last row on its own. |
| Recipients.Strip | Bulk_Email_Tue.py:285 | `strip()` gives a string that neither begins nor ends with whitespace. The input is that string with whitespace added on either side. |
| Recipients.StripIdempotent | Bulk_Email_Tue.py:285 | Stripping twice is stripping once. |
| Recipients.StripAround | Bulk_Email_Tue.py:285 | One whitespace character on each side of an otherwise clean string is removed. |
| Recipients.LoadedThree | Bulk_Email_Tue.py:289-292 | Three rows load as the concatenation of their own loads, in order. |
| Recipients.LoadExample | Bulk_Email_Tue.py:284-292 | An example: rows `("A@x.com", "Ann")`, `("", "Bad")` and `(" b@x.com ", "Bob")` load as `A@x.com`/Ann and `b@x.com`/Bob. The blank address is dropped, the padded one is trimmed on both sides, and case is kept. |
| Recipients.CleanRowLoaded | Bulk_Email_Tue.py:284-292 | A row whose address is non-empty and has no surrounding whitespace is loaded unchanged, with its name. |
| Message.HeaderValue | Bulk_Email_Tue.py:223-225 | A header lookup finds nothing exactly when no header has that name. Otherwise it returns the value of the first header with that name. |
| Message.MakeInlineImage | Bulk_Email_Tue.py:70-93 | A missing file gives `None`. Otherwise the result is a `jpeg` image part holding the re-encoded bytes. |
| Message.MimeMultipart.constructor | Bulk_Email_Tue.py:222-227 | A new container has the given subtype and no headers or parts. |
| Message.MimeMultipart.SetHeader | Bulk_Email_Tue.py:223-225 | Appends one header and leaves the parts alone. |
| Message.MimeMultipart.Attach | Bulk_Email_Tue.py:228-272 | Appends one part and leaves the headers alone. A container may be attached only while it holds leaves alone. |
| Message.CreateEmailMessage | Bulk_Email_Tue.py:219-274 | The message built step by step is a fresh object, well formed, and its tree is `EmailMessage` of the address, name, digest and images. |
| Message.NewMessage | Bulk_Email_Tue.py:222-225 | A fresh `related` container with no parts, carrying From, To and Subject in that order. |
| Message.AttachAlternative | Bulk_Email_Tue.py:227-263 | A fresh `alternative` container is appended to the message. Only leaves are attached to it, the plain text and then the HTML body, and the message's headers are unchanged. |
| Message.Assemble | Bulk_Email_Tue.py:222-272 | Headers, the alternative pair and the present images, attached in order, give the tree `MessageOf`. |
| Message.AttachIfPresent | Bulk_Email_Tue.py:266-272 | A present image is appended as a leaf. A missing one changes nothing. |
| Message.AttachedTree | Bulk_Email_Tue.py:227-272 | A container attached first and filled afterwards, through the shared reference, contributes its final tree. The images follow it in order. |
| Message.LeafTrees | Bulk_Email_Tue.py:266-272 | Leaf parts flatten back to their values. |
| Message.GreetingFallbacks | Bulk_Email_Tue.py:101-231 | The HTML greeting is the name when it is truthy and `there` otherwise. The text greeting is the name or empty. The two agree exactly when the name is truthy. |
| Message.HtmlBody | Bulk_Email_Tue.py:100-212 | The HTML body holds the greeting, both photos by `cid:`, the catalog link, the button linked to the tracking URL and the pixel image. |
| Message.TextBody | Bulk_Email_Tue.py:231-258 | The text body starts with its greeting line and holds the catalog URL and the tracking URL. |
| Message.MessageLayout | Bulk_Email_Tue.py:219-263 | The message is `related`, with `From`, `To` and `Subject` set. Its first part is `alternative` holding the plain text and then the HTML, filled with the recipient's links. |
| Message.AroundBodies | Bulk_Email_Tue.py:222-272 | For any two bodies, the message has the same headers, the pair [plain, html] first, and then exactly the present inline images. |
| Message.ImagesInOrder | Bulk_Email_Tue.py:265-272 | After the body come the `jpeg` photos, handbag1 before handbag2. Each is present exactly when its file exists, with Content-ID `<handbag1>` or `<handbag2>`. |
| Message.InlineImagesInOrder | Bulk_Email_Tue.py:266-272 | The image list carries the Content-IDs of the present files, in order, and each entry is a `jpeg` part. |
| Message.BracketedInjective | Bulk_Email_Tue.py:92 | Distinct Content-IDs stay distinct once bracketed. |
| Message.ImagesAreReferenced | Bulk_Email_Tue.py:266-272 | Every photo attached to the message is shown by the HTML body through its Content-ID. |
| Message.ReferencedAround | Bulk_Email_Tue.py:265-272 | The same for any HTML body that shows both photos. |
| Message.InlineImageReferenced | Bulk_Email_Tue.py:91-92 | An inline image's Content-ID is one of the two the HTML body shows. |
| Message.MessageCarriesTracking | Bulk_Email_Tue.py:220-263 | The HTML part links the recipient's own tracking URL and pixel. The text part carries the tracking URL. |
| Dispatch.SendBulkEmails | Bulk_Email_Tue.py:281-314 | The log of the whole procedure is `Run` of the loaded recipients. |
| Dispatch.SendAll | Bulk_Email_Tue.py:295-314 | The outer loop over `range(0, total, 15)` produces exactly `Run`. |
| Dispatch.SendBatch | Bulk_Email_Tue.py:306-312 | The inner loop produces one attempt per recipient of the batch, in order. A failure is logged and the loop goes on. |
| Dispatch.SendOne | Bulk_Email_Tue.py:307-312 | One attempt is `Sent` when the relay accepts that call and `Failed` otherwise. |
| Dispatch.Compose | Bulk_Email_Tue.py:307-309 | The envelope handed to `sendmail` is from the sender, to `[to_email]`, and holds the composed message. |
| Dispatch.Outcome | Bulk_Email_Tue.py:308-312 | An attempt is addressed to its recipient. It is `Sent` exactly when the relay accepts that call. |
| Dispatch.EnvelopeAddressed | Bulk_Email_Tue.py:307-309 | The envelope and the message headers name the sender and the recipient. The message links that recipient's tracking URL. |
| Dispatch.BatchesFlatten | Bulk_Email_Tue.py:298-299 | Concatenating the batches gives back the recipient list. |
| Dispatch.BatchesShape | Bulk_Email_Tue.py:295-299 | There are ceil(N/15) batches. Batch k is the slice at 15k. Every batch has 1 to 15 recipients, and all but the last have 15. |
| Dispatch.BatchCount | Bulk_Email_Tue.py:298 | The number of batches is ceil(N/15). |
| Dispatch.BatchAt | Bulk_Email_Tue.py:298-299 | Batch k is `recipients[15k:15k+15]` and starts inside the list. |
| Dispatch.RunFollowsBatches | Bulk_Email_Tue.py:298-314 | The run walks the reference batches in order, numbered from 1. |
| Dispatch.RunFromBatches | Bulk_Email_Tue.py:298-314 | From any batch start on, the run agrees with the reference batches, and the batch at 15m is numbered m+1. |
| Dispatch.AttemptsAt | Bulk_Email_Tue.py:306-312 | The k-th attempt of a batch is its k-th recipient's outcome. |
| Dispatch.AttemptsConcat | Bulk_Email_Tue.py:306-312 | Attempts over concatenated recipient lists concatenate. |
| Dispatch.AttemptsAreAttempts | Bulk_Email_Tue.py:306-312 | A batch's events are all attempts. |
| Dispatch.AttemptsFree | Bulk_Email_Tue.py:306-312 | A batch's attempts contain no announcement and no pause. |
| Dispatch.Reached | Bulk_Email_Tue.py:298-304 | The point where the run stops lies between the start and the end of the list. |
| Dispatch.ReachedIgnoresAccepts | Bulk_Email_Tue.py:302-312 | Where the run stops depends only on which sessions come up, not on which sends the relay accepts: a refused send (lines 311-312) does not end the run. |
| Dispatch.RunFromAttempts | Bulk_Email_Tue.py:298-312 | The attempts in the run are exactly one per recipient, in list order, up to where the run stops. |
| Dispatch.AbortedAttempts | Bulk_Email_Tue.py:302-304 | A batch whose session fails adds no attempts. |
| Dispatch.SentAttempts | Bulk_Email_Tue.py:306-312 | A batch whose session comes up adds the attempts of its recipients, followed by the rest of the run. |
| Dispatch.SentBatchAttempts | Bulk_Email_Tue.py:306-314 | The attempts of such a batch, leaving out its announcement and pause. |
| Dispatch.RunAttempts | Bulk_Email_Tue.py:306-312 | The k-th attempt of the run is recipient k's. It is `Sent` exactly when the relay accepts call k and `Failed` exactly when it refuses. A failure does not stop later attempts. |
| Dispatch.ReachedEnd | Bulk_Email_Tue.py:298-312 | When every session comes up, the run reaches the end of the list. |
| Dispatch.AllAttempted | Bulk_Email_Tue.py:298-312 | When every session comes up, every recipient gets exactly one attempt, in list order. |
| Dispatch.AbortStops | Bulk_Email_Tue.py:302-304 | A failed session for batch b stops the run at 15(b-1), and the log ends with `Aborted(b)`. |
| Dispatch.Aborts | Bulk_Email_Tue.py:302-304 | If the first b-1 sessions come up and session b fails, exactly the first 15(b-1) recipients are attempted, and the log ends with `Aborted(b)`. |
| Dispatch.BatchesAnnounced | Bulk_Email_Tue.py:300 | When every session comes up, each batch is announced once, in order, with consecutive numbers and its own size. |
| Dispatch.AnnouncedFirst | Bulk_Email_Tue.py:298-314 | When the session opens, the first batch contributes exactly its own announcement. The sends and the pause after it contribute none. |
| Dispatch.PausedFirst | Bulk_Email_Tue.py:298-314 | When the session opens, the first batch contributes exactly one pause, after its sends. The announcement and the sends contribute none. |
| Dispatch.BatchesPaused | Bulk_Email_Tue.py:314 | When every session comes up, there is one pause per batch. |
| Dispatch.RunAnnouncesAndPauses | Bulk_Email_Tue.py:298-314 | With all sessions up, the log announces batches 1 to ceil(N/15), batch k with size min(15, N-15(k-1)), and pauses once after each batch, the last included. |
| Dispatch.SecondRefused | Bulk_Email_Tue.py:298-314 | An example: three recipients, the second refused, give one batch, a failure between two sends, and one pause. |
| Common.TrimEnd | Bulk_Email_Tue.py:61 | `rstrip` removes a suffix made only of the given characters and stops at the first one that is not. |
| Common.TrimStart | Bulk_Email_Tue.py:285 | `lstrip` does the same at the front. |

## Left out

- The network side of SMTP: connect, STARTTLS, login and `sendmail` (lines 302-304 and 309).
  The model reduces them to `Relay.opens` per batch number and `Relay.accepts` per
  `sendmail` call. A session that fails raises out of `send_bulk_emails`, so the log ends
  with `Aborted`.
- The `QUIT` that `smtplib.SMTP.__exit__` sends when the `with` block of line 302 ends. A
  reply other than 221 raises out of `send_bulk_emails` after the batch's sends, with no
  pause and no later batch. The model assumes every opened session closes cleanly, so
  after an opened session it always logs the pause and goes on.
- Dispatch.SendOne: the relay's verdict is a function of the call's position in the run. It
  does not depend on the envelope's content. `Dispatch.Compose` still builds the envelope
  and proves it, but the log records only the verdict.
- The text of the exceptions that are caught and the `print` calls (lines 76, 89, 300, 310
  and 312). A batch announcement and a failure appear as log events; their text is left out.
- The `print` calls at lines 300, 310 and 312 are assumed not to raise. The one at line 310
  sits inside the `try`: if it raised (stdout unable to encode `→`), an accepted send would be
  reported as an error. So `Relay.accepts(index)` stands for "`sendmail` returns and the
  line-310 print succeeds". The one at line 312 sits in the `except` block: if it raised, the
  exception would leave `send_bulk_emails` in the middle of a batch. The model has no such
  path: once a session opens, every recipient of the batch gets an attempt and the pause follows.
- `time.sleep(2)`: it appears only as the `Sleep(2)` event.
- An exception raised while composing a message (line 307, outside the `try`) would end the
  run. The model's composition cannot fail, so that path does not exist in the model.
- `pd.read_excel` and `astype(str)`: the sheet is a sequence of rows with optional string
  cells. Non-string cells and their `str()` forms are not modelled.
- MD5 is the `Digest` parameter. No property of the hash is relied on.
- Tracking.Lower: only ASCII letters are lower-cased. Python's full Unicode `str.lower()` is
  not modelled.
- Tracking.Upper: only ASCII letters are upper-cased. In Python, `"ß".upper()` is `"SS"`, whose
  lower-case form `"ss"` hashes differently from `"ß"`. So `Tracking.LowerOfUpper` and the
  upper-case half of `Tracking.TrackingOfLowerAndUpper` are stated for ASCII input only.
- Message.HeaderValue: names are compared exactly. `email.message` matches header names
  without regard to case. The headers the model reads (`From`, `To`, `Subject`,
  `Content-ID`) are always written in one spelling.
- The PIL steps (open, convert, thumbnail, JPEG re-encode) and the size print (lines 80-89):
  the re-encoded bytes are the `Images.jpeg` parameter.
- Image paths are taken relative to the script's directory (`BASE_DIR`). Only the existence
  check is modelled.
- `EMAIL_PASSWORD` and the `RuntimeError` when it is unset (lines 27-29): no password is
  modelled.
- The marketing copy, CSS and markup of both bodies are abbreviated into fixed strings. The
  holes (photos, greeting, catalog link, tracking link, pixel) are kept in their order.
- `msg.as_string()`: the envelope holds the message tree, not its serialisation. Headers the
  MIME library adds by itself (`Content-Type`, `MIME-Version`, transfer encodings) are not
  modelled.
