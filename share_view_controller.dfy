/**
 * The share extension: it takes what another app shares (plain text first,
 * else a URL), shows it for editing, and on post stores it as one outbox note.
 * The extension does not send anything itself; the app's worker picks the note
 * up later.
 *
 * The item provider's asynchronous loads are split in two: `ViewDidAppear`
 * says which load it starts, and `PlainTextLoaded` / `UrlLoaded` are the
 * completion blocks, given what the provider delivered.
 */
module ShareViewControllers {
  import opened Options
  import opened Text
  import opened OutboxItems
  import opened UserProfiles
  import opened Stores

  /** The most characters the editor and the store are given. */
  const ClampLimit: nat := 50000

  /** `clamp(_:limit:)`: the first `limit` characters of `s`. */
  function Clamp(s: string, limit: nat): (r: string)
    ensures |r| <= limit && r <= s
    ensures |s| <= limit ==> r == s
    ensures |s| > limit ==> |r| == limit
  {
    if |s| <= limit then s else s[..limit]
  }

  /** Whether the first stored profile asks for Roam-style links; with no
      profile stored, plain formatting is used. */
  function FormatsLinks(profiles: seq<UserProfile>): bool
    reads profiles
  {
    |profiles| > 0 && profiles[0].shareFormatLinks
  }

  /** `formatURLText(urlString:pageTitle:)`: the formatted text cut to the
      clamp limit. */
  function FormatUrlText(urlString: string, pageTitle: Option<string>, formatLinks: bool): (r: string)
    ensures var t := UrlText(urlString, pageTitle, formatLinks);
            && |r| <= ClampLimit && r <= t
            && (|t| <= ClampLimit ==> r == t)
            && (|t| > ClampLimit ==> |r| == ClampLimit)
  {
    Clamp(UrlText(urlString, pageTitle, formatLinks), ClampLimit)
  }

  /** The formatted text before clamping: `[visible](url)` with links, where
      visible is the trimmed title or the url when that is blank; otherwise
      `title - url` when the trimmed title is non-empty and is not the url, else
      the url alone. */
  function UrlText(urlString: string, pageTitle: Option<string>, formatLinks: bool): (t: string)
    ensures var title := TitleOf(pageTitle);
            && (formatLinks ==> t == "[" + (if title != "" then title else urlString) + "](" + urlString + ")")
            && (!formatLinks && title != "" && title != urlString ==> t == title + " - " + urlString)
            && (!formatLinks && (title == "" || title == urlString) ==> t == urlString)
  {
    var cleanedTitle := if pageTitle.Some? then Some(TitleOf(pageTitle)) else None;
    if formatLinks then
      var visible := if cleanedTitle.Some? && cleanedTitle.value != "" then cleanedTitle.value else urlString;
      "[" + visible + "](" + urlString + ")"
    else if cleanedTitle.Some? && cleanedTitle.value != "" && cleanedTitle.value != urlString then
      cleanedTitle.value + " - " + urlString
    else
      urlString
  }

  /** The trimmed page title, empty when the host gave none. */
  function TitleOf(pageTitle: Option<string>): (t: string)
    ensures |t| <= if pageTitle.Some? then |pageTitle.value| else 0
  {
    if pageTitle.Some? then Trim(pageTitle.value) else ""
  }

  /** A link ends with the url in full and the closing parenthesis. */
  lemma LinkFormat(urlString: string, pageTitle: Option<string>)
    ensures var t := UrlText(urlString, pageTitle, true);
            |t| >= |urlString| + 1 && t[|t| - |urlString| - 1..] == urlString + ")"
  {
    var title := TitleOf(pageTitle);
    var head := "[" + (if title != "" then title else urlString) + "](";
    TailAfter(head, urlString + ")");
    assert head + urlString + ")" == head + (urlString + ")");
  }

  /** What follows a prefix is the rest of the text. */
  lemma TailAfter(head: string, tail: string)
    ensures (head + tail)[|head|..] == tail
  {
    assert forall k | 0 <= k < |tail| :: (head + tail)[|head| + k] == tail[k];
  }

  /** Plain text ends with the url in full. */
  lemma PlainFormat(urlString: string, pageTitle: Option<string>)
    ensures var t := UrlText(urlString, pageTitle, false);
            |t| >= |urlString| && t[|t| - |urlString|..] == urlString
  {
    var title := TitleOf(pageTitle);
    if title != "" && title != urlString {
      TailAfter(title + " - ", urlString);
    }
  }

  /** A url and title that fit the limit are formatted in full: nothing is
      cut, and the url is still there at the end. */
  lemma FitsUnclamped(urlString: string, pageTitle: Option<string>, formatLinks: bool)
    requires 2 * |urlString| + (if pageTitle.Some? then |pageTitle.value| else 0) + 4 <= ClampLimit
    ensures FormatUrlText(urlString, pageTitle, formatLinks) == UrlText(urlString, pageTitle, formatLinks)
  {
    var title := TitleOf(pageTitle);
    assert |UrlText(urlString, pageTitle, formatLinks)| <= 2 * |urlString| + |title| + 4;
  }

  /** The load `viewDidAppear` starts: plain text, or a URL with the host's
      (trimmed) page title. */
  datatype Load = LoadPlainText | LoadUrl(pageTitle: Option<string>)

  /** The first attachment of the first input item, with the types it conforms
      to. */
  datatype Attachment = Attachment(conformsToPlainText: bool, conformsToUrl: bool)

  /** What the host shares: the attachment, if there is one, and the item's
      attributed title, if any. */
  datatype SharedInput = SharedInput(attachment: Option<Attachment>, attributedTitle: Option<string>)

  /** What a plain-text load delivers: an error, a string, data (with its UTF-8
      decoding, if it decodes) or anything else. */
  datatype ProvidedText = TextError | TextString(s: string) | TextData(utf8: Option<string>) | TextOther

  /** What a URL load delivers: an error, a `URL` or `NSURL` (by its absolute
      string), a string or data (with the absolute string of the URL it parses
      as, if it decodes and parses), or anything else. */
  datatype ProvidedUrl =
    | UrlError
    | UrlObject(absoluteString: string)
    | UrlString(parsed: Option<string>)
    | UrlData(parsed: Option<string>)
    | UrlOther

  /** The text a plain-text load yields, if any. */
  function PlainTextOf(provided: ProvidedText): (s: Option<string>)
    ensures s.Some? <==> provided.TextString? || (provided.TextData? && provided.utf8.Some?)
    ensures provided.TextString? ==> s == Some(provided.s)
    ensures provided.TextData? ==> s == provided.utf8
  {
    match provided
    case TextString(s) => Some(s)
    case TextData(utf8) => utf8
    case _ => None
  }

  /** The absolute URL string a URL load yields, if any. */
  function UrlOf(provided: ProvidedUrl): (u: Option<string>)
    ensures provided.UrlError? || provided.UrlOther? ==> u.None?
    ensures provided.UrlObject? ==> u == Some(provided.absoluteString)
    ensures provided.UrlString? || provided.UrlData? ==> u == provided.parsed
  {
    match provided
    case UrlObject(absolute) => Some(absolute)
    case UrlString(parsed) => parsed
    case UrlData(parsed) => parsed
    case _ => None
  }

  class ShareViewController {
    const store: Store
    var didExtract: bool
    var didSave: bool
    /** `model.text`, the text shown in the editor. */
    var text: string
    /** Whether the extension has completed its request (`close()`). */
    var closed: bool

    constructor (store: Store)
      ensures this.store == store
      ensures !didExtract && !didSave && text == "" && !closed
    {
      this.store := store;
      didExtract, didSave := false, false;
      text, closed := "", false;
    }

    /** `viewDidAppear(_:)`: the first time only, plain text is loaded if the
        attachment offers it, else a URL if it offers one; with no attachment
        or neither type the extension closes. */
    method ViewDidAppear(input: SharedInput) returns (load: Option<Load>)
      modifies this`didExtract, this`closed
      ensures didExtract
      ensures old(didExtract) ==> load.None? && closed == old(closed)
      ensures !old(didExtract) ==>
                match input.attachment
                case None => load.None? && closed
                case Some(a) =>
                  && (a.conformsToPlainText ==> load == Some(LoadPlainText) && closed == old(closed))
                  && (!a.conformsToPlainText && a.conformsToUrl ==>
                        load == Some(LoadUrl(if input.attributedTitle.Some? then Some(Trim(input.attributedTitle.value)) else None))
                        && closed == old(closed))
                  && (!a.conformsToPlainText && !a.conformsToUrl ==> load.None? && closed)
    {
      if didExtract {
        return None;
      }
      didExtract := true;
      if input.attachment.None? {
        closed := true;
        return None;
      }
      var pageTitle := if input.attributedTitle.Some? then Some(Trim(input.attributedTitle.value)) else None;
      if input.attachment.value.conformsToPlainText {
        return Some(LoadPlainText);
      }
      if input.attachment.value.conformsToUrl {
        return Some(LoadUrl(pageTitle));
      }
      closed := true;
      load := None;
    }

    /** The completion of `loadPlainText(from:)`: the delivered text, clamped,
        becomes the editor's text; an error or an unreadable item closes the
        extension. */
    method PlainTextLoaded(provided: ProvidedText)
      modifies this`text, this`closed
      ensures PlainTextOf(provided).Some? ==>
                text == Clamp(PlainTextOf(provided).value, ClampLimit) && closed == old(closed)
      ensures PlainTextOf(provided).None? ==> text == old(text) && closed
    {
      match provided {
        case TextError => closed := true;
        case TextString(s) => text := Clamp(s, ClampLimit);
        case TextData(utf8) =>
          if utf8.Some? {
            text := Clamp(utf8.value, ClampLimit);
          } else {
            closed := true;
          }
        case TextOther => closed := true;
      }
    }

    /** The completion of `loadURL(from:pageTitle:)`: the delivered URL,
        formatted by the first profile's preference, becomes the editor's text;
        an error or an unreadable item closes the extension. */
    method UrlLoaded(provided: ProvidedUrl, pageTitle: Option<string>)
      modifies this`text, this`closed
      ensures UrlOf(provided).Some? ==>
                text == FormatUrlText(UrlOf(provided).value, pageTitle, FormatsLinks(store.profiles))
                && closed == old(closed)
      ensures UrlOf(provided).None? ==> text == old(text) && closed
    {
      var url := UrlOf(provided);
      if url.None? {
        closed := true;
        return;
      }
      var formatLinks := FormatsLinks(store.profiles);
      text := FormatUrlText(url.value, pageTitle, formatLinks);
    }

    /** The post action: the first post only. Whitespace-only text stores
        nothing; any other text is stored, trimmed, as one new note under the
        fresh identifier `id`. Either way the extension closes. */
    method OnPost(id: Uuid, now: int)
      requires store.Valid() && id !in store.items
      modifies this`didSave, this`closed, store`items
      ensures store.Valid() && didSave
      ensures old(didSave) ==> store.items == old(store.items) && closed == old(closed)
      ensures !old(didSave) ==>
                && closed
                && store.items == if Trim(text) == "" then old(store.items)
                                  else old(store.items)[id := NewNote(id, Trim(text), now)]
    {
      if didSave {
        return;
      }
      didSave := true;
      var trimmed := Trim(text);
      if trimmed == "" {
        closed := true;
        return;
      }
      var item := NewNote(id, trimmed, now);
      store.InsertItem(item);
      closed := true;
    }
  }
}
