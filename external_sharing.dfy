/**
 * Building the outgoing message for content shared into a conversation from
 * outside the app: every kind of content maps to one message category and
 * fills in the fields that category carries.
 */
module ExternalSharing {
  import opened Wrappers
  import opened Strings

  datatype LiveData = LiveData(url: string, width: int, height: int, thumbUrl: string)
  datatype ContactData = ContactData(userId: string)
  /** An app card is carried as an opaque payload. */
  datatype AppCardData = AppCardData(payload: string)

  datatype SharedContent =
    | Text(text: string)
    | Image(url: string)
    | Live(data: LiveData)
    | Contact(contact: ContactData)
    | Post(text: string)
    | AppCard(card: AppCardData)

  datatype ExternalSharingContext = ExternalSharingContext(conversationId: Option<string>, content: SharedContent)

  datatype Message = Message(
    messageId: string,
    conversationId: string,
    userId: string,
    category: string,
    status: string,
    createdAt: string,
    content: Option<string>,
    mediaUrl: Option<string>,
    mediaStatus: Option<string>,
    mediaWidth: Option<int>,
    mediaHeight: Option<int>,
    thumbUrl: Option<string>,
    sharedUserId: Option<string>)

  const StatusSending := "SENDING"
  const MediaPending := "PENDING"

  /** The message category of each kind of shared content. */
  function CategoryOf(c: SharedContent): string {
    match c
    case Text(_) => "SIGNAL_TEXT"
    case Image(_) => "SIGNAL_IMAGE"
    case Live(_) => "SIGNAL_LIVE"
    case Contact(_) => "SIGNAL_CONTACT"
    case Post(_) => "SIGNAL_POST"
    case AppCard(_) => "APP_CARD"
  }

  /** The kind of content a category was made from: the categories are distinct. */
  function KindOfCategory(category: string): (r: Option<SharedContent>)
    ensures r.Some? ==> CategoryOf(r.value) == category
  {
    if category == "SIGNAL_TEXT" then Some(Text(""))
    else if category == "SIGNAL_IMAGE" then Some(Image(""))
    else if category == "SIGNAL_LIVE" then Some(Live(LiveData("", 0, 0, "")))
    else if category == "SIGNAL_CONTACT" then Some(Contact(ContactData("")))
    else if category == "SIGNAL_POST" then Some(Post(""))
    else if category == "APP_CARD" then Some(AppCard(AppCardData("")))
    else None
  }

  /** Same kind of content, whatever the payload. */
  predicate SameKind(a: SharedContent, b: SharedContent) {
    (a.Text? && b.Text?) || (a.Image? && b.Image?) || (a.Live? && b.Live?)
    || (a.Contact? && b.Contact?) || (a.Post? && b.Post?) || (a.AppCard? && b.AppCard?)
  }

  /** The category tells the kind of content back. */
  lemma CategoryRoundTrip(c: SharedContent)
    ensures KindOfCategory(CategoryOf(c)).Some? && SameKind(KindOfCategory(CategoryOf(c)).value, c)
  {
  }

  /** Different kinds of content get different categories. */
  lemma CategoryInjective(a: SharedContent, b: SharedContent)
    ensures CategoryOf(a) == CategoryOf(b) <==> SameKind(a, b)
  {
    CategoryRoundTrip(a);
    CategoryRoundTrip(b);
  }

  /**
   * The message for a shared content. `uuid` is the freshly generated identifier,
   * `createdAt` the current time as text, and the two encoders stand for the
   * JSON-then-base64 encoding of contact and app-card payloads.
   */
  function CreateMessage(ctx: ExternalSharingContext, uuid: string, myUserId: string, createdAt: string,
                         encodeContact: ContactData -> string, encodeAppCard: AppCardData -> string): Message
  {
    var base := Message(Lower(uuid), ctx.conversationId.GetOr(""), myUserId, CategoryOf(ctx.content), StatusSending,
      createdAt, None, None, None, None, None, None, None);
    match ctx.content
    case Text(text) => base.(content := Some(text))
    case Image(url) => base.(mediaStatus := Some(MediaPending), mediaUrl := Some(url))
    case Live(d) =>
      base.(mediaUrl := Some(d.url), mediaWidth := Some(d.width), mediaHeight := Some(d.height), thumbUrl := Some(d.thumbUrl))
    case Contact(d) => base.(sharedUserId := Some(d.userId), content := Some(encodeContact(d)))
    case Post(text) => base.(content := Some(text))
    case AppCard(d) => base.(content := Some(encodeAppCard(d)))
  }

  /**
   * Every created message is a sending message of the current user in the
   * context's conversation (the empty id when there is none), with a
   * lower-case id and the category of its content.
   */
  lemma CreatedMessageHeader(ctx: ExternalSharingContext, uuid: string, myUserId: string, createdAt: string,
                             encodeContact: ContactData -> string, encodeAppCard: AppCardData -> string)
    ensures var m := CreateMessage(ctx, uuid, myUserId, createdAt, encodeContact, encodeAppCard);
      && m.status == StatusSending && m.userId == myUserId
      && (ctx.conversationId.Some? ==> m.conversationId == ctx.conversationId.value)
      && (ctx.conversationId.None? ==> m.conversationId == "")
      && (forall i :: 0 <= i < |m.messageId| ==> !IsUpper(m.messageId[i]))
      && |m.messageId| == |uuid|
      && m.category == CategoryOf(ctx.content)
  {
    LowerIsLower(uuid);
  }

  /**
   * Which fields each kind fills: text and post carry their text; an image its
   * URL and the only media status (pending); a live stream its URL, size and
   * thumbnail unchanged; a contact its user id and encoded payload; an app card
   * its encoded payload. Every other field is left empty.
   */
  lemma CreatedMessageFields(ctx: ExternalSharingContext, uuid: string, myUserId: string, createdAt: string,
                             encodeContact: ContactData -> string, encodeAppCard: AppCardData -> string)
    ensures var m := CreateMessage(ctx, uuid, myUserId, createdAt, encodeContact, encodeAppCard);
      && (m.mediaStatus.Some? <==> ctx.content.Image?)
      && (m.mediaStatus.Some? ==> m.mediaStatus.value == MediaPending)
      && (m.mediaUrl.Some? <==> ctx.content.Image? || ctx.content.Live?)
      && (m.content.Some? <==> ctx.content.Text? || ctx.content.Post? || ctx.content.Contact? || ctx.content.AppCard?)
      && (m.sharedUserId.Some? <==> ctx.content.Contact?)
      && (m.mediaWidth.Some? <==> ctx.content.Live?) && (m.thumbUrl.Some? <==> ctx.content.Live?)
      && (ctx.content.Text? ==> m.content == Some(ctx.content.text))
      && (ctx.content.Post? ==> m.content == Some(ctx.content.text))
      && (ctx.content.Image? ==> m.mediaUrl == Some(ctx.content.url))
      && (ctx.content.Live? ==>
            m.mediaUrl == Some(ctx.content.data.url) && m.mediaWidth == Some(ctx.content.data.width)
            && m.mediaHeight == Some(ctx.content.data.height) && m.thumbUrl == Some(ctx.content.data.thumbUrl))
      && (ctx.content.Contact? ==>
            m.sharedUserId == Some(ctx.content.contact.userId) && m.content == Some(encodeContact(ctx.content.contact)))
      && (ctx.content.AppCard? ==> m.content == Some(encodeAppCard(ctx.content.card)))
  {
  }
}
