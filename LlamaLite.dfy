/**
 * The request assembly of `LlamaLiteClient.chat`: the caller's history is
 * copied, a system message may be put in front, a user message holding the
 * prompt and one part per image is appended, and the result is handed to the
 * chat-completions transport together with the model id, `stream = false` and
 * the caller's extra options.
 */
module LlamaLite {
  import opened Wrappers
  import DataUri

  newtype byte = b: int | 0 <= b < 256

  /** One element of a multi-part message content. */
  datatype Part =
    | TextPart(text: string)     // {"type": "text", "text": text}
    | ImageUrlPart(url: string)  // {"type": "image_url", "image_url": {"url": url}}

  /** A message's content: a bare string or a list of parts. */
  datatype Content =
    | PlainText(text: string)
    | PartList(parts: seq<Part>)

  /** A chat message `{"role": role, "content": content}`. */
  datatype Message = Message(role: string, content: Content)

  const SystemRole := "system"
  const UserRole := "user"

  /** An in-memory raster image; `format` is the format tag it was loaded with, if any. */
  datatype Image = Image(format: Option<string>, pixels: seq<byte>)

  /**
   * The image and base64 libraries the client calls: `save` writes an image in
   * the named format, `b64encode` turns bytes into base64 text, and
   * `b64decode` is its inverse.
   */
  datatype Encoder = Encoder(
    save: (Image, string) -> seq<byte>,
    b64encode: seq<byte> -> string,
    b64decode: string -> seq<byte>)

  /** The payload handed to the transport's `chat.completions.create`. */
  datatype Request<V> = Request(model: string, messages: seq<Message>, stream: bool, options: map<string, V>)

  const DefaultModel := "gpt-4"

  /** Python's truthiness of an optional string: present and non-empty. */
  predicate IsTruthy(s: Option<string>)
  {
    s.Some? && s.value != ""
  }

  // ---------------------------------------------------------------------------
  // Image encoding (`_pil_image_to_base64`)
  // ---------------------------------------------------------------------------

  const DefaultFormat := "PNG"

  /** The format the image is saved in: its own format tag when it has one, else PNG. */
  function SaveFormat(image: Image): (format: string)
    ensures IsTruthy(image.format) ==> format == image.format.value
    ensures !IsTruthy(image.format) ==> format == DefaultFormat
    ensures format != ""
  {
    if IsTruthy(image.format) then image.format.value else DefaultFormat
  }

  /** The base64 text of the image saved in its save format. */
  function ImageToBase64(image: Image, enc: Encoder): string
  {
    enc.b64encode(enc.save(image, SaveFormat(image)))
  }

  // ---------------------------------------------------------------------------
  // User content
  // ---------------------------------------------------------------------------

  const JpegMediaType := "image/jpeg"
  const ImageUrlPrefix := "data:image/jpeg;base64,"

  /**
   * The URL of an image part. It always declares `image/jpeg`, whatever
   * format the image was saved in, and carries the image's base64 text.
   */
  function ImageUrl(image: Image, enc: Encoder): (url: string)
    ensures DataUri.Parse(url) == Some((JpegMediaType, ImageToBase64(image, enc)))
  {
    var payload := ImageToBase64(image, enc);
    assert ImageUrlPrefix + payload == DataUri.Build(JpegMediaType, payload);
    DataUri.ParseBuild(JpegMediaType, payload);
    ImageUrlPrefix + payload
  }

  /** The image parts for `images`, in order, as the loop appends them. */
  function ImageParts(images: seq<Image>, enc: Encoder): seq<Part>
  {
    if images == [] then []
    else ImageParts(images[..|images| - 1], enc) + [ImageUrlPart(ImageUrl(images[|images| - 1], enc))]
  }

  /** The user message's content: the prompt's text part, then the image parts. */
  function UserContent(prompt: string, images: seq<Image>, enc: Encoder): seq<Part>
  {
    [TextPart(prompt)] + ImageParts(images, enc)
  }

  /** Python's `images or []`. */
  function ImagesOf(images: Option<seq<Image>>): seq<Image>
  {
    if images.Some? then images.value else []
  }

  /** There is one image part per image, and part `i` is that of `images[i]`. */
  lemma {:induction false} ImagePartsAt(images: seq<Image>, enc: Encoder)
    ensures |ImageParts(images, enc)| == |images|
    ensures forall i :: 0 <= i < |images| ==> ImageParts(images, enc)[i] == ImageUrlPart(ImageUrl(images[i], enc))
  {
    if images != [] {
      var front := images[..|images| - 1];
      ImagePartsAt(front, enc);
      assert forall i :: 0 <= i < |front| ==> front[i] == images[i];
    }
  }

  /**
   * Builds the user content as `LlamaLiteClient.chat` does: one text part for the prompt,
   * then, when there are images, one image part per image in input order.
   */
  method BuildUserContent(prompt: string, images: Option<seq<Image>>, enc: Encoder) returns (content: seq<Part>)
    ensures content == UserContent(prompt, ImagesOf(images), enc)
    ensures |content| == 1 + |ImagesOf(images)| && content[0] == TextPart(prompt)
    ensures forall i :: 0 <= i < |ImagesOf(images)| ==>
              content[i + 1] == ImageUrlPart(ImageUrl(ImagesOf(images)[i], enc))
  {
    content := [TextPart(prompt)];
    if images.Some? && |images.value| > 0 {
      var imgs := images.value;
      for i := 0 to |imgs|
        invariant content == [TextPart(prompt)] + ImageParts(imgs[..i], enc)
      {
        assert imgs[..i + 1][..i] == imgs[..i];
        var base64Image := ImageToBase64(imgs[i], enc);
        content := content + [ImageUrlPart(ImageUrlPrefix + base64Image)];
      }
      assert imgs[..|imgs|] == imgs;
    }
    ImagePartsAt(ImagesOf(images), enc);
  }

  // ---------------------------------------------------------------------------
  // Messages
  // ---------------------------------------------------------------------------

  /** Whether some message has the role `system` (the `any(...)` test of `LlamaLiteClient.chat`). */
  function HasSystem(messages: seq<Message>): (b: bool)
    ensures b <==> exists i :: 0 <= i < |messages| && messages[i].role == SystemRole
  {
    if messages == [] then false
    else if messages[0].role == SystemRole then true
    else
      assert forall i :: 0 < i < |messages| ==> messages[i] == messages[1..][i - 1];
      HasSystem(messages[1..])
  }

  /** Whether the request gets a system message put in front of the history. */
  predicate InsertsSystem(systemPrompt: Option<string>, history: seq<Message>)
  {
    IsTruthy(systemPrompt) && !HasSystem(history)
  }

  function SystemMessage(text: string): Message
  {
    Message(SystemRole, PlainText(text))
  }

  function UserMessage(content: seq<Part>): Message
  {
    Message(UserRole, PartList(content))
  }

  /** The message list that `chat` sends, for the history's contents `history`. */
  function AssembleMessages(prompt: string, systemPrompt: Option<string>, images: Option<seq<Image>>,
                            history: seq<Message>, enc: Encoder): seq<Message>
  {
    var front := if InsertsSystem(systemPrompt, history) then [SystemMessage(systemPrompt.value)] else [];
    front + history + [UserMessage(UserContent(prompt, ImagesOf(images), enc))]
  }

  /** Where Python's `list.insert(index, x)` puts `x` in a list of length `n`. */
  function InsertPosition(index: int, n: nat): (p: nat)
    ensures p <= n
    ensures 0 <= index <= n ==> p == index
    ensures index < 0 && 0 <= index + n ==> p == index + n
    ensures index > n ==> p == n
    ensures index + n < 0 ==> p == 0
  {
    if index < 0 then (if index + n < 0 then 0 else index + n)
    else if index > n then n
    else index
  }

  /** A Python list of messages, updated in place. */
  class MessageList {
    var items: seq<Message>

    constructor (items: seq<Message>)
      ensures this.items == items
    {
      this.items := items;
    }

    /** `list.copy()`: a new list with the same messages. */
    method Copy() returns (c: MessageList)
      ensures fresh(c) && c.items == items
    {
      c := new MessageList(items);
    }

    /** `list.insert(index, m)`. */
    method Insert(index: int, m: Message)
      modifies this
      ensures var p := InsertPosition(index, |old(items)|);
              items == old(items)[..p] + [m] + old(items)[p..]
    {
      var p := InsertPosition(index, |items|);
      items := items[..p] + [m] + items[p..];
    }

    /** `list.append(m)`. */
    method Append(m: Message)
      modifies this
      ensures items == old(items) + [m]
    {
      items := items + [m];
    }
  }

  /** The contents of the caller's history: `chat_history or []`. */
  function HistoryOf(history: MessageList?): seq<Message>
    reads history
  {
    if history == null then [] else history.items
  }

  /**
   * The names of `chat`'s own parameters. Python binds a keyword argument with
   * one of these names to that parameter, so none of them can be a key of
   * `**kwargs`.
   */
  const ChatParameterNames := {"self", "prompt", "system_prompt", "images", "chat_history", "model"}

  /**
   * The keywords `chat` passes to `chat.completions.create` besides `**kwargs`.
   * Python refuses a call that gives one of them a second time through
   * `**kwargs` (a `TypeError` naming the repeated keyword), so the call is
   * never made. `model` is one of them too, but cannot be a key of `**kwargs`.
   */
  const ForwardedNames := {"messages", "stream"}

  /** Whether the transport call gets a keyword both explicitly and through `**kwargs`. */
  predicate RepeatsKeyword<V>(kwargs: map<string, V>)
  {
    "messages" in kwargs || "stream" in kwargs
  }

  /**
   * `LlamaLiteClient.chat` up to the transport call: returns the request it
   * hands to `chat.completions.create`, or `None` when that call is refused
   * because `**kwargs` repeats one of the keywords `chat` gives explicitly.
   * The method has no modifies clause, so it changes no object that existed
   * before the call, the caller's history included; the list it sends is a
   * fresh copy.
   */
  method Chat<V>(enc: Encoder, prompt: string, systemPrompt: Option<string> := None,
                 images: Option<seq<Image>> := None, history: MessageList? := null,
                 model: string := DefaultModel, kwargs: map<string, V> := map[])
    returns (request: Option<Request<V>>)
    requires kwargs.Keys !! ChatParameterNames
    ensures request.None? <==> "messages" in kwargs || "stream" in kwargs
    ensures request.Some? ==>
              request.value.messages == AssembleMessages(prompt, systemPrompt, images, HistoryOf(history), enc)
    ensures request.Some? ==>
              request.value.model == model && !request.value.stream && request.value.options == kwargs
    ensures request.Some? ==> request.value.options.Keys !! ForwardedNames + {"model"}
  {
    var messages: MessageList;
    if history != null && |history.items| > 0 {
      messages := history.Copy();
    } else {
      messages := new MessageList([]);
    }

    ghost var h := HistoryOf(history);
    assert messages.items == h;
    if IsTruthy(systemPrompt) && !HasSystem(messages.items) {
      messages.Insert(0, SystemMessage(systemPrompt.value));
      assert messages.items == [SystemMessage(systemPrompt.value)] + h;
    }
    ghost var front := if InsertsSystem(systemPrompt, h) then [SystemMessage(systemPrompt.value)] else [];
    assert messages.items == front + h;

    var userContent := BuildUserContent(prompt, images, enc);
    messages.Append(UserMessage(userContent));

    if RepeatsKeyword(kwargs) {
      request := None;
    } else {
      request := Some(Request(model, messages.items, false, kwargs));
    }
  }
}
