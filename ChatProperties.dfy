/**
 * What the assembled request promises: where the system message goes, that
 * the history is kept whole and in order, the shape of the user message, the
 * image URLs, and how many system messages the result holds.
 */
module ChatProperties {
  import opened Wrappers
  import opened LlamaLite
  import DataUri

  // ---------------------------------------------------------------------------
  // Placement of the system message and of the history
  // ---------------------------------------------------------------------------

  /**
   * With a truthy system prompt and no system message in the history, the
   * system message comes first and the history follows whole and in order.
   */
  lemma InsertedSystemLeads(prompt: string, systemPrompt: Option<string>, images: Option<seq<Image>>,
                            history: seq<Message>, enc: Encoder)
    requires InsertsSystem(systemPrompt, history)
    ensures var r := AssembleMessages(prompt, systemPrompt, images, history, enc);
            |r| == |history| + 2 &&
            r[0] == Message(SystemRole, PlainText(systemPrompt.value)) &&
            r[1..|history| + 1] == history
  {
  }

  /**
   * With no system prompt, an empty one, or a history that already has a
   * system message, nothing is inserted: the history is the result's prefix,
   * with nothing replaced or removed.
   */
  lemma HistoryIsPrefix(prompt: string, systemPrompt: Option<string>, images: Option<seq<Image>>,
                        history: seq<Message>, enc: Encoder)
    requires systemPrompt == None || systemPrompt == Some("") || HasSystem(history)
    ensures var r := AssembleMessages(prompt, systemPrompt, images, history, enc);
            |r| == |history| + 1 && r[..|history|] == history
  {
  }

  /**
   * The last message is the user's: its content is a part list whose first
   * part is the prompt, followed by one `image_url` part per image, in order,
   * each declaring `image/jpeg` and carrying that image's base64 text.
   */
  lemma UserMessageLast(prompt: string, systemPrompt: Option<string>, images: Option<seq<Image>>,
                        history: seq<Message>, enc: Encoder)
    ensures var r := AssembleMessages(prompt, systemPrompt, images, history, enc);
            var imgs := ImagesOf(images);
            |r| > |history| &&
            r[|r| - 1].role == UserRole && r[|r| - 1].content.PartList? &&
            var parts := r[|r| - 1].content.parts;
            |parts| == 1 + |imgs| && parts[0] == TextPart(prompt) &&
            forall i :: 0 <= i < |imgs| ==>
              parts[i + 1].ImageUrlPart? &&
              parts[i + 1].url == ImageUrlPrefix + ImageToBase64(imgs[i], enc) &&
              DataUri.Parse(parts[i + 1].url) == Some((JpegMediaType, ImageToBase64(imgs[i], enc)))
  {
    var r := AssembleMessages(prompt, systemPrompt, images, history, enc);
    var imgs := ImagesOf(images);
    var parts := UserContent(prompt, imgs, enc);
    assert r[|r| - 1] == UserMessage(parts);
    ImagePartsAt(imgs, enc);
    forall i | 0 <= i < |imgs|
      ensures parts[i + 1] == ImageUrlPart(ImageUrl(imgs[i], enc))
    {
      assert parts[i + 1] == ImageParts(imgs, enc)[i];
    }
  }

  // ---------------------------------------------------------------------------
  // System messages in the result
  // ---------------------------------------------------------------------------

  /** The number of messages with role `role`. */
  function CountRole(messages: seq<Message>, role: string): nat
  {
    if messages == [] then 0
    else (if messages[0].role == role then 1 else 0) + CountRole(messages[1..], role)
  }

  lemma {:induction false} CountRoleConcat(a: seq<Message>, b: seq<Message>, role: string)
    ensures CountRole(a + b, role) == CountRole(a, role) + CountRole(b, role)
  {
    if a != [] {
      assert (a + b)[0] == a[0];
      assert (a + b)[1..] == a[1..] + b;
      assert CountRole(a + b, role) == (if a[0].role == role then 1 else 0) + CountRole(a[1..] + b, role);
      CountRoleConcat(a[1..], b, role);
    } else {
      assert a + b == b;
    }
  }

  /**
   * The result holds exactly the history's system messages, plus the inserted
   * one when there is one: none is removed and none is duplicated.
   */
  lemma SystemCount(prompt: string, systemPrompt: Option<string>, images: Option<seq<Image>>,
                    history: seq<Message>, enc: Encoder)
    ensures CountRole(AssembleMessages(prompt, systemPrompt, images, history, enc), SystemRole)
            == CountRole(history, SystemRole) + (if InsertsSystem(systemPrompt, history) then 1 else 0)
  {
    var front := if InsertsSystem(systemPrompt, history) then [SystemMessage(systemPrompt.value)] else [];
    var user := [UserMessage(UserContent(prompt, ImagesOf(images), enc))];
    CountRoleConcat(front + history, user, SystemRole);
    CountRoleConcat(front, history, SystemRole);
    assert CountRole(user, SystemRole) == 0 by {
      assert user[1..] == [];
    }
    if front != [] {
      assert front[1..] == [];
    }
  }

  /** No message after the first has role `system`. */
  ghost predicate SystemOnlyFirst(messages: seq<Message>)
  {
    forall i :: 0 < i < |messages| ==> messages[i].role != SystemRole
  }

  /**
   * If the history holds at most one system message, and only in front, so does
   * the request. `LlamaLiteClient.chat` keeps whatever system messages the
   * history has where they are, so this holds only for such histories
   * (`SystemOnlyFirstReflected`).
   */
  lemma SystemOnlyFirstPreserved(prompt: string, systemPrompt: Option<string>, images: Option<seq<Image>>,
                                 history: seq<Message>, enc: Encoder)
    requires SystemOnlyFirst(history)
    ensures SystemOnlyFirst(AssembleMessages(prompt, systemPrompt, images, history, enc))
  {
  }

  /**
   * Conversely, a request with no system message after its head comes from a
   * history with none after its head: the history's system messages are never
   * moved or dropped.
   */
  lemma SystemOnlyFirstReflected(prompt: string, systemPrompt: Option<string>, images: Option<seq<Image>>,
                                 history: seq<Message>, enc: Encoder)
    requires SystemOnlyFirst(AssembleMessages(prompt, systemPrompt, images, history, enc))
    ensures SystemOnlyFirst(history)
  {
    var r := AssembleMessages(prompt, systemPrompt, images, history, enc);
    if !InsertsSystem(systemPrompt, history) {
      assert forall i :: 0 <= i < |history| ==> r[i] == history[i];
    }
  }

  /**
   * A system message that is not first in the history stays where it is: the
   * request for the history `[user "Q", system "S"]` has a system message at
   * index 1, even with a system prompt given.
   */
  lemma SystemNotAlwaysFirst(enc: Encoder)
    ensures var history := [Message(UserRole, PlainText("Q")), Message(SystemRole, PlainText("S"))];
            var r := AssembleMessages("Follow-up", Some("Be terse"), None, history, enc);
            |r| == 3 && r[1].role == SystemRole && !SystemOnlyFirst(r)
  {
    var history := [Message(UserRole, PlainText("Q")), Message(SystemRole, PlainText("S"))];
    assert HasSystem(history) by {
      assert history[1].role == SystemRole;
    }
  }

  // ---------------------------------------------------------------------------
  // Image encoding
  // ---------------------------------------------------------------------------

  /**
   * When the base64 library's decoder inverts its encoder, decoding the payload
   * of an image's URL gives back exactly the bytes the image was saved as.
   */
  lemma PayloadDecodesToSavedBytes(image: Image, enc: Encoder)
    requires forall bytes :: enc.b64decode(enc.b64encode(bytes)) == bytes
    ensures var parsed := DataUri.Parse(ImageUrl(image, enc));
            parsed.Some? && enc.b64decode(parsed.value.1) == enc.save(image, SaveFormat(image))
  {
  }

  /**
   * The declared media type is `image/jpeg` for every image, so two images that
   * differ only in their format tag get URLs with the same media type.
   */
  lemma MediaTypeIgnoresFormat(image: Image, format: Option<string>, enc: Encoder)
    ensures var a := DataUri.Parse(ImageUrl(image, enc));
            var b := DataUri.Parse(ImageUrl(image.(format := format), enc));
            a.Some? && b.Some? && a.value.0 == b.value.0 == JpegMediaType
  {
  }

  // ---------------------------------------------------------------------------
  // Scenarios
  // ---------------------------------------------------------------------------

  /** `chat(prompt="Hi", system_prompt="Be terse")` with no history. */
  lemma ScenarioSystemPromptOnly(enc: Encoder)
    ensures AssembleMessages("Hi", Some("Be terse"), None, [], enc)
            == [Message(SystemRole, PlainText("Be terse")), Message(UserRole, PartList([TextPart("Hi")]))]
  {
    assert IsTruthy(Some("Be terse")) && !HasSystem([]);
    assert UserContent("Hi", [], enc) == [TextPart("Hi")];
  }

  /** A follow-up on a history that begins with a system message: four messages, history unchanged. */
  lemma ScenarioFollowUp(enc: Encoder)
    ensures var history := [Message(SystemRole, PlainText("S")), Message(UserRole, PlainText("Q")),
                            Message("assistant", PlainText("A"))];
            AssembleMessages("Follow-up", Some("Be terse"), None, history, enc)
            == history + [Message(UserRole, PartList([TextPart("Follow-up")]))]
  {
    var history := [Message(SystemRole, PlainText("S")), Message(UserRole, PlainText("Q")),
                    Message("assistant", PlainText("A"))];
    assert HasSystem(history) by {
      assert history[0].role == SystemRole;
    }
    assert UserContent("Follow-up", [], enc) == [TextPart("Follow-up")];
  }

  /** Two images: the text part, then the two image parts in the order given. */
  lemma ScenarioTwoImages(img1: Image, img2: Image, enc: Encoder)
    ensures AssembleMessages("Describe", None, Some([img1, img2]), [], enc)
            == [Message(UserRole, PartList([TextPart("Describe"),
                                            ImageUrlPart(ImageUrlPrefix + ImageToBase64(img1, enc)),
                                            ImageUrlPart(ImageUrlPrefix + ImageToBase64(img2, enc))]))]
  {
    assert !IsTruthy(None);
    assert [img1, img2][..1] == [img1];
    assert [img1][..0] == [];
    assert ImageParts([img1], enc) == [ImageUrlPart(ImageUrl(img1, enc))];
    assert ImageParts([img1, img2], enc) == [ImageUrlPart(ImageUrl(img1, enc)), ImageUrlPart(ImageUrl(img2, enc))];
    assert UserContent("Describe", [img1, img2], enc) == [TextPart("Describe"), ImageUrlPart(ImageUrl(img1, enc)), ImageUrlPart(ImageUrl(img2, enc))];
    assert ImageUrl(img1, enc) == ImageUrlPrefix + ImageToBase64(img1, enc);
  }

  // ---------------------------------------------------------------------------
  // The caller's history
  // ---------------------------------------------------------------------------

  /**
   * A caller's view of `Chat`: after the call, the caller's list holds the same
   * messages as before, and the request, when the call is made, holds those
   * messages contiguously.
   */
  method ChatLeavesHistory(enc: Encoder, history: MessageList, prompt: string, systemPrompt: Option<string>)
    returns (request: Option<Request<int>>)
    ensures history.items == old(history.items)
    ensures request.Some? &&
            var k := if InsertsSystem(systemPrompt, history.items) then 1 else 0;
            |request.value.messages| == k + |history.items| + 1 &&
            request.value.messages[k..k + |history.items|] == history.items
  {
    request := Chat(enc, prompt, systemPrompt, history := history);
    if InsertsSystem(systemPrompt, history.items) {
      InsertedSystemLeads(prompt, systemPrompt, None, history.items, enc);
    } else {
      HistoryIsPrefix(prompt, systemPrompt, None, history.items, enc);
    }
  }

  /**
   * `chat(prompt, stream=True)`: the transport call repeats `stream`, so no
   * request is made, whatever the other arguments are.
   */
  method StreamKeywordRefused(enc: Encoder, prompt: string) returns (request: Option<Request<bool>>)
    ensures request == None
  {
    request := Chat(enc, prompt, kwargs := map["stream" := true]);
  }
}
