# llamalite request assembly in Dafny

`llamalite` wraps an OpenAI-compatible chat-completions client for a local
llama.cpp server. Its one piece of logic is `LlamaLiteClient.chat`, which
builds the message list it sends:

1. It copies the caller's history. An absent or empty history gives a new empty list.
2. It puts a `system` message holding the system prompt in front. This happens only
   when the prompt is truthy and no history message has role `system`.
3. It builds the user content. This is a text part with the prompt, then one
   `image_url` part per image, in order. Each URL is
   `data:image/jpeg;base64,` followed by the image's base64 text.
4. It appends the user message.

It then hands the list to the transport with the model id, `stream=False` and
the caller's keyword options.

The model has four modules:

- `Wrappers` (Wrappers.dfy) holds `Option`, which stands for Python's `None`.
- `DataUri` (DataUri.dfy) builds and parses base64 data URIs
  (`data:<media type>;base64,<payload>`, RFC 2397). Parsing is the inverse used
  to say what each image URL carries. It accepts only media types without
  parameters, so it returns `None` for `data:text/plain;charset=utf-8;base64,...`.
- `LlamaLite` (LlamaLite.dfy) holds the rest of the model:
  - the message, content-part, image and request datatypes;
  - the image helper `_pil_image_to_base64`;
  - the user-content loop;
  - the `any(...)` test for a system message;
  - the Python list, as the class `MessageList`, which is copied and updated in place;
  - the `chat` method, `Chat`, which returns the request record instead of sending it,
    or `None` when Python would refuse the transport call because `**kwargs`
    repeats `messages` or `stream`;
  - `AssembleMessages`, the function that specifies `Chat`'s message list.
- `ChatProperties` (ChatProperties.dfy) holds the lemmas about `AssembleMessages`
  and a caller's view of `Chat`.

The image library's `save` and the base64 library are not modelled code. They are
the fields of an `Encoder` value passed to the operations. The base64 decoder is
also a field, so the round trip can be stated under the assumption that decoding
inverts encoding.

Python truthiness of an optional string is `IsTruthy`: present and non-empty.
The caller's history is a `MessageList?`, where `null` stands for `None`.
`Chat` has no modifies clause. Dafny therefore proves that it changes no object
that existed before the call, and the caller's list is one of those objects.

Two behaviours of the code are easy to misread, and the model follows the code:

- One might expect the final list to hold at most one system message, and only at
  its head. The code keeps every system message of the history where it is. So
  the request has that property exactly when the history has it:
  `SystemOnlyFirstPreserved` proves history to request and
  `SystemOnlyFirstReflected` request to history. `SystemNotAlwaysFirst` shows a
  history for which it fails.
- Plain-text user content would do when there are no images. The code always
  sends a part list, so the model always builds `PartList`.

## Model

| member | source | states |
|---|---|---|
| `LlamaLite.SaveFormat` | llamalite.py:64 | The save format is the image's own format tag when that tag is truthy, and `"PNG"` otherwise. It is never empty. |
| `LlamaLite.ImageUrl` | llamalite.py:116-120 | An image's URL parses as a base64 data URI. Its media type is `image/jpeg` whatever the save format, and its payload is the base64 text of the image saved in its save format. |
| `LlamaLite.ImagePartsAt` | llamalite.py:114-122 | There is exactly one image part per image. Image part `i` is the `image_url` part for `images[i]`, so input order is kept. |
| `LlamaLite.BuildUserContent` | llamalite.py:113-122 | The loop yields `1 + n` parts for `n` images. Part 0 is the prompt's text part, and part `i+1` is the image part of `images[i]`. An absent or empty image list gives the text part alone. |
| `LlamaLite.HasSystem` | llamalite.py:109 | True exactly when some message in the list has role `"system"`. |
| `LlamaLite.InsertPosition` | llamalite.py:110 | Gives where Python's `list.insert(index, x)` puts `x`. An index within the list is kept as is. A negative index counts from the end. An index past either end is clamped to that end. |
| `LlamaLite.MessageList.constructor` | llamalite.py:106 | A new list holds exactly the given messages (the `[]` of an absent history). |
| `LlamaLite.MessageList.Copy` | llamalite.py:106 | `copy()` returns a fresh list object with the same messages in the same order. |
| `LlamaLite.MessageList.Insert` | llamalite.py:110 | After `insert(index, m)`, the list is the old one with just `m` added at `InsertPosition(index, n)`. |
| `LlamaLite.MessageList.Append` | llamalite.py:124 | After `append(m)`, the list is the old one followed by `m`. |
| `LlamaLite.Chat` | llamalite.py:106-131 | There is no request exactly when `kwargs` holds `messages` or `stream`, which Python refuses as a repeated keyword of the `create` call. Otherwise the request's messages are `AssembleMessages` of the caller's history contents. Its model is the given model and `stream` is false. Its options are the caller's keyword map as given, with none of the keys `model`, `messages` or `stream`. No pre-existing object changes, the caller's list included. |
| `DataUri.ParseBuild` | llamalite.py:120 | Parsing a data URI built from a media type without `;` and a payload gives back that media type and payload. |
| `DataUri.BuildParse` | llamalite.py:120 | Every URI that parses is the URI built from its parsed media type and payload. |
| `ChatProperties.InsertedSystemLeads` | llamalite.py:106-110 | With a truthy system prompt and no system message in the history, the result is two messages longer than the history. Its first message is `{role: system, content: system_prompt}`, and the history follows unchanged and in order. |
| `ChatProperties.HistoryIsPrefix` | llamalite.py:106-109 | With no system prompt, an empty one, or a history that already has a system message, nothing is inserted. The result is one message longer than the history and the history is its exact prefix, with nothing replaced or deduplicated. |
| `ChatProperties.UserMessageLast` | llamalite.py:113-124 | The last message has role `user` and list content. Its first part is `{type: text, text: prompt}` and it has one `image_url` part per image, in order. Each URL is `data:image/jpeg;base64,` followed by that image's base64 text, and parses back to exactly that. |
| `ChatProperties.CountRoleConcat` | llamalite.py:124 | The count of messages with a role is additive over concatenation, as when the user message is appended. |
| `ChatProperties.SystemCount` | llamalite.py:109-110 | The result holds as many system messages as the history, plus one exactly when one is inserted. |
| `ChatProperties.SystemOnlyFirstPreserved` | llamalite.py:106-124 | If no history message after the first has role `system`, the same holds of the result. |
| `ChatProperties.SystemOnlyFirstReflected` | llamalite.py:106-124 | If no message after the first in the result has role `system`, the same holds of the history. |
| `ChatProperties.SystemNotAlwaysFirst` | llamalite.py:109 | For the history `[user, system]` with a system prompt, the result has a system message at index 1. |
| `ChatProperties.PayloadDecodesToSavedBytes` | llamalite.py:62-68 | If base64 decoding inverts encoding, decoding an image URL's payload gives exactly the bytes the image was saved as. |
| `ChatProperties.MediaTypeIgnoresFormat` | llamalite.py:120 | Images that differ only in their format tag get URLs with the same media type, `image/jpeg`. |
| `ChatProperties.ScenarioSystemPromptOnly` | llamalite.py:106-124 | Prompt "Hi" with system prompt "Be terse" and no history gives `[system "Be terse", user [text "Hi"]]`. |
| `ChatProperties.ScenarioFollowUp` | llamalite.py:106-124 | A follow-up on `[system, user, assistant]` gives that history unchanged plus one user message: four messages. |
| `ChatProperties.ScenarioTwoImages` | llamalite.py:113-124 | Prompt "Describe" with two images gives the text part and then the two image parts in the given order. |
| `ChatProperties.ChatLeavesHistory` | llamalite.py:106 | After `Chat` with no extra keywords, the caller's list holds the same messages as before. A request is made and contains them contiguously, at index 1 when a system message was inserted and at index 0 otherwise. |
| `ChatProperties.StreamKeywordRefused` | llamalite.py:127-131 | `chat(prompt, stream=True)` makes no request, because `stream` would be given twice to `create`. |

## Left out

- The constructor of `LlamaLiteClient` (llamalite.py:23-45) is not modelled. It builds the `httpx` and `OpenAI` clients with their connection limits and placeholder key, which is foreign network set-up. For the same reason `Chat` is a module-level method rather than a member of a class.
- The call to `chat.completions.create` and the completion it returns (llamalite.py:127-134) are network I/O. `Chat` returns the request record that would be passed instead.
- Saving the image with PIL into a `BytesIO` and the base64 encoding (llamalite.py:62-68) are library calls. They are the `save` and `b64encode` functions of an `Encoder` value, and their internals are not modelled.
- The transport's own checks of its keyword arguments (llamalite.py:127-131) are not modelled. `create` also raises `TypeError` for a keyword it does not accept, and `Chat` returns a request for any `kwargs` that repeats neither `messages` nor `stream`.
- LlamaLite.Chat: takes `Encoder.save` to be total. PIL raises when asked to write a format it can read but not write, and the model does not capture that error.
- Transport exceptions and the `KeyError` for a history message without `"role"` (llamalite.py:109) are not modelled. Every `Message` has a role by construction.
- History messages are modelled as a role and a string or part-list content. Other keys and other content values a caller's dictionaries may hold are not represented. Because `copy()` is shallow, the message dictionaries are shared with the caller. The model treats messages as values, which is equivalent here because nothing changes a message.
- The values of the keyword options are a type parameter, so `Chat` forwards them without looking at them. Their meaning belongs to the transport.
- The `__main__` demonstration block (llamalite.py:136-205) only prints, handles files and makes network calls.
