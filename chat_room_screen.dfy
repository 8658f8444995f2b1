/**
 * The chat room: the message list fed by a bulk load and by insert events,
 * the draft and its input-box height, sending, and leaving the room.
 * Each `await` in a handler is one atomic step of the method modelling it.
 */
module ChatRoomScreen {
  import opened Wrappers
  import opened JsString
  import opened Backend
  import opened MessageFormat
  import Nav = Navigation
  import Host

  /** Height of one line of the input box. */
  const LineHeight: real := 40.0
  /** The input box starts, and returns after each send, at one line. */
  const InitialInputHeight: real := LineHeight
  /** The input box grows to at most eight lines. */
  const MaxInputHeight: real := LineHeight * 8.0

  /** `Math.min(contentHeight, maxHeight)`. */
  function ClampHeight(contentHeight: real): (h: real)
    ensures h <= MaxInputHeight && h <= contentHeight
    ensures h == contentHeight || h == MaxInputHeight
  {
    if contentHeight <= MaxInputHeight then contentHeight else MaxInputHeight
  }

  /** A message is the user's own when its sender name equals the current username. */
  predicate IsMine(item: Message, username: string): (b: bool)
    ensures b <==> item.username == username
  {
    item.username == username
  }

  datatype Alignment = Left | Right

  /** What `renderItem` lays out for one message (the `HH:mm` text itself is not modelled). */
  datatype MessageView = MessageView(
    alignment: Alignment,
    nameLabel: Option<string>,
    timestampBeforeBubble: bool,
    text: string)

  /**
   * Own messages sit on the right with the time before the bubble and no name;
   * others sit on the left, labelled with the sender, time after the bubble.
   */
  function RenderItem(item: Message, username: string, os: OS): (v: MessageView)
    ensures v.alignment == Right <==> IsMine(item, username)
    ensures v.nameLabel.Some? <==> !IsMine(item, username)
    ensures v.nameLabel.Some? ==> v.nameLabel.value == item.username
    ensures v.timestampBeforeBubble <==> IsMine(item, username)
    ensures v.text == FormatMessageContent(item.content, os)
  {
    var mine := item.username == username;
    MessageView(
      if mine then Right else Left,
      if mine then None else Some(item.username),
      mine,
      FormatMessageContent(item.content, os))
  }

  /** The list shows one view per message, in the order of the message list. */
  function RenderList(messages: seq<Message>, username: string, os: OS): (vs: seq<MessageView>)
    ensures |vs| == |messages|
    ensures forall i :: 0 <= i < |messages| ==> vs[i] == RenderItem(messages[i], username, os)
  {
    seq(|messages|, i requires 0 <= i < |messages| => RenderItem(messages[i], username, os))
  }

  class Screen {
    const device: Host.Device
    const os: OS
    /** `route.params.username`. */
    const initialUsername: string
    var username: string
    var messages: seq<Message>
    /** The draft. */
    var message: string
    var inputHeight: real

    ghost predicate Valid()
      reads this
    {
      inputHeight <= MaxInputHeight
    }

    constructor (device: Host.Device, params: string, os: OS)
      ensures Valid()
      ensures this.device == device && this.os == os && initialUsername == params
      ensures username == params && messages == [] && message == ""
      ensures inputHeight == InitialInputHeight
    {
      this.device := device;
      this.os := os;
      initialUsername := params;
      username := params;
      messages := [];
      message := "";
      inputHeight := InitialInputHeight;
    }

    /** `loadUsername`: the stored name wins over the route param when it is truthy. */
    method LoadUsername()
      modifies this`username
      ensures Truthy(device.store) ==> username == device.store.value
      ensures !Truthy(device.store) ==> username == initialUsername
    {
      var stored := device.store;
      if Truthy(stored) {
        username := stored.value;
      } else {
        username := initialUsername;
      }
    }

    /** The INSERT subscription callback: the new row goes at the end. */
    method OnInsert(newMessage: Message)
      modifies this`messages
      ensures |messages| == |old(messages)| + 1
      ensures messages[..|old(messages)|] == old(messages)
      ensures messages[|old(messages)|] == newMessage
    {
      messages := messages + [newMessage];
    }

    /**
     * `loadMessages`: a response without error and with data replaces the
     * whole list (an empty array is data too); otherwise the error is only
     * logged and the list stays as it was.
     */
    method LoadMessages(response: FetchResponse)
      modifies this`messages
      ensures response.error.Some? ==> messages == old(messages)
      ensures response.error.None? && response.data.None? ==> messages == old(messages)
      ensures response.error.None? && response.data.Some? ==> messages == response.data.value
    {
      if response.error.Some? {
        return;
      }
      if response.data.Some? {
        messages := response.data.value;
      }
    }

    /** `onChangeText={setMessage}`. */
    method EditDraft(text: string)
      modifies this`message
      ensures message == text
    {
      message := text;
    }

    /**
     * `handleSendMessage`: a blank draft is ignored. Otherwise one insert
     * carrying the current username, the untrimmed draft and `now` is issued,
     * and the draft and height are reset whatever the insert's outcome; the
     * message list is left to the subscription.
     */
    method HandleSendMessage(now: string, insertFailed: bool)
      requires Valid()
      modifies this`message, this`inputHeight, device`outbox
      ensures Valid()
      ensures messages == old(messages) && username == old(username)
      ensures IsBlank(old(message)) ==>
        message == old(message) && inputHeight == old(inputHeight)
        && device.outbox == old(device.outbox)
      ensures !IsBlank(old(message)) ==>
        device.outbox == old(device.outbox) + [InsertRequest(username, old(message), now)]
        && message == "" && inputHeight == InitialInputHeight
    {
      if !IsBlank(message) {
        device.outbox := device.outbox + [InsertRequest(username, message, now)];
        // A failed insert (insertFailed) is only logged.
        message := "";
        inputHeight := InitialInputHeight;
      }
    }

    /** `handleContentSizeChange`: the box follows the content up to eight lines. */
    method HandleContentSizeChange(contentWidth: real, contentHeight: real)
      modifies this`inputHeight
      ensures Valid()
      ensures inputHeight == ClampHeight(contentHeight)
    {
      inputHeight := ClampHeight(contentHeight);
    }

    /** `handleResetToUsername`: forget the name and make `Username` the only route. */
    method HandleResetToUsername()
      modifies device`store, device`stack
      ensures device.store == None
      ensures device.stack == [Nav.Username]
      ensures device.outbox == old(device.outbox)
    {
      device.store := None;
      device.stack := [Nav.Username];
    }

    /** The hardware back button: reset, and report the event as handled. */
    method BackAction() returns (handled: bool)
      modifies device`store, device`stack
      ensures handled
      ensures device.store == None
      ensures device.stack == [Nav.Username]
      ensures device.outbox == old(device.outbox)
    {
      HandleResetToUsername();
      handled := true;
    }

    /** What the `FlatList` shows for the current state. */
    function Rendered(): (vs: seq<MessageView>)
      reads this
      ensures |vs| == |messages|
      ensures forall i :: 0 <= i < |messages| ==>
        (vs[i].alignment == Right <==> messages[i].username == username)
    {
      RenderList(messages, username, os)
    }
  }
}
