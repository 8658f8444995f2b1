/** The username screen: redirect when a name is stored, and joining. */
module UsernameScreen {
  import opened Wrappers
  import opened JsString
  import Nav = Navigation
  import Host

  class Screen {
    const device: Host.Device
    /** The draft name in the text input. */
    var username: string

    constructor (device: Host.Device)
      ensures this.device == device && username == ""
    {
      this.device := device;
      username := "";
    }

    /** `onChangeText={setUsername}`. */
    method EditDraft(text: string)
      modifies this`username
      ensures username == text
    {
      username := text;
    }

    /** The mount effect: a truthy stored name navigates straight to its chat room. */
    method CheckStoredUsername()
      modifies device`stack
      ensures Truthy(device.store) ==>
        device.stack == old(device.stack) + [Nav.ChatRoom(device.store.value)]
      ensures !Truthy(device.store) ==> device.stack == old(device.stack)
    {
      var stored := device.store;
      if Truthy(stored) {
        device.stack := device.stack + [Nav.ChatRoom(stored.value)];
      }
    }

    /**
     * `handleJoinChat`: a blank draft does nothing; otherwise the untrimmed
     * draft is stored and becomes the chat room's param.
     */
    method HandleJoinChat()
      modifies device`store, device`stack
      ensures username == old(username)
      ensures IsBlank(username) ==>
        device.store == old(device.store) && device.stack == old(device.stack)
      ensures !IsBlank(username) ==>
        device.store == Some(username)
        && device.stack == old(device.stack) + [Nav.ChatRoom(username)]
      ensures device.outbox == old(device.outbox)
    {
      if !IsBlank(username) {
        device.store := Some(username);
        device.stack := device.stack + [Nav.ChatRoom(username)];
      }
    }
  }
}
