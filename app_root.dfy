/**
 * The root component: the initial route chosen from the stored name, and
 * the launch sequences that combine it with the two screens.
 */
module AppRoot {
  import opened Wrappers
  import opened JsString
  import opened Navigation
  import Host
  import ChatRoomScreen
  import UsernameScreen
  import MessageFormat
  import Backend

  class App {
    const device: Host.Device
    var initialRoute: RouteName

    constructor (device: Host.Device)
      ensures this.device == device && initialRoute == UsernameRoute
    {
      this.device := device;
      initialRoute := UsernameRoute;
    }

    /** The mount effect: a truthy stored name switches the initial route to `ChatRoom`. */
    method CheckStoredUsername()
      modifies this`initialRoute
      ensures Truthy(device.store) ==> initialRoute == ChatRoomRoute
      ensures !Truthy(device.store) ==> initialRoute == old(initialRoute)
    {
      var stored := device.store;
      if Truthy(stored) {
        initialRoute := ChatRoomRoute;
      }
    }

    /** The navigator's first stack: the initial route with its initial params. */
    function InitialStack(): (s: seq<Route>)
      reads this
      ensures |s| == 1 && NameOf(s[0]) == initialRoute
      ensures s[0].ChatRoom? ==> s[0].username == DefaultChatRoomUsername
    {
      [WithInitialParams(initialRoute)]
    }
  }

  /** Boot: the first stack is `[ChatRoom("")]` when a name is stored and `[Username]` otherwise. */
  method Launch(device: Host.Device) returns (stack: seq<Route>)
    modifies device`stack
    ensures device.stack == stack
    ensures Truthy(device.store) ==> stack == [ChatRoom(DefaultChatRoomUsername)]
    ensures !Truthy(device.store) ==> stack == [Username]
  {
    var app := new App(device);
    app.CheckStoredUsername();
    stack := app.InitialStack();
    device.stack := stack;
  }

  /**
   * Boot into the chat room: although the route carries the empty default
   * param, the room's `loadUsername` picks up the stored name.
   */
  method LaunchIntoChatRoom(device: Host.Device, os: MessageFormat.OS) returns (username: Option<string>)
    modifies device`stack
    ensures device.stack == if Truthy(device.store) then [ChatRoom(DefaultChatRoomUsername)] else [Username]
    ensures username.Some? <==> Truthy(device.store)
    ensures username.Some? ==> username.value == device.store.value
  {
    var stack := Launch(device);
    if stack[0].ChatRoom? {
      var room := new ChatRoomScreen.Screen(device, stack[0].username, os);
      room.LoadUsername();
      username := Some(room.username);
    } else {
      username := None;
    }
  }

  /** Leaving the chat room and relaunching always lands on `Username`. */
  method ResetThenRelaunch(room: ChatRoomScreen.Screen) returns (stack: seq<Route>)
    modifies room.device`store, room.device`stack
    ensures room.device.store == None
    ensures stack == [Username] && room.device.stack == stack
  {
    room.HandleResetToUsername();
    stack := Launch(room.device);
  }

  /**
   * Joining with a non-blank name and relaunching lands on `ChatRoom`, which
   * then shows that name; a blank join changes nothing, so the relaunch
   * depends on what was stored before.
   */
  method JoinThenRelaunch(screen: UsernameScreen.Screen, os: MessageFormat.OS) returns (username: Option<string>)
    modifies screen.device`store, screen.device`stack
    ensures !IsBlank(screen.username) ==>
      screen.device.store == Some(screen.username) && username == Some(screen.username)
      && screen.device.stack == [ChatRoom(DefaultChatRoomUsername)]
    ensures IsBlank(screen.username) ==>
      screen.device.store == old(screen.device.store)
      && (username.Some? <==> Truthy(old(screen.device.store)))
      && screen.device.stack ==
        if Truthy(old(screen.device.store)) then [ChatRoom(DefaultChatRoomUsername)] else [Username]
  {
    screen.HandleJoinChat();
    NonBlankIsTruthy(screen.username);
    username := LaunchIntoChatRoom(screen.device, os);
  }

  /**
   * A fresh install: boot on `Username`, where the mount check finds nothing,
   * then join with `name`. A non-blank name is stored and its chat room is
   * pushed above `Username`; a blank one leaves the boot stack alone.
   */
  method LaunchThenJoin(device: Host.Device, name: string) returns (joined: bool)
    modifies device`store, device`stack
    ensures !Truthy(old(device.store)) && !IsBlank(name) ==>
      joined && device.store == Some(name) && device.stack == [Username, ChatRoom(name)]
    ensures !Truthy(old(device.store)) && IsBlank(name) ==>
      !joined && device.store == old(device.store) && device.stack == [Username]
    ensures Truthy(old(device.store)) ==>
      !joined && device.store == old(device.store)
      && device.stack == [ChatRoom(DefaultChatRoomUsername)]
  {
    var stack := Launch(device);
    joined := false;
    if stack[0] == Username {
      var screen := new UsernameScreen.Screen(device);
      screen.CheckStoredUsername();
      screen.EditDraft(name);
      screen.HandleJoinChat();
      joined := !IsBlank(name);
    }
  }

  /**
   * Sending and then receiving the backend's echo of that insert: the new
   * last item is the user's own, right-aligned, without a name label, and
   * shows the sent draft formatted for the platform.
   */
  method SendThenEcho(room: ChatRoomScreen.Screen, now: string, id: string)
    requires room.Valid() && !IsBlank(room.message)
    modifies room, room.device`outbox
    ensures |room.Rendered()| > 0
    ensures var v := room.Rendered()[|room.Rendered()| - 1];
      v.alignment == ChatRoomScreen.Right && v.nameLabel.None?
      && v.text == MessageFormat.FormatMessageContent(old(room.message), room.os)
  {
    room.HandleSendMessage(now, false);
    var request := room.device.outbox[|room.device.outbox| - 1];
    room.OnInsert(Backend.Message(id, request.username, request.content, request.createdAt));
    assert room.messages[|room.messages| - 1].username == room.username;
  }
}
