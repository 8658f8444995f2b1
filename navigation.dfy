/**
 * The stack navigator's route table: `Username` takes no params and
 * `ChatRoom` takes a `username`, whose initial value is the empty string.
 */
module Navigation {
  datatype RouteName = UsernameRoute | ChatRoomRoute

  /** A route together with its params. */
  datatype Route = Username | ChatRoom(username: string)

  function NameOf(r: Route): RouteName {
    match r
    case Username => UsernameRoute
    case ChatRoom(_) => ChatRoomRoute
  }

  /** The `initialParams` given to the `ChatRoom` screen. */
  const DefaultChatRoomUsername: string := ""

  /** The route a name denotes when it is entered with its initial params. */
  function WithInitialParams(name: RouteName): (r: Route)
    ensures NameOf(r) == name
    ensures r.ChatRoom? ==> r.username == DefaultChatRoomUsername
  {
    match name
    case UsernameRoute => Username
    case ChatRoomRoute => ChatRoom(DefaultChatRoomUsername)
  }
}
