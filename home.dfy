/** What the two home screens share: the order in which their content is
    chosen and the greeting name. */
module Home {
  import opened Types

  /** The content area of a home screen. */
  datatype Content = Skeleton | ErrorState(message: Message) | NoBusAssigned | BusCardView(bus: Bus)

  /** A message is shown when it is a translation or non-empty text. */
  predicate Shown(error: Option<Message>) {
    error.Some? && (error.value.Key? || error.value.text != "")
  }

  /** renderContent (StudentHomeScreen.tsx:81-111, DriverHomeScreen.tsx:107-137):
      the skeleton while loading, then the error, then the empty state when
      no bus is assigned, then the bus card. */
  function RenderContent(isLoading: bool, error: Option<Message>, bus: Option<Bus>): (c: Content)
    ensures isLoading <==> c == Skeleton
    ensures !isLoading && Shown(error) ==> c == ErrorState(error.value)
    ensures c == NoBusAssigned <==> !isLoading && !Shown(error) && bus.None?
    ensures c.BusCardView? <==> !isLoading && !Shown(error) && bus.Some?
    ensures c.BusCardView? ==> c.bus == bus.value
  {
    if isLoading then Skeleton
    else if Shown(error) then ErrorState(error.value)
    else if bus.None? then NoBusAssigned
    else BusCardView(bus.value)
  }

  /** `user?.first_name || user?.username || fallback`
      (StudentHomeScreen.tsx:166, DriverHomeScreen.tsx:248). */
  function Greeting(user: Option<User>, fallback: string): (name: string)
    ensures user.Some? && user.value.firstName != "" ==> name == user.value.firstName
    ensures user.Some? && user.value.firstName == "" && user.value.username != "" ==> name == user.value.username
    ensures user.None? || (user.value.firstName == "" && user.value.username == "") ==> name == fallback
  {
    if user.Some? && user.value.firstName != "" then user.value.firstName
    else if user.Some? && user.value.username != "" then user.value.username
    else fallback
  }

  /** The greeting is never empty when the fallback is not. */
  lemma GreetingNonEmpty(user: Option<User>, fallback: string)
    requires fallback != ""
    ensures Greeting(user, fallback) != ""
  {
  }
}
