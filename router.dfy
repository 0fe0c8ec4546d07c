/** The route table drawn at start-up (assets/app/app.js:213-216). */
module Router {
  import opened Wrappers

  /** The actions of the `contacts` controller. */
  datatype Action = Index | Show

  /** Where a token leads: a controller name and one of its actions. */
  datatype Route = Route(controller: string, action: Action)

  /** The token each action is connected under. */
  function TokenOf(action: Action): string {
    match action
    case Index => "list"
    case Show => "detail"
  }

  /** Resolves a route token. Only the two connected tokens resolve, both to
      the `contacts` controller, each to the action connected under it. */
  function Resolve(token: string): (r: Option<Route>)
    ensures r.Some? <==> token == "list" || token == "detail"
    ensures r.Some? ==> r.value.controller == "contacts" && TokenOf(r.value.action) == token
  {
    if token == "list" then Some(Route("contacts", Index))
    else if token == "detail" then Some(Route("contacts", Show))
    else None
  }

  /** Every action is reachable, under exactly one token. */
  lemma ResolveTokenOf(action: Action, token: string)
    ensures Resolve(TokenOf(action)) == Some(Route("contacts", action))
    ensures Resolve(token).Some? && Resolve(token).value.action == action ==> token == TokenOf(action)
  {
  }
}
