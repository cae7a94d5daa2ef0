/** The updates of the routes, one after the other. */
module Updates {
  import opened Bytes
  import opened Routing

  datatype Update<+S> =
    | Subscribed(filter: bytes, sub: Subscription<S>)
    | Unsubscribed(filter: bytes, client: bytes)
    | Dropped(client: bytes)

  ghost function Apply<S>(routes: Routes<S>, u: Update<S>): Routes<S> {
    match u
    case Subscribed(f, sub) => routes[(f, sub.client) := sub]
    case Unsubscribed(f, c) => routes - {(f, c)}
    case Dropped(c) => Without(routes, c)
  }

  /** The routes after a run of updates, starting from none. */
  ghost function Fold<S>(us: seq<Update<S>>): Routes<S> {
    if us == [] then map[] else Apply(Fold(us[..|us| - 1]), us[|us| - 1])
  }

  lemma FoldNext<S>(us: seq<Update<S>>, u: Update<S>)
    ensures Fold(us + [u]) == Apply(Fold(us), u)
  {
    assert (us + [u])[..|us|] == us;
  }
}
