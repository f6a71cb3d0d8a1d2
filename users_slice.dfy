/** The admin users slice of the store: a loading flag and the user list,
    driven by the three outcomes of the fetch-all-users request. The role
    update and delete requests have no cases, so they leave the slice alone. */
module AdminUsersSlice {
  import Catalog

  /** The three outcomes an asynchronous request goes through. */
  datatype Phase = Pending | Fulfilled(data: seq<Catalog.User>) | Rejected

  /** The actions the slice sees. */
  datatype UsersAction =
    | FetchAllUsers(phase: Phase)
    | UpdateUserRole(phase: Phase)
    | DeleteUser(phase: Phase)

  datatype UsersState = UsersState(isLoading: bool, userList: seq<Catalog.User>)

  const InitialState: UsersState := UsersState(false, [])

  /** The reducer, case by case. */
  function Reduce(s: UsersState, action: UsersAction): (r: UsersState)
    ensures action == FetchAllUsers(Pending) ==> r == s.(isLoading := true)
    ensures action.FetchAllUsers? && action.phase.Fulfilled? ==> r == UsersState(false, action.phase.data)
    ensures action == FetchAllUsers(Rejected) ==> r == UsersState(false, [])
    ensures !action.FetchAllUsers? ==> r == s
  {
    match action
    case FetchAllUsers(Pending) => s.(isLoading := true)
    case FetchAllUsers(Fulfilled(data)) => UsersState(false, data)
    case FetchAllUsers(Rejected) => UsersState(false, [])
    case _ => s
  }

  /** The state after the actions, in order. */
  function Run(s: UsersState, actions: seq<UsersAction>): UsersState
    decreases |actions|
  {
    if actions == [] then s else Run(Reduce(s, actions[0]), actions[1..])
  }

  /** The fetch actions of a run, in order. */
  function FetchActions(actions: seq<UsersAction>): (r: seq<UsersAction>)
    ensures |r| <= |actions|
    ensures forall a :: a in r <==> a in actions && a.FetchAllUsers?
    decreases |actions|
  {
    if actions == [] then []
    else
      assert actions == [actions[0]] + actions[1..];
      (if actions[0].FetchAllUsers? then [actions[0]] else []) + FetchActions(actions[1..])
  }

  /** Role updates and deletions can be dropped from any run without changing
      where it ends. */
  lemma {:induction false} OnlyFetchesMatter(s: UsersState, actions: seq<UsersAction>)
    ensures Run(s, actions) == Run(s, FetchActions(actions))
    decreases |actions|
  {
    if actions != [] {
      OnlyFetchesMatter(Reduce(s, actions[0]), actions[1..]);
      var f := FetchActions(actions);
      if actions[0].FetchAllUsers? {
        assert f == [actions[0]] + FetchActions(actions[1..]);
        assert f[0] == actions[0] && f[1..] == FetchActions(actions[1..]);
        assert Run(s, f) == Run(Reduce(s, f[0]), f[1..]);
      } else {
        assert f == FetchActions(actions[1..]);
      }
    }
  }

  /** Whatever came before, a fetch that starts and then succeeds leaves the
      fetched list and no loading flag; one that fails leaves an empty list. */
  lemma FetchSettles(s: UsersState, data: seq<Catalog.User>)
    ensures Run(s, [FetchAllUsers(Pending), FetchAllUsers(Fulfilled(data))]) == UsersState(false, data)
    ensures Run(s, [FetchAllUsers(Pending), FetchAllUsers(Rejected)]) == UsersState(false, [])
    ensures Run(s, [FetchAllUsers(Pending)]).isLoading && Run(s, [FetchAllUsers(Pending)]).userList == s.userList
  {
    var loading := Reduce(s, FetchAllUsers(Pending));
    var ok := [FetchAllUsers(Pending), FetchAllUsers(Fulfilled(data))];
    assert ok[1..] == [FetchAllUsers(Fulfilled(data))];
    assert Run(loading, ok[1..]) == Run(UsersState(false, data), []);
    var failed := [FetchAllUsers(Pending), FetchAllUsers(Rejected)];
    assert failed[1..] == [FetchAllUsers(Rejected)];
    assert Run(loading, failed[1..]) == Run(UsersState(false, []), []);
  }

  /** The slice as the store holds it, updated in place by each case. */
  class AdminUsersState {
    var isLoading: bool
    var userList: seq<Catalog.User>

    constructor ()
      ensures isLoading == InitialState.isLoading && userList == InitialState.userList
    {
      isLoading := false;
      userList := [];
    }

    function State(): UsersState
      reads this
    {
      UsersState(isLoading, userList)
    }

    /** One action, handled by the case the slice registers for it. */
    method Dispatch(action: UsersAction)
      modifies this
      ensures State() == Reduce(old(State()), action)
    {
      match action {
        case FetchAllUsers(Pending) =>
          isLoading := true;
        case FetchAllUsers(Fulfilled(data)) =>
          isLoading := false;
          userList := data;
        case FetchAllUsers(Rejected) =>
          isLoading := false;
          userList := [];
        case _ =>
      }
    }
  }
}
