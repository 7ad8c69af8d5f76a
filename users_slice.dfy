/**
 * The users slice: its state and the reducer cases for the fetch, add, update
 * and remove thunks, each one synchronous in-place step.
 */
module UsersSlice {
  import opened Common
  import opened Thunks
  import opened Entities

  /** The lifecycle actions of the four user thunks. */
  datatype UsersAction =
    | Fetch(fetched: Phase<seq<User>>)
    | Add(added: Phase<User>)
    | Update(updated: Phase<User>)
    | Remove(removed: Phase<string>)

  /** The slice has no case for these actions, so they leave the state as it is. */
  predicate Ignored(action: UsersAction) {
    match action
    case Fetch(_) => false
    case Add(phase) => !phase.Fulfilled?
    case Update(phase) => !phase.Fulfilled?
    case Remove(phase) => !phase.Fulfilled?
  }

  class UsersState {
    var items: seq<User>
    var loading: bool
    var error: Option<string>

    /** `initialState` */
    constructor ()
      ensures items == [] && !loading && error == None
    {
      items, loading, error := [], false, None;
    }

    /** `fetchUsers.pending` */
    method FetchPending()
      modifies this
      ensures loading && error == None && items == old(items)
    {
      loading := true;
      error := None;
    }

    /** `fetchUsers.fulfilled` */
    method FetchFulfilled(payload: seq<User>)
      modifies this
      ensures items == payload && !loading && error == old(error)
    {
      items := payload;
      loading := false;
    }

    /** `fetchUsers.rejected` */
    method FetchRejected(message: string)
      modifies this
      ensures !loading && error == Some(message) && items == old(items)
    {
      loading := false;
      error := Some(message);
    }

    /** `addUser.fulfilled` */
    method AddFulfilled(user: User)
      modifies this
      ensures |items| == |old(items)| + 1
      ensures items[..|old(items)|] == old(items) && items[|old(items)|] == user
      ensures loading == old(loading) && error == old(error)
    {
      items := items + [user];
    }

    /** `updateUser.fulfilled`: only the first user with the payload's id changes. */
    method UpdateFulfilled(user: User)
      modifies this
      ensures |items| == |old(items)|
      ensures (forall j :: 0 <= j < |old(items)| ==> old(items)[j].id != user.id) ==> items == old(items)
      ensures forall i :: FirstUserWithId(old(items), i, user.id) ==> items == old(items)[i := user]
      ensures forall j :: 0 <= j < |items| ==> items[j].id == old(items)[j].id
      ensures loading == old(loading) && error == old(error)
    {
      var index := UserIndex(items, user.id);
      if index != -1 {
        items := items[index := user];
      }
    }

    /** `removeUser.fulfilled` */
    method RemoveFulfilled(id: string)
      modifies this
      ensures items == UsersWithout(old(items), id)
      ensures loading == old(loading) && error == old(error)
    {
      items := UsersWithout(items, id);
    }

    /** The slice reducer: routes an action to its case; actions without a case change nothing. */
    method Reduce(action: UsersAction)
      modifies this
      ensures action == Fetch(Pending) ==> loading && error == None && items == old(items)
      ensures action.Fetch? && action.fetched.Fulfilled? ==>
                items == action.fetched.payload && !loading && error == old(error)
      ensures action.Fetch? && action.fetched.Rejected? ==>
                !loading && error == Some(action.fetched.message) && items == old(items)
      ensures action.Add? && action.added.Fulfilled? ==>
                items == old(items) + [action.added.payload] && loading == old(loading) && error == old(error)
      ensures action.Update? && action.updated.Fulfilled? &&
              (forall j :: 0 <= j < |old(items)| ==> old(items)[j].id != action.updated.payload.id) ==>
                items == old(items)
      ensures action.Update? && action.updated.Fulfilled? ==>
                |items| == |old(items)| &&
                (forall j :: 0 <= j < |items| ==> items[j].id == old(items)[j].id) &&
                (forall i :: FirstUserWithId(old(items), i, action.updated.payload.id) ==>
                   items == old(items)[i := action.updated.payload]) &&
                loading == old(loading) && error == old(error)
      ensures action.Remove? && action.removed.Fulfilled? ==>
                items == UsersWithout(old(items), action.removed.payload) &&
                loading == old(loading) && error == old(error)
      ensures Ignored(action) ==> items == old(items) && loading == old(loading) && error == old(error)
    {
      match action
      case Fetch(Pending) => FetchPending();
      case Fetch(Fulfilled(payload)) => FetchFulfilled(payload);
      case Fetch(Rejected(message)) => FetchRejected(message);
      case Add(Fulfilled(user)) =>
        AddFulfilled(user);
        assert items == old(items) + [user];
      case Update(Fulfilled(user)) => UpdateFulfilled(user);
      case Remove(Fulfilled(id)) => RemoveFulfilled(id);
      case _ =>
    }
  }
}
