/** The `users` slice of the app-wide store (store/users.js): an array that
    `setUserInfo` appends to. Every reader in the app looks at element 0
    only (`state.users?.[0]?.userInfo`). */
module UsersStore {
  import opened Wrappers

  /** One pushed entry, `{ userInfo: payload }`. */
  datatype UserEntry<T> = UserEntry(userInfo: T)

  /** What the readers see: the payload of element 0, if any. */
  function CurrentUser<T>(state: seq<UserEntry<T>>): (u: Option<T>)
    ensures u.None? <==> state == []
    ensures u.Some? ==> u.value == state[0].userInfo
  {
    if state == [] then None else Some(state[0].userInfo)
  }

  /** The state after pushing each payload in turn. */
  function PushAll<T>(state: seq<UserEntry<T>>, payloads: seq<T>): (s: seq<UserEntry<T>>)
    ensures |s| == |state| + |payloads|
    ensures s[..|state|] == state
    ensures forall i :: 0 <= i < |payloads| ==> s[|state| + i] == UserEntry(payloads[i])
    decreases |payloads|
  {
    if payloads == [] then state
    else PushAll(state + [UserEntry(payloads[0])], payloads[1..])
  }

  /** Once something is in the store, later setUserInfo calls never change
      what readers see; starting empty, readers see the first payload ever
      pushed. */
  lemma {:induction false} CurrentUserSticks<T>(state: seq<UserEntry<T>>, payloads: seq<T>)
    ensures state != [] ==> CurrentUser(PushAll(state, payloads)) == CurrentUser(state)
    ensures state == [] && payloads != [] ==> CurrentUser(PushAll(state, payloads)) == Some(payloads[0])
    decreases |payloads|
  {
    if payloads != [] {
      var next := state + [UserEntry(payloads[0])];
      CurrentUserSticks(next, payloads[1..]);
      assert next[0] == if state == [] then UserEntry(payloads[0]) else state[0];
    }
  }

  /** The action creators the module exports by name. Only setUserInfo has
      a reducer; checkUser and setActiveUser name reducers that are
      commented out, so they are undefined. */
  datatype Action = SetUserInfo

  function ExportedAction(name: string): (a: Option<Action>)
    ensures a.Some? <==> name == "setUserInfo"
  {
    if name == "setUserInfo" then Some(SetUserInfo) else None
  }

  class UsersSlice<T> {
    var state: seq<UserEntry<T>>

    /** `initialState: []`. */
    constructor ()
      ensures state == []
    {
      state := [];
    }

    /** The setUserInfo reducer: `state.push({ userInfo: payload })`. */
    method SetUserInfo(payload: T)
      modifies this
      ensures state == old(state) + [UserEntry(payload)]
      ensures |state| == |old(state)| + 1 && state[|state| - 1].userInfo == payload
      ensures old(state) != [] ==> CurrentUser(state) == CurrentUser(old(state))
    {
      state := state + [UserEntry(payload)];
    }
  }
}
