/**
 * `UserProvider`: the admin's list of users with its `loading` and `error`
 * flags. Each operation is given the outcome of its request.
 */
module UserContext {
  import opened Js
  import opened Lists
  import opened Net

  /** `e?.response?.data?.error || e.message`: what a failure records. */
  function RecordedError(serverError: JsVal, message: string): (r: JsVal)
    ensures Truthy(serverError) ==> r == serverError
    ensures !Truthy(serverError) ==> r == Str(message)
    ensures !Nullish(r)
  {
    if Truthy(serverError) then serverError else Str(message)
  }

  /** `data.role ?? data.rol`: the role a successful update reports. */
  function ReportedRole(data: JsVal): JsVal {
    Coalesce(Get(data, "role"), Get(data, "rol"))
  }

  class UserProvider {
    var users: seq<JsVal>
    var loading: bool
    var error: JsVal

    constructor ()
      ensures users == [] && !loading && error == Null
    {
      users := [];
      loading := false;
      error := Null;
    }

    /** `getUsers()`: an array reply replaces the list, any other reply
        empties it, and so does a failure, which also records the error. */
    method GetUsers(reply: Reply)
      modifies this
      ensures !loading
      ensures reply.Ok? ==> users == AsArray(reply.data) && error == old(error)
      ensures reply.Failed? ==> users == [] && error == RecordedError(reply.serverError, reply.message)
    {
      loading := true;
      match reply {
        case Ok(data) =>
          users := AsArray(data);
        case Failed(serverError, message) =>
          error := RecordedError(serverError, message);
          users := [];
      }
      loading := false;
    }

    /** `addUser(newUser)`: the created record is appended; a failure is
        swallowed after recording it. */
    method AddUser(newUser: JsVal, reply: Reply)
      modifies this
      ensures !loading
      ensures reply.Ok? ==> users == old(users) + [reply.data] && error == old(error)
      ensures reply.Failed? ==> users == old(users) && error == RecordedError(reply.serverError, reply.message)
    {
      loading := true;
      match reply {
        case Ok(data) =>
          users := users + [data];
        case Failed(serverError, message) =>
          error := RecordedError(serverError, message);
      }
      loading := false;
    }

    /** `editUser(id, updated)`: every element with that id becomes the
        returned record. */
    method EditUser(id: JsVal, updated: JsVal, reply: Reply)
      modifies this
      ensures !loading
      ensures reply.Ok? ==> users == ReplaceById(old(users), id, reply.data) && error == old(error)
      ensures reply.Failed? ==> users == old(users) && error == RecordedError(reply.serverError, reply.message)
    {
      loading := true;
      match reply {
        case Ok(data) =>
          users := ReplaceById(users, id, data);
        case Failed(serverError, message) =>
          error := RecordedError(serverError, message);
      }
      loading := false;
    }

    /** `deleteUser(id)`: the elements with that id are dropped; `loading`
        is not touched. */
    method DeleteUser(id: JsVal, reply: Reply)
      modifies this
      ensures loading == old(loading)
      ensures reply.Ok? ==> users == RemoveById(old(users), id) && error == old(error)
      ensures reply.Failed? ==> users == old(users) && error == RecordedError(reply.serverError, reply.message)
    {
      match reply {
        case Ok(_) =>
          users := RemoveById(users, id);
        case Failed(serverError, message) =>
          error := RecordedError(serverError, message);
      }
    }

    /** `updateUserRole(id, role)`: the matching elements get the role the
        server reports and keep their other fields; the reply's data is
        returned, a failure is rethrown (`thrown`). */
    method UpdateUserRole(id: JsVal, role: JsVal, reply: Reply) returns (thrown: bool, result: JsVal)
      modifies this
      ensures !loading
      ensures thrown <==> reply.Failed?
      ensures reply.Ok? ==>
                && result == reply.data
                && users == SetRoleById(old(users), id, ReportedRole(reply.data))
                && error == old(error)
      ensures reply.Failed? ==> users == old(users) && error == RecordedError(reply.serverError, reply.message)
    {
      loading := true;
      match reply {
        case Ok(data) =>
          users := SetRoleById(users, id, ReportedRole(data));
          thrown, result := false, data;
        case Failed(serverError, message) =>
          error := RecordedError(serverError, message);
          thrown, result := true, Undefined;
      }
      loading := false;
    }
  }
}
