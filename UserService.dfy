/** The one user-service operation the booking core calls: a lookup by id. */
module UserService {
  import opened Exceptions
  import opened Entities

  const MsgUserNotFound := "User not found"

  /** `findUserById`: the stored user, or `EntityNotFoundException` when there is none. */
  function FindUserById(users: map<Id, User>, id: Id): (r: Result<User>)
    ensures r.Ok? <==> id in users
    ensures r.Ok? ==> r.value == users[id]
    ensures r.Err? ==> r.error == EntityNotFoundException(MsgUserNotFound)
  {
    if id in users then Ok(users[id]) else Err(EntityNotFoundException(MsgUserNotFound))
  }
}
