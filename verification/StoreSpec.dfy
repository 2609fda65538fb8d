/**
 The channel store seen as one atomic object: a relation from channel names to sets of users,
 and for every call the answer it gives and the relation it leaves behind.
 */
module StoreSpec {

  datatype Error =
    | EmptyChannelName
    | ChannelDoesNotExist
    | ChannelAlreadyExists
    | UserNotInChannel
    | UserAlreadyInChannel
    | MessageNotSent

  datatype Outcome = Ok | Err(error: Error)

  type Relation<H> = map<string, set<H>>

  /**
   `Leave` is a user's own request, `Evict` the removal a disconnect runs on the user's behalf; both are
   RemoveUserFromChannel. `Present` is IsUserPresentIn. `user` is the user whose goroutine makes the call.
   */
  datatype Kind = Create | Join | Leave | Evict | Present

  datatype Op<+H> = Op(kind: Kind, name: string, user: H)

  predicate Member<H(==)>(r: Relation<H>, name: string, user: H) {
    name in r && user in r[name]
  }

  function Result<H(==)>(r: Relation<H>, op: Op<H>): Outcome {
    match op.kind
    case Create =>
      if op.name == "" then Err(EmptyChannelName)
      else if op.name in r then Err(ChannelAlreadyExists)
      else Ok
    case Present =>
      if op.name != "" && Member(r, op.name, op.user) then Ok else Err(UserNotInChannel)
    case Join =>
      if op.name == "" then Err(EmptyChannelName)
      else if op.name !in r then Err(ChannelDoesNotExist)
      else if op.user in r[op.name] then Err(UserAlreadyInChannel)
      else Ok
    case _ =>
      if op.name == "" then Err(EmptyChannelName)
      else if op.name !in r then Err(ChannelDoesNotExist)
      else if op.user !in r[op.name] then Err(UserNotInChannel)
      else Ok
  }

  function After<H(==)>(r: Relation<H>, op: Op<H>): Relation<H> {
    if Result(r, op) != Ok then r else
    match op.kind
    case Create => r[op.name := {}]
    case Join => r[op.name := r[op.name] + {op.user}]
    case Present => r
    case _ => r[op.name := r[op.name] - {op.user}]
  }
}
