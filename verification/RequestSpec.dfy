/** What a user's request answers and what it does to the channels, on the store seen as one atomic object. */
module RequestSpec {
  import opened StoreSpec
  import opened Protocol

  predicate Handled(work: Work) {
    !work.Unhandled? && !work.Panic?
  }

  /** A creation is a join too. `accepts` is whether the message index takes a message. */
  function Answer<H(==)>(r: Relation<H>, user: H, work: Work, accepts: bool): Outcome
    requires Handled(work)
  {
    match work
    case DoCreate(name) =>
      var made := Result(r, Op(Create, name, user));
      if made != Ok then made else Result(After(r, Op(Create, name, user)), Op(Join, name, user))
    case DoJoin(name) => Result(r, Op(Join, name, user))
    case DoLeave(name) => Result(r, Op(Leave, name, user))
    case DoSend(name, _) =>
      if !Member(r, name, user) then Err(UserNotInChannel) else if accepts then Ok else Err(MessageNotSent)
  }

  function Effect<H(==)>(r: Relation<H>, user: H, work: Work): Relation<H>
    requires Handled(work)
  {
    match work
    case DoCreate(name) =>
      if Result(r, Op(Create, name, user)) != Ok then r
      else After(After(r, Op(Create, name, user)), Op(Join, name, user))
    case DoJoin(name) => After(r, Op(Join, name, user))
    case DoLeave(name) => After(r, Op(Leave, name, user))
    case DoSend(_, _) => r
  }

  /** The requests the actor has a branch for, with the payload that branch asserts. */
  predicate Answerable(action: string, payload: Payload) {
    || (action in {"create", "join", "leave"} && payload.ChannelRequest?)
    || (action == "send_message" && payload.SendMessageRequest?)
  }

  /** `outcome` and `after` are the answer to a request of `user` and the channels it leaves, on the channels before. */
  ghost predicate Fulfils<H>(before: Relation<H>, after: Relation<H>, user: H, action: string, payload: Payload,
                             accepts: bool, outcome: Outcome)
    requires Answerable(action, payload)
  {
    && (outcome != Ok ==> after == before)
    && (action == "create" ==>
          var name := payload.name;
          && (outcome == Ok <==> name != "" && name !in before)
          && (outcome == Err(EmptyChannelName) <==> name == "")
          && (outcome == Err(ChannelAlreadyExists) <==> name in before)
          && (outcome == Ok ==> after == before[name := {user}]))
    && (action == "join" ==>
          var name := payload.name;
          && (outcome == Ok <==> name in before && user !in before[name])
          && (outcome == Err(EmptyChannelName) <==> name == "")
          && (outcome == Err(ChannelDoesNotExist) <==> name != "" && name !in before)
          && (outcome == Err(UserAlreadyInChannel) <==> name in before && user in before[name])
          && (outcome == Ok ==> after == before[name := before[name] + {user}]))
    && (action == "leave" ==>
          var name := payload.name;
          && (outcome == Ok <==> name in before && user in before[name])
          && (outcome == Err(EmptyChannelName) <==> name == "")
          && (outcome == Err(ChannelDoesNotExist) <==> name != "" && name !in before)
          && (outcome == Err(UserNotInChannel) <==> name in before && user !in before[name])
          && (outcome == Ok ==> after == before[name := before[name] - {user}]))
    && (action == "send_message" ==>
          var name := payload.channel;
          && (outcome == Ok <==> name in before && user in before[name] && accepts)
          && (outcome == Err(UserNotInChannel) <==> !(name in before && user in before[name]))
          && (outcome == Err(MessageNotSent) <==> name in before && user in before[name] && !accepts)
          && after == before)
  }

  /** The work an action stands for fulfils the request. */
  lemma WorkFulfils<H>(r: Relation<H>, user: H, action: string, payload: Payload, accepts: bool)
    requires "" !in r
    ensures Accepted(action, payload) <==> Answerable(action, payload)
    ensures Answerable(action, payload) ==>
              var work := Dispatch(action, payload);
              Fulfils(r, Effect(r, user, work), user, action, payload, accepts, Answer(r, user, work, accepts))
  {
    DispatchMeaning(action, payload);
    if Answerable(action, payload) { RequestMeaning(r, user, Dispatch(action, payload), accepts); }
  }

  /**
   When a request succeeds and what it then does: a created channel has its creator as its only member, joins and
   leaves change the user's own membership and nothing else, only members send. A request that fails changes nothing.
   */
  lemma RequestMeaning<H>(r: Relation<H>, user: H, work: Work, accepts: bool)
    requires Handled(work) && "" !in r
    ensures Answer(r, user, work, accepts) != Ok ==> Effect(r, user, work) == r
    ensures work.DoCreate? ==>
              && (Answer(r, user, work, accepts) == Ok <==> work.name != "" && work.name !in r)
              && (Answer(r, user, work, accepts) == Ok ==> Effect(r, user, work) == r[work.name := {user}])
    ensures work.DoJoin? ==>
              && (Answer(r, user, work, accepts) == Ok <==> work.name in r && user !in r[work.name])
              && (Answer(r, user, work, accepts) == Ok ==>
                    Effect(r, user, work) == r[work.name := r[work.name] + {user}])
    ensures work.DoLeave? ==>
              && (Answer(r, user, work, accepts) == Ok <==> Member(r, work.name, user))
              && (Answer(r, user, work, accepts) == Ok ==>
                    Effect(r, user, work) == r[work.name := r[work.name] - {user}])
    ensures work.DoSend? ==>
              && (Answer(r, user, work, accepts) == Ok <==> Member(r, work.name, user) && accepts)
              && Effect(r, user, work) == r
  {
    if work.DoCreate? { assert {} + {user} == {user}; }
  }
}
