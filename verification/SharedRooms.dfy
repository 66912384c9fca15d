/** Rooms whose boards share one table: each keeps its own history and its viewers in step. */
module SharedRooms {
  import opened Edits
  import opened Histories
  import opened Pulls
  import opened BoardMachine
  import opened RoomMachine
  import opened Viewers
  import opened Sharing

  /** The rooms differ at most in the rows of other boards. */
  ghost predicate SameRoom(publicId: Uuid, owner: Uuid -> Uuid, s: RoomState, s': RoomState) {
    s' == s.(board := s'.board) && SameView(publicId, owner, s.board, s'.board)
  }

  /** The room handles the message, and other rooms write before, during and after it. */
  ghost predicate SharedNext(
    config: Config, publicId: Uuid, owner: Uuid -> Uuid, s: RoomState, msg: UserMessage, s': RoomState)
  {
    exists between :: Next(config, publicId, s, msg, between) && SameRoom(publicId, owner, between, s')
  }

  ghost predicate SharedTaskRun(
    config: Config, publicId: Uuid, owner: Uuid -> Uuid, states: seq<RoomState>, msgs: seq<UserMessage>)
  {
    && |states| == |msgs| + 1
    && forall k :: 0 <= k < |msgs| ==>
         states[k].running && SharedNext(config, publicId, owner, states[k], msgs[k], states[k + 1])
  }

  ghost predicate OwnCalls(calls: seq<Call>, board: Uuid, owner: Uuid -> Uuid) {
    forall call <- calls :: OwnCall(call, board, owner)
  }

  /** Every message names ids of the room's board only. */
  ghost predicate OwnMessages(msgs: seq<UserMessage>, board: Uuid, owner: Uuid -> Uuid) {
    forall k :: 0 <= k < |msgs| ==> OwnCalls(CallsOf(msgs[k]), board, owner)
  }

  // One message

  lemma {:induction false} ForeignRun(p: Plain, q: Plain, calls: seq<Call>, board: Uuid, owner: Uuid -> Uuid)
    requires SameButForeign(p, q, board, owner) && RunOk(p, calls) && OwnCalls(calls, board, owner)
    ensures RunOk(q, calls) && SameButForeign(PlainRun(p, calls), PlainRun(q, calls), board, owner)
    decreases |calls|
  {
    hide SameButForeign, CallOk, OwnCall, PlainStep;
    if calls != [] {
      ForeignStep(p, q, calls[0], board, owner);
      ForeignRun(PlainStep(p, calls[0]).0, PlainStep(q, calls[0]).0, calls[1..], board, owner);
    }
  }

  lemma {:induction false} RunKeepsTargets(
    config: Config, board: Uuid, owner: Uuid -> Uuid, s: BoardState, calls: seq<Call>)
    requires OwnTargets(s.queue, board, owner) && OwnCalls(calls, board, owner)
    ensures OwnTargets(BoardRun(config, board, s, calls).queue, board, owner)
    decreases |calls|
  {
    hide OwnTargets, OwnCall, BoardStep;
    if calls != [] {
      StepKeepsTargets(config, board, owner, s, calls[0]);
      RunKeepsTargets(config, board, owner, BoardStep(config, board, s, calls[0]).0, calls[1..]);
    }
  }

  lemma {:induction false} NextKeepsTargets(
    config: Config, publicId: Uuid, owner: Uuid -> Uuid, s: RoomState, msg: UserMessage, s': RoomState)
    requires s.running && Next(config, publicId, s, msg, s')
    requires OwnTargets(s.board.queue, publicId, owner) && OwnCalls(CallsOf(msg), publicId, owner)
    ensures OwnTargets(s'.board.queue, publicId, owner)
  {
    RunKeepsTargets(config, publicId, owner, s.board, CallsOf(msg));
    hide OwnTargets, OwnCalls, BoardRun, IsPullOf, Meaning;
    assert OwnTargets([], publicId, owner) by {
      NoTargets([], publicId, owner);
    }
    if !msg.PullMsg? {
      BoardAfterOthers(s.(board := BoardRun(config, publicId, s.board, CallsOf(msg))), publicId, msg);
    }
  }

  lemma {:induction false} NoTargets(queue: seq<QueueOp>, board: Uuid, owner: Uuid -> Uuid)
    requires queue == []
    ensures OwnTargets(queue, board, owner)
  {
  }

  lemma {:induction false} BoardAfterOthers(s: RoomState, publicId: Uuid, msg: UserMessage)
    requires !msg.PullMsg?
    ensures Others(s, publicId, msg).board == s.board || Others(s, publicId, msg).board == Flush(s.board, publicId)
  {
  }

  /** A room on a shared table: the board keeps standing for the plain history, and the viewer in step with it. */
  lemma {:induction false} SharedNextSyncs(
    config: Config, publicId: Uuid, owner: Uuid -> Uuid, s: RoomState, p: Plain, msg: UserMessage, s': RoomState,
    user: UserId)
    requires s.running && SharedNext(config, publicId, owner, s, msg, s') && config.queueSize >= 1
    requires StandsFor(config, publicId, owner, s.board, p)
    requires RunOk(p, CallsOf(msg)) && OwnCalls(CallsOf(msg), publicId, owner)
    requires InSync(s, user, p.h) && ViewerMessage(s, msg, user)
    ensures StandsFor(config, publicId, owner, s'.board, PlainRun(p, CallsOf(msg)))
    ensures InSync(s', user, PlainRun(p, CallsOf(msg)).h)
  {
    var between :| Next(config, publicId, s, msg, between) && SameRoom(publicId, owner, between, s');
    var q :| SameButForeign(p, q, publicId, owner) && Represents(config, publicId, s.board, q);
    assert q.h == p.h;
    ForeignRun(p, q, CallsOf(msg), publicId, owner);
    assert PlainRun(q, CallsOf(msg)).h == PlainRun(p, CallsOf(msg)).h;
    hide Next, SameButForeign, Represents, OwnCalls, RunOk, CallsOf, PlainRun, InSync, ViewerMessage, SameView;
    hide KeepsReplica;
    NextSyncs(config, publicId, s, q, msg, between, user);
    NextKeepsTargets(config, publicId, owner, s, msg, between);
    assert StandsFor(config, publicId, owner, between.board, PlainRun(p, CallsOf(msg)));
    hide StandsFor;
    StillStands(config, publicId, owner, between.board, s'.board, PlainRun(p, CallsOf(msg)));
    SameUsers(publicId, owner, between, s', user, PlainRun(p, CallsOf(msg)).h);
  }

  lemma {:induction false} SameUsers(
    publicId: Uuid, owner: Uuid -> Uuid, s: RoomState, s': RoomState, user: UserId, h: History)
    requires SameRoom(publicId, owner, s, s') && InSync(s, user, h)
    ensures InSync(s', user, h)
  {
    hide SameView, Replica;
  }

  // Runs

  lemma {:induction false} SharedPrefix(
    config: Config, publicId: Uuid, owner: Uuid -> Uuid, states: seq<RoomState>, msgs: seq<UserMessage>, p: Plain)
    requires SharedTaskRun(config, publicId, owner, states, msgs) && msgs != []
    requires MessagesOk(p, msgs) && OwnMessages(msgs, publicId, owner)
    ensures var last := |msgs| - 1;
            && SharedTaskRun(config, publicId, owner, states[..|msgs|], msgs[..last])
            && MessagesOk(p, msgs[..last]) && OwnMessages(msgs[..last], publicId, owner)
            && RunOk(PlainAfter(p, msgs[..last]), CallsOf(msgs[last]))
            && OwnCalls(CallsOf(msgs[last]), publicId, owner)
            && states[last].running && SharedNext(config, publicId, owner, states[last], msgs[last], states[|msgs|])
  {
    hide RunOk, SharedNext, CallsOf, PlainAfter, OwnCalls;
    assert forall k :: 0 <= k < |msgs| ==> msgs[..|msgs| - 1][..k] == msgs[..k];
  }

  /**
   * Replica agreement on a shared table. While other rooms write to the same table at any time, a room's board
   * stands for the plain history of its messages, and a viewer that has pulled holds exactly its two lists.
   */
  lemma {:induction false} SharedViewerAgreement(
    config: Config, publicId: Uuid, owner: Uuid -> Uuid, states: seq<RoomState>, msgs: seq<UserMessage>, p: Plain,
    user: UserId)
    requires SharedTaskRun(config, publicId, owner, states, msgs) && config.queueSize >= 1
    requires MessagesOk(p, msgs) && OwnMessages(msgs, publicId, owner)
    requires StandsFor(config, publicId, owner, states[0].board, p) && InSync(states[0], user, p.h)
    requires forall k :: 0 <= k < |msgs| ==> ViewerMessage(states[k], msgs[k], user)
    ensures StandsFor(config, publicId, owner, states[|msgs|].board, PlainAfter(p, msgs))
    ensures InSync(states[|msgs|], user, Meaning(states[|msgs|].board, publicId))
    decreases |msgs|
  {
    hide StandsFor, SharedNext, ViewerMessage, RunOk, CallsOf, Meaning, InSync;
    if msgs != [] {
      var last := |msgs| - 1;
      var q, s := PlainAfter(p, msgs[..last]), states[last];
      SharedPrefix(config, publicId, owner, states, msgs, p);
      SharedViewerAgreement(config, publicId, owner, states[..|msgs|], msgs[..last], p, user);
      StandsMeaning(config, publicId, owner, s.board, q);
      SharedNextSyncs(config, publicId, owner, s, q, msgs[last], states[|msgs|], user);
    }
    StandsMeaning(config, publicId, owner, states[|msgs|].board, PlainAfter(p, msgs));
  }
}
