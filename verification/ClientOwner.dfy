/**
 The code of the managed client (nwep/runtime.py:309-434) in its own imperative form: the
 methods of AsyncClient, the two future setters and the owner thread's loop with its drain.
 Each method performs actions of ClientBridge, so everything proved there about runs holds
 of the objects here.
 */
module ClientOwner {
  import opened Mailbox
  import opened ClientBridge

  /** What the tasks do before the owner's next atomic step, and how the C client will answer it. */
  datatype Turn = Turn(others: seq<TaskAction>, tickOk: bool, outcome: Outcome)

  class Bridge {
    var queue: seq<Command<Request>>
    var closed: bool
    var futures: seq<Future<Outcome>>
    var inbox: seq<Callback<Outcome>>
    var clientOpen: bool
    var script: seq<Turn>
    var turn: Turn
    ghost var model: State
    ghost var trace: seq<Action>

    /** The object's history is a run of the transition system, and its fields are that run's. */
    ghost predicate Valid()
      reads this
    {
      && Runs(Init(), trace) && Run(Init(), trace) == model
      && queue == model.box.queue && futures == model.box.futures && inbox == model.box.inbox
      && closed == model.closed && clientOpen == model.thread.clientOpen
    }

    /** Where the owner thread is. */
    ghost function At(): Owner
      reads this
    {
      model.thread.owner
    }

    twostate predicate Did(a: Action)
      reads this
    {
      && Enabled(old(model), a)
      && model == Apply(old(model), a) && trace == old(trace) + [a]
      && script == old(script) && turn == old(turn)
    }

    /** Writes an action into the history. */
    ghost method Record(a: Action)
      requires Runs(Init(), trace) && Run(Init(), trace) == model && Enabled(model, a)
      modifies this`model, this`trace
      ensures Runs(Init(), trace) && Run(Init(), trace) == model
      ensures model == Apply(old(model), a) && trace == old(trace) + [a]
    {
      RunConcat(Init(), trace, [a]);
      model, trace := Apply(model, a), trace + [a];
    }

    lemma ValidIsInv()
      requires Valid()
      ensures Inv(model)
    {
      InvRun(Init(), trace);
    }

    constructor (script: seq<Turn>)
      ensures Valid() && model == Init() && this.script == script
    {
      queue, closed, futures, inbox, clientOpen := [], false, [], [], true;
      this.script := script;
      turn := Turn([], true, CLOSING_ERROR);
      model, trace := Init(), [];
    }

    /** AsyncClient.send up to its await: a token to wait on, or NetworkClosed raised. */
    method Send(request: Request) returns (raised: bool, token: nat)
      requires Valid()
      modifies this
      ensures Valid() && Did(Task(CallSend(request)))
      ensures raised == old(closed) && (raised ==> model == old(model))
      ensures !raised ==> token == |old(futures)| && futures == old(futures) + [Pending]
                          && queue == old(queue) + [Ask(token, request)]
    {
      raised, token := closed, 0;
      if !closed {
        token := |futures|;
        futures := futures + [Pending];
        queue := queue + [Ask(token, request)];
      }
      Record(Task(CallSend(request)));
    }

    /** AsyncClient.aclose up to its join. */
    method AClose()
      requires Valid()
      modifies this
      ensures Valid() && Did(Task(CallClose)) && closed
    {
      if !closed {
        closed := true;
        queue := queue + [Stop];
      }
      Record(Task(CallClose));
    }

    /** future.cancel() by whoever awaits it. */
    method CancelToken(token: nat)
      requires Valid() && token < |futures|
      modifies this
      ensures Valid() && Did(Task(Cancel(token)))
    {
      if futures[token].Pending? {
        futures := futures[token := Cancelled];
      }
      Record(Task(Cancel(token)));
    }

    /** The loop runs its oldest _resolve or _reject; the guard looks only at cancelled(). */
    method RunOneCallback()
      requires Valid() && inbox != []
      modifies this
      ensures Valid() && Did(Task(RunCallback))
      ensures !old(futures[inbox[0].token]).Settled?
    {
      ValidIsInv();
      RunHeadKeepsBox(model.box, Hand(At()));
      var cb := inbox[0];
      inbox := inbox[1..];
      if !futures[cb.token].Cancelled? {
        // asyncio raises InvalidStateError here if the future is done
        assert futures[cb.token].Pending?;
        futures := futures[cb.token := Settled(cb.answer)];
      }
      Record(Task(RunCallback));
    }

    /** Other tasks and the event loop run between two steps of the owner. */
    method Interfere(others: seq<TaskAction>)
      requires Valid()
      modifies this
      ensures Valid() && At() == old(At()) && script == old(script) && turn == old(turn)
    {
      for k := 0 to |others|
        invariant Valid() && At() == old(At()) && script == old(script) && turn == old(turn)
      {
        match others[k]
        case CallSend(request) => var _, _ := Send(request);
        case CallClose => AClose();
        case Cancel(token) => if token < |futures| { CancelToken(token); }
        case RunCallback => if inbox != [] { RunOneCallback(); }
      }
    }

    /** Lets the others run; false when the observed part of the run ends here. */
    method NextTurn() returns (more: bool)
      requires Valid()
      modifies this
      ensures Valid() && At() == old(At())
      ensures more <==> old(script) != []
      ensures if more then |script| < |old(script)| else script == old(script)
    {
      more := script != [];
      if more {
        turn := script[0];
        script := script[1..];
        Interfere(turn.others);
      }
    }

    /** commands.get: Empty after its timeout, or the head of the queue. */
    method Get() returns (empty: bool, cmd: Command<Request>)
      requires Valid() && At().Waiting?
      modifies this
      ensures Valid() && empty == (old(queue) == [])
      ensures if empty then Did(Own(OwnerTimeout)) else Did(Own(OwnerGet)) && cmd == old(queue)[0]
      ensures !empty && cmd.Stop? ==> closed && queue == []
    {
      ValidIsInv();
      empty, cmd := queue == [], Stop;
      ghost var step := if empty then OwnerTimeout else OwnerGet;
      if !empty {
        QueueHead(model.box, |model.box.answers|);
        cmd := queue[0];
        queue := queue[1..];
      }
      Record(Own(step));
    }

    /** commands.get_nowait inside _drain_pending. */
    method GetNowait() returns (empty: bool, cmd: Command<Request>)
      requires Valid() && At().Draining?
      modifies this
      ensures Valid() && empty == (old(queue) == [])
      ensures if empty then Did(Own(DrainEmpty)) else Did(Own(DrainGet)) && cmd == old(queue)[0]
    {
      empty, cmd := queue == [], Stop;
      ghost var step := if empty then DrainEmpty else DrainGet;
      if !empty {
        cmd := queue[0];
        queue := queue[1..];
      }
      Record(Own(step));
    }

    /** client.tick while idle; a raise leaves the loop. */
    method TickClient() returns (ok: bool)
      requires Valid() && At().Idle?
      modifies this
      ensures Valid() && Did(Own(OwnerTick(ok))) && old(clientOpen) && ok == old(turn.tickOk)
    {
      ValidIsInv();
      ok := turn.tickOk;
      Record(Own(OwnerTick(ok)));
    }

    /** client.send, returning or raising. */
    method SendOnClient(cmd: Command<Request>) returns (outcome: Outcome)
      requires Valid() && cmd.Ask? && At() == Serving(cmd.token, cmd.query)
      modifies this
      ensures Valid() && Did(Own(OwnerCall(outcome))) && old(clientOpen) && outcome == old(turn.outcome)
    {
      ValidIsInv();
      outcome := turn.outcome;
      Record(Own(OwnerCall(outcome)));
    }

    /** loop.call_soon_threadsafe. */
    method CallSoon(cb: Callback<Outcome>)
      requires Valid() && (At() == Posting(cb) || At() == Rejecting(cb))
      modifies this
      ensures Valid() && Did(Own(if old(At().Posting?) then OwnerPost else DrainPost))
    {
      ghost var step := if At().Posting? then OwnerPost else DrainPost;
      inbox := inbox + [cb];
      Record(Own(step));
    }

    method CloseClient()
      requires Valid() && At().Closing?
      modifies this
      ensures Valid() && Did(Own(OwnerClose)) && old(clientOpen)
    {
      ValidIsInv();
      clientOpen := false;
      Record(Own(OwnerClose));
    }

    /** _drain_pending; false when the observed run stops inside it. */
    method DrainPending() returns (drained: bool)
      requires Valid() && At().Draining?
      modifies this
      ensures Valid()
      ensures drained ==> At().Closing? && |model.box.answers| == |futures|
      ensures !drained ==> script == []
    {
      drained := false;
      while true
        invariant Valid() && At().Draining?
        decreases |script|
      {
        var more := NextTurn();
        if !more { return; }
        var empty, cmd := GetNowait();
        if empty {
          ValidIsInv();
          return true;
        }
        if cmd.Ask? {
          more := NextTurn();
          if !more { return; }
          CallSoon(Callback(cmd.token, CLOSING_ERROR));
        }
      }
    }

    /** The step that ends a pass and the loop: the stop mark taken, or an idle tick that raised. */
    ghost predicate LeftBy(a: Action)
      reads this
    {
      a == Own(OwnerTick(false)) || (a == Own(OwnerGet) && closed && queue == [])
    }

    /** The step that ends a pass and lets the loop go on: an idle tick that returned, or an answer handed over. */
    predicate GoesOn(a: Action) {
      a == Own(OwnerTick(true)) || a == Own(OwnerPost)
    }

    /** One pass of the service loop; left when the loop is to be left, by break or by a raise. */
    method ServeOnce() returns (observed: bool, left: bool)
      requires Valid() && At().Waiting?
      modifies this
      ensures Valid() && (!observed ==> script == [])
      ensures observed ==> |script| < |old(script)| && if left then At().Draining? else At().Waiting?
      ensures observed ==> trace != [] && if left then LeftBy(trace[|trace| - 1]) else GoesOn(trace[|trace| - 1])
    {
      left := false;
      observed := NextTurn();
      if !observed { return; }
      var empty, cmd := Get();
      if empty {
        observed := NextTurn();
        if observed {
          var ok := TickClient();
          left := !ok;
        }
      } else if cmd.Stop? {
        left := true;
      } else {
        observed := ServeCommand(cmd);
      }
    }

    /** client.send for one command, and its outcome handed to the loop. */
    method ServeCommand(cmd: Command<Request>) returns (observed: bool)
      requires Valid() && cmd.Ask? && At() == Serving(cmd.token, cmd.query)
      modifies this
      ensures Valid() && |script| <= |old(script)| && (!observed ==> script == [])
      ensures observed ==> At().Waiting? && trace != [] && trace[|trace| - 1] == Own(OwnerPost)
    {
      observed := NextTurn();
      if !observed { return; }
      var outcome := SendOnClient(cmd);
      observed := NextTurn();
      if !observed { return; }
      CallSoon(Callback(cmd.token, outcome));
    }

    /** The owner thread's service loop; false when the observed run stops inside it. */
    method ServiceLoop() returns (left: bool)
      requires Valid() && At().Waiting?
      modifies this
      ensures Valid() && (!left ==> script == [])
      ensures left ==> At().Draining?
    {
      left := false;
      while !left
        invariant Valid() && if left then At().Draining? else At().Waiting?
        decreases if left then 0 else |script| + 1
      {
        var observed;
        observed, left := ServeOnce();
        if !observed { return false; }
      }
    }

    /**
     The owner thread from its first commands.get: the service loop, and the finally that
     drains and closes.  finished is false when the observed run stops part way.
     */
    method Owner() returns (finished: bool)
      requires Valid() && At().Waiting?
      modifies this
      ensures Valid() && !model.box.invalidState && (!finished ==> script == [])
      ensures finished ==> At().Finished? && !clientOpen
      ensures finished && !model.thread.faulted ==> |model.thread.calls| == |futures| && queue == []
    {
      finished := ServiceLoop();
      if finished {
        finished := DrainPending();
      }
      if finished {
        finished := NextTurn();
      }
      if finished {
        CloseClient();
      }
      ValidIsInv();
    }
  }
}
