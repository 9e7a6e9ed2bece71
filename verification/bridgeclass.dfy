/** The bridge as an object: every method takes the step that the run model takes. */
module BridgeClass {
  import opened Text
  import opened Bridge

  /** `approve` returns false, returns true, or throws. */
  datatype Answer = Unknown | Answered | Throws

  class KernelBridge {
    var process: Process
    var nextId: int
    var pending: map<int, string>
    var outcomes: map<int, Outcome>
    var asked: nat
    var approvals: map<string, Approval>
    var cache: map<string, string>
    var sent: seq<Out>
    var events: seq<Event>
    /** What has happened so far. */
    ghost var history: seq<Input>

    function Now(): State
      reads this
    {
      State(process, nextId, pending, outcomes, asked, approvals, cache, sent, events)
    }

    /** The object is where the run of its history leads. */
    ghost predicate Valid()
      reads this
    {
      Now() == Run(history)
    }

    constructor ()
      ensures Valid() && Now() == INITIAL
    {
      process, nextId, pending, outcomes := Unstarted, 1, map[], map[];
      asked, approvals, cache, sent, events := 0, map[], map[], [], [];
      history := [];
    }

    ghost method Record(i: Input)
      requires Now() == Step(Run(history), i)
      modifies `history
      ensures Valid() && history == old(history) + [i]
    {
      RunLast(history, i);
      history := history + [i];
    }

    method Emit(e: Event)
      modifies `events
      ensures events == old(events) + [e]
    {
      events := events + [e];
    }

    /** A promise takes only the first outcome. */
    method Settle(id: int, o: Outcome)
      modifies `outcomes
      ensures outcomes == Settled(old(outcomes), id, o)
    {
      if id !in outcomes {
        outcomes := outcomes[id := o];
      }
    }

    method Start()
      requires Valid()
      modifies this
      ensures Valid() && history == old(history) + [Spawn]
    {
      process := Alive;
      Record(Spawn);
    }

    /** The process is killed; what is pending stays pending. */
    method Shutdown()
      requires Valid()
      modifies this
      ensures Valid() && history == old(history) + [Input.Shutdown]
      ensures process == if old(process) == Alive then Killed else old(process)
      ensures pending == old(pending) && outcomes == old(outcomes) && approvals == old(approvals)
    {
      if process == Alive {
        process := Killed;
      }
      Record(Input.Shutdown);
    }

    method Request(verb: string) returns (id: Option<int>)
      requires Valid()
      modifies this
      ensures Valid() && history == old(history) + [Input.Request(verb)]
      ensures id == if old(process) == Unstarted then None else Some(old(nextId))
    {
      if process == Unstarted {
        id := None;
      } else {
        id := Some(nextId);
        nextId := nextId + 1;
        pending := pending[id.value := verb];
        if process == Alive {
          sent := sent + [Call(id.value, verb)];
        } else {
          Settle(id.value, SendFailed);
        }
      }
      Record(Input.Request(verb));
    }

    /** The timer of a request goes off; a cleared timer never does. */
    method Timeout(id: int)
      requires Valid() && id in pending
      modifies this
      ensures Valid() && history == old(history) + [Input.Timeout(id)]
    {
      pending := pending - {id};
      Settle(id, TimedOut);
      Record(Input.Timeout(id));
    }

    method HandleMessage(m: Message)
      requires Valid()
      modifies this
      ensures Valid() && history == old(history) + [Incoming(m)]
    {
      if m.id != NoId && (m.result != Missing || m.error != Missing) {
        HandleResponse(m);
      } else if m.verb.Truthy? && m.id != NoId {
        HandleServerRequest(m);
      } else if m.verb.Truthy? {
        match m.notice {
          case ItemNotice(item, phase) => HandleItem(item, phase);
          case OtherNotice(text) => Emit(Shown(text));
        }
      }
      Record(Incoming(m));
    }

    method HandleResponse(m: Message)
      modifies `pending, `outcomes
      ensures Now() == Responded(old(Now()), m)
    {
      if m.id.Number? && m.id.n in pending {
        pending := pending - {m.id.n};
        if m.error.Truthy? {
          Settle(m.id.n, Rejected(m.error.text));
        } else {
          Settle(m.id.n, Resolved(m.result));
        }
      }
    }

    method HandleServerRequest(m: Message)
      modifies `events, `approvals, `asked
      ensures Now() == AskedFor(old(Now()), m)
    {
      Emit(PermissionRequest(IdText(m.id)));
      approvals := approvals[IdText(m.id) := Approval(asked, m.id)];
      asked := asked + 1;
    }

    /** The entry is gone before the reply is sent, which throws if the process is not running. */
    method Approve(id: string, allow: bool) returns (r: Answer)
      requires Valid()
      modifies this
      ensures Valid() && history == old(history) + [Input.Approve(id, allow)]
      ensures r == if id !in old(approvals) then Unknown else if process == Alive then Answered else Throws
      ensures id !in approvals && process == old(process)
    {
      if id !in approvals {
        r := Unknown;
      } else {
        var entry := approvals[id];
        approvals := approvals - {id};
        Emit(PermissionResolved(id, allow));
        if process == Alive {
          sent := sent + [Reply(entry.serial, entry.id, allow)];
          r := Answered;
        } else {
          r := Throws;
        }
      }
      Record(Input.Approve(id, allow));
    }

    method HandleItem(item: Item, phase: Phase)
      modifies `events, `cache
      ensures Now() == OnItem(old(Now()), item, phase)
    {
      var id := ItemId(item);
      if item.kind == Command {
        if id !in cache {
          cache := cache[id := BASH];
          Emit(ToolStart(id, BASH, item.text));
        } else if phase == Completed {
          Emit(ToolEnd(id, BASH, item.succeeded, First(item.text, MAX_COMMAND_OUTPUT)));
          cache := cache - {id};
        }
      } else if IsTool(item.kind) {
        var name := ToolName(item);
        if phase == Started {
          cache := cache[id := name];
          Emit(ToolStart(id, name, item.text));
        } else {
          Emit(ToolEnd(id, name, true, First(item.text, MAX_OUTPUT)));
          cache := cache - {id};
        }
      } else if item.kind == ErrorItem || (item.kind == AgentMessage && phase == Completed) {
        Emit(Shown(item.text));
      }
    }

    /** What holds of the object at any time, whatever was called before. */
    lemma AlwaysSafe()
      requires Valid()
      ensures RequestsOk(Now()) && ApprovalsOk(Now()) && ItemsOk(Now(), SharedIds(history))
    {
      RequestsAlwaysOk(history);
      AnsweredOnce(history);
      ToolEventsAlternate(history);
    }
  }
}
