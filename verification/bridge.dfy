/** The JSON-RPC bridge between the user interface and the kernel process. */
module Bridge {
  import opened Text

  // ---- what crosses the wire

  /** A JSON value that may be missing, and whether it is truthy. */
  datatype Field = Missing | Falsy | Truthy(text: string)

  /** The `id` of a message with its string form; only numbers can equal a pending id. */
  datatype MsgId = NoId | Number(n: int, text: string) | OtherId(text: string)

  datatype Kind = AgentMessage | Reasoning | Command | FileChange | McpToolCall | WebSearch | ErrorItem | UnknownItem

  /** A thread item; an empty `id` or `tool` stands for one that is missing. */
  datatype Item = Item(kind: Kind, id: string, tool: string, text: string, succeeded: bool)

  datatype Phase = Started | Completed

  datatype Notice = ItemNotice(item: Item, phase: Phase) | OtherNotice(text: string)

  datatype Message = Message(id: MsgId, result: Field, error: Field, verb: Field, notice: Notice)

  datatype Outcome = Resolved(value: Field) | Rejected(error: string) | TimedOut | SendFailed

  datatype Out = Call(id: int, verb: string) | Reply(serial: nat, to: MsgId, allow: bool)

  datatype Event =
    | PermissionRequest(id: string) | PermissionResolved(id: string, allow: bool)
    | ToolStart(id: string, name: string, input: string) | ToolEnd(id: string, name: string, ok: bool, output: string)
    | Shown(text: string)

  /** A stored approval, numbered by arrival. */
  datatype Approval = Approval(serial: nat, id: MsgId)

  datatype Process = Unstarted | Alive | Killed

  datatype State = State(
    process: Process, nextId: int, pending: map<int, string>, outcomes: map<int, Outcome>,
    asked: nat, approvals: map<string, Approval>, cache: map<string, string>,
    sent: seq<Out>, events: seq<Event>)

  const INITIAL := State(Unstarted, 1, map[], map[], 0, map[], map[], [], [])

  const BASH := "bash"
  const MAX_COMMAND_OUTPUT := 2500
  const MAX_OUTPUT := 2000

  // ---- requests

  /** A promise keeps the first outcome it is given. */
  function Settled(outcomes: map<int, Outcome>, id: int, o: Outcome): map<int, Outcome> {
    if id in outcomes then outcomes else outcomes[id := o]
  }

  /** Without a process the call is rejected before it takes an id. */
  function Requested(s: State, verb: string): State {
    if s.process == Unstarted then s
    else
      var id := s.nextId;
      var t := s.(nextId := id + 1, pending := s.pending[id := verb]);
      if s.process == Alive then t.(sent := s.sent + [Call(id, verb)])
      else t.(outcomes := Settled(s.outcomes, id, SendFailed))
  }

  function Expired(s: State, id: int): State {
    s.(pending := s.pending - {id}, outcomes := Settled(s.outcomes, id, TimedOut))
  }

  function OutcomeOf(m: Message): Outcome {
    if m.error.Truthy? then Rejected(m.error.text) else Resolved(m.result)
  }

  function Responded(s: State, m: Message): State {
    if !m.id.Number? || m.id.n !in s.pending then s
    else s.(pending := s.pending - {m.id.n}, outcomes := Settled(s.outcomes, m.id.n, OutcomeOf(m)))
  }

  // ---- approvals

  function IdText(id: MsgId): string {
    match id
    case NoId => ""
    case Number(_, t) => t
    case OtherId(t) => t
  }

  function AskedFor(s: State, m: Message): State {
    s.(events := s.events + [PermissionRequest(IdText(m.id))],
       approvals := s.approvals[IdText(m.id) := Approval(s.asked, m.id)],
       asked := s.asked + 1)
  }

  function Approved(s: State, id: string, allow: bool): State {
    if id !in s.approvals then s
    else
      var a := s.approvals[id];
      s.(approvals := s.approvals - {id}, events := s.events + [PermissionResolved(id, allow)],
         sent := if s.process == Alive then s.sent + [Reply(a.serial, a.id, allow)] else s.sent)
  }

  // ---- items

  function First(text: string, max: nat): string {
    if |text| <= max then text else text[..max]
  }

  function KindText(kind: Kind): string {
    match kind
    case Command => "cmd"
    case FileChange => "fileChange"
    case McpToolCall => "mcpToolCall"
    case WebSearch => "webSearch"
    case _ => ""
  }

  function ItemId(item: Item): string {
    if item.id != "" then item.id else KindText(item.kind)
  }

  function ToolName(item: Item): string {
    match item.kind
    case FileChange => "edit_file"
    case WebSearch => "web_search"
    case _ => if item.tool != "" then item.tool else "mcp_tool"
  }

  predicate IsTool(kind: Kind) {
    kind.FileChange? || kind.McpToolCall? || kind.WebSearch?
  }

  function CommandItem(s: State, item: Item, id: string, phase: Phase): State {
    if id !in s.cache then
      s.(cache := s.cache[id := BASH], events := s.events + [ToolStart(id, BASH, item.text)])
    else if phase == Completed then
      s.(cache := s.cache - {id}, events := s.events + [ToolEnd(id, BASH, item.succeeded, First(item.text, MAX_COMMAND_OUTPUT))])
    else s
  }

  function ToolItem(s: State, item: Item, id: string, name: string, phase: Phase): State {
    if phase == Started then
      s.(cache := s.cache[id := name], events := s.events + [ToolStart(id, name, item.text)])
    else
      s.(cache := s.cache - {id}, events := s.events + [ToolEnd(id, name, true, First(item.text, MAX_OUTPUT))])
  }

  function OnItem(s: State, item: Item, phase: Phase): State {
    if item.kind == Command then CommandItem(s, item, ItemId(item), phase)
    else if IsTool(item.kind) then ToolItem(s, item, ItemId(item), ToolName(item), phase)
    else if item.kind == ErrorItem || (item.kind == AgentMessage && phase == Completed) then
      s.(events := s.events + [Shown(item.text)])
    else s
  }

  // ---- one step

  predicate IsResponse(m: Message) {
    m.id != NoId && (m.result != Missing || m.error != Missing)
  }

  /** A request of the kernel, which is always for an approval. */
  predicate IsAsk(m: Message) {
    !IsResponse(m) && m.verb.Truthy? && m.id != NoId
  }

  predicate IsItem(m: Message) {
    m.id == NoId && m.verb.Truthy? && m.notice.ItemNotice?
  }

  function Notified(s: State, notice: Notice): State {
    match notice
    case ItemNotice(item, phase) => OnItem(s, item, phase)
    case OtherNotice(text) => s.(events := s.events + [Shown(text)])
  }

  function Handled(s: State, m: Message): State {
    if IsResponse(m) then Responded(s, m)
    else if IsAsk(m) then AskedFor(s, m)
    else if m.verb.Truthy? then Notified(s, m.notice)
    else s
  }

  datatype Input =
    | Spawn | Shutdown | Request(verb: string) | Timeout(id: int)
    | Incoming(message: Message) | Approve(approval: string, allow: bool)

  /** A timer fires only while its request is pending: every path that forgets a request
      clears or has used up its timer. */
  function Step(s: State, i: Input): State {
    match i
    case Spawn => s.(process := Alive)
    case Shutdown => if s.process == Alive then s.(process := Killed) else s
    case Request(m) => Requested(s, m)
    case Timeout(id) => if id in s.pending then Expired(s, id) else s
    case Incoming(m) => Handled(s, m)
    case Approve(id, allow) => Approved(s, id, allow)
  }

  function Run(inputs: seq<Input>): State {
    if inputs == [] then INITIAL else Step(Run(inputs[..|inputs| - 1]), inputs[|inputs| - 1])
  }

  // ---- requests settle once

  /** Ids are handed out in order; each is pending or settled, and it is both only after
      its message could not be sent. */
  ghost predicate RequestsOk(s: State) {
    && s.nextId >= 1
    && (forall id :: 1 <= id < s.nextId <==> id in s.pending || id in s.outcomes)
    && (forall id :: id in s.pending && id in s.outcomes ==> s.outcomes[id] == SendFailed)
  }

  ghost predicate Kept(before: map<int, Outcome>, after: map<int, Outcome>) {
    forall id :: id in before ==> id in after && after[id] == before[id]
  }

  lemma RequestKeeps(s: State, m: string)
    requires RequestsOk(s)
    ensures RequestsOk(Requested(s, m)) && Kept(s.outcomes, Requested(s, m).outcomes)
  {
  }

  lemma ForgetKeeps(s: State, id: int, o: Outcome)
    requires RequestsOk(s) && id in s.pending
    ensures var t := s.(pending := s.pending - {id}, outcomes := Settled(s.outcomes, id, o));
            RequestsOk(t) && Kept(s.outcomes, t.outcomes)
  {
  }

  predicate SameRequests(s: State, t: State) {
    s.nextId == t.nextId && s.pending == t.pending && s.outcomes == t.outcomes
  }

  lemma CommandFrame(s: State, item: Item, id: string, phase: Phase)
    ensures var t := CommandItem(s, item, id, phase); SameRequests(s, t) && SameApprovals(s, t)
  {
  }

  lemma ToolFrame(s: State, item: Item, id: string, name: string, phase: Phase)
    ensures var t := ToolItem(s, item, id, name, phase); SameRequests(s, t) && SameApprovals(s, t)
  {
  }

  lemma NoticeFrame(s: State, notice: Notice)
    ensures SameRequests(s, Notified(s, notice)) && SameApprovals(s, Notified(s, notice))
  {
    if notice.ItemNotice? {
      var item := notice.item;
      CommandFrame(s, item, ItemId(item), notice.phase);
      ToolFrame(s, item, ItemId(item), ToolName(item), notice.phase);
    }
  }

  lemma ResponseKeeps(s: State, m: Message)
    requires RequestsOk(s)
    ensures RequestsOk(Responded(s, m)) && Kept(s.outcomes, Responded(s, m).outcomes)
    ensures SameApprovals(s, Responded(s, m))
  {
    if m.id.Number? && m.id.n in s.pending {
      ForgetKeeps(s, m.id.n, OutcomeOf(m));
    }
  }

  lemma HandledKeepsRequests(s: State, m: Message)
    requires RequestsOk(s)
    ensures RequestsOk(Handled(s, m)) && Kept(s.outcomes, Handled(s, m).outcomes)
  {
    if IsResponse(m) {
      ResponseKeeps(s, m);
    } else {
      NoticeFrame(s, m.notice);
      assert SameRequests(s, Handled(s, m));
    }
  }

  lemma StepKeepsRequests(s: State, i: Input)
    requires RequestsOk(s)
    ensures RequestsOk(Step(s, i)) && Kept(s.outcomes, Step(s, i).outcomes)
  {
    match i {
      case Request(m) => RequestKeeps(s, m);
      case Timeout(id) =>
        if id in s.pending {
          ForgetKeeps(s, id, TimedOut);
        }
      case Incoming(m) => HandledKeepsRequests(s, m);
      case _ => assert SameRequests(s, Step(s, i));
    }
  }

  /** In every run ids are distinct and below `nextId`, and no request is lost. */
  lemma {:induction false} RequestsAlwaysOk(inputs: seq<Input>)
    ensures RequestsOk(Run(inputs))
  {
    if inputs != [] {
      var n := |inputs| - 1;
      RequestsAlwaysOk(inputs[..n]);
      StepKeepsRequests(Run(inputs[..n]), inputs[n]);
    }
  }

  lemma RunLast(inputs: seq<Input>, i: Input)
    ensures Run(inputs + [i]) == Step(Run(inputs), i)
  {
    assert (inputs + [i])[..|inputs|] == inputs;
  }

  /** A settled request keeps its outcome for the rest of the run. */
  lemma {:induction false} SettledForever(inputs: seq<Input>, more: seq<Input>)
    ensures Kept(Run(inputs).outcomes, Run(inputs + more).outcomes)
  {
    if more == [] {
      assert inputs + more == inputs;
    } else {
      var n := |more| - 1;
      SettledForever(inputs, more[..n]);
      RunLast(inputs + more[..n], more[n]);
      assert inputs + more == inputs + more[..n] + [more[n]];
      RequestsAlwaysOk(inputs + more[..n]);
      StepKeepsRequests(Run(inputs + more[..n]), more[n]);
    }
  }

  /** A response to a request that was answered or timed out changes nothing. */
  lemma LateResponseIgnored(inputs: seq<Input>, m: Message)
    requires m.id.Number? && IsResponse(m)
    requires var s := Run(inputs); m.id.n in s.outcomes && s.outcomes[m.id.n] != SendFailed
    ensures Run(inputs + [Incoming(m)]) == Run(inputs)
  {
    RequestsAlwaysOk(inputs);
    RunLast(inputs, Incoming(m));
  }

  // ---- approvals are answered once

  /** No two stored approvals or replies stand for the same request. */
  ghost predicate ApprovalsOk(s: State) {
    && (forall k | k in s.approvals :: s.approvals[k].serial < s.asked)
    && (forall j, k | j in s.approvals && k in s.approvals && j != k :: s.approvals[j].serial != s.approvals[k].serial)
    && (forall i | 0 <= i < |s.sent| && s.sent[i].Reply? :: s.sent[i].serial < s.asked)
    && (forall i, k | 0 <= i < |s.sent| && s.sent[i].Reply? && k in s.approvals :: s.sent[i].serial != s.approvals[k].serial)
    && (forall i, j | 0 <= i < j < |s.sent| && s.sent[i].Reply? && s.sent[j].Reply? :: s.sent[i].serial != s.sent[j].serial)
  }

  predicate SameApprovals(s: State, t: State) {
    s.asked == t.asked && s.approvals == t.approvals && s.sent == t.sent
  }

  lemma AskKeeps(s: State, m: Message)
    requires ApprovalsOk(s)
    ensures ApprovalsOk(AskedFor(s, m))
  {
  }

  lemma ApproveKeeps(s: State, id: string, allow: bool)
    requires ApprovalsOk(s)
    ensures ApprovalsOk(Approved(s, id, allow))
  {
  }

  lemma CallKeeps(s: State, m: string)
    requires ApprovalsOk(s)
    ensures ApprovalsOk(Requested(s, m))
  {
  }

  lemma HandledKeepsApprovals(s: State, m: Message)
    requires ApprovalsOk(s)
    ensures ApprovalsOk(Handled(s, m))
  {
    if IsAsk(m) {
      AskKeeps(s, m);
    } else {
      NoticeFrame(s, m.notice);
      assert SameApprovals(s, Handled(s, m));
    }
  }

  lemma StepKeepsApprovals(s: State, i: Input)
    requires ApprovalsOk(s)
    ensures ApprovalsOk(Step(s, i))
  {
    match i {
      case Request(m) => CallKeeps(s, m);
      case Approve(id, allow) => ApproveKeeps(s, id, allow);
      case Incoming(m) => HandledKeepsApprovals(s, m);
      case _ => assert SameApprovals(s, Step(s, i));
    }
  }

  /** In every run each stored approval is answered at most once. */
  lemma {:induction false} AnsweredOnce(inputs: seq<Input>)
    ensures ApprovalsOk(Run(inputs))
  {
    if inputs != [] {
      var n := |inputs| - 1;
      AnsweredOnce(inputs[..n]);
      StepKeepsApprovals(Run(inputs[..n]), inputs[n]);
    }
  }

  // ---- tool events alternate

  datatype Span = Closed | Open | Broken

  /** Whether the tool events of an id strictly alternate, and which came last. */
  function SpanOf(events: seq<Event>, id: string): Span {
    if events == [] then Closed
    else
      var before := SpanOf(events[..|events| - 1], id);
      match events[|events| - 1]
      case ToolStart(x, _, _) => if x != id then before else if before == Closed then Open else Broken
      case ToolEnd(x, _, _, _) => if x != id then before else if before == Open then Closed else Broken
      case _ => before
  }

  lemma SpanLast(events: seq<Event>, e: Event, id: string)
    ensures SpanOf(events + [e], id) ==
            var before := SpanOf(events, id);
            match e
            case ToolStart(x, _, _) => if x != id then before else if before == Closed then Open else Broken
            case ToolEnd(x, _, _, _) => if x != id then before else if before == Open then Closed else Broken
            case _ => before
  {
    assert (events + [e])[..|events|] == events;
  }

  /** Outside `shared`, an id's events alternate and it is cached exactly in between. */
  ghost predicate ItemsOk(s: State, shared: set<string>) {
    forall id | id !in shared :: SpanOf(s.events, id) == if id in s.cache then Open else Closed
  }

  /** The ids that an input uses for an item that is not a command. */
  function SharedBy(i: Input): set<string> {
    if i.Incoming? && IsItem(i.message) && IsTool(i.message.notice.item.kind)
    then {ItemId(i.message.notice.item)} else {}
  }

  function SharedIds(inputs: seq<Input>): set<string> {
    if inputs == [] then {} else SharedIds(inputs[..|inputs| - 1]) + SharedBy(inputs[|inputs| - 1])
  }

  lemma EventKeeps(s: State, t: State, shared: set<string>)
    requires ItemsOk(s, shared) && t.cache == s.cache && |t.events| == |s.events| + 1 && t.events[..|s.events|] == s.events
    requires !t.events[|s.events|].ToolStart? && !t.events[|s.events|].ToolEnd?
    ensures ItemsOk(t, shared)
  {
  }

  lemma CommandKeeps(s: State, item: Item, itemId: string, phase: Phase, shared: set<string>)
    requires ItemsOk(s, shared)
    ensures ItemsOk(CommandItem(s, item, itemId, phase), shared)
  {
    var t := CommandItem(s, item, itemId, phase);
    forall id | id !in shared
      ensures SpanOf(t.events, id) == if id in t.cache then Open else Closed
    {
      if t.events != s.events {
        SpanLast(s.events, t.events[|s.events|], id);
      }
    }
  }

  lemma ToolKeeps(s: State, item: Item, itemId: string, name: string, phase: Phase, shared: set<string>)
    requires ItemsOk(s, shared) && itemId in shared
    ensures ItemsOk(ToolItem(s, item, itemId, name, phase), shared)
  {
    var t := ToolItem(s, item, itemId, name, phase);
    forall id | id !in shared
      ensures SpanOf(t.events, id) == if id in t.cache then Open else Closed
    {
      SpanLast(s.events, t.events[|s.events|], id);
    }
  }

  lemma ItemKeeps(s: State, item: Item, phase: Phase, shared: set<string>)
    requires ItemsOk(s, shared) && (IsTool(item.kind) ==> ItemId(item) in shared)
    ensures ItemsOk(OnItem(s, item, phase), shared)
  {
    var t := OnItem(s, item, phase);
    if item.kind == Command {
      CommandKeeps(s, item, ItemId(item), phase, shared);
    } else if IsTool(item.kind) {
      ToolKeeps(s, item, ItemId(item), ToolName(item), phase, shared);
    } else if t != s {
      EventKeeps(s, t, shared);
    }
  }

  lemma HandledKeepsItems(s: State, m: Message, shared: set<string>)
    requires ItemsOk(s, shared) && (IsItem(m) && IsTool(m.notice.item.kind) ==> ItemId(m.notice.item) in shared)
    ensures ItemsOk(Handled(s, m), shared)
  {
    if IsItem(m) {
      ItemKeeps(s, m.notice.item, m.notice.phase, shared);
    } else if IsAsk(m) {
      EventKeeps(s, AskedFor(s, m), shared);
    } else if m.id == NoId && m.verb.Truthy? {
      EventKeeps(s, Notified(s, m.notice), shared);
    }
  }

  lemma ApproveKeepsItems(s: State, id: string, allow: bool, shared: set<string>)
    requires ItemsOk(s, shared)
    ensures ItemsOk(Approved(s, id, allow), shared)
  {
    if id in s.approvals {
      EventKeeps(s, Approved(s, id, allow), shared);
    }
  }

  lemma StepKeepsItems(s: State, i: Input, shared: set<string>)
    requires ItemsOk(s, shared)
    ensures ItemsOk(Step(s, i), shared + SharedBy(i))
  {
    var more := shared + SharedBy(i);
    assert ItemsOk(s, more);
    match i {
      case Incoming(m) => HandledKeepsItems(s, m, more);
      case Approve(id, allow) => ApproveKeepsItems(s, id, allow, more);
      case _ => assert Step(s, i).events == s.events && Step(s, i).cache == s.cache;
    }
  }

  /** In every run the tool events of an id that only commands use strictly alternate, and
      the id is cached exactly between a start and its end. */
  lemma {:induction false} ToolEventsAlternate(inputs: seq<Input>)
    ensures ItemsOk(Run(inputs), SharedIds(inputs))
  {
    if inputs != [] {
      var n := |inputs| - 1;
      ToolEventsAlternate(inputs[..n]);
      StepKeepsItems(Run(inputs[..n]), inputs[n], SharedIds(inputs[..n]));
    }
  }

  // ---- items that are not commands

  /** The id that an input uses for an item accepted by `of`. */
  predicate UsesId(i: Input, id: string, of: Kind -> bool) {
    i.Incoming? && IsItem(i.message) && of(i.message.notice.item.kind) && ItemId(i.message.notice.item) == id
  }

  predicate NoCommand(inputs: seq<Input>, id: string) {
    forall k | 0 <= k < |inputs| :: !UsesId(inputs[k], id, (kind: Kind) => kind == Command)
  }

  function AfterNotice(before: Span, phase: Phase): Span {
    match phase
    case Started => if before == Closed then Open else Broken
    case Completed => if before == Open then Closed else Broken
  }

  /** Whether the started and completed notices of an id strictly alternate, and which came last. */
  function NoticeSpan(inputs: seq<Input>, id: string): Span {
    if inputs == [] then Closed
    else
      var before, i := NoticeSpan(inputs[..|inputs| - 1], id), inputs[|inputs| - 1];
      if UsesId(i, id, IsTool) then AfterNotice(before, i.message.notice.phase) else before
  }

  /** The step leaves the events and the cache entry of an id as they are. */
  predicate SameFor(s: State, t: State, id: string) {
    SpanOf(t.events, id) == SpanOf(s.events, id) && (id in t.cache <==> id in s.cache)
  }

  lemma ShownElsewhere(s: State, t: State, e: Event, id: string)
    requires t.events == s.events + [e] && (id in t.cache <==> id in s.cache)
    requires (e.ToolStart? || e.ToolEnd?) ==> e.id != id
    ensures SameFor(s, t, id)
  {
    SpanLast(s.events, e, id);
  }

  lemma OtherItem(s: State, item: Item, phase: Phase, id: string)
    requires item.kind == Command || IsTool(item.kind) ==> ItemId(item) != id
    ensures SameFor(s, OnItem(s, item, phase), id)
  {
    var t := OnItem(s, item, phase);
    if t.events != s.events {
      ShownElsewhere(s, t, t.events[|s.events|], id);
    }
  }

  lemma OtherMessage(s: State, m: Message, id: string)
    requires IsItem(m) && (m.notice.item.kind == Command || IsTool(m.notice.item.kind)) ==> ItemId(m.notice.item) != id
    ensures SameFor(s, Handled(s, m), id)
  {
    if IsItem(m) {
      OtherItem(s, m.notice.item, m.notice.phase, id);
    } else if IsAsk(m) {
      ShownElsewhere(s, Handled(s, m), PermissionRequest(IdText(m.id)), id);
    } else if m.id == NoId && m.verb.Truthy? {
      ShownElsewhere(s, Handled(s, m), Shown(m.notice.text), id);
    }
  }

  lemma OtherEvent(s: State, i: Input, id: string)
    requires !UsesId(i, id, IsTool) && !UsesId(i, id, (kind: Kind) => kind == Command)
    ensures SameFor(s, Step(s, i), id)
  {
    match i {
      case Incoming(m) => OtherMessage(s, m, id);
      case Approve(approval, allow) =>
        if approval in s.approvals {
          ShownElsewhere(s, Step(s, i), PermissionResolved(approval, allow), id);
        }
      case _ => assert Step(s, i).events == s.events && Step(s, i).cache == s.cache;
    }
  }

  lemma ToolEvent(s: State, item: Item, phase: Phase)
    requires IsTool(item.kind)
    ensures var t := OnItem(s, item, phase);
            && SpanOf(t.events, ItemId(item)) == AfterNotice(SpanOf(s.events, ItemId(item)), phase)
            && (ItemId(item) in t.cache <==> phase == Started)
  {
    var t := OnItem(s, item, phase);
    SpanLast(s.events, t.events[|s.events|], ItemId(item));
  }

  /** In every run the tool events of an id that no command uses are as its notices: they
      alternate exactly when the notices do, and then the id is cached exactly in between. */
  lemma {:induction false} ToolEventsFollowNotices(inputs: seq<Input>, id: string)
    requires NoCommand(inputs, id)
    ensures SpanOf(Run(inputs).events, id) == NoticeSpan(inputs, id)
    ensures NoticeSpan(inputs, id) != Broken ==> (id in Run(inputs).cache <==> NoticeSpan(inputs, id) == Open)
  {
    if inputs != [] {
      var n := |inputs| - 1;
      var i := inputs[n];
      ToolEventsFollowNotices(inputs[..n], id);
      assert !UsesId(i, id, (kind: Kind) => kind == Command);
      if UsesId(i, id, IsTool) {
        ToolEvent(Run(inputs[..n]), i.message.notice.item, i.message.notice.phase);
      } else {
        OtherEvent(Run(inputs[..n]), i, id);
      }
    }
  }
}
