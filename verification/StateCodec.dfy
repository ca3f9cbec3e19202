/** The two conversions between the snapshot and its file form (crates/service/src/persistence.rs).
    The enumerations that are copied one to one keep their domain type in the file form. */
module StateCodec {
  import opened Domain
  import opened HexIds

  // ---- the file form, version 1 ----------------------------------------------------------------

  const SCHEMA_VERSION: nat := 1

  datatype ExecDto = PendingDto | ExecutingDto | FailedDto(reason: string)

  datatype ActionDto = ActionDto(
    id: string,
    kind: ActionKind,
    deadline: int,
    createdAt: int,
    createdBy: Initiator,
    thresholds: seq<Threshold>,
    exec: ExecDto)

  /** The sender is always the child and the message always accepted; both are checked. */
  datatype PayloadDto = ChatDto(id: string, text: string, timestamp: int) | NotificationDto(text: string)

  datatype EntryDto = EntryDto(id: string, payload: PayloadDto, attempts: nat, lastError: Option<string>)

  datatype FileDto = FileDto(
    version: nat,
    desired: DesiredInternet,
    actions: seq<ActionDto>,
    retry: Option<InternetRetry>,
    outbox: seq<EntryDto>)

  datatype CodecError =
    | UnsupportedVersion(version: nat)
    | InvalidId(text: string)
    | DuplicateTimer(id: TimerId)
    | DuplicateEntry(id: EntryId)
    | DuplicateThreshold(id: TimerId, threshold: Threshold)
    | Prohibited(id: nat)

  datatype Result<T> = Ok(value: T) | Err(error: CodecError)

  // ---- what encoding means ---------------------------------------------------------------------

  /** A list of the elements of a set, in whatever order the set gives them. */
  ghost predicate Enumerates(ts: seq<Threshold>, s: set<Threshold>) {
    && (forall i, j :: 0 <= i < j < |ts| ==> ts[i] != ts[j])
    && forall t: Threshold :: t in ts <==> t in s
  }

  ghost predicate ExecEncodes(d: ExecDto, exec: ExecutionState) {
    match d
    case PendingDto => exec == Pending
    case ExecutingDto => exec == Executing
    case FailedDto(reason) => exec == Failed(reason)
  }

  ghost predicate ActionEncodes(d: ActionDto, a: Action) {
    && d.id == FormatId(a.id) && d.kind == a.kind && d.deadline == a.deadline && d.createdAt == a.createdAt
    && d.createdBy == a.createdBy && Enumerates(d.thresholds, a.emitted) && ExecEncodes(d.exec, a.exec)
  }

  ghost predicate PayloadEncodes(d: PayloadDto, p: Payload) {
    match d
    case ChatDto(id, text, timestamp) =>
      p.Chat? && id == FormatId(p.message.id) && p.message == ChatMessage(p.message.id, Child, text, timestamp, AcceptedByService)
    case NotificationDto(text) => p == Notification(text)
  }

  ghost predicate EntryEncodes(d: EntryDto, e: OutboxEntry) {
    d.id == FormatId(e.id) && PayloadEncodes(d.payload, e.payload) && d.attempts == e.attempts && d.lastError == e.lastError
  }

  ghost predicate FileEncodes(d: FileDto, s: PersistentState) {
    && d.version == SCHEMA_VERSION && d.desired == s.desired && d.retry == s.retry
    && |d.actions| == |s.actions| && (forall i :: 0 <= i < |s.actions| ==> ActionEncodes(d.actions[i], s.actions[i]))
    && |d.outbox| == |s.outbox| && (forall i :: 0 <= i < |s.outbox| ==> EntryEncodes(d.outbox[i], s.outbox[i]))
  }

  /** Identifiers are 128 bits wide. */
  ghost predicate ActionFits(a: Action) { a.id < ID_LIMIT }

  ghost predicate EntryFits(e: OutboxEntry) {
    e.id < ID_LIMIT && (e.payload.Chat? ==> e.payload.message.id < ID_LIMIT)
  }

  ghost predicate IdsFit(s: PersistentState) {
    (forall a <- s.actions :: ActionFits(a)) && (forall e <- s.outbox :: EntryFits(e))
  }

  /** What decoding this gives. */
  ghost predicate ActionDecodes(d: ActionDto, a: Action) {
    ActionEncodes(d, a) && ActionFits(a) && !a.exec.IsTerminal()
  }

  ghost predicate EntryDecodes(d: EntryDto, e: OutboxEntry) {
    EntryEncodes(d, e) && EntryFits(e) && SendableEntry(e)
  }

  // ---- encoding ------------------------------------------------------------------------------

  /** The first reason not to encode these actions. */
  ghost function ActionFault(actions: seq<Action>): Option<CodecError> {
    if actions == [] then None
    else
      var front, a := actions[..|actions| - 1], actions[|actions| - 1];
      if ActionFault(front).Some? then ActionFault(front)
      else if a.id in ActionIds(front) then Some(DuplicateTimer(a.id))
      else if a.exec.IsTerminal() then Some(Prohibited(a.id))
      else None
  }

  ghost function EntryFault(outbox: seq<OutboxEntry>): Option<CodecError> {
    if outbox == [] then None
    else
      var front, e := outbox[..|outbox| - 1], outbox[|outbox| - 1];
      if EntryFault(front).Some? then EntryFault(front)
      else if e.id in EntryIds(front) then Some(DuplicateEntry(e.id))
      else if !SendableEntry(e) then Some(Prohibited(e.payload.message.id))
      else None
  }

  ghost function StateFault(s: PersistentState): Option<CodecError> {
    if ActionFault(s.actions).Some? then ActionFault(s.actions) else EntryFault(s.outbox)
  }

  method EnumerateThresholds(s: set<Threshold>) returns (ts: seq<Threshold>)
    ensures Enumerates(ts, s)
  {
    ts := [];
    var rest := s;
    while rest != {}
      invariant rest <= s
      invariant Enumerates(ts, s - rest)
      decreases |rest|
    {
      var t :| t in rest;
      rest := rest - {t};
      ts := ts + [t];
    }
    assert s - rest == s;
  }

  method EncodeAction(a: Action) returns (r: Result<ActionDto>)
    ensures r.Err? <==> a.exec.IsTerminal()
    ensures r.Err? ==> r.error == Prohibited(a.id)
    ensures r.Ok? ==> ActionEncodes(r.value, a)
  {
    var thresholds := EnumerateThresholds(a.emitted);
    var exec;
    match a.exec {
      case Pending => exec := PendingDto;
      case Executing => exec := ExecutingDto;
      case Failed(reason) => exec := FailedDto(reason);
      case _ => return Err(Prohibited(a.id));
    }
    r := Ok(ActionDto(FormatId(a.id), a.kind, a.deadline, a.createdAt, a.createdBy, thresholds, exec));
  }

  method EncodeActions(actions: seq<Action>) returns (r: Result<seq<ActionDto>>)
    ensures r.Err? ==> ActionFault(actions) == Some(r.error)
    ensures r.Ok? ==> ActionFault(actions) == None && |r.value| == |actions|
    ensures r.Ok? ==> forall i :: 0 <= i < |actions| ==> ActionEncodes(r.value[i], actions[i])
  {
    hide ActionEncodes;
    var seen: set<TimerId> := {};
    var ds: seq<ActionDto> := [];
    for i := 0 to |actions|
      invariant seen == ActionIds(actions[..i]) && |ds| == i && ActionFault(actions[..i]) == None
      invariant forall j :: 0 <= j < i ==> ActionEncodes(ds[j], actions[j])
    {
      var a := actions[i];
      FaultStep(actions, i);
      if a.id in seen { return Err(DuplicateTimer(a.id)); }
      seen := seen + {a.id};
      var d := EncodeAction(a);
      if d.Err? { return Err(d.error); }
      ds := ds + [d.value];
    }
    assert actions[..|actions|] == actions;
    r := Ok(ds);
  }

  lemma FaultStep(actions: seq<Action>, i: nat)
    requires i < |actions|
    ensures ActionIds(actions[..i + 1]) == ActionIds(actions[..i]) + {actions[i].id}
    ensures ActionFault(actions[..i + 1]).Some? ==> ActionFault(actions) == ActionFault(actions[..i + 1])
    ensures actions[..i + 1][..i] == actions[..i] && actions[..i + 1][i] == actions[i] && |actions[..i + 1]| == i + 1
  {
    hide ActionFault;
    assert actions[..i + 1] == actions[..i] + [actions[i]];
    if ActionFault(actions[..i + 1]).Some? { FaultStays(actions, i + 1); }
  }

  lemma {:induction false} FaultStays(actions: seq<Action>, k: nat)
    requires k <= |actions| && ActionFault(actions[..k]).Some?
    ensures ActionFault(actions) == ActionFault(actions[..k])
    decreases |actions|
  {
    if k < |actions| {
      assert actions[..|actions| - 1][..k] == actions[..k];
      FaultStays(actions[..|actions| - 1], k);
    } else {
      assert actions[..k] == actions;
    }
  }

  method EncodePayload(p: Payload) returns (r: Result<PayloadDto>)
    ensures r.Err? <==> p.Chat? && !(p.message.sender.Child? && p.message.status.AcceptedByService?)
    ensures r.Err? ==> r.error == Prohibited(p.message.id)
    ensures r.Ok? ==> PayloadEncodes(r.value, p)
  {
    match p {
      case Chat(message) =>
        if message.sender.Parent? { return Err(Prohibited(message.id)); }
        if !message.status.AcceptedByService? { return Err(Prohibited(message.id)); }
        r := Ok(ChatDto(FormatId(message.id), message.text, message.timestamp));
      case Notification(text) => r := Ok(NotificationDto(text));
    }
  }

  method EncodeOutbox(outbox: seq<OutboxEntry>) returns (r: Result<seq<EntryDto>>)
    ensures r.Err? ==> EntryFault(outbox) == Some(r.error)
    ensures r.Ok? ==> EntryFault(outbox) == None && |r.value| == |outbox|
    ensures r.Ok? ==> forall i :: 0 <= i < |outbox| ==> EntryEncodes(r.value[i], outbox[i])
  {
    hide PayloadEncodes, FormatId;
    var seen: set<EntryId> := {};
    var ds: seq<EntryDto> := [];
    for i := 0 to |outbox|
      invariant seen == EntryIds(outbox[..i]) && |ds| == i && EntryFault(outbox[..i]) == None
      invariant forall j :: 0 <= j < i ==> EntryEncodes(ds[j], outbox[j])
    {
      var e := outbox[i];
      EntryFaultStep(outbox, i);
      if e.id in seen { return Err(DuplicateEntry(e.id)); }
      seen := seen + {e.id};
      var p := EncodePayload(e.payload);
      if p.Err? { return Err(p.error); }
      ds := ds + [EntryDto(FormatId(e.id), p.value, e.attempts, e.lastError)];
    }
    assert outbox[..|outbox|] == outbox;
    r := Ok(ds);
  }

  lemma EntryFaultStep(outbox: seq<OutboxEntry>, i: nat)
    requires i < |outbox|
    ensures EntryIds(outbox[..i + 1]) == EntryIds(outbox[..i]) + {outbox[i].id}
    ensures EntryFault(outbox[..i + 1]).Some? ==> EntryFault(outbox) == EntryFault(outbox[..i + 1])
    ensures outbox[..i + 1][..i] == outbox[..i] && outbox[..i + 1][i] == outbox[i] && |outbox[..i + 1]| == i + 1
  {
    hide EntryFault;
    assert outbox[..i + 1] == outbox[..i] + [outbox[i]];
    if EntryFault(outbox[..i + 1]).Some? { EntryFaultStays(outbox, i + 1); }
  }

  lemma {:induction false} EntryFaultStays(outbox: seq<OutboxEntry>, k: nat)
    requires k <= |outbox| && EntryFault(outbox[..k]).Some?
    ensures EntryFault(outbox) == EntryFault(outbox[..k])
    decreases |outbox|
  {
    if k < |outbox| {
      assert outbox[..|outbox| - 1][..k] == outbox[..k];
      EntryFaultStays(outbox[..|outbox| - 1], k);
    } else {
      assert outbox[..k] == outbox;
    }
  }

  lemma {:induction false} ActionFaultExact(actions: seq<Action>)
    ensures ActionFault(actions) == None <==> UniqueActions(actions) && forall a <- actions :: !a.exec.IsTerminal()
    decreases |actions|
  {
    if actions != [] {
      var front, a := actions[..|actions| - 1], actions[|actions| - 1];
      assert actions == front + [a];
      ActionFaultExact(front);
      if a.id in ActionIds(front) {
        var b :| b in front && b.id == a.id;
        var j :| 0 <= j < |front| && front[j] == b;
        assert actions[j].id == actions[|front|].id;
      } else {
        forall j | 0 <= j < |front| ensures actions[j].id != a.id { assert front[j] in front; }
      }
      assert UniqueActions(actions) ==> UniqueActions(front);
    }
  }

  lemma {:induction false} EntryFaultExact(outbox: seq<OutboxEntry>)
    ensures EntryFault(outbox) == None <==> UniqueEntries(outbox) && forall e <- outbox :: SendableEntry(e)
    decreases |outbox|
  {
    if outbox != [] {
      var front, e := outbox[..|outbox| - 1], outbox[|outbox| - 1];
      assert outbox == front + [e];
      EntryFaultExact(front);
      if e.id in EntryIds(front) {
        var x :| x in front && x.id == e.id;
        var j :| 0 <= j < |front| && front[j] == x;
        assert outbox[j].id == outbox[|front|].id;
      } else {
        forall j | 0 <= j < |front| ensures outbox[j].id != e.id { assert front[j] in front; }
      }
      assert UniqueEntries(outbox) ==> UniqueEntries(front);
    }
  }

  /** `TryFrom<&PersistentState>`: succeeds exactly on encodable states, and otherwise reports the
      first fault. */
  method Encode(s: PersistentState) returns (r: Result<FileDto>)
    ensures r.Ok? <==> Encodable(s)
    ensures r.Ok? ==> FileEncodes(r.value, s)
    ensures r.Err? ==> StateFault(s) == Some(r.error)
  {
    hide ActionEncodes, EntryEncodes;
    ActionFaultExact(s.actions);
    EntryFaultExact(s.outbox);
    var actions := EncodeActions(s.actions);
    if actions.Err? { return Err(actions.error); }
    var outbox := EncodeOutbox(s.outbox);
    if outbox.Err? { return Err(outbox.error); }
    r := Ok(FileDto(SCHEMA_VERSION, s.desired, actions.value, s.retry, outbox.value));
  }

  // ---- decoding ------------------------------------------------------------------------------

  ghost function FirstRepeat(ts: seq<Threshold>): Option<Threshold> {
    if ts == [] then None
    else
      var front, t := ts[..|ts| - 1], ts[|ts| - 1];
      if FirstRepeat(front).Some? then FirstRepeat(front) else if t in front then Some(t) else None
  }

  ghost predicate IdSeen(ds: seq<ActionDto>, id: TimerId) {
    exists d <- ds :: ParseId(d.id) == Some(id)
  }

  /** The first reason to refuse these actions: a malformed identifier, one seen before, or a
      repeated threshold, checked in this order. */
  ghost function ActionDtoFault(ds: seq<ActionDto>): Option<CodecError> {
    if ds == [] then None
    else
      var front, d := ds[..|ds| - 1], ds[|ds| - 1];
      if ActionDtoFault(front).Some? then ActionDtoFault(front) else NextActionFault(front, d)
  }

  ghost function NextActionFault(front: seq<ActionDto>, d: ActionDto): Option<CodecError> {
    match ParseId(d.id)
    case None => Some(InvalidId(d.id))
    case Some(id) =>
      if IdSeen(front, id) then Some(DuplicateTimer(id))
      else match FirstRepeat(d.thresholds)
        case None => None
        case Some(t) => Some(DuplicateThreshold(id, t))
  }

  ghost predicate EntryIdSeen(ds: seq<EntryDto>, id: EntryId) {
    exists d <- ds :: ParseId(d.id) == Some(id)
  }

  ghost function EntryDtoFault(ds: seq<EntryDto>): Option<CodecError> {
    if ds == [] then None
    else
      var front, d := ds[..|ds| - 1], ds[|ds| - 1];
      if EntryDtoFault(front).Some? then EntryDtoFault(front) else NextEntryFault(front, d)
  }

  ghost function NextEntryFault(front: seq<EntryDto>, d: EntryDto): Option<CodecError> {
    match ParseId(d.id)
    case None => Some(InvalidId(d.id))
    case Some(id) =>
      if EntryIdSeen(front, id) then Some(DuplicateEntry(id))
      else if d.payload.ChatDto? && ParseId(d.payload.id).None? then Some(InvalidId(d.payload.id))
      else None
  }

  ghost function FileFault(d: FileDto): Option<CodecError> {
    if d.version != SCHEMA_VERSION then Some(UnsupportedVersion(d.version))
    else if ActionDtoFault(d.actions).Some? then ActionDtoFault(d.actions)
    else EntryDtoFault(d.outbox)
  }

  /** The set behind a list, or the first threshold listed twice. */
  method CollectThresholds(ts: seq<Threshold>) returns (emitted: set<Threshold>, repeated: Option<Threshold>)
    ensures repeated == FirstRepeat(ts)
    ensures repeated.None? ==> Enumerates(ts, emitted)
  {
    emitted, repeated := {}, None;
    for i := 0 to |ts|
      invariant Enumerates(ts[..i], emitted) && FirstRepeat(ts[..i]) == None
    {
      assert ts[..i + 1] == ts[..i] + [ts[i]];
      if ts[i] in emitted {
        RepeatStays(ts, i + 1);
        return emitted, Some(ts[i]);
      }
      emitted := emitted + {ts[i]};
    }
    assert ts[..|ts|] == ts;
  }

  lemma {:induction false} RepeatStays(ts: seq<Threshold>, k: nat)
    requires k <= |ts| && FirstRepeat(ts[..k]).Some?
    ensures FirstRepeat(ts) == FirstRepeat(ts[..k])
    decreases |ts|
  {
    if k < |ts| {
      assert ts[..|ts| - 1][..k] == ts[..k];
      RepeatStays(ts[..|ts| - 1], k);
    } else {
      assert ts[..k] == ts;
    }
  }

  method DecodeExec(d: ExecDto) returns (exec: ExecutionState)
    ensures ExecEncodes(d, exec) && !exec.IsTerminal()
  {
    match d {
      case PendingDto => exec := Pending;
      case ExecutingDto => exec := Executing;
      case FailedDto(reason) => exec := Failed(reason);
    }
  }

  /** The part of an action behind its identifier. */
  method DecodeAction(d: ActionDto, id: TimerId) returns (r: Result<Action>)
    requires ParseId(d.id) == Some(id)
    ensures match FirstRepeat(d.thresholds)
      case Some(t) => r == Err(DuplicateThreshold(id, t))
      case None => r.Ok? && r.value.id == id && ActionDecodes(d, r.value)
  {
    hide FormatId, ParseId, FirstRepeat;
    var emitted, repeated := CollectThresholds(d.thresholds);
    if repeated.Some? { return Err(DuplicateThreshold(id, repeated.value)); }
    ParseIdExact(d.id, id);
    var exec := DecodeExec(d.exec);
    r := Ok(Action(id, d.kind, d.deadline, d.createdAt, d.createdBy, emitted, exec));
  }

  method DecodeActions(ds: seq<ActionDto>) returns (r: Result<seq<Action>>)
    ensures r.Err? ==> ActionDtoFault(ds) == Some(r.error)
    ensures r.Ok? ==> ActionDtoFault(ds) == None && |r.value| == |ds| && UniqueActions(r.value)
    ensures r.Ok? ==> forall i :: 0 <= i < |ds| ==> ActionDecodes(ds[i], r.value[i])
  {
    hide FormatId, ParseId, ActionDecodes, FirstRepeat, IdSeen, ActionDtoFault;
    var seen: set<TimerId> := {};
    var actions: seq<Action> := [];
    NothingSeen();
    for i := 0 to |ds|
      invariant |actions| == i && UniqueActions(actions) && ActionDtoFault(ds[..i]) == None
      invariant forall j :: 0 <= j < i ==> ActionDecodes(ds[j], actions[j]) && actions[j].id in seen
      invariant forall id: nat :: id in seen <==> IdSeen(ds[..i], id)
    {
      var d := ds[i];
      ActionDtoStep(ds, i);
      var id := ParseIdText(d.id);
      if id.None? { return Err(InvalidId(d.id)); }
      if id.value in seen { return Err(DuplicateTimer(id.value)); }
      seen := seen + {id.value};
      var a := DecodeAction(d, id.value);
      if a.Err? { return Err(a.error); }
      actions := actions + [a.value];
    }
    assert ds[..|ds|] == ds;
    r := Ok(actions);
  }

  lemma NothingSeen()
    ensures ActionDtoFault([]) == None && EntryDtoFault([]) == None
    ensures forall id: nat :: !IdSeen([], id) && !EntryIdSeen([], id)
  {
  }

  lemma ActionDtoStep(ds: seq<ActionDto>, i: nat)
    requires i < |ds|
    ensures ActionDtoFault(ds[..i]) == None ==> ActionDtoFault(ds[..i + 1]) == NextActionFault(ds[..i], ds[i])
    ensures ActionDtoFault(ds[..i + 1]).Some? ==> ActionDtoFault(ds) == ActionDtoFault(ds[..i + 1])
    ensures forall id: nat :: IdSeen(ds[..i + 1], id) <==> IdSeen(ds[..i], id) || ParseId(ds[i].id) == Some(id)
  {
    hide ParseId, NextActionFault;
    assert ds[..i + 1] == ds[..i] + [ds[i]] && ds[..i + 1][..i] == ds[..i];
    if ActionDtoFault(ds[..i + 1]).Some? { ActionDtoFaultStays(ds, i + 1); }
  }

  lemma {:induction false} ActionDtoFaultStays(ds: seq<ActionDto>, k: nat)
    requires k <= |ds| && ActionDtoFault(ds[..k]).Some?
    ensures ActionDtoFault(ds) == ActionDtoFault(ds[..k])
    decreases |ds|
  {
    hide ParseId, IdSeen, FirstRepeat;
    if k < |ds| {
      assert ds[..|ds| - 1][..k] == ds[..k];
      ActionDtoFaultStays(ds[..|ds| - 1], k);
    } else {
      assert ds[..k] == ds;
    }
  }

  method DecodePayload(d: PayloadDto) returns (r: Result<Payload>)
    ensures r.Err? <==> d.ChatDto? && ParseId(d.id).None?
    ensures r.Err? ==> r.error == InvalidId(d.id)
    ensures r.Ok? ==> PayloadEncodes(d, r.value) && (r.value.Chat? ==> r.value.message.id < ID_LIMIT)
  {
    match d {
      case ChatDto(text, body, timestamp) =>
        var id := ParseIdText(text);
        if id.None? { return Err(InvalidId(text)); }
        ParseIdExact(text, id.value);
        r := Ok(Chat(ChatMessage(id.value, Child, body, timestamp, AcceptedByService)));
      case NotificationDto(text) => r := Ok(Notification(text));
    }
  }

  method DecodeEntry(d: EntryDto, id: EntryId) returns (r: Result<OutboxEntry>)
    requires ParseId(d.id) == Some(id)
    ensures r.Err? <==> d.payload.ChatDto? && ParseId(d.payload.id).None?
    ensures r.Err? ==> r.error == InvalidId(d.payload.id)
    ensures r.Ok? ==> r.value.id == id && EntryDecodes(d, r.value)
  {
    hide FormatId, ParseId;
    var p := DecodePayload(d.payload);
    if p.Err? { return Err(p.error); }
    ParseIdExact(d.id, id);
    r := Ok(OutboxEntry(id, p.value, d.attempts, d.lastError));
  }

  method DecodeOutbox(ds: seq<EntryDto>) returns (r: Result<seq<OutboxEntry>>)
    ensures r.Err? ==> EntryDtoFault(ds) == Some(r.error)
    ensures r.Ok? ==> EntryDtoFault(ds) == None && |r.value| == |ds| && UniqueEntries(r.value)
    ensures r.Ok? ==> forall i :: 0 <= i < |ds| ==> EntryDecodes(ds[i], r.value[i])
  {
    hide FormatId, ParseId, EntryDecodes, EntryIdSeen, EntryDtoFault;
    var seen: set<EntryId> := {};
    var outbox: seq<OutboxEntry> := [];
    NothingSeen();
    for i := 0 to |ds|
      invariant |outbox| == i && UniqueEntries(outbox) && EntryDtoFault(ds[..i]) == None
      invariant forall j :: 0 <= j < i ==> EntryDecodes(ds[j], outbox[j]) && outbox[j].id in seen
      invariant forall id: nat :: id in seen <==> EntryIdSeen(ds[..i], id)
    {
      var d := ds[i];
      EntryDtoStep(ds, i);
      var id := ParseIdText(d.id);
      if id.None? { return Err(InvalidId(d.id)); }
      if id.value in seen { return Err(DuplicateEntry(id.value)); }
      seen := seen + {id.value};
      var e := DecodeEntry(d, id.value);
      if e.Err? { return Err(e.error); }
      outbox := outbox + [e.value];
    }
    assert ds[..|ds|] == ds;
    r := Ok(outbox);
  }

  lemma EntryDtoStep(ds: seq<EntryDto>, i: nat)
    requires i < |ds|
    ensures EntryDtoFault(ds[..i]) == None ==> EntryDtoFault(ds[..i + 1]) == NextEntryFault(ds[..i], ds[i])
    ensures EntryDtoFault(ds[..i + 1]).Some? ==> EntryDtoFault(ds) == EntryDtoFault(ds[..i + 1])
    ensures forall id: nat :: EntryIdSeen(ds[..i + 1], id) <==> EntryIdSeen(ds[..i], id) || ParseId(ds[i].id) == Some(id)
  {
    hide ParseId, NextEntryFault;
    assert ds[..i + 1] == ds[..i] + [ds[i]] && ds[..i + 1][..i] == ds[..i];
    if EntryDtoFault(ds[..i + 1]).Some? { EntryDtoFaultStays(ds, i + 1); }
  }

  lemma {:induction false} EntryDtoFaultStays(ds: seq<EntryDto>, k: nat)
    requires k <= |ds| && EntryDtoFault(ds[..k]).Some?
    ensures EntryDtoFault(ds) == EntryDtoFault(ds[..k])
    decreases |ds|
  {
    hide ParseId, EntryIdSeen;
    if k < |ds| {
      assert ds[..|ds| - 1][..k] == ds[..k];
      EntryDtoFaultStays(ds[..|ds| - 1], k);
    } else {
      assert ds[..k] == ds;
    }
  }

  /** `TryFrom<StateFileV1Dto>`: what it accepts is encodable, and encodes to this file. */
  method Decode(d: FileDto) returns (r: Result<PersistentState>)
    ensures r.Err? <==> FileFault(d).Some?
    ensures r.Err? ==> FileFault(d) == Some(r.error)
    ensures r.Ok? ==> FileEncodes(d, r.value) && Encodable(r.value) && IdsFit(r.value)
  {
    hide ActionEncodes, EntryEncodes;
    if d.version != SCHEMA_VERSION { return Err(UnsupportedVersion(d.version)); }
    var actions := DecodeActions(d.actions);
    if actions.Err? { return Err(actions.error); }
    var outbox := DecodeOutbox(d.outbox);
    if outbox.Err? { return Err(outbox.error); }
    r := Ok(PersistentState(d.desired, actions.value, d.retry, outbox.value));
  }

  // ---- round trip ----------------------------------------------------------------------------

  lemma SameAction(d: ActionDto, a: Action, b: Action)
    requires ActionEncodes(d, a) && ActionEncodes(d, b) && ActionFits(a) && ActionFits(b)
    ensures a == b
  {
    hide FormatId;
    IdTextRoundTrip(a.id, b.id);
    assert a.emitted == b.emitted;
  }

  lemma SameEntry(d: EntryDto, e: OutboxEntry, f: OutboxEntry)
    requires EntryEncodes(d, e) && EntryEncodes(d, f) && EntryFits(e) && EntryFits(f)
    ensures e == f
  {
    hide FormatId;
    IdTextRoundTrip(e.id, f.id);
    if e.payload.Chat? && f.payload.Chat? { IdTextRoundTrip(e.payload.message.id, f.payload.message.id); }
  }

  /** A file is the encoding of at most one state. */
  lemma OneStatePerFile(d: FileDto, s: PersistentState, t: PersistentState)
    requires FileEncodes(d, s) && FileEncodes(d, t) && IdsFit(s) && IdsFit(t)
    ensures s == t
  {
    hide ActionEncodes, EntryEncodes, ActionFits, EntryFits;
    forall i | 0 <= i < |s.actions| ensures s.actions[i] == t.actions[i] {
      SameAction(d.actions[i], s.actions[i], t.actions[i]);
    }
    forall i | 0 <= i < |s.outbox| ensures s.outbox[i] == t.outbox[i] {
      SameEntry(d.outbox[i], s.outbox[i], t.outbox[i]);
    }
  }

  lemma {:induction false} DistinctNeverRepeat(ts: seq<Threshold>)
    requires forall i, j :: 0 <= i < j < |ts| ==> ts[i] != ts[j]
    ensures FirstRepeat(ts) == None
    decreases |ts|
  {
    if ts != [] { DistinctNeverRepeat(ts[..|ts| - 1]); }
  }

  lemma {:induction false} EncodedActionsPass(ds: seq<ActionDto>, actions: seq<Action>)
    requires |ds| == |actions| && UniqueActions(actions)
    requires forall i :: 0 <= i < |actions| ==> ActionEncodes(ds[i], actions[i]) && ActionFits(actions[i])
    ensures ActionDtoFault(ds) == None
    decreases |ds|
  {
    hide FormatId, ParseId, FirstRepeat;
    if ds != [] {
      var n := |ds| - 1;
      EncodedActionsPass(ds[..n], actions[..n]);
      ParseIdExact(ds[n].id, actions[n].id);
      DistinctNeverRepeat(ds[n].thresholds);
      forall d | d in ds[..n] ensures ParseId(d.id) != Some(actions[n].id) {
        var j :| 0 <= j < n && ds[j] == d;
        ParseIdExact(d.id, actions[j].id);
      }
    }
  }

  lemma {:induction false} EncodedEntriesPass(ds: seq<EntryDto>, outbox: seq<OutboxEntry>)
    requires |ds| == |outbox| && UniqueEntries(outbox)
    requires forall i :: 0 <= i < |outbox| ==> EntryEncodes(ds[i], outbox[i]) && EntryFits(outbox[i])
    ensures EntryDtoFault(ds) == None
    decreases |ds|
  {
    hide FormatId, ParseId;
    if ds != [] {
      var n := |ds| - 1;
      EncodedEntriesPass(ds[..n], outbox[..n]);
      ParseIdExact(ds[n].id, outbox[n].id);
      if outbox[n].payload.Chat? { ParseIdExact(ds[n].payload.id, outbox[n].payload.message.id); }
      forall d | d in ds[..n] ensures ParseId(d.id) != Some(outbox[n].id) {
        var j :| 0 <= j < n && ds[j] == d;
        ParseIdExact(d.id, outbox[j].id);
      }
    }
  }

  /** Decoding accepts every encoding of an encodable state, whatever the order in which its
      threshold sets were written. */
  lemma EncodingsAreAccepted(d: FileDto, s: PersistentState)
    requires FileEncodes(d, s) && Encodable(s) && IdsFit(s)
    ensures FileFault(d) == None
  {
    hide ActionEncodes, EntryEncodes, ActionDtoFault, EntryDtoFault;
    EncodedActionsPass(d.actions, s.actions);
    EncodedEntriesPass(d.outbox, s.outbox);
  }

  /** The round trip: what has been saved is what is loaded. */
  method SaveAndLoad(s: PersistentState) returns (r: Result<PersistentState>)
    requires IdsFit(s)
    ensures Encodable(s) ==> r == Ok(s)
    ensures !Encodable(s) ==> r.Err? && StateFault(s) == Some(r.error)
  {
    var d := Encode(s);
    if d.Err? { return Err(d.error); }
    EncodingsAreAccepted(d.value, s);
    r := Decode(d.value);
    OneStatePerFile(d.value, s, r.value);
  }
}
