/**
  The model-management handlers under `/api/models`: every path a request
  carries goes through the sandbox first, a request that fails it is
  answered 404 without touching the worker queue, and otherwise exactly one
  command goes onto the queue and the worker's yes/no answer becomes 200
  or 500. The info handlers project the worker's state registry.
 */
module ModelApi {
  import opened Wrappers
  import opened Protocol

  /** `build_path(root, path)`: the sandboxed path, or a failure when `path` escapes `root`. */
  type Sandbox = (Path, Path) -> Result<Path>

  /** The entries with every path sandboxed; fails when any one path fails. */
  function SandboxEntries(jail: Sandbox, root: Path, entries: seq<PathEntry>): (r: Result<seq<PathEntry>>)
    ensures r.Success? <==> forall k | 0 <= k < |entries| :: jail(root, entries[k].path).Success?
    ensures r.Success? ==>
      && |r.value| == |entries|
      && forall k | 0 <= k < |entries| ::
           r.value[k] == PathEntry(jail(root, entries[k].path).value, entries[k].fields)
  {
    if entries == [] then Success([])
    else
      var init := SandboxEntries(jail, root, entries[..|entries| - 1]);
      var last := entries[|entries| - 1];
      match (init, jail(root, last.path))
      case (Success(done), Success(p)) => Success(done + [PathEntry(p, last.fields)])
      case _ => Failure
  }

  /**
    The `for x in entries.iter_mut()` loops of `load`: each path is replaced
    by its sandboxed form in turn, and the first failure ends the loop.
   */
  method SandboxInPlace(jail: Sandbox, root: Path, entries: seq<PathEntry>) returns (r: Result<seq<PathEntry>>)
    ensures r == SandboxEntries(jail, root, entries)
  {
    var current := entries;
    var i := 0;
    while i < |current|
      invariant 0 <= i <= |current| == |entries|
      invariant SandboxEntries(jail, root, entries[..i]) == Success(current[..i])
      invariant current[i..] == entries[i..]
    {
      var p := jail(root, current[i].path);
      if p.Failure? {
        assert jail(root, entries[i].path).Failure?;
        return Failure;
      }
      assert entries[..i + 1][..i] == entries[..i];
      current := current[i := PathEntry(p.value, current[i].fields)];
      assert current[..i + 1] == current[..i] + [current[i]];
      i := i + 1;
    }
    assert entries[..i] == entries && current[..i] == current;
    r := Success(current);
  }

  /** The reload request with its model, LoRA and state paths sandboxed. */
  function SandboxReload(jail: Sandbox, root: Path, request: ReloadRequest): (r: Result<ReloadRequest>)
    ensures r.Success? <==>
      && jail(root, request.modelPath).Success?
      && SandboxEntries(jail, root, request.lora).Success?
      && SandboxEntries(jail, root, request.state).Success?
    ensures r.Success? ==>
      r.value == ReloadRequest(jail(root, request.modelPath).value,
                               SandboxEntries(jail, root, request.lora).value,
                               SandboxEntries(jail, root, request.state).value,
                               request.settings)
  {
    match (jail(root, request.modelPath), SandboxEntries(jail, root, request.lora), SandboxEntries(jail, root, request.state))
    case (Success(m), Success(l), Success(s)) => Success(ReloadRequest(m, l, s, request.settings))
    case _ => Failure
  }

  /** A request is refused exactly when one of its paths escapes the root. */
  lemma SandboxReloadFails(jail: Sandbox, root: Path, request: ReloadRequest)
    ensures SandboxReload(jail, root, request).Failure? <==>
      || jail(root, request.modelPath).Failure?
      || (exists k | 0 <= k < |request.lora| :: jail(root, request.lora[k].path).Failure?)
      || (exists k | 0 <= k < |request.state| :: jail(root, request.state[k].path).Failure?)
  {
  }

  /** A sandboxed reload request differs from the original in its paths only. */
  lemma SandboxReloadKeepsFields(jail: Sandbox, root: Path, request: ReloadRequest)
    requires SandboxReload(jail, root, request).Success?
    ensures var r := SandboxReload(jail, root, request).value;
      && r.settings == request.settings
      && |r.lora| == |request.lora| && |r.state| == |request.state|
      && (forall k | 0 <= k < |r.lora| :: r.lora[k].fields == request.lora[k].fields)
      && (forall k | 0 <= k < |r.state| :: r.state[k].fields == request.state[k].fields)
  {
  }

  /** The worker's answer on a reply channel, as a status code. */
  function ReplyStatus(reply: bool): (s: StatusCode)
    ensures s == Ok <==> reply
    ensures s == InternalServerError <==> !reply
  {
    if reply then Ok else InternalServerError
  }

  /** `InitStateInfo`: what a client is told about a registered state. */
  datatype InitStateInfo = InitStateInfo(id: StateId, name: string)

  /** `InfoResponse`: the reload settings, the model metadata, and the registered states. */
  datatype InfoResponse = InfoResponse(reload: ReloadRequest, model: Fields, states: seq<InitStateInfo>)

  /** One `InitStateInfo` per registered state, with its id and name, in registry order. */
  function ProjectStates(states: seq<(StateId, InitState)>): (r: seq<InitStateInfo>)
    ensures |r| == |states|
    ensures forall k | 0 <= k < |states| :: r[k].id == states[k].0 && r[k].name == states[k].1.name
  {
    if states == [] then [] else [InitStateInfo(states[0].0, states[0].1.name)] + ProjectStates(states[1..])
  }

  /** The answer of `/api/models/info` for the snapshot `info`. */
  function InfoOf(info: RuntimeInfo): (r: InfoResponse)
    ensures r.reload == info.reload && r.model == info.model
    ensures |r.states| == |info.states|
    ensures forall k | 0 <= k < |info.states| ::
      r.states[k] == InitStateInfo(info.states[k].0, info.states[k].1.name)
  {
    InfoResponse(info.reload, info.model, ProjectStates(info.states))
  }

  /** The events of `/api/models/state`: one `InfoResponse` per snapshot, in order. */
  function StateEvents(snapshots: seq<RuntimeInfo>): (r: seq<InfoResponse>)
    ensures |r| == |snapshots|
    ensures forall k | 0 <= k < |snapshots| :: r[k] == InfoOf(snapshots[k])
  {
    if snapshots == [] then [] else [InfoOf(snapshots[0])] + StateEvents(snapshots[1..])
  }

  /** State ids unique in the registry stay unique in what the info handlers report. */
  lemma ProjectKeepsDistinctIds(states: seq<(StateId, InitState)>)
    requires forall i, j | 0 <= i < j < |states| :: states[i].0 != states[j].0
    ensures forall i, j | 0 <= i < j < |ProjectStates(states)| ::
      ProjectStates(states)[i].id != ProjectStates(states)[j].id
  {
  }

  /**
    `ThreadState { sender, path }`: the queue every handler shares, the
    root all request paths are confined to, and the sandbox function.
   */
  class ThreadState {
    const sender: CommandQueue
    const root: Path
    const jail: Sandbox

    ghost predicate Valid()
      reads this, sender
    {
      sender.Valid()
    }

    constructor (sender: CommandQueue, root: Path, jail: Sandbox)
      requires sender.Valid()
      ensures Valid()
      ensures this.sender == sender && this.root == root && this.jail == jail
    {
      this.sender := sender;
      this.root := root;
      this.jail := jail;
    }

    /**
      `load`: sandbox the model path, then every LoRA path, then every state
      path, giving up with 404 at the first failure; otherwise send one
      `Reload` with a fresh reply channel, and answer with the worker's reply.
     */
    method Load(request: ReloadRequest, reply: bool) returns (status: StatusCode)
      requires Valid()
      modifies sender
      ensures Valid()
      ensures sender.channels == old(sender.channels) + 1
      ensures var jailed := SandboxReload(jail, root, request);
        && (jailed.Failure? ==> status == NotFound && sender.sent == old(sender.sent))
        && (jailed.Success? ==>
              && status == ReplyStatus(reply)
              && sender.sent == old(sender.sent) + [Reload(jailed.value, Some(old(sender.channels)))])
    {
      var channel := sender.NewChannel();
      var modelPath := jail(root, request.modelPath);
      if modelPath.Failure? {
        return NotFound;
      }
      var lora := SandboxInPlace(jail, root, request.lora);
      if lora.Failure? {
        return NotFound;
      }
      var state := SandboxInPlace(jail, root, request.state);
      if state.Failure? {
        return NotFound;
      }
      sender.Send(Reload(ReloadRequest(modelPath.value, lora.value, state.value, request.settings), Some(channel)));
      status := ReplyStatus(reply);
    }

    /** `unload`: one `Unload` goes onto the queue; waiting for the worker to exit is not modelled. */
    method Unload() returns (status: StatusCode)
      requires Valid()
      modifies sender
      ensures Valid()
      ensures status == Ok
      ensures sender.sent == old(sender.sent) + [Command.Unload] && sender.channels == old(sender.channels)
    {
      sender.Send(Command.Unload);
      status := Ok;
    }

    /** `load_state`: sandbox the state's path, then send one `StateLoad` with a fresh reply channel. */
    method LoadState(entry: PathEntry, reply: bool) returns (status: StatusCode)
      requires Valid()
      modifies sender
      ensures Valid()
      ensures sender.channels == old(sender.channels) + 1
      ensures jail(root, entry.path).Failure? ==> status == NotFound && sender.sent == old(sender.sent)
      ensures jail(root, entry.path).Success? ==>
        && status == ReplyStatus(reply)
        && sender.sent == old(sender.sent) +
             [StateLoad(PathEntry(jail(root, entry.path).value, entry.fields), Some(old(sender.channels)))]
    {
      var channel := sender.NewChannel();
      var path := jail(root, entry.path);
      if path.Failure? {
        return NotFound;
      }
      sender.Send(StateLoad(entry.(path := path.value), Some(channel)));
      status := ReplyStatus(reply);
    }

    /** `save`: sandbox the target path, then send one `Save`, whose reply channel is mandatory. */
    method Save(request: SaveRequest, reply: bool) returns (status: StatusCode)
      requires Valid()
      modifies sender
      ensures Valid()
      ensures sender.channels == old(sender.channels) + 1
      ensures jail(root, request.path).Failure? ==> status == NotFound && sender.sent == old(sender.sent)
      ensures jail(root, request.path).Success? ==>
        && status == ReplyStatus(reply)
        && sender.sent == old(sender.sent) +
             [Command.Save(SaveRequest(jail(root, request.path).value, request.fields), old(sender.channels))]
    {
      var channel := sender.NewChannel();
      var path := jail(root, request.path);
      if path.Failure? {
        return NotFound;
      }
      sender.Send(Command.Save(request.(path := path.value), channel));
      status := ReplyStatus(reply);
    }
  }
}
