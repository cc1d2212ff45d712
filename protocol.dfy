/**
  The values that travel between the HTTP handlers and the model worker:
  request records, runtime snapshots, token events, the commands of the
  worker queue, and the sending end of that queue.
 */
module Protocol {
  import opened Wrappers

  type Path = string

  /** The fields of a record that the handlers here never read, by name. */
  type Fields = map<string, string>

  /** An `f32`, carried as its bit pattern: nothing here computes with it. */
  type F32 = bv32

  /** A LoRA adapter or an initial state of a reload request: its path and its other fields. */
  datatype PathEntry = PathEntry(path: Path, fields: Fields)

  /** `ReloadRequest`: the model file, the adapters, the initial states, and the remaining settings. */
  datatype ReloadRequest = ReloadRequest(modelPath: Path, lora: seq<PathEntry>, state: seq<PathEntry>, settings: Fields)

  /** `SaveRequest`: where to write the prefab, and its other fields. */
  datatype SaveRequest = SaveRequest(path: Path, fields: Fields)

  datatype StateId = StateId(raw: nat)

  /** A registered initial state: its name and its tensor data. */
  datatype InitState = InitState(name: string, data: seq<F32>)

  datatype TokenizerRef = TokenizerRef(id: nat)

  /** `RuntimeInfo`: the snapshot the worker answers an info query with. */
  datatype RuntimeInfo = RuntimeInfo(
    reload: ReloadRequest,
    model: Fields,
    states: seq<(StateId, InitState)>,
    tokenizer: TokenizerRef)

  /** `GenerateRequest`; `sampling` stands for the sampling parameters. */
  datatype GenerateRequest = GenerateRequest(
    prompt: string,
    maxTokens: nat,
    stop: seq<string>,
    embed: bool,
    embedLayer: nat,
    sampling: Fields)

  datatype TokenCounter = TokenCounter(promptTokens: nat, completionTokens: nat, totalTokens: nat)

  /** `TokenCounter::default()`: nothing counted yet. */
  const NO_TOKENS := TokenCounter(0, 0, 0)

  /** One event of a generation session's output stream. */
  datatype Token =
    | Content(text: string)
    | Stop(reason: string, counter: TokenCounter)
    | Embed(vector: seq<F32>)
    | Error(kind: string)

  /** A reply or token channel, numbered in the order the handlers create them. */
  type ChannelId = nat

  /** `ThreadRequest`: what a handler can put on the worker queue. */
  datatype Command =
    | Reload(request: ReloadRequest, replyTo: Option<ChannelId>)
    | Unload
    | StateLoad(entry: PathEntry, replyTo: Option<ChannelId>)
    | Save(save: SaveRequest, replyChannel: ChannelId)
    | Generate(generate: GenerateRequest, tokenizer: TokenizerRef, output: ChannelId)
    | QueryInfo(infoChannel: ChannelId)

  /** The channel on which `c` expects its answer, if it carries one. */
  function ChannelOf(c: Command): (r: Option<ChannelId>)
    ensures r.None? <==> c.Unload? || (c.Reload? && c.replyTo.None?) || (c.StateLoad? && c.replyTo.None?)
  {
    match c
    case Reload(_, ch) => ch
    case Unload => None
    case StateLoad(_, ch) => ch
    case Save(_, ch) => Some(ch)
    case Generate(_, _, ch) => Some(ch)
    case QueryInfo(ch) => Some(ch)
  }

  /** HTTP status codes the model-management handlers answer with. */
  datatype StatusCode = Ok | NotFound | InternalServerError {
    /** The numeric code: 200, 404 and 500, one per status. */
    function Code(): (r: nat)
      ensures r == 200 <==> this.Ok?
      ensures r == 404 <==> this.NotFound?
      ensures r == 500 <==> this.InternalServerError?
    {
      match this
      case Ok => 200
      case NotFound => 404
      case InternalServerError => 500
    }
  }

  /**
    The sending end of the worker queue (the `flume` sender every handler
    shares). `sent` is everything sent so far, oldest first; `channels`
    counts the reply and token channels created so far.
   */
  class CommandQueue {
    var sent: seq<Command>
    var channels: nat

    /** Every channel a sent command carries was created first, and no two commands share one. */
    ghost predicate Valid()
      reads this
    {
      && (forall i | 0 <= i < |sent| && ChannelOf(sent[i]).Some? :: ChannelOf(sent[i]).value < channels)
      && (forall i, j | 0 <= i < j < |sent| && ChannelOf(sent[i]).Some? && ChannelOf(sent[j]).Some? ::
            ChannelOf(sent[i]).value != ChannelOf(sent[j]).value)
    }

    /** A channel that has been created and that no sent command carries yet. */
    ghost predicate Unused(ch: ChannelId)
      reads this
    {
      ch < channels && forall i | 0 <= i < |sent| :: ChannelOf(sent[i]) != Some(ch)
    }

    constructor ()
      ensures Valid() && sent == [] && channels == 0
    {
      sent := [];
      channels := 0;
    }

    /** `flume::unbounded()`: a new channel, distinct from every earlier one. */
    method NewChannel() returns (ch: ChannelId)
      requires Valid()
      modifies this
      ensures Valid() && Unused(ch)
      ensures ch == old(channels) && channels == old(channels) + 1 && sent == old(sent)
    {
      ch := channels;
      channels := channels + 1;
    }

    /**
      `sender.send(c)`: the command joins the end of the queue. A send fails
      only once the worker's receiving end is gone, every caller discards that
      error, and the worker's lifetime is not modelled, so here it is appended.
     */
    method Send(c: Command)
      requires Valid()
      requires ChannelOf(c).Some? ==> Unused(ChannelOf(c).value)
      modifies this
      ensures Valid()
      ensures sent == old(sent) + [c] && channels == old(channels)
    {
      sent := sent + [c];
    }
  }
}
