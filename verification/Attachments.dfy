/** Attaching volumes to instances: the provider's side of it for one instance, and the
    whole of a publish or unpublish handler on it, run without interruption. */
module Attachments {
  import opened Common
  import opened Provider

  const PUBLISH_INFO_VOLUME_ID := "volume-id"
  const PUBLISH_INFO_NODE_ID := "node-id"
  const PUBLISH_INFO_STATUS := "attach-status"
  const PUBLISH_INFO_REQUEST_ID := "request-id"
  const STATUS_ATTACHED := "attached"

  // ---- The provider's side ------------------------------------------------------------

  datatype Status = Attaching | Attached | Detaching

  datatype Attachment = Attachment(id: nat, devicePath: string, status: Status)

  /** What the provider holds for one instance: its attachments by volume. */
  datatype Instance = Instance(attachments: map<string, Attachment>, nextId: nat)

  const EMPTY_INSTANCE := Instance(map[], 0)

  datatype Effect<T> = Effect(instance: Instance, result: Result<T, ErrorType>)

  function WithFault<T>(before: Instance, done: Effect<T>, fault: CallFault): Effect<T> {
    match fault
    case Fine => done
    case Fails(kind) => Effect(before, Err(kind))
    case FailsAfter(kind) => Effect(done.instance, Err(kind))
  }

  /** What a call reports of an attachment: the device path only once it is attached. */
  function Shown(attachment: Attachment): Attachment {
    if attachment.status == Attached then attachment else attachment.(devicePath := "")
  }

  /** Idempotent: a volume already attached, or on its way, keeps its attachment. */
  function AttachVolume(inst: Instance, volumeID: string, devicePath: string, fault: CallFault): Effect<Attachment> {
    var att := inst.attachments;
    var done :=
      if volumeID in att && att[volumeID].status != Detaching then Effect(inst, Ok(Shown(att[volumeID])))
      else if volumeID in att then Effect(inst, Err(OtherType))
      else
        var made := Attachment(inst.nextId, devicePath, Attaching);
        Effect(Instance(att[volumeID := made], inst.nextId + 1), Ok(Shown(made)));
    WithFault(inst, done, fault)
  }

  /** Waits on the attachment with the given id. */
  function WaitForAttachVolume(inst: Instance, volumeID: string, id: nat, fault: CallFault): Effect<Attachment> {
    var att := inst.attachments;
    var done :=
      if volumeID in att && att[volumeID].id == id && att[volumeID].status != Detaching then
        var settled := att[volumeID].(status := Attached);
        Effect(inst.(attachments := att[volumeID := settled]), Ok(Shown(settled)))
      else Effect(inst, Err(OtherType));
    WithFault(inst, done, fault)
  }

  function DetachVolume(inst: Instance, volumeID: string, fault: CallFault): Effect<()> {
    var att := inst.attachments;
    var done :=
      if volumeID in att then
        Effect(inst.(attachments := att[volumeID := att[volumeID].(status := Detaching)]), Ok(()))
      else Effect(inst, Ok(()));
    WithFault(inst, done, fault)
  }

  function WaitForDetachVolume(inst: Instance, volumeID: string, fault: CallFault): Effect<()> {
    var att := inst.attachments;
    var done :=
      if volumeID !in att then Effect(inst, Ok(()))
      else if att[volumeID].status == Detaching then Effect(inst.(attachments := att - {volumeID}), Ok(()))
      else Effect(inst, Err(OtherType));
    WithFault(inst, done, fault)
  }

  // ---- Requests and responses -----------------------------------------------------------

  /** What looking up the volume reports. */
  datatype LookupResult = Found | Missing | Broken

  /** What the provider will do during one call of a handler. */
  datatype Env = Env(session: bool, lookup: LookupResult, act: CallFault, wait: CallFault,
                     devicePath: string, requestID: string)

  datatype Request =
    | Publish(volumeID: string, nodeID: string, capability: Option<VolumeCapability>, env: Env)
    | Unpublish(volumeID: string, nodeID: string, env: Env)

  datatype Response =
    | Published(context: map<string, string>)
    | Unpublished
    | Refused(error: ControllerError)

  function BackendOf(kind: ErrorType): Response {
    Refused(if kind == NodeNotFound then ObjectNotFound else BackendError)
  }

  function BaseContext(volumeID: string, nodeID: string, attachment: Attachment): map<string, string> {
    map[PUBLISH_INFO_VOLUME_ID := volumeID,
        PUBLISH_INFO_NODE_ID := nodeID,
        PUBLISH_INFO_STATUS := STATUS_ATTACHED,
        PUBLISH_INFO_DEVICE_PATH := attachment.devicePath]
  }

  /** The merged publish context; the extra entries win. */
  function PublishContext(req: Request, attachment: Attachment): map<string, string> {
    BaseContext(req.volumeID, req.nodeID, attachment) + map[PUBLISH_INFO_REQUEST_ID := req.env.requestID]
  }

  /** Merging the extra entries one by one, in whatever order they come. */
  method MergeContext(base: map<string, string>, extra: map<string, string>)
    returns (context: map<string, string>)
    ensures context == base + extra
    ensures PUBLISH_INFO_DEVICE_PATH in base && PUBLISH_INFO_DEVICE_PATH !in extra ==>
              PUBLISH_INFO_DEVICE_PATH in context
              && context[PUBLISH_INFO_DEVICE_PATH] == base[PUBLISH_INFO_DEVICE_PATH]
  {
    context := base;
    var remaining := extra.Keys;
    while remaining != {}
      invariant remaining <= extra.Keys
      invariant context == base + (map k | k in extra && k !in remaining :: extra[k])
      decreases remaining
    {
      var k :| k in remaining;
      context := context[k := extra[k]];
      remaining := remaining - {k};
    }
    assert (map k | k in extra && k !in remaining :: extra[k]) == extra;
  }

  /** What a request is refused for before any lock is taken. */
  function Objection(req: Request): Option<ControllerError> {
    if req.volumeID == "" then Some(EmptyVolumeID)
    else if req.nodeID == "" then Some(EmptyNodeID)
    else if req.Publish? && req.capability.None? then Some(NoVolumeCapabilities)
    else None
  }

  // ---- The handlers, uninterrupted --------------------------------------------------------

  datatype Handled = Handled(instance: Instance, response: Response)

  function PublishHandled(inst: Instance, req: Request): Handled
    requires req.Publish? && Objection(req).None?
  {
    if !AllSupported([req.capability.value], DRIVER_MODES) then
      Handled(inst, Refused(VolumeCapabilitiesNotSupported))
    else if !req.env.session then Handled(inst, Refused(InternalError))
    else if req.env.lookup == Missing then Handled(inst, Refused(ObjectNotFound))
    else if req.env.lookup == Broken then Handled(inst, Refused(InternalError))
    else
      var attached := AttachVolume(inst, req.volumeID, req.env.devicePath, req.env.act);
      if attached.result.Err? then Handled(attached.instance, BackendOf(attached.result.error))
      else
        var waited := WaitForAttachVolume(attached.instance, req.volumeID, attached.result.value.id, req.env.wait);
        if waited.result.Err? then Handled(waited.instance, Refused(BackendError))
        else Handled(waited.instance, Published(PublishContext(req, waited.result.value)))
  }

  function UnpublishHandled(inst: Instance, req: Request): Handled
    requires req.Unpublish?
  {
    if !req.env.session then Handled(inst, Refused(InternalError))
    else
      var detached := DetachVolume(inst, req.volumeID, req.env.act);
      if detached.result.Err? then Handled(detached.instance, Refused(BackendError))
      else
        var waited := WaitForDetachVolume(detached.instance, req.volumeID, req.env.wait);
        if waited.result.Err? then Handled(waited.instance, Refused(BackendError))
        else Handled(waited.instance, Unpublished)
  }

  function HandledWhole(inst: Instance, req: Request): Handled
    requires Objection(req).None?
  {
    if req.Publish? then PublishHandled(inst, req) else UnpublishHandled(inst, req)
  }

  // ---- What a success means ------------------------------------------------------------------

  /** A successful publish leaves the volume attached, and its context carries the device
      path that the wait reported, for the attachment that the attach call produced. */
  lemma PublishedMeansAttached(inst: Instance, req: Request)
    requires req.Publish? && Objection(req).None?
    requires PublishHandled(inst, req).response.Published?
    ensures var done := PublishHandled(inst, req);
            var attached := AttachVolume(inst, req.volumeID, req.env.devicePath, req.env.act);
            && req.volumeID in done.instance.attachments
            && done.instance.attachments[req.volumeID].status == Attached
            && PUBLISH_INFO_DEVICE_PATH in done.response.context
            && done.response.context[PUBLISH_INFO_DEVICE_PATH]
               == done.instance.attachments[req.volumeID].devicePath
            && attached.result.Ok?
            && done.instance.attachments[req.volumeID].id == attached.result.value.id
            && (var waited := WaitForAttachVolume(attached.instance, req.volumeID, attached.result.value.id,
                                                  req.env.wait);
                && waited.result.Ok? && waited.result.value.id == attached.result.value.id
                && done.response.context[PUBLISH_INFO_DEVICE_PATH] == waited.result.value.devicePath)
            && (forall v | v != req.volumeID ::
                  (v in done.instance.attachments <==> v in inst.attachments)
                  && (v in inst.attachments ==> done.instance.attachments[v] == inst.attachments[v]))
  {
  }

  /** A successful unpublish leaves the volume detached, and only that one changed. */
  lemma UnpublishedMeansDetached(inst: Instance, req: Request)
    requires req.Unpublish? && UnpublishHandled(inst, req).response.Unpublished?
    ensures UnpublishHandled(inst, req).instance.attachments == inst.attachments - {req.volumeID}
  {
  }

  /** What lets a publish through: a supported mode, a session, a lookup that finds the
      volume, and two calls that go well. */
  predicate Unhindered(req: Request)
    requires req.Publish? && req.capability.Some?
  {
    && AllSupported([req.capability.value], DRIVER_MODES) && req.env.session && req.env.lookup.Found?
    && req.env.act.Fine? && req.env.wait.Fine?
  }

  predicate SameDevicePath(a: map<string, string>, b: map<string, string>) {
    && PUBLISH_INFO_DEVICE_PATH in a && PUBLISH_INFO_DEVICE_PATH in b
    && a[PUBLISH_INFO_DEVICE_PATH] == b[PUBLISH_INFO_DEVICE_PATH]
  }

  predicate SameContext(first: Request, again: Request) {
    first.nodeID == again.nodeID && first.env.requestID == again.env.requestID
  }

  /** Publishing again changes nothing, whatever fails; it succeeds exactly when nothing
      hinders it, and then with the same device path. */
  lemma PublishIsIdempotent(inst: Instance, first: Request, again: Request)
    requires first.Publish? && Objection(first).None? && PublishHandled(inst, first).response.Published?
    requires again.Publish? && Objection(again).None? && again.volumeID == first.volumeID
    ensures var once := PublishHandled(inst, first);
            var twice := PublishHandled(once.instance, again);
            && twice.instance == once.instance
            && (twice.response.Published? <==> Unhindered(again))
            && (twice.response.Published? ==>
                  SameDevicePath(twice.response.context, once.response.context))
            && (twice.response.Published? && SameContext(first, again) ==> twice == once)
  {
    PublishAnswer(inst, first);
    PublishedMeansAttached(inst, first);
    PublishOverAttached(PublishHandled(inst, first).instance, again);
  }

  /** A successful publish answers with the context of the attachment it leaves. */
  lemma PublishAnswer(inst: Instance, req: Request)
    requires req.Publish? && Objection(req).None? && PublishHandled(inst, req).response.Published?
    ensures var done := PublishHandled(inst, req);
            && req.volumeID in done.instance.attachments
            && done.response == Published(PublishContext(req, done.instance.attachments[req.volumeID]))
  {
  }

  /** Over a volume that is attached, a publish changes nothing. */
  lemma PublishOverAttached(inst: Instance, req: Request)
    requires req.Publish? && Objection(req).None? && req.volumeID in inst.attachments
    requires inst.attachments[req.volumeID].status == Attached
    ensures PublishHandled(inst, req).instance == inst
    ensures if Unhindered(req)
            then PublishHandled(inst, req).response == Published(PublishContext(req, inst.attachments[req.volumeID]))
            else PublishHandled(inst, req).response.Refused?
  {
    var att := inst.attachments;
    assert att[req.volumeID := att[req.volumeID]] == att;
  }

  /** Whatever fails on the way, a handler changes nothing but its own volume's attachment. */
  lemma HandlersTouchOneVolume(inst: Instance, req: Request)
    requires Objection(req).None?
    ensures HandledWhole(inst, req).instance.attachments - {req.volumeID} == inst.attachments - {req.volumeID}
    ensures HandledWhole(inst, req).instance.nextId >= inst.nextId
  {
    var after := HandledWhole(inst, req).instance.attachments;
    assert forall v | v != req.volumeID ::
        (v in after <==> v in inst.attachments) && (v in inst.attachments ==> after[v] == inst.attachments[v]);
  }

  /** A publish says that something was not found exactly when the volume's lookup, or the
      attach call about the node, said so. */
  lemma NotFoundExactlyWhen(inst: Instance, req: Request)
    requires req.Publish? && Objection(req).None?
    ensures PublishHandled(inst, req).response == Refused(ObjectNotFound)
            <==> (&& req.capability.value.mode == SingleNodeWriter && req.env.session
                  && (req.env.lookup.Missing?
                      || (req.env.lookup.Found?
                          && (req.env.act == Fails(NodeNotFound) || req.env.act == FailsAfter(NodeNotFound)))))
  {
    assert AllSupported([req.capability.value], DRIVER_MODES) <==> req.capability.value.mode == SingleNodeWriter by {
      assert req.capability.value in [req.capability.value];
      assert DRIVER_MODES[0] == SingleNodeWriter;
    }
  }

  /** A handler that is refused before it reaches the attach or detach call changes nothing. */
  lemma RefusedEarlyChangesNothing(inst: Instance, req: Request)
    requires Objection(req).None?
    requires !req.env.session
             || (req.Publish? && !(req.env.lookup.Found? && AllSupported([req.capability.value], DRIVER_MODES)))
    ensures HandledWhole(inst, req).instance == inst && HandledWhole(inst, req).response.Refused?
  {
  }

  // ---- Answers by the fields of the request -------------------------------------------------

  /** What is refused before the lock, and as what. */
  lemma ObjectionAnswers(req: Request)
    ensures Objection(req).None? <==>
              req.volumeID != "" && req.nodeID != "" && (req.Publish? ==> req.capability.Some?)
    ensures req.volumeID == "" ==> Objection(req) == Some(EmptyVolumeID)
    ensures req.volumeID != "" && req.nodeID == "" ==> Objection(req) == Some(EmptyNodeID)
    ensures req.volumeID != "" && req.nodeID != "" && req.Publish? && req.capability.None? ==>
              Objection(req) == Some(NoVolumeCapabilities)
  {
  }

  lemma SupportedMode(cap: VolumeCapability)
    ensures AllSupported([cap], DRIVER_MODES) <==> cap.mode == SingleNodeWriter
  {
    assert cap in [cap];
    assert DRIVER_MODES[0] == SingleNodeWriter;
  }

  predicate BeingDetached(inst: Instance, volumeID: string) {
    volumeID in inst.attachments && inst.attachments[volumeID].status == Detaching
  }

  /** What a publish answers, by its capability, its lookup and its calls in turn. */
  lemma PublishAnswers(inst: Instance, req: Request)
    requires req.Publish? && req.volumeID != "" && req.nodeID != "" && req.capability.Some?
    ensures Objection(req).None?
    ensures var response, env := PublishHandled(inst, req).response, req.env;
            if req.capability.value.mode != SingleNodeWriter then response == Refused(VolumeCapabilitiesNotSupported)
            else if !env.session then response == Refused(InternalError)
            else if env.lookup == Missing then response == Refused(ObjectNotFound)
            else if env.lookup == Broken then response == Refused(InternalError)
            else if env.act == Fails(NodeNotFound) || env.act == FailsAfter(NodeNotFound) then
              response == Refused(ObjectNotFound)
            else if !env.act.Fine? || BeingDetached(inst, req.volumeID) || !env.wait.Fine? then
              response == Refused(BackendError)
            else response.Published?
  {
    SupportedMode(req.capability.value);
  }

  /** What an unpublish answers. */
  lemma UnpublishAnswers(inst: Instance, req: Request)
    requires req.Unpublish?
    ensures UnpublishHandled(inst, req).response
            == if !req.env.session then Refused(InternalError)
               else if !req.env.act.Fine? || !req.env.wait.Fine? then Refused(BackendError)
               else Unpublished
  {
  }

  /** Every entry of the context of a successful publish. */
  lemma PublishedContext(inst: Instance, req: Request)
    requires req.Publish? && Objection(req).None? && PublishHandled(inst, req).response.Published?
    ensures var done := PublishHandled(inst, req);
            && req.volumeID in done.instance.attachments
            && done.response.context
               == map["volume-id" := req.volumeID, "node-id" := req.nodeID, "attach-status" := "attached",
                      "device-path" := done.instance.attachments[req.volumeID].devicePath,
                      "request-id" := req.env.requestID]
  {
    PublishAnswer(inst, req);
  }
}
