/** Listing volumes and snapshots page by page, and one snapshot by its handle. */
module Paging {
  import opened Common
  import opened Provider
  import opened Text
  import opened Capacity
  import opened Inventory
  import opened SnapshotHandle
  import opened Controller
  import opened ControllerRuns
  import opened SnapshotLifecycle
  import Cloud

  /** An empty `next` says there is no further page. */
  datatype Page<+T> = Page(items: seq<T>, next: string)

  datatype ListError = LimitInvalid | StartNotFound | OtherFailure

  datatype ListedVolume = ListedVolume(volumeID: string, capacityBytes: int64)

  type VolumePage = Result<Page<Cloud.VolumeEntry>, ListError>
  type SnapshotPage = Result<Page<Cloud.SnapshotEntry>, ListError>

  // ---- One page -----------------------------------------------------------------------

  /** The volumes that have a capacity, in order. */
  function Sized(volumes: seq<Cloud.VolumeEntry>): seq<ListedVolume> {
    if volumes == [] then []
    else
      var last := volumes[|volumes| - 1];
      Sized(volumes[..|volumes| - 1])
      + if last.body.capacity.Some? then [ListedVolume(last.id, Wrap64(last.body.capacity.value * GIB))] else []
  }

  function VolumesListed(session: Session, page: VolumePage): Result<Page<ListedVolume>, ControllerError> {
    if session != Opened then Err(InternalError)
    else
      match page
      case Ok(p) => Ok(Page(Sized(p.items), p.next))
      case Err(LimitInvalid) => Err(InvalidParameters)
      case Err(StartNotFound) => Err(StartVolumeIDNotFound)
      case Err(OtherFailure) => Err(BackendError)
  }

  method ListVolumes(session: Session, page: VolumePage) returns (result: Result<Page<ListedVolume>, ControllerError>)
    ensures result == VolumesListed(session, page)
  {
    if session != Opened {
      return Err(InternalError);
    }
    if page.Err? {
      match page.error
      case LimitInvalid => return Err(InvalidParameters);
      case StartNotFound => return Err(StartVolumeIDNotFound);
      case OtherFailure => return Err(BackendError);
    }
    var volumes := page.value.items;
    var entries := [];
    for i := 0 to |volumes|
      invariant entries == Sized(volumes[..i])
    {
      assert volumes[..i + 1][..i] == volumes[..i];
      if volumes[i].body.capacity.Some? {
        entries := entries + [ListedVolume(volumes[i].id, Wrap64(volumes[i].body.capacity.value * GIB))];
      }
    }
    assert volumes[..|volumes|] == volumes;
    result := Ok(Page(entries, page.value.next));
  }

  function Answers(snapshots: seq<Cloud.SnapshotEntry>): (answers: seq<SnapshotResponse>)
    ensures |answers| == |snapshots|
    ensures forall k | 0 <= k < |answers| ::
              answers[k] == var body := snapshots[k].body;
                            SnapshotResponse(body.crn, body.volumeID, body.size, body.ready)
  {
    seq(|snapshots|, i requires 0 <= i < |snapshots| => SnapshotAnswer(snapshots[i]))
  }

  const SOURCE_FILTER := "source_volume.id"

  /** The filter sent along with a listing: the source volume, if one is given. */
  function FilterOf(sourceVolumeID: string): map<string, string> {
    if sourceVolumeID == "" then map[] else map[SOURCE_FILTER := sourceVolumeID]
  }

  /** One snapshot by its handle. A handle of another account is echoed. */
  function ListedByHandle(a: Account, cfg: Config, handle: string, lookup: Cloud.Lookup): seq<SnapshotResponse> {
    var parsed := ParseHandle(handle);
    if cfg.accountID == parsed.accountID then
      match Cloud.GetById(a.snapshots, parsed.snapshotID, lookup)
      case Ok(s) => [SnapshotAnswer(s)]
      case Err(_) => []
    else [SnapshotResponse(handle, "", 0, true)]
  }

  /** `ask` is the provider: the page it gives for a filter. */
  function SnapshotsListed(a: Account, cfg: Config, handle: string, sourceVolumeID: string, env: Env,
                           ask: map<string, string> -> SnapshotPage)
    : Result<Page<SnapshotResponse>, ControllerError>
  {
    if env.session != Opened then Err(SessionError(env.session))
    else if ParseHandle(handle).snapshotID != "" then Ok(Page(ListedByHandle(a, cfg, handle, env.lookup), ""))
    else
      match ask(FilterOf(sourceVolumeID))
      case Ok(p) => Ok(Page(Answers(p.items), p.next))
      case Err(LimitInvalid) => Err(InvalidParameters)
      case Err(StartNotFound) => Err(StartSnapshotIDNotFound)
      case Err(OtherFailure) => Err(ListSnapshotsFailed)
  }

  method ListSnapshots(a: Account, cfg: Config, handle: string, sourceVolumeID: string, env: Env,
                       ask: map<string, string> -> SnapshotPage)
    returns (result: Result<Page<SnapshotResponse>, ControllerError>)
    ensures result == SnapshotsListed(a, cfg, handle, sourceVolumeID, env, ask)
  {
    if env.session != Opened {
      return Err(SessionError(env.session));
    }
    var parsed := ParseHandle(handle);
    if |parsed.snapshotID| != 0 {
      if cfg.accountID != parsed.accountID {
        return Ok(Page([SnapshotResponse(handle, "", 0, true)], ""));
      }
      var found := Cloud.GetById(a.snapshots, parsed.snapshotID, env.lookup);
      return Ok(Page(if found.Ok? then [SnapshotAnswer(found.value)] else [], ""));
    }
    var tags: map<string, string> := map[];
    if |sourceVolumeID| != 0 {
      tags := tags[SOURCE_FILTER := sourceVolumeID];
    }
    var page := ask(tags);
    if page.Err? {
      match page.error
      case LimitInvalid => return Err(InvalidParameters);
      case StartNotFound => return Err(StartSnapshotIDNotFound);
      case OtherFailure => return Err(ListSnapshotsFailed);
    }
    var snapshots := page.value.items;
    var entries := [];
    for i := 0 to |snapshots|
      invariant entries == Answers(snapshots[..i])
    {
      entries := entries + [SnapshotAnswer(snapshots[i])];
    }
    assert snapshots[..|snapshots|] == snapshots;
    result := Ok(Page(entries, page.value.next));
  }

  // ---- What a filtered listing is -----------------------------------------------------------

  /** Where the volumes with a capacity stand. */
  function SizedPlaces(volumes: seq<Cloud.VolumeEntry>): seq<nat> {
    if volumes == [] then []
    else SizedPlaces(volumes[..|volumes| - 1])
         + if volumes[|volumes| - 1].body.capacity.Some? then [|volumes| - 1] else []
  }

  predicate Increasing(places: seq<nat>) {
    forall j, k | 0 <= j < k < |places| :: places[j] < places[k]
  }

  /** The places are exactly those of the volumes with a capacity. */
  ghost predicate AreSizedPlaces(volumes: seq<Cloud.VolumeEntry>, places: seq<nat>) {
    forall i: nat :: i in places <==> i < |volumes| && volumes[i].body.capacity.Some?
  }

  ghost predicate ListsPlaces(volumes: seq<Cloud.VolumeEntry>, places: seq<nat>, listed: seq<ListedVolume>) {
    && |listed| == |places|
    && forall k | 0 <= k < |places| ::
      places[k] < |volumes| && volumes[places[k]].body.capacity.Some?
      && listed[k].volumeID == volumes[places[k]].id
      && listed[k].capacityBytes == Wrap64(volumes[places[k]].body.capacity.value * GIB)
  }

  /** Every volume with a capacity is listed once, in order, and nothing else is. */
  ghost predicate ListsInOrder(volumes: seq<Cloud.VolumeEntry>, places: seq<nat>, listed: seq<ListedVolume>) {
    Increasing(places) && AreSizedPlaces(volumes, places) && ListsPlaces(volumes, places, listed)
  }

  lemma {:induction false} SizedIsOrderedFilter(volumes: seq<Cloud.VolumeEntry>)
    ensures ListsInOrder(volumes, SizedPlaces(volumes), Sized(volumes))
  {
    if volumes != [] {
      var front, v := volumes[..|volumes| - 1], volumes[|volumes| - 1];
      SizedIsOrderedFilter(front);
      PlacesExtend(volumes, front, v, SizedPlaces(front), Sized(front), SizedPlaces(volumes), Sized(volumes));
    }
  }

  lemma PlacesExtend(volumes: seq<Cloud.VolumeEntry>, front: seq<Cloud.VolumeEntry>, v: Cloud.VolumeEntry,
                     places: seq<nat>, listed: seq<ListedVolume>, places': seq<nat>, listed': seq<ListedVolume>)
    requires volumes == front + [v] && ListsInOrder(front, places, listed)
    requires places' == places + if v.body.capacity.Some? then [|front|] else []
    requires listed' == listed + if v.body.capacity.Some?
                                 then [ListedVolume(v.id, Wrap64(v.body.capacity.value * GIB))] else []
    ensures ListsInOrder(volumes, places', listed')
  {
    assert forall k | 0 <= k < |places| :: places[k] in places;
  }

  lemma {:induction false} SizedAppend(front: seq<Cloud.VolumeEntry>, back: seq<Cloud.VolumeEntry>)
    ensures Sized(front + back) == Sized(front) + Sized(back)
  {
    if back == [] {
      assert front + back == front;
    } else {
      var last := |back| - 1;
      assert (front + back)[..|front + back| - 1] == front + back[..last];
      SizedAppend(front, back[..last]);
    }
  }

  // ---- All pages ------------------------------------------------------------------------------

  /** A provider that serves one listing in pages: each token stands for a place, and its
      page runs from there to where the next token stands, or to the end. */
  datatype Pager<T> = Pager(listing: seq<T>, places: map<string, nat>, pages: map<string, Page<T>>)

  ghost predicate Serves<T>(p: Pager<T>, token: string) {
    && token in p.places && token in p.pages
    && var page := p.pages[token];
       var end := p.places[token] + |page.items|;
       && end <= |p.listing| && page.items == p.listing[p.places[token]..end]
       && (page.next == "" <==> end == |p.listing|)
       && (page.next != "" ==> page.items != [] && page.next in p.places && p.places[page.next] == end)
  }

  ghost predicate Partitions<T>(p: Pager<T>) {
    && "" in p.places && p.places[""] == 0
    && forall token | token in p.places :: Serves(p, token)
  }

  /** What a caller gathers that asks for the page of a token and then for every next one. */
  ghost function VolumesFrom(p: Pager<Cloud.VolumeEntry>, token: string): seq<ListedVolume>
    requires Partitions(p) && token in p.places
    decreases |p.listing| - p.places[token]
  {
    assert Serves(p, token);
    var answer := VolumesListed(Opened, Ok(p.pages[token])).value;
    if answer.next == "" then answer.items
    else
      assert Serves(p, answer.next);
      answer.items + VolumesFrom(p, answer.next)
  }

  /** A provider of snapshots serves a listing for each filter. */
  type Shelf = map<map<string, string>, Pager<Cloud.SnapshotEntry>>

  function PageFor(shelf: Shelf, token: string, filter: map<string, string>): SnapshotPage {
    if filter in shelf && token in shelf[filter].pages then Ok(shelf[filter].pages[token]) else Err(StartNotFound)
  }

  /** What a caller gathers that follows the tokens with one source volume, or none. */
  ghost function SnapshotsFrom(shelf: Shelf, a: Account, cfg: Config, sourceVolumeID: string, env: Env, token: string)
    : seq<SnapshotResponse>
    requires FilterOf(sourceVolumeID) in shelf && Partitions(shelf[FilterOf(sourceVolumeID)])
    requires token in shelf[FilterOf(sourceVolumeID)].places && env.session == Opened
    decreases var p := shelf[FilterOf(sourceVolumeID)]; |p.listing| - p.places[token]
  {
    var p := shelf[FilterOf(sourceVolumeID)];
    assert Serves(p, token);
    NoHandleIsEmpty();
    var answer := SnapshotsListed(a, cfg, "", sourceVolumeID, env, filter => PageFor(shelf, token, filter)).value;
    if answer.next == "" then answer.items
    else
      assert Serves(p, answer.next);
      answer.items + SnapshotsFrom(shelf, a, cfg, sourceVolumeID, env, answer.next)
  }

  lemma NoHandleIsEmpty()
    ensures ParseHandle("").snapshotID == ""
  {
    BareExactlyWhenFewColons("");
  }

  lemma RestSplits<T>(p: Pager<T>, token: string)
    requires Serves(p, token) && p.pages[token].next != ""
    requires p.places[p.pages[token].next] <= |p.listing|
    ensures p.listing[p.places[token]..]
            == p.pages[token].items + p.listing[p.places[p.pages[token].next]..]
  {
  }

  /** Following the tokens from any page on gathers the rest of the listing, filtered. */
  lemma {:induction false} FollowingListsTheRest(p: Pager<Cloud.VolumeEntry>, token: string)
    requires Partitions(p) && token in p.places
    ensures p.places[token] <= |p.listing|
    ensures VolumesFrom(p, token) == Sized(p.listing[p.places[token]..])
    decreases |p.listing| - p.places[token]
  {
    assert Serves(p, token);
    var page := p.pages[token];
    var rest := p.listing[p.places[token]..];
    if page.next == "" {
      assert rest == page.items;
    } else {
      assert Serves(p, page.next);
      FollowingListsTheRest(p, page.next);
      RestSplits(p, token);
      SizedAppend(page.items, p.listing[p.places[page.next]..]);
    }
  }

  /** From the first page on, everything with a capacity is listed, in order, once each. */
  lemma ListVolumesIsComplete(p: Pager<Cloud.VolumeEntry>)
    requires Partitions(p)
    ensures VolumesFrom(p, "") == Sized(p.listing)
    ensures ListsInOrder(p.listing, SizedPlaces(p.listing), VolumesFrom(p, ""))
  {
    FollowingListsTheRest(p, "");
    assert p.listing[0..] == p.listing;
    SizedIsOrderedFilter(p.listing);
  }

  lemma AnswersAppend(front: seq<Cloud.SnapshotEntry>, back: seq<Cloud.SnapshotEntry>)
    ensures Answers(front + back) == Answers(front) + Answers(back)
  {
  }

  /** Following the tokens with a filter gathers the rest of that filter's listing. */
  lemma {:induction false} ListSnapshotsIsComplete(shelf: Shelf, a: Account, cfg: Config, sourceVolumeID: string,
                                                   env: Env, token: string)
    requires FilterOf(sourceVolumeID) in shelf && Partitions(shelf[FilterOf(sourceVolumeID)])
    requires token in shelf[FilterOf(sourceVolumeID)].places && env.session == Opened
    ensures var p := shelf[FilterOf(sourceVolumeID)];
            && p.places[token] <= |p.listing|
            && SnapshotsFrom(shelf, a, cfg, sourceVolumeID, env, token) == Answers(p.listing[p.places[token]..])
    decreases var p := shelf[FilterOf(sourceVolumeID)]; |p.listing| - p.places[token]
  {
    var p := shelf[FilterOf(sourceVolumeID)];
    assert Serves(p, token);
    NoHandleIsEmpty();
    var page := p.pages[token];
    var rest := p.listing[p.places[token]..];
    if page.next == "" {
      assert rest == page.items;
    } else {
      assert Serves(p, page.next);
      ListSnapshotsIsComplete(shelf, a, cfg, sourceVolumeID, env, page.next);
      RestSplits(p, token);
      AnswersAppend(page.items, p.listing[p.places[page.next]..]);
    }
  }

  /** A provider that keeps to the filter: asked for a source volume it lists exactly that
      volume's snapshots, and asked for none it lists them all. */
  ghost predicate KeepsToFilter(shelf: Shelf, snapshots: seq<Cloud.SnapshotEntry>, sourceVolumeID: string) {
    if sourceVolumeID == "" then ListsWhere(shelf, map[], snapshots, _ => true)
    else ListsWhere(shelf, map["source_volume.id" := sourceVolumeID], snapshots,
                    (s: Cloud.SnapshotEntry) => s.body.volumeID == sourceVolumeID)
  }

  ghost predicate ListsWhere(shelf: Shelf, filter: map<string, string>, snapshots: seq<Cloud.SnapshotEntry>,
                             wanted: Cloud.SnapshotEntry -> bool) {
    && filter in shelf && Partitions(shelf[filter])
    && forall s :: s in shelf[filter].listing <==> s in snapshots && wanted(s)
  }

  /** Then a caller that names a source volume is answered about exactly its snapshots, and
      one that names none about all. */
  lemma ListSnapshotsOfVolume(shelf: Shelf, a: Account, cfg: Config, sourceVolumeID: string, env: Env)
    requires KeepsToFilter(shelf, a.snapshots, sourceVolumeID) && env.session == Opened
    ensures forall r :: r in SnapshotsFrom(shelf, a, cfg, sourceVolumeID, env, "")
              <==> exists s :: s in a.snapshots && (sourceVolumeID == "" || s.body.volumeID == sourceVolumeID)
                               && r == SnapshotResponse(s.body.crn, s.body.volumeID, s.body.size, s.body.ready)
  {
    var p := shelf[FilterOf(sourceVolumeID)];
    ListSnapshotsIsComplete(shelf, a, cfg, sourceVolumeID, env, "");
    assert p.listing[0..] == p.listing;
    forall s | s in p.listing
      ensures SnapshotAnswer(s) in Answers(p.listing)
    {
      var k: nat :| k < |p.listing| && p.listing[k] == s;
      assert Answers(p.listing)[k] == SnapshotAnswer(s);
    }
    forall r | r in Answers(p.listing)
      ensures exists s :: s in p.listing && r == SnapshotAnswer(s)
    {
      var k: nat :| k < |Answers(p.listing)| && Answers(p.listing)[k] == r;
      assert p.listing[k] in p.listing;
    }
  }

  // ---- By handle --------------------------------------------------------------------------------

  type Asked = map<string, string> -> SnapshotPage

  /** Whatever else is asked for, any text that names a snapshot of the own account lists
      exactly that snapshot, and nothing further. */
  lemma OwnNameListsIt(a: Account, cfg: Config, s: Cloud.SnapshotEntry, handle: string, sourceVolumeID: string,
                       env: Env, ask: Asked)
    requires WellFormed(a) && s in a.snapshots && s.id != "" && ParseHandle(handle) == Handle(s.id, cfg.accountID)
    requires env.session == Opened && env.lookup.Accurate?
    ensures SnapshotsListed(a, cfg, handle, sourceVolumeID, env, ask)
            == Ok(Page([SnapshotResponse(s.body.crn, s.body.volumeID, s.body.size, s.body.ready)], ""))
  {
    IdFindsIt(a.snapshots, s);
  }

  /** In particular its handle does. */
  lemma HandleListsIt(a: Account, cfg: Config, s: Cloud.SnapshotEntry, sourceVolumeID: string, env: Env, ask: Asked)
    requires WellFormed(a) && s in a.snapshots && WellNamed(s, cfg.accountID) && s.id != ""
    requires env.session == Opened && env.lookup.Accurate?
    ensures SnapshotsListed(a, cfg, s.body.crn, sourceVolumeID, env, ask)
            == Ok(Page([SnapshotResponse(s.body.crn, s.body.volumeID, s.body.size, s.body.ready)], ""))
  {
    HandleNamesIt(s, cfg.accountID);
    OwnNameListsIt(a, cfg, s, s.body.crn, sourceVolumeID, env, ask);
  }

  /** A handle of the own account that names no snapshot there lists none, and neither does
      one whose lookup fails. */
  lemma AbsentIsNotListed(a: Account, cfg: Config, handle: string, sourceVolumeID: string, env: Env, ask: Asked)
    requires ParseHandle(handle).snapshotID != "" && ParseHandle(handle).accountID == cfg.accountID
    requires env.session == Opened
    requires env.lookup.Misreports? || !HasId(a.snapshots, ParseHandle(handle).snapshotID)
    ensures SnapshotsListed(a, cfg, handle, sourceVolumeID, env, ask) == Ok(Page([], ""))
  {
  }

  /** The answer does not depend on what the account holds. */
  ghost predicate AnsweredBlindly(cfg: Config, handle: string, sourceVolumeID: string, env: Env, ask: Asked) {
    forall a, b: Account ::
      SnapshotsListed(a, cfg, handle, sourceVolumeID, env, ask)
      == SnapshotsListed(b, cfg, handle, sourceVolumeID, env, ask)
  }

  /** With a session and a truthful lookup, a handle is answered without looking at the
      account exactly when it names another account than the driver's; it is then echoed. */
  lemma AnsweredBlindlyExactlyWhen(cfg: Config, handle: string, sourceVolumeID: string, env: Env, ask: Asked)
    requires ParseHandle(handle).snapshotID != "" && env.session == Opened && env.lookup.Accurate?
    ensures AnsweredBlindly(cfg, handle, sourceVolumeID, env, ask) <==> cfg.accountID != ParseHandle(handle).accountID
    ensures cfg.accountID != ParseHandle(handle).accountID ==>
              forall a :: SnapshotsListed(a, cfg, handle, sourceVolumeID, env, ask)
                          == Ok(Page([SnapshotResponse(handle, "", 0, true)], ""))
  {
    var id := ParseHandle(handle).snapshotID;
    var some := Cloud.EMPTY_ACCOUNT.(snapshots := [Entry(id, "", Cloud.SnapshotBody("", "", 0, true))]);
    assert some.snapshots[0].id == id;
    if cfg.accountID == ParseHandle(handle).accountID {
      AbsentIsNotListed(Cloud.EMPTY_ACCOUNT, cfg, handle, sourceVolumeID, env, ask);
      assert some.snapshots[0] in some.snapshots;
      assert ById(some.snapshots, id).Some?;
      assert |SnapshotsListed(some, cfg, handle, sourceVolumeID, env, ask).value.items| == 1;
    }
  }

  /** So a bare id is looked up exactly by a driver that does not know its account. */
  lemma BareIdIsEchoedExactlyWhen(cfg: Config, id: string, sourceVolumeID: string, env: Env, ask: Asked)
    requires id != "" && Occurrences(id, ':') < 9 && env.session == Opened && env.lookup.Accurate?
    ensures AnsweredBlindly(cfg, id, sourceVolumeID, env, ask) <==> cfg.accountID != ""
  {
    BareExactlyWhenFewColons(id);
    AnsweredBlindlyExactlyWhen(cfg, id, sourceVolumeID, env, ask);
  }

  /** And a resource name exactly by a driver of the account it names. */
  lemma ResourceNameIsEchoedExactlyWhen(cfg: Config, segments: seq<string>, id: string, accountID: string,
                                        sourceVolumeID: string, env: Env, ask: Asked)
    requires NamesSnapshot(segments, id, accountID) && id != "" && env.session == Opened && env.lookup.Accurate?
    ensures AnsweredBlindly(cfg, Join(segments, ':'), sourceVolumeID, env, ask) <==> cfg.accountID != accountID
  {
    HandleRoundTrip(segments, id, accountID);
    AnsweredBlindlyExactlyWhen(cfg, Join(segments, ':'), sourceVolumeID, env, ask);
  }

  /** Concretely: a snapshot that does not exist is listed as ready. */
  lemma AbsentSnapshotIsListed(ask: Asked)
    ensures SnapshotsListed(Cloud.EMPTY_ACCOUNT, CONFIG, "s1", "", Acting(Fine), ask)
            == Ok(Page([SnapshotResponse("s1", "", 0, true)], ""))
    ensures !HasId(Cloud.EMPTY_ACCOUNT.snapshots, "s1")
  {
    assert Occurrences("s1", ':') == 0 by {
      assert "s1"[1..] == "1" && "1"[1..] == "";
    }
    BareExactlyWhenFewColons("s1");
  }

  // ---- Errors -------------------------------------------------------------------------------------

  /** A listing of volumes fails exactly with its session or its page, each in its own way. */
  lemma ListVolumesErrors(session: Session, page: VolumePage)
    ensures VolumesListed(session, page).Ok? <==> session == Opened && page.Ok?
    ensures session != Opened ==> VolumesListed(session, page) == Err(InternalError)
    ensures session == Opened && page == Err(LimitInvalid) ==>
              VolumesListed(session, page) == Err(InvalidParameters)
    ensures session == Opened && page == Err(StartNotFound) ==>
              VolumesListed(session, page) == Err(StartVolumeIDNotFound)
    ensures session == Opened && page == Err(OtherFailure) ==> VolumesListed(session, page) == Err(BackendError)
  {
  }

  /** A listing of snapshots fails exactly with its session, or with its page if no snapshot
      is named. */
  lemma ListSnapshotsErrors(a: Account, cfg: Config, handle: string, sourceVolumeID: string, env: Env, ask: Asked)
    ensures var listed := SnapshotsListed(a, cfg, handle, sourceVolumeID, env, ask);
            && (env.session == Unreachable ==> listed == Err(EndpointNotReachable))
            && (env.session == TimedOut ==> listed == Err(Timeout))
            && (env.session == Denied ==> listed == Err(InternalError))
            && (env.session == Opened && ParseHandle(handle).snapshotID != "" ==> listed.Ok?)
    ensures var listed := SnapshotsListed(a, cfg, handle, sourceVolumeID, env, ask);
            var page := ask(if sourceVolumeID == "" then map[] else map["source_volume.id" := sourceVolumeID]);
            env.session == Opened && ParseHandle(handle).snapshotID == "" ==>
              && (page.Ok? ==> listed.Ok? && listed.value.next == page.value.next)
              && (page == Err(LimitInvalid) ==> listed == Err(InvalidParameters))
              && (page == Err(StartNotFound) ==> listed == Err(StartSnapshotIDNotFound))
              && (page == Err(OtherFailure) ==> listed == Err(ListSnapshotsFailed))
  {
  }
}
